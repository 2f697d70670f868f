/**
  Translation of an Android key code into the 16-bit key code a GameStream
  host expects: a Windows virtual-key (VK) byte behind the fixed prefix 0x80,
  or 0 when the key has no counterpart.

  The translation picks the VK byte in two stages. Four range rules map the
  digit, letter, numeric-keypad-digit and function keys linearly; every other
  key goes through a switch over about fifty single key codes, whose default
  branch gives up. The chosen byte is then combined with the prefix and cast
  to a Java `short`.
*/
module KeyboardTranslator {
  import opened KeyEvent
  import opened JavaInt

  datatype Option<T> = None | Some(value: T)

  /** The host's prefix for every key code. */
  const KEY_PREFIX: Short := 0x80

  // Windows virtual-key codes that the translation reads by name.
  const VK_0: int := 48
  const VK_9: int := 57
  const VK_A: int := 65
  const VK_Z: int := 90
  const VK_NUMPAD0: int := 96
  const VK_CAPS_LOCK: int := 20
  const VK_CLEAR: int := 12
  const VK_BACK_SPACE: int := 8
  const VK_ESCAPE: int := 27
  const VK_F1: int := 112
  const VK_END: int := 35
  const VK_HOME: int := 36
  const VK_NUM_LOCK: int := 144
  const VK_PAGE_UP: int := 33
  const VK_PAGE_DOWN: int := 34
  const VK_SCROLL_LOCK: int := 145
  const VK_SPACE: int := 32
  const VK_PRINTSCREEN: int := 154
  const VK_TAB: int := 9
  const VK_LEFT: int := 37
  const VK_RIGHT: int := 39
  const VK_UP: int := 38
  const VK_DOWN: int := 40
  const VK_BACK_QUOTE: int := 192
  const VK_PAUSE: int := 19

  /**
    The switch over single key codes, case by case in source order: the byte
    its branch assigns, or None for the default branch. Every branch assigns
    a byte, and no case label lies in one of the four ranges, so the range
    rules never hide a case.
  */
  function SwitchByte(keycode: int): (r: Option<int>)
    ensures r.Some? ==> 0 <= r.value < 0x100
    ensures r.Some? ==> !InSomeRange(keycode)
  {
    if keycode == KEYCODE_ALT_LEFT then Some(0xA4)
    else if keycode == KEYCODE_ALT_RIGHT then Some(0xA5)
    else if keycode == KEYCODE_TV then Some(0x5b)
    else if keycode == KEYCODE_BACKSLASH then Some(0xdc)
    else if keycode == KEYCODE_CAPS_LOCK then Some(VK_CAPS_LOCK)
    else if keycode == KEYCODE_CLEAR then Some(VK_CLEAR)
    else if keycode == KEYCODE_COMMA then Some(0xbc)
    else if keycode == KEYCODE_CTRL_LEFT then Some(0xA2)
    else if keycode == KEYCODE_CTRL_RIGHT then Some(0xA3)
    else if keycode == KEYCODE_DEL then Some(VK_BACK_SPACE)
    else if keycode == KEYCODE_ENTER then Some(0x0d)
    else if keycode == KEYCODE_PLUS || keycode == KEYCODE_EQUALS then Some(0xbb)
    else if keycode == KEYCODE_ESCAPE then Some(VK_ESCAPE)
    else if keycode == KEYCODE_FORWARD_DEL then Some(0x2e)
    else if keycode == KEYCODE_INSERT then Some(0x2d)
    else if keycode == KEYCODE_LEFT_BRACKET then Some(0xdb)
    else if keycode == KEYCODE_META_LEFT then Some(0x5b)
    else if keycode == KEYCODE_META_RIGHT then Some(0x5c)
    else if keycode == KEYCODE_MINUS then Some(0xbd)
    else if keycode == KEYCODE_MOVE_END then Some(VK_END)
    else if keycode == KEYCODE_MOVE_HOME then Some(VK_HOME)
    else if keycode == KEYCODE_NUM_LOCK then Some(VK_NUM_LOCK)
    else if keycode == KEYCODE_PAGE_DOWN then Some(VK_PAGE_DOWN)
    else if keycode == KEYCODE_PAGE_UP then Some(VK_PAGE_UP)
    else if keycode == KEYCODE_PERIOD then Some(0xbe)
    else if keycode == KEYCODE_RIGHT_BRACKET then Some(0xdd)
    else if keycode == KEYCODE_SCROLL_LOCK then Some(VK_SCROLL_LOCK)
    else if keycode == KEYCODE_SEMICOLON then Some(0xba)
    else if keycode == KEYCODE_SHIFT_LEFT then Some(0xA0)
    else if keycode == KEYCODE_SHIFT_RIGHT then Some(0xA1)
    else if keycode == KEYCODE_SLASH then Some(0xbf)
    else if keycode == KEYCODE_SPACE then Some(VK_SPACE)
    else if keycode == KEYCODE_SYSRQ then Some(VK_PRINTSCREEN)
    else if keycode == KEYCODE_DVR then Some(VK_TAB)
    else if keycode == KEYCODE_DPAD_LEFT then Some(VK_LEFT)
    else if keycode == KEYCODE_DPAD_RIGHT then Some(VK_RIGHT)
    else if keycode == KEYCODE_DPAD_UP then Some(VK_UP)
    else if keycode == KEYCODE_DPAD_DOWN then Some(VK_DOWN)
    else if keycode == KEYCODE_GRAVE then Some(VK_BACK_QUOTE)
    else if keycode == KEYCODE_APOSTROPHE then Some(0xde)
    else if keycode == KEYCODE_BREAK then Some(VK_PAUSE)
    else if keycode == KEYCODE_NUMPAD_DIVIDE then Some(0x6F)
    else if keycode == KEYCODE_NUMPAD_MULTIPLY then Some(0x6A)
    else if keycode == KEYCODE_NUMPAD_SUBTRACT then Some(0x6D)
    else if keycode == KEYCODE_NUMPAD_ADD then Some(0x6B)
    else if keycode == KEYCODE_NUMPAD_DOT then Some(0x6E)
    else if keycode == KEYCODE_AT then Some(2 + VK_0)
    else if keycode == KEYCODE_POUND then Some(3 + VK_0)
    else if keycode == KEYCODE_STAR then Some(8 + VK_0)
    else None
  }

  /**
    The value the translation assigns to its local `translated`: the VK byte
    chosen for `keycode`, or None when the switch takes its default branch.
  */
  function VirtualKey(keycode: int): (r: Option<int>)
    ensures r.Some? ==> 0 <= r.value < 0x100
  {
    if KEYCODE_0 <= keycode <= KEYCODE_9 then Some((keycode - KEYCODE_0) + VK_0)
    else if KEYCODE_A <= keycode <= KEYCODE_Z then Some((keycode - KEYCODE_A) + VK_A)
    else if KEYCODE_NUMPAD_0 <= keycode <= KEYCODE_NUMPAD_9 then Some((keycode - KEYCODE_NUMPAD_0) + VK_NUMPAD0)
    else if KEYCODE_F1 <= keycode <= KEYCODE_F12 then Some((keycode - KEYCODE_F1) + VK_F1)
    else SwitchByte(keycode)
  }

  /**
    The prefix shifted into the high byte leaves the low byte free for the VK
    byte, and the 16-bit result, read as a `short`, is negative.
  */
  lemma PrefixedByte(t: int)
    requires 0 <= t < 0x100
    ensures Or(ShiftLeft(KEY_PREFIX as nat, 8), t) == 0x8000 + t
    ensures NarrowToShort(0x8000 + t) as int == t - 0x8000
  {
    assert Or(ShiftLeft(KEY_PREFIX as nat, 8), t) == 0x8000 + t by {
      assert ShiftLeft(1, 8) == 0x100;
      assert ShiftLeft(KEY_PREFIX as nat, 8) == 0x8000;
      OrOfDisjointBits(KEY_PREFIX as nat, t, 8);
    }
  }

  /**
    Whether a shift press must be synthesized around `keycode`. Only keys the
    switch handles one by one need it, never a key of the four ranges.
  */
  predicate NeedsShift(keycode: int): (b: bool)
    ensures b ==> SwitchByte(keycode).Some? && !InSomeRange(keycode)
  {
    keycode == KEYCODE_AT || keycode == KEYCODE_POUND || keycode == KEYCODE_PLUS || keycode == KEYCODE_STAR
  }

  /**
    The host key code for `keycode`: `(short) ((KEY_PREFIX << 8) | translated)`
    for a key with a VK byte, the sentinel 0 otherwise.
  */
  function Translate(keycode: int): (r: Short)
    ensures r == 0 <==> VirtualKey(keycode).None?
    ensures VirtualKey(keycode).Some? ==> r as int == VirtualKey(keycode).value - 0x8000
  {
    match VirtualKey(keycode)
    case None => 0
    case Some(translated) =>
      PrefixedByte(translated);
      NarrowToShort(Or(ShiftLeft(KEY_PREFIX as nat, 8), translated))
  }
}
