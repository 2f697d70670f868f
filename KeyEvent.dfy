/**
  The Android key codes (android.view.KeyEvent.KEYCODE_*) that the keyboard
  translator reads, with their values from the Android API, and a few more
  (KEYCODE_2, 3, 5, 8 and TAB) declared for the lemmas about it. Only the numeric
  constants are modelled; the KeyEvent class itself belongs to the platform.

  The translator's range checks rely on four facts about these values: the
  digit, letter, numeric-keypad-digit and function-key codes each form one
  contiguous block, the four blocks are pairwise disjoint, and no key code
  that the translator handles one by one lies inside any block. The
  predicates below state those facts, and the lemmas prove them of the
  declared values.
*/
module KeyEvent {

  const KEYCODE_0: int := 7
  const KEYCODE_2: int := 9
  const KEYCODE_3: int := 10
  const KEYCODE_5: int := 12
  const KEYCODE_8: int := 15
  const KEYCODE_9: int := 16
  const KEYCODE_STAR: int := 17
  const KEYCODE_POUND: int := 18
  const KEYCODE_DPAD_UP: int := 19
  const KEYCODE_DPAD_DOWN: int := 20
  const KEYCODE_DPAD_LEFT: int := 21
  const KEYCODE_DPAD_RIGHT: int := 22
  const KEYCODE_CLEAR: int := 28
  const KEYCODE_A: int := 29
  const KEYCODE_Z: int := 54
  const KEYCODE_COMMA: int := 55
  const KEYCODE_PERIOD: int := 56
  const KEYCODE_ALT_LEFT: int := 57
  const KEYCODE_ALT_RIGHT: int := 58
  const KEYCODE_SHIFT_LEFT: int := 59
  const KEYCODE_SHIFT_RIGHT: int := 60
  const KEYCODE_TAB: int := 61
  const KEYCODE_SPACE: int := 62
  const KEYCODE_ENTER: int := 66
  const KEYCODE_DEL: int := 67
  const KEYCODE_GRAVE: int := 68
  const KEYCODE_MINUS: int := 69
  const KEYCODE_EQUALS: int := 70
  const KEYCODE_LEFT_BRACKET: int := 71
  const KEYCODE_RIGHT_BRACKET: int := 72
  const KEYCODE_BACKSLASH: int := 73
  const KEYCODE_SEMICOLON: int := 74
  const KEYCODE_APOSTROPHE: int := 75
  const KEYCODE_SLASH: int := 76
  const KEYCODE_AT: int := 77
  const KEYCODE_PLUS: int := 81
  const KEYCODE_PAGE_UP: int := 92
  const KEYCODE_PAGE_DOWN: int := 93
  const KEYCODE_ESCAPE: int := 111
  const KEYCODE_FORWARD_DEL: int := 112
  const KEYCODE_CTRL_LEFT: int := 113
  const KEYCODE_CTRL_RIGHT: int := 114
  const KEYCODE_CAPS_LOCK: int := 115
  const KEYCODE_SCROLL_LOCK: int := 116
  const KEYCODE_META_LEFT: int := 117
  const KEYCODE_META_RIGHT: int := 118
  const KEYCODE_SYSRQ: int := 120
  const KEYCODE_BREAK: int := 121
  const KEYCODE_MOVE_HOME: int := 122
  const KEYCODE_MOVE_END: int := 123
  const KEYCODE_INSERT: int := 124
  const KEYCODE_F1: int := 131
  const KEYCODE_F12: int := 142
  const KEYCODE_NUM_LOCK: int := 143
  const KEYCODE_NUMPAD_0: int := 144
  const KEYCODE_NUMPAD_9: int := 153
  const KEYCODE_NUMPAD_DIVIDE: int := 154
  const KEYCODE_NUMPAD_MULTIPLY: int := 155
  const KEYCODE_NUMPAD_SUBTRACT: int := 156
  const KEYCODE_NUMPAD_ADD: int := 157
  const KEYCODE_NUMPAD_DOT: int := 158
  const KEYCODE_TV: int := 170
  const KEYCODE_DVR: int := 173

  /** The digit keys '0'..'9'. */
  predicate IsDigitKey(keycode: int) {
    KEYCODE_0 <= keycode <= KEYCODE_9
  }

  /** The letter keys 'A'..'Z'. */
  predicate IsLetterKey(keycode: int) {
    KEYCODE_A <= keycode <= KEYCODE_Z
  }

  /** The numeric keypad digits 0..9. */
  predicate IsNumpadDigitKey(keycode: int) {
    KEYCODE_NUMPAD_0 <= keycode <= KEYCODE_NUMPAD_9
  }

  /** The function keys F1..F12. */
  predicate IsFunctionKey(keycode: int) {
    KEYCODE_F1 <= keycode <= KEYCODE_F12
  }

  /** A key code the translator maps by one of its four range rules. */
  predicate InSomeRange(keycode: int) {
    IsDigitKey(keycode) || IsLetterKey(keycode) || IsNumpadDigitKey(keycode) || IsFunctionKey(keycode)
  }

  /** Each block holds exactly as many codes as it has keys. */
  predicate RangesContiguous() {
    && KEYCODE_9 - KEYCODE_0 == 9
    && KEYCODE_Z - KEYCODE_A == 25
    && KEYCODE_NUMPAD_9 - KEYCODE_NUMPAD_0 == 9
    && KEYCODE_F12 - KEYCODE_F1 == 11
  }

  /** No key code lies in two of the blocks. */
  ghost predicate RangesDisjoint() {
    forall keycode: int ::
      && (IsDigitKey(keycode) ==> !IsLetterKey(keycode) && !IsNumpadDigitKey(keycode) && !IsFunctionKey(keycode))
      && (IsLetterKey(keycode) ==> !IsNumpadDigitKey(keycode) && !IsFunctionKey(keycode))
      && (IsNumpadDigitKey(keycode) ==> !IsFunctionKey(keycode))
  }

  lemma DeclaredRangesAreContiguousAndDisjoint()
    ensures RangesContiguous()
    ensures RangesDisjoint()
  {
  }
}
