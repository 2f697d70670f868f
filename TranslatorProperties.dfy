/**
  What the keyboard translation promises its callers and the host: the four
  linear range rules, the prefix on every mapped code, the sentinel 0 for
  every other key, the table entries callers depend on, and the agreement
  between the shift predicate and the translation of the shifted symbols.
*/
module TranslatorProperties {
  import opened KeyEvent
  import opened JavaInt
  import opened KeyboardTranslator

  /**
    A decoder for translated key codes, the left inverse of the encoding:
    0 means "no key", anything else carries the VK byte in its low 8 bits.
  */
  function HostVirtualKey(code: Short): (r: Option<int>)
    ensures r.Some? ==> 0 <= r.value < 0x100
  {
    if code == 0 then None else Some(Unsigned16(code) % 0x100)
  }

  /**
    A mapped key's code is the VK byte behind the prefix, read two ways: as
    the 16 bits `0x80` then the byte, equal to `(KEY_PREFIX << 8) | t`, and
    as the negative Java `short` `t - 0x8000`.
  */
  lemma MappedCodeCarriesPrefix(keycode: int)
    requires VirtualKey(keycode).Some?
    ensures var t := VirtualKey(keycode).value;
      && Unsigned16(Translate(keycode)) == Or(ShiftLeft(KEY_PREFIX as nat, 8), t) == 0x8000 + t
      && Unsigned16(Translate(keycode)) / 0x100 == 0x80
      && Unsigned16(Translate(keycode)) % 0x100 == t
      && Translate(keycode) as int == t - 0x8000
      && Translate(keycode) < 0
  {
    PrefixedByte(VirtualKey(keycode).value);
  }

  /** The host recovers exactly the VK byte chosen, and "no key" for the sentinel. */
  lemma HostRecoversVirtualKey(keycode: int)
    ensures HostVirtualKey(Translate(keycode)) == VirtualKey(keycode)
  {
    if VirtualKey(keycode).Some? {
      MappedCodeCarriesPrefix(keycode);
    }
  }

  /** The sentinel is returned exactly for keys outside the ranges with no case in the switch. */
  lemma SentinelExactlyForUnknownKeys(keycode: int)
    ensures Translate(keycode) == 0 <==> !InSomeRange(keycode) && SwitchByte(keycode).None?
  {
  }

  /** The sentinel never collides with the code of a mapped key. */
  lemma SentinelNeverCollides(unknown: int, known: int)
    requires VirtualKey(unknown).None? && VirtualKey(known).Some?
    ensures Translate(unknown) == 0 != Translate(known)
  {
  }

  /** The digit keys map onto VK '0'..'9' in order. */
  lemma DigitKeysMapLinearly(keycode: int)
    requires IsDigitKey(keycode)
    ensures Unsigned16(Translate(keycode)) == 0x8000 + VK_0 + (keycode - KEYCODE_0)
    ensures VK_0 <= Unsigned16(Translate(keycode)) % 0x100 <= VK_9
  {
    MappedCodeCarriesPrefix(keycode);
  }

  /** The letter keys map onto VK 'A'..'Z' in order. */
  lemma LetterKeysMapLinearly(keycode: int)
    requires IsLetterKey(keycode)
    ensures Unsigned16(Translate(keycode)) == 0x8000 + VK_A + (keycode - KEYCODE_A)
    ensures VK_A <= Unsigned16(Translate(keycode)) % 0x100 <= VK_Z
  {
    MappedCodeCarriesPrefix(keycode);
  }

  /** The numeric keypad digits map onto VK_NUMPAD0..VK_NUMPAD9 in order. */
  lemma NumpadDigitKeysMapLinearly(keycode: int)
    requires IsNumpadDigitKey(keycode)
    ensures Unsigned16(Translate(keycode)) == 0x8000 + VK_NUMPAD0 + (keycode - KEYCODE_NUMPAD_0)
    ensures VK_NUMPAD0 <= Unsigned16(Translate(keycode)) % 0x100 <= VK_NUMPAD0 + 9
  {
    MappedCodeCarriesPrefix(keycode);
  }

  /** The function keys map onto VK_F1..VK_F12 in order. */
  lemma FunctionKeysMapLinearly(keycode: int)
    requires IsFunctionKey(keycode)
    ensures Unsigned16(Translate(keycode)) == 0x8000 + VK_F1 + (keycode - KEYCODE_F1)
    ensures VK_F1 <= Unsigned16(Translate(keycode)) % 0x100 <= VK_F1 + 11
  {
    MappedCodeCarriesPrefix(keycode);
  }

  /** Each range rule is onto its VK block: every byte of the block is produced by a key of the range. */
  lemma RangesCoverTheirBlocks(vk: int)
    ensures VK_0 <= vk <= VK_9 ==> exists k :: IsDigitKey(k) && VirtualKey(k) == Some(vk)
    ensures VK_A <= vk <= VK_Z ==> exists k :: IsLetterKey(k) && VirtualKey(k) == Some(vk)
    ensures VK_NUMPAD0 <= vk <= VK_NUMPAD0 + 9 ==> exists k :: IsNumpadDigitKey(k) && VirtualKey(k) == Some(vk)
    ensures VK_F1 <= vk <= VK_F1 + 11 ==> exists k :: IsFunctionKey(k) && VirtualKey(k) == Some(vk)
  {
    if VK_0 <= vk <= VK_9 {
      assert VirtualKey(KEYCODE_0 + (vk - VK_0)) == Some(vk);
    }
    if VK_A <= vk <= VK_Z {
      assert VirtualKey(KEYCODE_A + (vk - VK_A)) == Some(vk);
    }
    if VK_NUMPAD0 <= vk <= VK_NUMPAD0 + 9 {
      assert VirtualKey(KEYCODE_NUMPAD_0 + (vk - VK_NUMPAD0)) == Some(vk);
    }
    if VK_F1 <= vk <= VK_F1 + 11 {
      assert VirtualKey(KEYCODE_F1 + (vk - VK_F1)) == Some(vk);
    }
  }

  /**
    Shift is needed for four keys only, all of them cases of the switch, and
    never for a key of the four ranges.
  */
  lemma ShiftedKeysAreSwitchCases(keycode: int)
    ensures NeedsShift(keycode) ==> SwitchByte(keycode).Some? && !InSomeRange(keycode)
    ensures InSomeRange(keycode) ==> !NeedsShift(keycode)
  {
  }

  /** The switch's bytes for the shifted symbols and for '='. */
  lemma ShiftedSymbolBytes()
    ensures VirtualKey(KEYCODE_AT) == Some(50)
    ensures VirtualKey(KEYCODE_POUND) == Some(51)
    ensures VirtualKey(KEYCODE_STAR) == Some(56)
    ensures VirtualKey(KEYCODE_PLUS) == Some(0xbb)
    ensures VirtualKey(KEYCODE_EQUALS) == Some(0xbb)
  {
  }

  /**
    Each key that needs shift is sent as the unshifted key that carries the
    same symbol on a US layout: '@' as '2', '#' as '3', '*' as '8' and '+'
    as '='.
  */
  lemma ShiftedSymbolsShareBaseKeys()
    ensures Translate(KEYCODE_AT) == Translate(KEYCODE_2) && Unsigned16(Translate(KEYCODE_AT)) % 0x100 == 50
    ensures Translate(KEYCODE_POUND) == Translate(KEYCODE_3) && Unsigned16(Translate(KEYCODE_POUND)) % 0x100 == 51
    ensures Translate(KEYCODE_STAR) == Translate(KEYCODE_8) && Unsigned16(Translate(KEYCODE_STAR)) % 0x100 == 56
    ensures Translate(KEYCODE_PLUS) == Translate(KEYCODE_EQUALS) && Unsigned16(Translate(KEYCODE_PLUS)) % 0x100 == 0xbb
  {
    ShiftedSymbolBytes();
    SameByteSameCode(KEYCODE_AT, KEYCODE_2, 50);
    SameByteSameCode(KEYCODE_POUND, KEYCODE_3, 51);
    SameByteSameCode(KEYCODE_STAR, KEYCODE_8, 56);
    SameByteSameCode(KEYCODE_PLUS, KEYCODE_EQUALS, 0xbb);
  }

  /** Two keys given the same VK byte are sent with the same code, whose low byte is that byte. */
  lemma SameByteSameCode(a: int, b: int, vk: int)
    requires VirtualKey(a) == Some(vk) && VirtualKey(b) == Some(vk)
    ensures Translate(a) == Translate(b)
    ensures Unsigned16(Translate(a)) % 0x100 == vk
  {
    MappedCodeCarriesPrefix(a);
  }

  /**
    Every key that needs shift has a mapped code, and some other key that
    needs no shift is sent with the very same code.
  */
  lemma ShiftedKeysHaveUnshiftedTwin(keycode: int)
    requires NeedsShift(keycode)
    ensures Translate(keycode) != 0
    ensures exists base :: base != keycode && !NeedsShift(base) && Translate(base) == Translate(keycode)
  {
    ShiftedSymbolBytes();
    var base :=
      if keycode == KEYCODE_AT then KEYCODE_2
      else if keycode == KEYCODE_POUND then KEYCODE_3
      else if keycode == KEYCODE_STAR then KEYCODE_8
      else KEYCODE_EQUALS;
    assert VirtualKey(base) == VirtualKey(keycode);
    assert base != keycode && !NeedsShift(base) && Translate(base) == Translate(keycode);
  }

  /** The table is not one-to-one: two pairs of keys share a code. */
  lemma TableIsNotInjective()
    ensures KEYCODE_TV != KEYCODE_META_LEFT && Translate(KEYCODE_TV) == Translate(KEYCODE_META_LEFT)
    ensures Unsigned16(Translate(KEYCODE_TV)) % 0x100 == 0x5b
    ensures KEYCODE_PLUS != KEYCODE_EQUALS && Translate(KEYCODE_PLUS) == Translate(KEYCODE_EQUALS)
    ensures Unsigned16(Translate(KEYCODE_PLUS)) % 0x100 == 0xbb
  {
    SameByteSameCode(KEYCODE_TV, KEYCODE_META_LEFT, 0x5b);
    SameByteSameCode(KEYCODE_PLUS, KEYCODE_EQUALS, 0xbb);
  }

  /** Table entries that callers depend on, byte for byte. */
  lemma NamedEntries()
    ensures VirtualKey(KEYCODE_DPAD_LEFT) == Some(37)
    ensures VirtualKey(KEYCODE_DPAD_UP) == Some(38)
    ensures VirtualKey(KEYCODE_DPAD_RIGHT) == Some(39)
    ensures VirtualKey(KEYCODE_DPAD_DOWN) == Some(40)
    ensures VirtualKey(KEYCODE_ESCAPE) == Some(27)
    ensures VirtualKey(KEYCODE_DEL) == Some(8)
    ensures VirtualKey(KEYCODE_ENTER) == Some(0x0d)
    ensures VirtualKey(KEYCODE_DVR) == Some(VK_TAB)
    ensures VirtualKey(KEYCODE_BACKSLASH) == Some(0xdc)
  {
  }

  /** Worked examples: '5', 'A', left arrow and escape. */
  lemma Examples()
    ensures Unsigned16(Translate(KEYCODE_5)) == Or(ShiftLeft(KEY_PREFIX as nat, 8), 53)
    ensures Unsigned16(Translate(KEYCODE_A)) == Or(ShiftLeft(KEY_PREFIX as nat, 8), 65)
    ensures Unsigned16(Translate(KEYCODE_DPAD_LEFT)) == Or(ShiftLeft(KEY_PREFIX as nat, 8), 37)
    ensures Unsigned16(Translate(KEYCODE_ESCAPE)) == Or(ShiftLeft(KEY_PREFIX as nat, 8), 27)
  {
    assert VirtualKey(KEYCODE_5) == Some(53);
    assert VirtualKey(KEYCODE_A) == Some(65);
    assert VirtualKey(KEYCODE_DPAD_LEFT) == Some(37);
    assert VirtualKey(KEYCODE_ESCAPE) == Some(27);
    MappedCodeCarriesPrefix(KEYCODE_5);
    MappedCodeCarriesPrefix(KEYCODE_A);
    MappedCodeCarriesPrefix(KEYCODE_DPAD_LEFT);
    MappedCodeCarriesPrefix(KEYCODE_ESCAPE);
  }

  /**
    Keys without a mapping get the sentinel: -1, which is no Android key
    code, and the Tab key, which has no case in the switch.
  */
  lemma UnmappedExamples()
    ensures Translate(-1) == 0
    ensures Translate(KEYCODE_TAB) == 0
  {
    assert VirtualKey(-1) == None;
    assert VirtualKey(KEYCODE_TAB) == None;
  }
}
