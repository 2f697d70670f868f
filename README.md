# Keyboard translator model

A Dafny model of the keyboard translation in the Android GameStream client.
The translation turns an Android key code (`android.view.KeyEvent.KEYCODE_*`)
into the 16-bit key code the streaming host expects. That code is a Windows
virtual-key (VK) byte behind the fixed prefix `0x80`. A key with no
counterpart gets the sentinel 0. A companion predicate says which keys need a
synthesized shift press.

The translation chooses the VK byte in two stages:

- four range rules map the digit, letter, numeric-keypad-digit and function
  keys linearly onto their VK blocks;
- every other key goes through a switch over single key codes, whose default
  branch returns 0.

The chosen byte is then or-ed under `KEY_PREFIX << 8` and cast to a Java
`short`.

Modules:

- `KeyEvent` (KeyEvent.dfy) holds the Android key codes the translator reads,
  a few more declared for the lemmas (KEYCODE_2, 3, 5, 8 and TAB), and the
  facts about their blocks that the range rules rely on.
- `JavaInt` (JavaInt.dfy) holds the Java integer operations of the final
  expression: `<<`, `|` on non-negative `int`s, and the narrowing cast to
  `short`.
- `KeyboardTranslator` (KeyboardTranslator.dfy) holds the translator
  itself: its constants, the switch, `needsShift` and `translate`.
- `TranslatorProperties` (TranslatorProperties.dfy) holds what the
  translation promises, stated over all key codes.

The code is pure, so every operation is a function and every property is a
lemma.

## Model

| member | source | states |
|---|---|---|
| KeyEvent.DeclaredRangesAreContiguousAndDisjoint | app/src/main/java/com/limelight/binding/input/KeyboardTranslator.java:76-91 | the four key-code blocks used by the range rules each hold exactly as many codes as keys (10, 26, 10, 12) and no code lies in two blocks |
| KeyboardTranslator.SwitchByte | app/src/main/java/com/limelight/binding/input/KeyboardTranslator.java:93-296 | the switch over single key codes in source order, None on the default branch; every branch assigns a byte (0..255), and no case label lies in one of the four range blocks, so no case is hidden by a range rule |
| KeyboardTranslator.VirtualKey | app/src/main/java/com/limelight/binding/input/KeyboardTranslator.java:71-297 | the value assigned to `translated`, when the default branch is not taken, is always a byte 0..255 |
| KeyboardTranslator.PrefixedByte | app/src/main/java/com/limelight/binding/input/KeyboardTranslator.java:299 | `KEY_PREFIX << 8` or-ed with t equals `0x8000 + t` for a byte t, and its cast to `short` is the negative value `t - 0x8000` |
| KeyboardTranslator.NeedsShift | app/src/main/java/com/limelight/binding/input/KeyboardTranslator.java:51-63 | true exactly for AT, POUND, PLUS and STAR and false for every other int; a key that needs shift is a switch case outside every range. TranslatorProperties.ShiftedKeysAreSwitchCases and TranslatorProperties.ShiftedKeysHaveUnshiftedTwin connect it to Translate |
| KeyboardTranslator.Translate | app/src/main/java/com/limelight/binding/input/KeyboardTranslator.java:70-300 | the result is 0 exactly when the default branch is taken; otherwise it is the chosen byte minus 0x8000 as a signed short |
| JavaInt.ShiftLeft | app/src/main/java/com/limelight/binding/input/KeyboardTranslator.java:299 | a left shift never decreases a value and strictly increases every non-zero value by a non-zero shift |
| JavaInt.Or | app/src/main/java/com/limelight/binding/input/KeyboardTranslator.java:299 | the bitwise or of a and b is at least each operand and at most their sum |
| JavaInt.NarrowToShort | app/src/main/java/com/limelight/binding/input/KeyboardTranslator.java:299 | the cast `(short) x` gives the one short congruent to x modulo 2^16 |
| JavaInt.Unsigned16 | app/src/main/java/com/limelight/binding/input/KeyboardTranslator.java:299 | the 16 bits of a short, read unsigned, lie in 0..0xFFFF |
| JavaInt.NarrowKeepsLow16 | app/src/main/java/com/limelight/binding/input/KeyboardTranslator.java:299 | the cast to `short` keeps exactly the low 16 bits of an int |
| JavaInt.NarrowUnsigned16 | app/src/main/java/com/limelight/binding/input/KeyboardTranslator.java:299 | a short survives the trip through its 16-bit pattern |
| JavaInt.OrOfDisjointBits | app/src/main/java/com/limelight/binding/input/KeyboardTranslator.java:299 | or-ing `hi << n` with a value below `2^n` is addition, because the two share no bit |
| TranslatorProperties.HostVirtualKey | app/src/main/java/com/limelight/binding/input/KeyboardTranslator.java:293-299 | the model's own decoder, the left inverse of the encoding: it yields "no key" for 0, else the low byte 0..255 |
| TranslatorProperties.MappedCodeCarriesPrefix | app/src/main/java/com/limelight/binding/input/KeyboardTranslator.java:299 | a mapped key's code has high byte 0x80 and low byte equal to the chosen VK byte; as a 16-bit value it is `KEY_PREFIX << 8` or-ed with t = `0x8000 + t`, and as a Java short it is `t - 0x8000`, which is negative |
| TranslatorProperties.HostRecoversVirtualKey | app/src/main/java/com/limelight/binding/input/KeyboardTranslator.java:293-299 | decoding the translated code gives back exactly the chosen VK byte, and "no key" for the sentinel |
| TranslatorProperties.SentinelExactlyForUnknownKeys | app/src/main/java/com/limelight/binding/input/KeyboardTranslator.java:76-295 | the result is 0 if and only if the key is in no range and has no case in the switch |
| TranslatorProperties.SentinelNeverCollides | app/src/main/java/com/limelight/binding/input/KeyboardTranslator.java:295-299 | the sentinel differs from the code of every mapped key |
| TranslatorProperties.DigitKeysMapLinearly | app/src/main/java/com/limelight/binding/input/KeyboardTranslator.java:76-79 | a digit key maps to `0x8000 + 48 + (keycode - KEYCODE_0)`, with its low byte in VK_0..VK_9 |
| TranslatorProperties.LetterKeysMapLinearly | app/src/main/java/com/limelight/binding/input/KeyboardTranslator.java:80-83 | a letter key maps to `0x8000 + 65 + (keycode - KEYCODE_A)`, with its low byte in VK_A..VK_Z |
| TranslatorProperties.NumpadDigitKeysMapLinearly | app/src/main/java/com/limelight/binding/input/KeyboardTranslator.java:84-87 | a keypad digit maps to `0x8000 + 96 + (keycode - KEYCODE_NUMPAD_0)`, with its low byte in 96..105 |
| TranslatorProperties.FunctionKeysMapLinearly | app/src/main/java/com/limelight/binding/input/KeyboardTranslator.java:88-91 | a function key maps to `0x8000 + 112 + (keycode - KEYCODE_F1)`, with its low byte in 112..123 |
| TranslatorProperties.RangesCoverTheirBlocks | app/src/main/java/com/limelight/binding/input/KeyboardTranslator.java:76-91 | each range rule is onto its VK block: every byte of the block is produced by some key of the range |
| TranslatorProperties.ShiftedKeysAreSwitchCases | app/src/main/java/com/limelight/binding/input/KeyboardTranslator.java:51-291 | every key that needs shift has a case in the switch and lies in no range, and no range key needs shift |
| TranslatorProperties.ShiftedSymbolBytes | app/src/main/java/com/limelight/binding/input/KeyboardTranslator.java:139-291 | '@' gets 50, '#' gets 51, '*' gets 56, and '+' and '=' both get 0xbb |
| TranslatorProperties.ShiftedSymbolsShareBaseKeys | app/src/main/java/com/limelight/binding/input/KeyboardTranslator.java:51-291 | '@', '#', '*' and '+' are sent with the same code as '2', '3', '8' and '=', the unshifted keys that carry them on a US layout |
| TranslatorProperties.SameByteSameCode | app/src/main/java/com/limelight/binding/input/KeyboardTranslator.java:299 | two keys given the same VK byte get the same code, whose low byte is that byte |
| TranslatorProperties.ShiftedKeysHaveUnshiftedTwin | app/src/main/java/com/limelight/binding/input/KeyboardTranslator.java:51-291 | every key that needs shift is mapped, and some different key that needs no shift gets the very same code |
| TranslatorProperties.TableIsNotInjective | app/src/main/java/com/limelight/binding/input/KeyboardTranslator.java:103-162 | TV and META_LEFT share code byte 0x5b, and PLUS and EQUALS share 0xbb |
| TranslatorProperties.NamedEntries | app/src/main/java/com/limelight/binding/input/KeyboardTranslator.java:107-247 | the arrows map to 37, 38, 39 and 40, escape to 27, delete to 8, enter to 0x0d, DVR to VK_TAB and backslash to 0xdc |
| TranslatorProperties.Examples | app/src/main/java/com/limelight/binding/input/KeyboardTranslator.java:76-299 | '5', 'A', left arrow and escape are sent as 0x80 shifted left by 8 and or-ed with 53, 65, 37 and 27 |
| TranslatorProperties.UnmappedExamples | app/src/main/java/com/limelight/binding/input/KeyboardTranslator.java:293-295 | the non-key -1 and the Tab key (which has no case) both get the sentinel 0 |

## Left out

- The diagnostic line printed for an unmapped key (line 294) is not modelled. It has no effect on the result.
- The `android.view.KeyEvent` class is not part of this model. Only the numeric values of the key codes the translator reads are declared, taken from the Android API.
- The VK constants that the translator declares and that neither `translate` nor the lemmas use (VK_BACK_SLASH, VK_COMMA, VK_EQUALS, VK_PLUS, VK_CLOSE_BRACKET, VK_SEMICOLON, VK_SLASH, VK_QUOTE) are not declared. VK_9 and VK_Z, which `translate` does not read either, are declared for the lemmas.
- Callers of the translator are not part of this model. That covers the code that synthesizes the shift press and the code that sends key codes to the host.
- The key code is an unbounded `int`. A Java `int` key code cannot overflow the range arithmetic, because the ranges are small and far from the `int` limits.
- JavaInt.Or: `|` is modelled on non-negative operands only, which are the only ones the translator passes.
- JavaInt.ShiftLeft: `<<` is modelled without 32-bit wrap-around, which the translator's `0x80 << 8` never reaches.
- The result of `translate` is modelled as the signed Java `short` that the code returns, a negative number for every mapped key. That unsigned 16-bit pattern is given by JavaInt.Unsigned16 and stated in TranslatorProperties.MappedCodeCarriesPrefix.
