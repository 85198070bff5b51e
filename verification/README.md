# CH9329 keyboard/mouse bridge driver — a Dafny model

`pych9329` drives a CH9329 chip. The chip turns frames received on a serial
line into USB keyboard, mouse and media-key input on another computer. This
project models the core of that driver and proves properties of the model.
The core is made of five parts:

- **Frame codec** (`protocol.dfy`, module `Protocol`). The builders produce
  the chip's frames `[0x57, 0xAB, 0x00, cmd, len, data..., checksum]`. Every
  builder is proved to give a well-formed frame. Absolute coordinates are
  clamped and split little-endian. Relative values are clamped and written in
  8-bit two's complement.
- **Translation tables** (`ecodes.dfy`, `evdev_mapping.dfy`). These are the
  three partial maps from Linux evdev codes (`input-event-codes.h`):
  - keyboard keys to usage IDs of the Keyboard/Keypad page of the USB HID
    Usage Tables 1.12, section 10;
  - modifier keys to the bits of the modifier byte, and buttons to the bits
    of the button byte, both of the boot reports in Appendix B of the USB
    Device Class Definition for HID 1.11.
- **Models** (`models.dfy`). These are the four enumerations and the
  character table. The table is built by the loops of `_build_character_map`
  and proved equal to a declarative definition. The model keeps its quirks:
  - `'_'` carries the raw modifier 0x02;
  - `"` is unsupported, because the shifted entry is the two-character key
    `"'"`;
  - `'*'` is skipped;
  - the apostrophe is overwritten to shift+7.

  The `KeyboardState` six-key check is modelled too.
- **Operation log** (`recorder.dfy`). This covers:
  - the ten operation kinds and their dictionary form, with round trips for
    one operation and for a saved list;
  - the recorder state machine, which inserts a `Delay` for gaps over 1 ms.
    Time is an injected integer clock in microseconds.
- **Driver** (`driver.dfy`) and **replayer** (`replayer.dfy`).
  - `CH9329Driver` sends frames to an adapter. The adapter is modelled as
    the list of frames it has sent. The driver records calls on an optional
    recorder.
  - Each method is proved to send exactly the frames of a specification
    function and to record exactly the matching operation. The loops that
    OR bits into a byte, pad key slots, and type a string carry their own
    invariants.
  - `Replay` is proved against a pure fold over the operations.
  - The replayer lives in its own module because the operations' `execute`
    calls the driver while the driver imports the recorder.

Errors are values. `Result`/`Outcome` carry an `Error` with one variant per
exception the core raises: `UnsupportedEvdevCodeError`, the `ValueError`s,
the `KeyError`s, `ZeroDivisionError`, and a negative `time.sleep`.

Behaviour worth knowing, proved below:
- `write_string("_")` raises `UnsupportedEvdevCodeError(2)`. The table gives
  `'_'` the raw modifier 0x02, which is evdev `KEY_1`, not a modifier
  (`Driver.UnderscoreCannotBeTyped`).
- `driver.py:20-28` imports `KeyboardInput` and `MouseInput` from
  `models.py`, which defines neither. The model takes `KeyboardInput` as
  `KeyboardState` and `MouseInput` as an unvalidated record {buttons, x, y,
  scroll}, whose fields the frame builder clamps.

## Model

| member | source | states |
|---|---|---|
| Protocol.SumAppend | src/pych9329/protocol.py:36-45 | the byte sum of a concatenation is the sum of the parts' sums |
| Protocol.Sum | src/pych9329/protocol.py:36-45 | the sum of a byte list lies between 0 and 255 per byte; its additivity is SumAppend |
| Protocol.Checksum | src/pych9329/protocol.py:36-45 | the checksum is a byte congruent to the sum modulo 256, which is how _calculate_checksum reduces it |
| Protocol.SumHeader | src/pych9329/protocol.py:26-33 | the header, address, command and length bytes add up to 0x57 + 0xAB + command + length |
| Protocol.Frame | src/pych9329/protocol.py:48-67 | a frame is 6 + len(data) bytes: header, address, command, length, the data, and a last byte equal to the sum of all earlier bytes mod 256 |
| Protocol.FrameDeterminedByContent | src/pych9329/protocol.py:48-67 | a byte list that has a frame's layout for some command and data is exactly that frame |
| Protocol.BuildPacket | src/pych9329/protocol.py:48-67 | succeeds exactly when the data is shorter than 256 and every byte is in 0..255, and then gives the well-formed frame of that command and data; otherwise gives ByteOutOfRange, which is what bytes() raises |
| Protocol.BuildKeyboardPress | src/pych9329/protocol.py:70-86 | succeeds exactly when modifier and keycode are bytes; the 14-byte frame has command 0x02 and data [modifier, 0, keycode, 0, 0, 0, 0, 0] |
| Protocol.BuildKeyboardRelease | src/pych9329/protocol.py:89-102 | is the literal 57 AB 00 02 08, eight zeros and checksum 0x0C, a command 0x02 frame of eight zero data bytes |
| Protocol.Clamp | src/pych9329/protocol.py:121-123 | the result lies in [lo, hi]; an in-range value is unchanged; a value below or above becomes lo or hi |
| Protocol.ClampIdempotent | src/pych9329/protocol.py:121-123 | clamping twice is clamping once |
| Protocol.BuildMouseAbs | src/pych9329/protocol.py:105-131 | succeeds exactly when the button is a byte; the 13-byte well-formed command 0x04 frame holds 0x02, the button, then low + 256·high for x and for y, each equal to the coordinate clamped to [0, 4095] (high byte < 16), and a zero |
| Protocol.ToTwosComplement | src/pych9329/protocol.py:156-159 | v in [-128, 127] becomes the byte that reads back as v, below 128 exactly when v ≥ 0 |
| Protocol.FromTwosComplement | src/pych9329/protocol.py:156-159 | reading a byte as 8-bit two's complement gives a value in [-128, 127] |
| Protocol.TwosComplementBijective | src/pych9329/protocol.py:156-159 | writing back a byte read as two's complement gives the same byte, so the encoding is a bijection |
| Protocol.BuildMouseRel | src/pych9329/protocol.py:134-162 | succeeds exactly when the button is a byte; the 11-byte well-formed command 0x05 frame holds 0x01 and the button, and its x, y and scroll bytes read back as x and y clamped to [-128, 127] and scroll clamped to [-127, 127] |
| Protocol.BuildMediaPress | src/pych9329/protocol.py:165-184 | succeeds exactly when all four values are bytes; the 10-byte command 0x03 frame carries them verbatim |
| Protocol.BuildMediaRelease | src/pych9329/protocol.py:187-200 | is the literal 57 AB 00 03 04 02 00 00 00 0B, a command 0x03 frame with data [0x02, 0, 0, 0] |
| Protocol.KeyboardPressExample | src/pych9329/protocol.py:70-86 | the press (0x02, 0x04) is 57 AB 00 02 08 02 00 04 00 00 00 00 00 12 |
| Protocol.MouseRelExample | src/pych9329/protocol.py:152-162 | the relative move (-10, -20) is 57 AB 00 05 05 01 00 F6 EC 00 EF, and scroll -5 gives data byte 0xFB |
| EvdevMapping.KeyboardEntry | src/pych9329/evdev_mapping.py:8-67 | every scan code in the keyboard table is a usage ID in 0x04..0xFF |
| EvdevMapping.MouseEntry | src/pych9329/evdev_mapping.py:70-74 | every value in the mouse table is a single bit |
| EvdevMapping.ModifierEntry | src/pych9329/evdev_mapping.py:77-86 | every value in the modifier table is a single bit |
| EvdevMapping.EvdevToUsbHidKeyboard | src/pych9329/evdev_mapping.py:89-108 | succeeds exactly on the table's codes and returns the table's scan code, a byte; any other code raises UnsupportedEvdevCodeError carrying the code |
| EvdevMapping.EvdevToUsbHidMouse | src/pych9329/evdev_mapping.py:111-130 | succeeds exactly on BTN_LEFT, BTN_RIGHT and BTN_MIDDLE, giving 0x01, 0x02 and 0x04; any other code raises with the code |
| EvdevMapping.EvdevToUsbHidModifier | src/pych9329/evdev_mapping.py:133-152 | succeeds exactly on the eight modifiers: left Ctrl/Shift/Alt/Meta give 0x01/0x02/0x04/0x08 and right ones give 0x10/0x20/0x40/0x80; any other code raises with the code |
| EvdevMapping.IsSupportedEvdevCode | src/pych9329/evdev_mapping.py:155-175 | true exactly when one of the three translations succeeds |
| EvdevMapping.KeyboardTableInjective | src/pych9329/evdev_mapping.py:8-67 | two different key codes never share a scan code |
| EvdevMapping.ModifierTableInjective | src/pych9329/evdev_mapping.py:77-86 | two different modifiers never share a bit |
| EvdevMapping.MouseTableInjective | src/pych9329/evdev_mapping.py:70-74 | two different buttons never share a bit |
| EvdevMapping.TablesDisjoint | src/pych9329/evdev_mapping.py:8-86 | no evdev code is in two of the tables |
| EvdevMapping.KeyboardTableExamples | src/pych9329/evdev_mapping.py:10-66 | KEY_A gives 0x04, KEY_Z 0x1D, KEY_1 0x1E, KEY_0 0x27, KEY_YEN 0x89 |
| EvdevMapping.UnsupportedExamples | src/pych9329/evdev_mapping.py:164-170 | 999 is unsupported; the keyboard table refuses 999 and KEY_LEFTCTRL, the modifier table refuses KEY_A |
| Models.MouseButton.Value | src/pych9329/models.py:17-25 | every button's evdev code is in the mouse table |
| Models.MouseButton.Name | src/pych9329/models.py:17-25 | every button's member name starts with "BTN_" |
| Models.MouseButtonFromName | src/pych9329/models.py:17-25 | MouseButton[name] gives the member with that name, or KeyError for an unknown name |
| Models.MouseButtonNameRoundTrip | src/pych9329/models.py:17-25 | looking up a button's own name gives the button back |
| Models.ModifierKey.Value | src/pych9329/models.py:28-41 | every modifier key's evdev code is in the modifier table |
| Models.KeyCodeFromName | src/pych9329/models.py:44-110 | KeyCode[name] fails only with KeyError for that name |
| Models.KeyCodeNameRoundTrip | src/pych9329/models.py:44-110 | looking up a key's own name gives the key back |
| Models.SuffixFindsKey | src/pych9329/models.py:44-110 | a one-character suffix finds its digit or letter key and a longer one its word key, so every name lookup lands on the member named |
| Models.KeyCodeNameLookup | src/pych9329/models.py:44-110 | KeyCode[name] is k exactly when k's name is name |
| Models.CharacterNamesKey | src/pych9329/models.py:59-96 | a key found by a one-character suffix (KEY_A, KEY_0) has that suffix as its name |
| Models.WordNamesKey | src/pych9329/models.py:51-110 | a key found by a word suffix (KEY_ENTER, KEY_YEN) has that suffix as its name |
| Models.SpecialWordNamesKey | src/pych9329/models.py:51-56 | the same, for the special keys and the first symbol keys |
| Models.BracketWordNamesKey | src/pych9329/models.py:102-105 | the same, for the right-brace, backslash, semicolon and apostrophe keys |
| Models.PunctuationWordNamesKey | src/pych9329/models.py:106-108 | the same, for the comma, dot and slash keys |
| Models.JapaneseWordNamesKey | src/pych9329/models.py:109-110 | the same, for the Yen and Ro keys |
| Models.KeyCodeTranslates | src/pych9329/models.py:44-110 | every KeyCode member has a scan code in the keyboard table |
| Models.KeyCodeValueInjective | src/pych9329/models.py:44-110 | different KeyCode members have different evdev codes |
| Models.ValueFindsKey | src/pych9329/models.py:44-110 | KeyCode(value) of a member's evdev code is that member again |
| Models.MediaKey.Value | src/pych9329/models.py:113-127 | every media key's value is (0x02, a single bit, 0, 0) |
| Models.MediaKey.Name | src/pych9329/models.py:113-127 | every media key has a non-empty name |
| Models.MediaKeyFromName | src/pych9329/models.py:113-127 | MediaKey[name] gives the member with that name, or KeyError |
| Models.MediaKeyNameRoundTrip | src/pych9329/models.py:113-127 | looking up a media key's own name gives it back |
| Models.MediaKeyValueInjective | src/pych9329/models.py:120-127 | different media keys have different values |
| Models.DigitChar | src/pych9329/models.py:152-153 | str(i) of a digit is the character whose distance from '0' is i |
| Models.Upper | src/pych9329/models.py:157-160 | the upper-case form of a lower-case letter is 32 below it and a capital |
| Models.DigitCodeIsNamedKey | src/pych9329/models.py:152-153 | getattr(KeyCode, "KEY_" + str(i)) exists and its value is the digit's key code |
| Models.LetterCodeIsNamedKey | src/pych9329/models.py:156-158 | getattr(KeyCode, "KEY_" + c.upper()) exists and its value is the letter's key code |
| Models.LetterKeyIsNamed | src/pych9329/models.py:156-158 | the key named by the letter's capital is the letter's key |
| Models.LetterKeyValue | src/pych9329/models.py:156-158 | the letter's key has the letter's evdev code |
| Models.UnshiftedEntry | src/pych9329/models.py:132-160 | every entry before the shifted pass has modifier 0, the raw 0x02, or KEY_LEFTSHIFT |
| Models.BuildCharacterMap | src/pych9329/models.py:130-188 | the loops build exactly the declarative table: same keys, same (modifier, keycode) for each |
| Models.CharacterEntry | src/pych9329/models.py:130-188 | a table entry has modifier 0, the raw 0x02 or KEY_LEFTSHIFT, and a character that is not a shifted symbol keeps its unshifted entry; BuildCharacterMap ties it to the loops |
| Models.AddDigits | src/pych9329/models.py:151-153 | the digit loop adds "0".."9" with (0, KEY_d) and keeps every other entry |
| Models.AddLetters | src/pych9329/models.py:155-160 | the letter loop adds each lower-case letter with (0, KEY_L) and its capital with (KEY_LEFTSHIFT, KEY_L), keeping every other entry |
| Models.AddShiftedSymbols | src/pych9329/models.py:162-186 | the shifted loop adds a symbol with (KEY_LEFTSHIFT, keycode of its base) exactly when the base is already present, and keeps every other entry |
| Models.BaseSymbolsAreUnshiftedEntries | src/pych9329/models.py:132-149 | the literal symbols are neither digits nor letters, so they survive the digit and letter loops unchanged |
| Models.UnshiftedDomain | src/pych9329/models.py:132-160 | before the shifted pass the table holds exactly the literal symbols, digits and letters |
| Models.BaseCharacterIsNotShifted | src/pych9329/models.py:163-182 | no base character is itself a shifted symbol, so the loop's order over the symbols does not matter |
| Models.GetKeyMapping | src/pych9329/models.py:195-220 | succeeds exactly on the table's keys and returns the table's pair; anything else raises "Unsupported character" |
| Models.LowerLetterMapping | src/pych9329/models.py:156-159 | a lower-case letter maps to (0, KEY_L) |
| Models.UpperLetterMapping | src/pych9329/models.py:156-160 | its capital maps to (KEY_LEFTSHIFT, the same keycode) |
| Models.DigitMapping | src/pych9329/models.py:152-153 | each digit maps to (0, KEY_d) |
| Models.LetterExamples | src/pych9329/models.py:209-213 | 'a' maps to (0, 30) and 'A' to (42, 30) |
| Models.ShiftedDigitExample | src/pych9329/models.py:164-186 | '!' maps to (42, KEY_1) |
| Models.AtSignExample | src/pych9329/models.py:145 | '@' maps to (0, KEY_LEFTBRACE) |
| Models.ApostropheOverwritten | src/pych9329/models.py:139-170 | '\'' starts as (0, KEY_APOSTROPHE) and ends as (KEY_LEFTSHIFT, KEY_7) |
| Models.UnderscoreExample | src/pych9329/models.py:148 | '_' maps to the raw modifier 0x02 with KEY_YEN |
| Models.TwoCharacterKeyExample | src/pych9329/models.py:165 | the two-character key "\"'" maps to (KEY_LEFTSHIFT, KEY_2) |
| Models.DoubleQuoteUnsupported | src/pych9329/models.py:217-219 | '"' alone is unsupported |
| Models.AsteriskSkipped | src/pych9329/models.py:178-186 | '*' is skipped because its base ':' is absent, so it is unsupported |
| Models.EmptyStringUnsupported | src/pych9329/models.py:217-219 | the empty string is unsupported |
| Models.CharacterKeycodeTranslates | src/pych9329/models.py:130-188 | every keycode in the character table has a scan code |
| Models.UnshiftedKeycodeTranslates | src/pych9329/models.py:132-160 | every keycode before the shifted pass has a scan code |
| Models.LetterCodeTranslates | src/pych9329/models.py:156-158 | every letter's keycode has a scan code |
| Models.DigitCodeTranslates | src/pych9329/models.py:152-153 | every digit's keycode has a scan code |
| Models.BaseSymbolsTranslate | src/pych9329/models.py:132-149 | every literal symbol's keycode has a scan code |
| Models.CharacterModifier | src/pych9329/models.py:130-188 | every modifier in the table is 0 or KEY_LEFTSHIFT, except '_' with the raw 0x02 |
| Models.BaseModifiers | src/pych9329/models.py:132-149 | every literal symbol has modifier 0 except '_' |
| Models.PrintableAsciiCoverage | src/pych9329/models.py:130-188 | a printable ASCII character is supported exactly when it is not '"', '*' or ':' |
| Models.PunctuationBeforeDigits | src/pych9329/models.py:130-188 | the same for ' ' up to '\'' |
| Models.PunctuationBeforeDigitsContinued | src/pych9329/models.py:130-188 | the same for '(' up to '/' |
| Models.PunctuationAfterDigits | src/pych9329/models.py:130-188 | the same for ':' up to '@' |
| Models.PunctuationAfterUpper | src/pych9329/models.py:130-188 | the same for '[' up to '`' |
| Models.PunctuationAfterLower | src/pych9329/models.py:130-188 | the same for '{' up to '~' |
| Models.NewKeyboardState | src/pych9329/models.py:255-266 | succeeds exactly with at most six keys, keeping the modifiers and the keys in order; more raises "Maximum 6 keys allowed, got N"; both arguments default to empty, so KeyboardState() is the all-released state |
| Recorder.ToDict | src/pych9329/recorder.py:98-107 | every dictionary carries the operation's "type" discriminator |
| Recorder.TypeName | src/pych9329/recorder.py:445-457 | every operation's discriminator is one of the ten registered type names; TypeNamesExactly shows each name belongs to exactly one kind |
| Recorder.TextField | src/pych9329/recorder.py:158-160 | reading a text field succeeds exactly when it is present and textual; absent is KeyError |
| Recorder.NumberField | src/pych9329/recorder.py:244-246 | reading a number field succeeds exactly when it is present and a number; absent is KeyError |
| Recorder.FlagField | src/pych9329/recorder.py:112-118 | an absent flag defaults to False; a present one must be a boolean |
| Recorder.OperationFromDict | src/pych9329/recorder.py:459-477 | an unknown or missing "type" raises "Unknown operation type"; a parsed operation has the dictionary's type |
| Recorder.KeyDownFromDict | src/pych9329/recorder.py:110-118 | a missing "key" raises KeyError("key"); a parsed key_down has the key KeyCode[d["key"]] names, and each flag is True exactly when present and True |
| Recorder.MouseButtonDownFromDict | src/pych9329/recorder.py:158-160 | a missing "button" raises KeyError; a parsed operation has the button MouseButton[d["button"]] names |
| Recorder.MediaKeyDownFromDict | src/pych9329/recorder.py:200-202 | a missing "key" raises KeyError; a parsed operation has the media key MediaKey[d["key"]] names |
| Recorder.MoveFromDict | src/pych9329/recorder.py:244-246 | succeeds exactly when "x" and "y" are numbers, giving the absolute move (or, for recorder.py:271-273, the relative move) with those two numbers |
| Recorder.ScrollFromDict | src/pych9329/recorder.py:296-298 | succeeds exactly when "amount" is a number, giving a scroll by that amount |
| Recorder.DelayFromDict | src/pych9329/recorder.py:321-323 | succeeds exactly when "seconds" is a number, giving a pause of that length |
| Recorder.TypeText | src/pych9329/recorder.py:471-474 | the text in the error is "None" for a missing type and the type's own text for a string; a text naming a registered type comes only from a dictionary whose type is known |
| Recorder.IntText | src/pych9329/recorder.py:471-474 | str() of an integer starts with '-' exactly when it is negative, followed by str() of the magnitude; IntTextValue shows it reads back as the integer |
| Recorder.NatText | src/pych9329/recorder.py:471-474 | str() of a natural is a non-empty text of decimal digits with a leading '0' only for zero; NatTextValue shows the digits spell the natural, which pins the text down uniquely |
| Recorder.NatTextValue | src/pych9329/recorder.py:471-474 | the decimal value of str(n) is n |
| Recorder.IntTextValue | src/pych9329/recorder.py:471-474 | str(n) of any integer, sign included, reads back as n |
| Recorder.OperationRoundTrip | src/pych9329/recorder.py:98-118 | from_dict(to_dict(op)) is op, field for field, for all ten kinds |
| Recorder.TypeNamesExactly | src/pych9329/recorder.py:444-457 | the ten discriminators are exactly the type names of the ten kinds |
| Recorder.OperationFromDictFaithful | src/pych9329/recorder.py:459-477 | every field of the parsed operation's dictionary is the input's field, or an absent flag read as False |
| Recorder.KeyDownFaithful | src/pych9329/recorder.py:110-118 | the same for key_down |
| Recorder.OtherFaithful | src/pych9329/recorder.py:133-323 | the same for the other nine kinds |
| Recorder.KeyDownDefaults | src/pych9329/recorder.py:112-118 | a key_down with only a key gets four False flags |
| Recorder.UnknownTypeExamples | src/pych9329/recorder.py:470-473 | no "type" and type "unknown" both raise with that text |
| Recorder.SaveAll | src/pych9329/recorder.py:385-394 | save writes one dictionary per operation, in order, with its type |
| Recorder.LoadAll | src/pych9329/recorder.py:396-407 | load succeeds exactly when every dictionary parses, giving the operations in order; otherwise it raises the first dictionary's error |
| Recorder.SaveLoadRoundTrip | src/pych9329/recorder.py:385-407 | load of what save wrote is the same list in the same order |
| Recorder.Clock.Sleep | src/pych9329/recorder.py:312-314 | a negative sleep raises and leaves the time alone; otherwise the time advances by exactly the pause |
| Recorder.WithoutDelaysAppend | src/pych9329/recorder.py:363-383 | removing pauses distributes over concatenation |
| Recorder.PauseBefore | src/pych9329/recorder.py:376-380 | at most one pause is inserted, exactly when there was a last time and the gap is over _MIN_DELAY_THRESHOLD (1 ms), and it is Delay(now - last) |
| Recorder.Recorded | src/pych9329/recorder.py:363-383 | record keeps the recording flag, keeps the old log as a prefix and grows it by at most two; RecordWhileIdle, RecordAppends and RecordPause pin the rest |
| Recorder.RecordWhileIdle | src/pych9329/recorder.py:372-373 | record while not recording changes nothing |
| Recorder.RecordAppends | src/pych9329/recorder.py:375-383 | record while recording keeps the log as a prefix, ends it with the operation, grows it by one or two, and sets the last time to now |
| Recorder.RecordPause | src/pych9329/recorder.py:376-380 | a Delay(now - last) is inserted exactly when there was a last time and the gap is over 1 ms |
| Recorder.RecordKeepsOperations | src/pych9329/recorder.py:382 | with pauses removed, record appends exactly the operation |
| Recorder.RecordKeepsPausesAboveThreshold | src/pych9329/recorder.py:378-380 | every pause record inserts is over 1 ms, so a log without short pauses keeps that property |
| Recorder.OperationRecorder.constructor | src/pych9329/recorder.py:342-346 | a new recorder has an empty log, is not recording and has no last time |
| Recorder.OperationRecorder.StartRecording | src/pych9329/recorder.py:348-352 | the log is emptied, recording is on and the last time is now |
| Recorder.OperationRecorder.StopRecording | src/pych9329/recorder.py:354-361 | recording is off and the result equals the log, which is not cleared |
| Recorder.OperationRecorder.Record | src/pych9329/recorder.py:363-383 | the new state is the pure record step at the clock's current time |
| Recorder.OperationRecorder.Save | src/pych9329/recorder.py:385-394 | the saved data is one dictionary per logged operation, and loading it gives the log back |
| Driver.ModifierMaskBits | src/pych9329/driver.py:200-203 | a modifier's bit is set in the OR of a set's bits exactly when it is in the set |
| Driver.ButtonMaskBits | src/pych9329/driver.py:451-454 | a button's bit is set exactly when it is held, and the byte stays below 8 |
| Driver.FlagsAreLeftModifiers | src/pych9329/driver.py:127-136 | key_down's ctrl/shift/alt/windows byte is the OR of the left-hand modifier bits, below 0x10 |
| Driver.ModifierTableGivesMaskBit | src/pych9329/driver.py:203 | the modifier table gives each modifier key its bit |
| Driver.ModifierBit | src/pych9329/driver.py:200-203 | the bit a modifier key owns is the modifier byte of the report in which that key alone is held |
| Driver.ButtonBit | src/pych9329/driver.py:451-454 | the bit a button owns is the button byte in which that button alone is held |
| Driver.ButtonTableGivesMaskBit | src/pych9329/driver.py:454 | the mouse table gives each button its bit |
| Driver.ModifierMaskInsert | src/pych9329/driver.py:202-203 | adding a modifier ORs in its bit, so the byte does not depend on the set's iteration order |
| Driver.ButtonMaskInsert | src/pych9329/driver.py:453-454 | adding a button ORs in its bit |
| Driver.ScanCode | src/pych9329/driver.py:125 | every KeyCode translates, and this is its scan code |
| Driver.KeyDownFrame | src/pych9329/driver.py:125-142 | the frame is the command 0x02 frame with data [OR of ctrl 0x01, shift 0x02, alt 0x04, windows 0x08; 0; the key's scan code; five zeros] |
| Driver.KeyboardReport | src/pych9329/driver.py:200-214 | the report is eight bytes: the modifier byte, a reserved zero, the keys' scan codes in order, zeros in the unused slots |
| Driver.DeviceCoordinateOnScreen | src/pych9329/driver.py:307-308 | a pixel on screen scales into 0..4095, so the codec does not clamp it, and the result is the quotient rounded down |
| Driver.DeviceCoordinate | src/pych9329/driver.py:307-308 | int(4096 * pixel / size) is the quotient rounded toward zero: its magnitude times the size's stays within one size of 4096·|pixel|, and its sign is the sign of the true quotient |
| Driver.TruncatedDivision | src/pych9329/driver.py:307-308 | division rounding toward zero, as int() of a true quotient does: bounds on the magnitude and the sign rule |
| Driver.MoveAbsoluteFrame | src/pych9329/driver.py:292-315 | fails with ZeroDivisionError exactly when a screen size is zero; otherwise a 13-byte well-formed command 0x04 frame whose little-endian x and y are the device coordinates clamped to 0..4095 |
| Driver.DeviceCoordinateAtEdge | src/pych9329/driver.py:307-308 | the pixel at the screen size scales to 4096, which the codec clamps to 4095 |
| Driver.DeviceCoordinateTruncates | src/pych9329/driver.py:307-308 | int() truncates toward zero: pixel -1 on an 8192-pixel screen gives 0 and pixel -3 gives -1, where flooring would give -1 and -2 |
| Driver.KeyDownIsKeyboardState | src/pych9329/driver.py:125-142 | key_down sends what send_keyboard_state sends for its left-hand modifiers and one key |
| Driver.KeyUpIsEmptyKeyboardState | src/pych9329/driver.py:159-161 | key_up sends what send_keyboard_state sends for the empty state |
| Driver.SingleKeyStateIsPress | src/pych9329/driver.py:200-219 | with at most one key, send_keyboard_state's frame is build_keyboard_press_packet of the modifier byte and the key's scan code, or 0 |
| Driver.KeyDownFrameDecodes | src/pych9329/driver.py:125-142 | equal key_down frames have equal flags and equal scan codes |
| Driver.FlagsMaskInjective | src/pych9329/driver.py:127-136 | the four flags own four different bits |
| Driver.MouseStateFrameDecodes | src/pych9329/driver.py:451-460 | send_mouse_state's button byte holds exactly the held buttons, and x, y and scroll read back clamped |
| Driver.StillMouseFrame | src/pych9329/driver.py:335-408 | an 11-byte well-formed command 0x05 frame with mode 0x01, the given button byte, zero movement and the scroll clamped to -127..127 |
| Driver.MouseStateFrame | src/pych9329/driver.py:410-460 | an 11-byte well-formed command 0x05 frame whose button byte is the OR of the held buttons' bits and whose x, y and scroll read back clamped |
| Driver.MouseButtonsAreMouseStates | src/pych9329/driver.py:349-369 | mouse_button_down and mouse_button_up send send_mouse_state's frame for that button alone and for none |
| Driver.MediaKeyFrameDecodes | src/pych9329/driver.py:476-481 | a media key's frame carries 0x02 and its bit, and different keys send different frames |
| Driver.MediaKeyFrame | src/pych9329/driver.py:462-483 | the 10-byte command 0x03 frame with data [0x02, the key's bit, 0, 0] |
| Driver.MoveAbsoluteOnScreen | src/pych9329/driver.py:307-311 | only a zero screen size fails; an on-screen pixel is sent as trunc(4096·pixel / size) exactly |
| Driver.CharacterPresses | src/pych9329/driver.py:269-286 | one press, or error, per character of the text, in order |
| Driver.CharacterPress | src/pych9329/driver.py:271-286 | an unmapped character raises "Unsupported character"; otherwise it raises UnsupportedEvdevCodeError or gives the 14-byte command 0x02 frame with the translated scan code; CharacterPressSucceeds says exactly when |
| Driver.PressFrames | src/pych9329/driver.py:269-290 | a successful run sends two frames per press, a failed one fewer; PressFramesOutcome and PressFramesLayout pin down which |
| Driver.Typed | src/pych9329/driver.py:266-290 | write_string of a text that succeeds sends two frames per character, a failed one fewer; TypedShape states the rest |
| Driver.PressFramesAppendPress | src/pych9329/driver.py:283-290 | one more successful character appends its press and a release |
| Driver.PressFramesStopAtError | src/pych9329/driver.py:269-280 | after the first error nothing more is sent, and that error is the outcome |
| Driver.PressFramesOutcome | src/pych9329/driver.py:269-290 | succeeds exactly when every press does; otherwise fails with the first error, after the 2·i frames of the i presses before it |
| Driver.PressFramesLayout | src/pych9329/driver.py:269-290 | frame 2j is press j and frame 2j+1 the release, for every press sent |
| Driver.PressFramesStopAt | src/pych9329/driver.py:269-280 | a failing press after a successful prefix ends the run with that prefix's frames and its error |
| Driver.PressFramesContinue | src/pych9329/driver.py:283-290 | a successful press after a successful prefix extends the frames sent by its press and a release |
| Driver.TypedShape | src/pych9329/driver.py:266-290 | write_string succeeds exactly when every character can be typed, sending 2·n frames; otherwise the first untypable character raises after the earlier ones were sent |
| Driver.UnderscorePressFails | src/pych9329/driver.py:276-280 | '_' fails with UnsupportedEvdevCodeError(2) |
| Driver.UnderscoreCannotBeTyped | src/pych9329/driver.py:266-290 | write_string("_") sends nothing and raises UnsupportedEvdevCodeError(2) |
| Driver.CharacterPressSucceeds | src/pych9329/driver.py:271-286 | a character can be typed exactly when it is in the table and is not '_', and its press is build_keyboard_press_packet(0 or 0x02, scan code) |
| Driver.LowerLetterPress | src/pych9329/driver.py:271-286 | a lower-case letter is pressed with modifier 0 and its scan code |
| Driver.UpperLetterPress | src/pych9329/driver.py:271-286 | a capital is pressed with modifier 0x02 (left shift) and the same scan code |
| Driver.Adapter.constructor | src/pych9329/driver.py:91 | a new adapter has sent nothing |
| Driver.Adapter.Send | src/pych9329/driver.py:142 | send appends the frame to what has been sent |
| Driver.CH9329Driver.constructor | src/pych9329/driver.py:76-94 | the driver keeps its adapter, screen size and optional recorder; the screen defaults to 1920×1080 and the recorder to none |
| Driver.CH9329Driver.KeyDown | src/pych9329/driver.py:96-148 | sends exactly the key_down frame, then records KeyDown with the caller's arguments when a recorder is attached; the four flags default to False |
| Driver.CH9329Driver.KeyUp | src/pych9329/driver.py:150-164 | sends exactly the release frame, then records KeyUp |
| Driver.CH9329Driver.PressKey | src/pych9329/driver.py:221-248 | is key_down followed by key_up: the two frames and the two records; the four flags default to False |
| Driver.CH9329Driver.SendKeyboardState | src/pych9329/driver.py:166-219 | sends exactly one frame, command 0x02 with the state's report and a correct checksum, and records nothing |
| Driver.CH9329Driver.SendMouseState | src/pych9329/driver.py:410-460 | sends exactly one relative frame with the buttons' byte and the state's x, y and scroll, and records nothing |
| Driver.CH9329Driver.WriteString | src/pych9329/driver.py:250-290 | sends exactly the frames of the text's specification and returns its outcome, recording nothing |
| Driver.CH9329Driver.TypeCharacter | src/pych9329/driver.py:269-290 | one character sends its press and a release, or sends nothing and raises the character's error |
| Driver.CH9329Driver.MouseMoveAbsolute | src/pych9329/driver.py:292-315 | a zero screen size raises ZeroDivisionError with nothing sent or recorded; otherwise sends the scaled absolute frame and records the pixel coordinates |
| Driver.CH9329Driver.MouseMoveRelative | src/pych9329/driver.py:317-333 | sends one relative frame with no button and no scroll, then records the move |
| Driver.CH9329Driver.MouseButtonDown | src/pych9329/driver.py:335-358 | sends one still relative frame with the button's bit, then records the button |
| Driver.CH9329Driver.MouseButtonUp | src/pych9329/driver.py:360-374 | sends the all-zero relative frame, then records the release |
| Driver.CH9329Driver.MouseClick | src/pych9329/driver.py:376-390 | is mouse_button_down followed by mouse_button_up |
| Driver.CH9329Driver.MouseScroll | src/pych9329/driver.py:392-408 | sends one still relative frame with no button and the scroll amount, then records it |
| Driver.CH9329Driver.MediaKeyDown | src/pych9329/driver.py:462-483 | sends the media frame of the key's four bytes, then records the key |
| Driver.CH9329Driver.MediaKeyUp | src/pych9329/driver.py:485-499 | sends the media release frame, then records the release |
| Driver.CH9329Driver.PressMediaKey | src/pych9329/driver.py:501-516 | is media_key_down followed by media_key_up |
| Driver.FlagsByte | src/pych9329/driver.py:127-136 | the four conditional ORs build the flags byte |
| Driver.ModifierByteOf | src/pych9329/driver.py:200-203 | the loop over the modifier set builds the OR of their bits, whatever the iteration order |
| Driver.ButtonByteOf | src/pych9329/driver.py:451-454 | the loop over the button set builds the OR of their bits |
| Driver.ScanCodesOf | src/pych9329/driver.py:205-206 | one scan code per key, in order, each the keyboard table's translation |
| Driver.PadKeys | src/pych9329/driver.py:208-210 | the while loop appends zeros up to six slots and leaves a longer list alone |
| Replayer.ExecutedFrames | src/pych9329/recorder.py:88-314 | an operation sends one frame, unless it is a pause or it raises |
| Replayer.FramesOf | src/pych9329/recorder.py:423-431 | one list of frames per operation |
| Replayer.Step | src/pych9329/recorder.py:88-314 | one operation fails exactly when it raises (a zero screen size or a negative pause), and then changes nothing; only a pause moves the clock, and only another operation sends, appending its frame; DelayLeavesDriverAlone and OperationSendsItsFrame give the whole new state |
| Replayer.Replayed | src/pych9329/recorder.py:423-431 | replay only appends to what was sent and only advances the clock; ReplayPassesIffNoneFails, ReplaySendsEveryFrame and ReplayStopsAtFirstFailure state its outcome and frames |
| Replayer.DelayLeavesDriverAlone | src/pych9329/recorder.py:312-314 | a pause sends nothing and records nothing; it advances the clock by the pause, or raises on a negative one and changes nothing |
| Replayer.OperationSendsItsFrame | src/pych9329/recorder.py:88-289 | any other operation sends its one frame and is recorded at the current time, or raises ZeroDivisionError and changes nothing |
| Replayer.ReplayPassesIffNoneFails | src/pych9329/recorder.py:423-431 | a replay succeeds exactly when no operation raises |
| Replayer.ReplaySendsEveryFrame | src/pych9329/recorder.py:423-431 | a replay without errors sends every operation's frames in list order and advances the clock by the sum of the pauses |
| Replayer.ReplayStopsAtFirstFailure | src/pych9329/recorder.py:423-431 | a replay stops at the first operation that raises, with its error, leaving the state the earlier operations left |
| Replayer.ReplayIsRecorded | src/pych9329/recorder.py:423-431 | replaying while recording logs the replayed operations again, pauses aside |
| Replayer.StepIsRecorded | src/pych9329/recorder.py:363-383 | one step that does not raise keeps the log recording and adds the operation to it unless it is a pause |
| Replayer.ReplayConcatenation | src/pych9329/recorder.py:423-431 | replaying two lists one after the other is replaying their concatenation |
| Replayer.FramesOfConcatenation | src/pych9329/recorder.py:423-431 | the frames of a concatenation are the two lists' frames |
| Replayer.OneFramePerOperation | src/pych9329/recorder.py:423-431 | a replay without errors sends exactly as many frames as there are operations other than pauses |
| Replayer.FlattenCountsFrames | src/pych9329/recorder.py:423-431 | with no frame per pause and one per other operation, the frames sent number the operations other than pauses |
| Replayer.Execute | src/pych9329/recorder.py:88-314 | each operation calls the driver method it names with its stored fields, and a pause only sleeps; the effect is exactly the pure step |
| Replayer.ExecuteOnDriver | src/pych9329/recorder.py:88-289 | an operation other than a pause sends its frames and is recorded, or raises ZeroDivisionError and changes nothing |
| Replayer.Replay | src/pych9329/recorder.py:423-431 | replay executes the operations once each, in list order, until the first exception; the frames, the recorder and the clock end as the pure fold says |

## Left out

- The serial adapter is left out: pyserial I/O, its post-write sleep, and port open and close. The adapter is the list of frames sent.
- `close` and the context-manager methods of the driver are left out; they only close the adapter.
- Real time is left out. `time.time()` and `time.sleep()` become an integer clock in microseconds that callers pass in. A recorded pause is a whole number of ticks rather than float seconds.
- JSON encoding and the file reads and writes of `save`, `load` and `replay_from_file` are left out. The model keeps the mapping between operations and dictionaries, and the ordered list that is saved and loaded.
- Recorder.OperationFromDict, Recorder.TextField, Recorder.NumberField, Recorder.FlagField, Recorder.KeyDownFromDict, Recorder.MouseButtonDownFromDict, Recorder.MediaKeyDownFromDict, Recorder.MoveFromDict, Recorder.ScrollFromDict, Recorder.DelayFromDict: a field of the wrong JSON kind is an error (WrongFieldType). Python instead stores a flag, coordinate, amount or pause unchecked (recorder.py:116-118, 246, 273, 298, 323) and fails later or never, and for a non-text key or button its enum lookup raises KeyError.
- Driver.DeviceCoordinate: `int(4096 * x / width)` uses float division. It is modelled as exact division truncated toward zero, which agrees with the float result while the product stays within 2^53.
- Driver.KeyDownFrameDecodes: states that equal frames have equal scan codes, not equal keys. That the keys are equal follows from KeyboardTableInjective and Models.KeyCodeValueInjective.
- Driver.MouseButtonsAreMouseStates: Dafny proves it without help, so it adds no proof of its own.
- MouseInput is not validated: the record takes any x, y and scroll, and the frame builder clamps them. KeyboardState is modelled without mutation after construction.
- Set iteration order in `send_keyboard_state` and `send_mouse_state` is not modelled. The loops pick elements in any order, and the result is proved independent of it.
- Replayer.Execute and Replayer.Replay: the recorder attached to the driver must read the same clock the pauses sleep on, as wall-clock time does in the original.
- Driver.CH9329Driver.PressKey, Driver.CH9329Driver.MouseClick, Driver.CH9329Driver.PressMediaKey: time does not pass during a send, so both records are stamped with the same clock reading and no pause is ever recorded between the down and the up. In the original the adapter sleeps after each write, so recording `press_key` can log a Delay between KeyDown and KeyUp.
- Concurrency is left out. The driver is single-threaded and a sleep cannot be cancelled.
