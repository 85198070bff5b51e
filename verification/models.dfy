/** The driver's vocabulary (models.py): the four closed enumerations, the
    character table that turns a character into an (evdev modifier, evdev
    key code) pair, and the keyboard and mouse input records. Enumeration
    values are Linux evdev codes, as in python-evdev's ecodes. */
module Models {
  import opened Wrappers
  import opened Ecodes
  import opened EvdevMapping

  /** The six key slots of the boot keyboard report. */
  const MaxRolloverKeys := 6

  datatype MouseButton = BtnLeft | BtnRight | BtnMiddle
  {
    /** The member's value: its evdev button code. */
    function Value(): (code: int)
      ensures EvdevToUsbHidMouse(code).Ok?
    {
      match this
      case BtnLeft => BTN_LEFT
      case BtnRight => BTN_RIGHT
      case BtnMiddle => BTN_MIDDLE
    }

    function Name(): (name: string)
      ensures |name| > 4 && name[..4] == "BTN_"
    {
      match this
      case BtnLeft => "BTN_LEFT"
      case BtnRight => "BTN_RIGHT"
      case BtnMiddle => "BTN_MIDDLE"
    }
  }

  /** MouseButton[name]: the member called name, or KeyError. */
  function MouseButtonFromName(name: string): (r: Result<MouseButton>)
    ensures r.Ok? ==> r.value.Name() == name
    ensures r.Err? ==> r.error == UnknownMemberName(name)
  {
    match name
    case "BTN_LEFT" => Ok(BtnLeft)
    case "BTN_RIGHT" => Ok(BtnRight)
    case "BTN_MIDDLE" => Ok(BtnMiddle)
    case _ => Err(UnknownMemberName(name))
  }

  datatype ModifierKey =
    | KeyLeftCtrl | KeyRightCtrl | KeyLeftShift | KeyRightShift
    | KeyLeftAlt | KeyRightAlt | KeyLeftMeta | KeyRightMeta
  {
    /** The member's value: its evdev key code. */
    function Value(): (code: int)
      ensures EvdevToUsbHidModifier(code).Ok?
    {
      match this
      case KeyLeftCtrl => KEY_LEFTCTRL
      case KeyRightCtrl => KEY_RIGHTCTRL
      case KeyLeftShift => KEY_LEFTSHIFT
      case KeyRightShift => KEY_RIGHTSHIFT
      case KeyLeftAlt => KEY_LEFTALT
      case KeyRightAlt => KEY_RIGHTALT
      case KeyLeftMeta => KEY_LEFTMETA
      case KeyRightMeta => KEY_RIGHTMETA
    }
  }

  datatype KeyCode =
    // Special keys
    | KeyEnter | KeyEsc | KeyBackspace | KeyTab | KeySpace | KeyGrave
    // Digit keys
    | Key0 | Key1 | Key2 | Key3 | Key4 | Key5 | Key6 | Key7 | Key8 | Key9
    // Letter keys (A-Z)
    | KeyA | KeyB | KeyC | KeyD | KeyE | KeyF | KeyG | KeyH | KeyI
    | KeyJ | KeyK | KeyL | KeyM | KeyN | KeyO | KeyP | KeyQ | KeyR
    | KeyS | KeyT | KeyU | KeyV | KeyW | KeyX | KeyY | KeyZ
    // Symbol keys
    | KeyMinus | KeyEqual | KeyLeftBrace | KeyRightBrace | KeyBackslash | KeySemicolon
    | KeyApostrophe | KeyComma | KeyDot | KeySlash | KeyYen | KeyRo
  {
    /** The member's value: its evdev key code. */
    function Value(): int
    {
      match this
      case KeyEnter => KEY_ENTER
      case KeyEsc => KEY_ESC
      case KeyBackspace => KEY_BACKSPACE
      case KeyTab => KEY_TAB
      case KeySpace => KEY_SPACE
      case KeyGrave => KEY_GRAVE
      case Key0 => KEY_0
      case Key1 => KEY_1
      case Key2 => KEY_2
      case Key3 => KEY_3
      case Key4 => KEY_4
      case Key5 => KEY_5
      case Key6 => KEY_6
      case Key7 => KEY_7
      case Key8 => KEY_8
      case Key9 => KEY_9
      case KeyA => KEY_A
      case KeyB => KEY_B
      case KeyC => KEY_C
      case KeyD => KEY_D
      case KeyE => KEY_E
      case KeyF => KEY_F
      case KeyG => KEY_G
      case KeyH => KEY_H
      case KeyI => KEY_I
      case KeyJ => KEY_J
      case KeyK => KEY_K
      case KeyL => KEY_L
      case KeyM => KEY_M
      case KeyN => KEY_N
      case KeyO => KEY_O
      case KeyP => KEY_P
      case KeyQ => KEY_Q
      case KeyR => KEY_R
      case KeyS => KEY_S
      case KeyT => KEY_T
      case KeyU => KEY_U
      case KeyV => KEY_V
      case KeyW => KEY_W
      case KeyX => KEY_X
      case KeyY => KEY_Y
      case KeyZ => KEY_Z
      case KeyMinus => KEY_MINUS
      case KeyEqual => KEY_EQUAL
      case KeyLeftBrace => KEY_LEFTBRACE
      case KeyRightBrace => KEY_RIGHTBRACE
      case KeyBackslash => KEY_BACKSLASH
      case KeySemicolon => KEY_SEMICOLON
      case KeyApostrophe => KEY_APOSTROPHE
      case KeyComma => KEY_COMMA
      case KeyDot => KEY_DOT
      case KeySlash => KEY_SLASH
      case KeyYen => KEY_YEN
      case KeyRo => KEY_RO
    }

    /** The member's name, which the recorder writes: KEY_ and a suffix. */
    function Name(): string
    {
      "KEY_" + Suffix()
    }

    function Suffix(): string
    {
      match this
      case KeyEnter => "ENTER"
      case KeyEsc => "ESC"
      case KeyBackspace => "BACKSPACE"
      case KeyTab => "TAB"
      case KeySpace => "SPACE"
      case KeyGrave => "GRAVE"
      case Key0 => "0"
      case Key1 => "1"
      case Key2 => "2"
      case Key3 => "3"
      case Key4 => "4"
      case Key5 => "5"
      case Key6 => "6"
      case Key7 => "7"
      case Key8 => "8"
      case Key9 => "9"
      case KeyA => "A"
      case KeyB => "B"
      case KeyC => "C"
      case KeyD => "D"
      case KeyE => "E"
      case KeyF => "F"
      case KeyG => "G"
      case KeyH => "H"
      case KeyI => "I"
      case KeyJ => "J"
      case KeyK => "K"
      case KeyL => "L"
      case KeyM => "M"
      case KeyN => "N"
      case KeyO => "O"
      case KeyP => "P"
      case KeyQ => "Q"
      case KeyR => "R"
      case KeyS => "S"
      case KeyT => "T"
      case KeyU => "U"
      case KeyV => "V"
      case KeyW => "W"
      case KeyX => "X"
      case KeyY => "Y"
      case KeyZ => "Z"
      case KeyMinus => "MINUS"
      case KeyEqual => "EQUAL"
      case KeyLeftBrace => "LEFTBRACE"
      case KeyRightBrace => "RIGHTBRACE"
      case KeyBackslash => "BACKSLASH"
      case KeySemicolon => "SEMICOLON"
      case KeyApostrophe => "APOSTROPHE"
      case KeyComma => "COMMA"
      case KeyDot => "DOT"
      case KeySlash => "SLASH"
      case KeyYen => "YEN"
      case KeyRo => "RO"
    }
  }

  /** KeyCode[name]: the member called name, or KeyError. Digit and letter
      members have a one-character suffix, the others a word. */
  function KeyCodeFromName(name: string): (r: Result<KeyCode>)
    ensures r.Err? ==> r.error == UnknownMemberName(name)
  {
    var found :=
      if |name| < 5 || name[..4] != "KEY_" then None
      else if |name| == 5 then KeyWithCharacter(name[4])
      else KeyWithWord(name[4..]);
    match found
    case Some(k) => Ok(k)
    case None => Err(UnknownMemberName(name))
  }

  /** The digit or letter member whose suffix is the one character ch. */
  function KeyWithCharacter(ch: char): Option<KeyCode>
  {
    match ch
    case '0' => Some(Key0)
    case '1' => Some(Key1)
    case '2' => Some(Key2)
    case '3' => Some(Key3)
    case '4' => Some(Key4)
    case '5' => Some(Key5)
    case '6' => Some(Key6)
    case '7' => Some(Key7)
    case '8' => Some(Key8)
    case '9' => Some(Key9)
    case 'A' => Some(KeyA)
    case 'B' => Some(KeyB)
    case 'C' => Some(KeyC)
    case 'D' => Some(KeyD)
    case 'E' => Some(KeyE)
    case 'F' => Some(KeyF)
    case 'G' => Some(KeyG)
    case 'H' => Some(KeyH)
    case 'I' => Some(KeyI)
    case 'J' => Some(KeyJ)
    case 'K' => Some(KeyK)
    case 'L' => Some(KeyL)
    case 'M' => Some(KeyM)
    case 'N' => Some(KeyN)
    case 'O' => Some(KeyO)
    case 'P' => Some(KeyP)
    case 'Q' => Some(KeyQ)
    case 'R' => Some(KeyR)
    case 'S' => Some(KeyS)
    case 'T' => Some(KeyT)
    case 'U' => Some(KeyU)
    case 'V' => Some(KeyV)
    case 'W' => Some(KeyW)
    case 'X' => Some(KeyX)
    case 'Y' => Some(KeyY)
    case 'Z' => Some(KeyZ)
    case _ => None
  }

  /** The special or symbol member whose suffix is the word w. */
  function KeyWithWord(w: string): Option<KeyCode>
  {
    match w
    case "ENTER" => Some(KeyEnter)
    case "ESC" => Some(KeyEsc)
    case "BACKSPACE" => Some(KeyBackspace)
    case "TAB" => Some(KeyTab)
    case "SPACE" => Some(KeySpace)
    case "GRAVE" => Some(KeyGrave)
    case "MINUS" => Some(KeyMinus)
    case "EQUAL" => Some(KeyEqual)
    case "LEFTBRACE" => Some(KeyLeftBrace)
    case "RIGHTBRACE" => Some(KeyRightBrace)
    case "BACKSLASH" => Some(KeyBackslash)
    case "SEMICOLON" => Some(KeySemicolon)
    case "APOSTROPHE" => Some(KeyApostrophe)
    case "COMMA" => Some(KeyComma)
    case "DOT" => Some(KeyDot)
    case "SLASH" => Some(KeySlash)
    case "YEN" => Some(KeyYen)
    case "RO" => Some(KeyRo)
    case _ => None
  }

  /** Every key's name read back gives the same key: KeyCode[k.name] is k. */
  lemma KeyCodeNameRoundTrip(k: KeyCode)
    ensures KeyCodeFromName(k.Name()) == Ok(k)
  {
    var name := k.Name();
    assert name[..4] == "KEY_" && name[4..] == k.Suffix();
    SuffixFindsKey(k);
    if |k.Suffix()| == 1 {
      assert name[4] == k.Suffix()[0];
    }
  }

  /** A member's suffix leads the lookup of KeyCodeFromName back to the member: a one-character suffix through KeyWithCharacter, a longer one through KeyWithWord. */
  lemma SuffixFindsKey(k: KeyCode)
    ensures |k.Suffix()| >= 1
    ensures |k.Suffix()| == 1 ==> KeyWithCharacter(k.Suffix()[0]) == Some(k)
    ensures |k.Suffix()| > 1 ==> KeyWithWord(k.Suffix()) == Some(k)
  {
    match k
    case KeyEnter | KeyEsc | KeyBackspace | KeyTab | KeySpace | KeyGrave | Key0 | Key1 | Key2 | Key3 | Key4 | Key5 | Key6 | Key7 | Key8 | Key9 => SuffixFindsSpecialOrDigitKey(k);
    case KeyA | KeyB | KeyC | KeyD | KeyE | KeyF | KeyG | KeyH | KeyI | KeyJ | KeyK | KeyL | KeyM => SuffixFindsEarlyLetterKey(k);
    case KeyN | KeyO | KeyP | KeyQ | KeyR | KeyS => SuffixFindsMiddleLetterKey(k);
    case KeyT | KeyU | KeyV | KeyW | KeyX | KeyY | KeyZ => SuffixFindsLateLetterKey(k);
    case KeyMinus | KeyEqual | KeyLeftBrace | KeyRightBrace => SuffixFindsEarlySymbolKey(k);
    case KeyBackslash | KeySemicolon | KeyApostrophe => SuffixFindsPunctuationKey(k);
    case KeyComma | KeyDot | KeySlash => SuffixFindsLateSymbolKey(k);
    case KeyYen | KeyRo => SuffixFindsJapaneseKey(k);
  }

  lemma SuffixFindsSpecialOrDigitKey(k: KeyCode)
    requires k in {KeyEnter, KeyEsc, KeyBackspace, KeyTab, KeySpace, KeyGrave, Key0, Key1, Key2, Key3, Key4, Key5, Key6, Key7, Key8, Key9}
    ensures |k.Suffix()| >= 1
    ensures |k.Suffix()| == 1 ==> KeyWithCharacter(k.Suffix()[0]) == Some(k)
    ensures |k.Suffix()| > 1 ==> KeyWithWord(k.Suffix()) == Some(k)
  {
    match k
    case KeyEnter => case KeyEsc => case KeyBackspace => case KeyTab => case KeySpace =>
    case KeyGrave => case Key0 => case Key1 => case Key2 => case Key3 => case Key4 => case Key5 =>
    case Key6 => case Key7 => case Key8 => case Key9 =>
  }

  lemma SuffixFindsEarlyLetterKey(k: KeyCode)
    requires k in {KeyA, KeyB, KeyC, KeyD, KeyE, KeyF, KeyG, KeyH, KeyI, KeyJ, KeyK, KeyL, KeyM}
    ensures |k.Suffix()| >= 1
    ensures |k.Suffix()| == 1 ==> KeyWithCharacter(k.Suffix()[0]) == Some(k)
    ensures |k.Suffix()| > 1 ==> KeyWithWord(k.Suffix()) == Some(k)
  {
    match k
    case KeyA => case KeyB => case KeyC => case KeyD => case KeyE => case KeyF => case KeyG =>
    case KeyH => case KeyI => case KeyJ => case KeyK => case KeyL => case KeyM =>
  }

  lemma SuffixFindsMiddleLetterKey(k: KeyCode)
    requires k in {KeyN, KeyO, KeyP, KeyQ, KeyR, KeyS}
    ensures |k.Suffix()| >= 1
    ensures |k.Suffix()| == 1 ==> KeyWithCharacter(k.Suffix()[0]) == Some(k)
    ensures |k.Suffix()| > 1 ==> KeyWithWord(k.Suffix()) == Some(k)
  {
    match k
    case KeyN => case KeyO => case KeyP => case KeyQ => case KeyR => case KeyS =>
  }

  lemma SuffixFindsLateLetterKey(k: KeyCode)
    requires k in {KeyT, KeyU, KeyV, KeyW, KeyX, KeyY, KeyZ}
    ensures |k.Suffix()| >= 1
    ensures |k.Suffix()| == 1 ==> KeyWithCharacter(k.Suffix()[0]) == Some(k)
    ensures |k.Suffix()| > 1 ==> KeyWithWord(k.Suffix()) == Some(k)
  {
    match k
    case KeyT => case KeyU => case KeyV => case KeyW => case KeyX => case KeyY => case KeyZ =>
  }

  lemma SuffixFindsEarlySymbolKey(k: KeyCode)
    requires k in {KeyMinus, KeyEqual, KeyLeftBrace, KeyRightBrace}
    ensures |k.Suffix()| >= 1
    ensures |k.Suffix()| == 1 ==> KeyWithCharacter(k.Suffix()[0]) == Some(k)
    ensures |k.Suffix()| > 1 ==> KeyWithWord(k.Suffix()) == Some(k)
  {
    match k
    case KeyMinus => case KeyEqual => case KeyLeftBrace => case KeyRightBrace =>
  }

  lemma SuffixFindsPunctuationKey(k: KeyCode)
    requires k in {KeyBackslash, KeySemicolon, KeyApostrophe}
    ensures |k.Suffix()| >= 1
    ensures |k.Suffix()| == 1 ==> KeyWithCharacter(k.Suffix()[0]) == Some(k)
    ensures |k.Suffix()| > 1 ==> KeyWithWord(k.Suffix()) == Some(k)
  {
    match k
    case KeyBackslash => case KeySemicolon => case KeyApostrophe =>
  }

  lemma SuffixFindsLateSymbolKey(k: KeyCode)
    requires k in {KeyComma, KeyDot, KeySlash}
    ensures |k.Suffix()| >= 1
    ensures |k.Suffix()| == 1 ==> KeyWithCharacter(k.Suffix()[0]) == Some(k)
    ensures |k.Suffix()| > 1 ==> KeyWithWord(k.Suffix()) == Some(k)
  {
    match k
    case KeyComma => case KeyDot => case KeySlash =>
  }

  lemma SuffixFindsJapaneseKey(k: KeyCode)
    requires k in {KeyYen, KeyRo}
    ensures |k.Suffix()| >= 1
    ensures |k.Suffix()| == 1 ==> KeyWithCharacter(k.Suffix()[0]) == Some(k)
    ensures |k.Suffix()| > 1 ==> KeyWithWord(k.Suffix()) == Some(k)
  {
    match k
    case KeyYen => case KeyRo =>
  }



  /** KeyCode[name] finds exactly the member whose name is name: together
      with the round trip, a name and a member determine each other. */
  lemma KeyCodeNameLookup(name: string, k: KeyCode)
    ensures KeyCodeFromName(name) == Ok(k) <==> k.Name() == name
  {
    KeyCodeNameRoundTrip(k);
    var r := KeyCodeFromName(name);
    if r.Ok? {
      if |name| == 5 {
        CharacterNamesKey(name[4]);
        assert name == name[..4] + [name[4]];
      } else {
        WordNamesKey(name[4..]);
        assert name == name[..4] + name[4..];
      }
    }
  }

  lemma CharacterNamesKey(ch: char)
    requires KeyWithCharacter(ch).Some?
    ensures KeyWithCharacter(ch).value.Suffix() == [ch]
  {
  }

  lemma WordNamesKey(w: string)
    requires KeyWithWord(w).Some?
    ensures KeyWithWord(w).value.Suffix() == w
  {
    var k := KeyWithWord(w).value;
    if k in {KeyEnter, KeyEsc, KeyBackspace, KeyTab, KeySpace, KeyGrave, KeyMinus, KeyEqual, KeyLeftBrace} {
      SpecialWordNamesKey(w);
    } else if k in {KeyRightBrace, KeyBackslash, KeySemicolon, KeyApostrophe} {
      BracketWordNamesKey(w);
    } else if k in {KeyComma, KeyDot, KeySlash} {
      PunctuationWordNamesKey(w);
    } else {
      JapaneseWordNamesKey(w);
    }
  }

  lemma SpecialWordNamesKey(w: string)
    requires KeyWithWord(w).Some? && KeyWithWord(w).value in {KeyEnter, KeyEsc, KeyBackspace, KeyTab, KeySpace, KeyGrave, KeyMinus, KeyEqual, KeyLeftBrace}
    ensures KeyWithWord(w).value.Suffix() == w
  {
  }

  lemma BracketWordNamesKey(w: string)
    requires KeyWithWord(w).Some? && KeyWithWord(w).value in {KeyRightBrace, KeyBackslash, KeySemicolon, KeyApostrophe}
    ensures KeyWithWord(w).value.Suffix() == w
  {
  }

  lemma PunctuationWordNamesKey(w: string)
    requires KeyWithWord(w).Some? && KeyWithWord(w).value in {KeyComma, KeyDot, KeySlash}
    ensures KeyWithWord(w).value.Suffix() == w
  {
  }

  lemma JapaneseWordNamesKey(w: string)
    requires KeyWithWord(w).Some? && KeyWithWord(w).value in {KeyYen, KeyRo}
    ensures KeyWithWord(w).value.Suffix() == w
  {
  }

  /** Every key has an entry in the keyboard translation table, so the
      driver can always send it. */
  lemma KeyCodeTranslates(k: KeyCode)
    ensures EvdevToUsbHidKeyboard(k.Value()).Ok?
  {
    ValueFindsKey(k);
    KnownValueTranslates(k.Value());
  }

  /** Every evdev code that names a KeyCode member is in the keyboard table. */
  lemma KnownValueTranslates(value: int)
    requires KeyWithValue(value).Some?
    ensures EvdevToUsbHidKeyboard(value).Ok?
  {
  }

  lemma MouseButtonNameRoundTrip(b: MouseButton)
    ensures MouseButtonFromName(b.Name()) == Ok(b)
  {
  }

  /** Different keys carry different evdev codes. */
  lemma KeyCodeValueInjective(a: KeyCode, b: KeyCode)
    requires a != b
    ensures a.Value() != b.Value()
  {
    ValueFindsKey(a);
    ValueFindsKey(b);
  }

  /** KeyCode(value): the member whose evdev code is value. */
  function KeyWithValue(value: int): Option<KeyCode>
  {
    match value
    case 28 => Some(KeyEnter)
    case 1 => Some(KeyEsc)
    case 14 => Some(KeyBackspace)
    case 15 => Some(KeyTab)
    case 57 => Some(KeySpace)
    case 41 => Some(KeyGrave)
    case 11 => Some(Key0)
    case 2 => Some(Key1)
    case 3 => Some(Key2)
    case 4 => Some(Key3)
    case 5 => Some(Key4)
    case 6 => Some(Key5)
    case 7 => Some(Key6)
    case 8 => Some(Key7)
    case 9 => Some(Key8)
    case 10 => Some(Key9)
    case 30 => Some(KeyA)
    case 48 => Some(KeyB)
    case 46 => Some(KeyC)
    case 32 => Some(KeyD)
    case 18 => Some(KeyE)
    case 33 => Some(KeyF)
    case 34 => Some(KeyG)
    case 35 => Some(KeyH)
    case 23 => Some(KeyI)
    case 36 => Some(KeyJ)
    case 37 => Some(KeyK)
    case 38 => Some(KeyL)
    case 50 => Some(KeyM)
    case 49 => Some(KeyN)
    case 24 => Some(KeyO)
    case 25 => Some(KeyP)
    case 16 => Some(KeyQ)
    case 19 => Some(KeyR)
    case 31 => Some(KeyS)
    case 20 => Some(KeyT)
    case 22 => Some(KeyU)
    case 47 => Some(KeyV)
    case 17 => Some(KeyW)
    case 45 => Some(KeyX)
    case 21 => Some(KeyY)
    case 44 => Some(KeyZ)
    case 12 => Some(KeyMinus)
    case 13 => Some(KeyEqual)
    case 26 => Some(KeyLeftBrace)
    case 27 => Some(KeyRightBrace)
    case 43 => Some(KeyBackslash)
    case 39 => Some(KeySemicolon)
    case 40 => Some(KeyApostrophe)
    case 51 => Some(KeyComma)
    case 52 => Some(KeyDot)
    case 53 => Some(KeySlash)
    case 124 => Some(KeyYen)
    case 89 => Some(KeyRo)
    case _ => None
  }
  /** Looking a member's value up gives the member back. */
  lemma ValueFindsKey(k: KeyCode)
    ensures KeyWithValue(k.Value()) == Some(k)
  {
    match k
    case KeyEnter | KeyEsc | KeyBackspace | KeyTab | KeySpace | KeyGrave | Key0 | Key1 | Key2 | Key3 | Key4 | Key5 | Key6 | Key7 | Key8 | Key9 => ValueFindsSpecialOrDigitKey(k);
    case KeyA | KeyB | KeyC | KeyD | KeyE | KeyF | KeyG | KeyH | KeyI | KeyJ | KeyK | KeyL | KeyM => ValueFindsEarlyLetterKey(k);
    case KeyN | KeyO | KeyP | KeyQ | KeyR | KeyS => ValueFindsMiddleLetterKey(k);
    case KeyT | KeyU | KeyV | KeyW | KeyX | KeyY | KeyZ => ValueFindsLateLetterKey(k);
    case KeyMinus | KeyEqual | KeyLeftBrace | KeyRightBrace => ValueFindsEarlySymbolKey(k);
    case KeyBackslash | KeySemicolon | KeyApostrophe => ValueFindsPunctuationKey(k);
    case KeyComma | KeyDot | KeySlash => ValueFindsLateSymbolKey(k);
    case KeyYen | KeyRo => ValueFindsJapaneseKey(k);
  }

  lemma ValueFindsSpecialOrDigitKey(k: KeyCode)
    requires k in {KeyEnter, KeyEsc, KeyBackspace, KeyTab, KeySpace, KeyGrave, Key0, Key1, Key2, Key3, Key4, Key5, Key6, Key7, Key8, Key9}
    ensures KeyWithValue(k.Value()) == Some(k)
  {
    match k
    case KeyEnter => case KeyEsc => case KeyBackspace => case KeyTab => case KeySpace =>
    case KeyGrave => case Key0 => case Key1 => case Key2 => case Key3 => case Key4 => case Key5 =>
    case Key6 => case Key7 => case Key8 => case Key9 =>
  }

  lemma ValueFindsEarlyLetterKey(k: KeyCode)
    requires k in {KeyA, KeyB, KeyC, KeyD, KeyE, KeyF, KeyG, KeyH, KeyI, KeyJ, KeyK, KeyL, KeyM}
    ensures KeyWithValue(k.Value()) == Some(k)
  {
    match k
    case KeyA => case KeyB => case KeyC => case KeyD => case KeyE => case KeyF => case KeyG =>
    case KeyH => case KeyI => case KeyJ => case KeyK => case KeyL => case KeyM =>
  }

  lemma ValueFindsMiddleLetterKey(k: KeyCode)
    requires k in {KeyN, KeyO, KeyP, KeyQ, KeyR, KeyS}
    ensures KeyWithValue(k.Value()) == Some(k)
  {
    match k
    case KeyN => case KeyO => case KeyP => case KeyQ => case KeyR => case KeyS =>
  }

  lemma ValueFindsLateLetterKey(k: KeyCode)
    requires k in {KeyT, KeyU, KeyV, KeyW, KeyX, KeyY, KeyZ}
    ensures KeyWithValue(k.Value()) == Some(k)
  {
    match k
    case KeyT => case KeyU => case KeyV => case KeyW => case KeyX => case KeyY => case KeyZ =>
  }

  lemma ValueFindsEarlySymbolKey(k: KeyCode)
    requires k in {KeyMinus, KeyEqual, KeyLeftBrace, KeyRightBrace}
    ensures KeyWithValue(k.Value()) == Some(k)
  {
    match k
    case KeyMinus => case KeyEqual => case KeyLeftBrace => case KeyRightBrace =>
  }

  lemma ValueFindsPunctuationKey(k: KeyCode)
    requires k in {KeyBackslash, KeySemicolon, KeyApostrophe}
    ensures KeyWithValue(k.Value()) == Some(k)
  {
    match k
    case KeyBackslash => case KeySemicolon => case KeyApostrophe =>
  }

  lemma ValueFindsLateSymbolKey(k: KeyCode)
    requires k in {KeyComma, KeyDot, KeySlash}
    ensures KeyWithValue(k.Value()) == Some(k)
  {
    match k
    case KeyComma => case KeyDot => case KeySlash =>
  }

  lemma ValueFindsJapaneseKey(k: KeyCode)
    requires k in {KeyYen, KeyRo}
    ensures KeyWithValue(k.Value()) == Some(k)
  {
    match k
    case KeyYen => case KeyRo =>
  }






  datatype MediaKey =
    | Eject | CdStop | PrevTrack | NextTrack | PlayPause | Mute | VolumeDown | VolumeUp
  {
    /** The member's value: the four data bytes of its media frame, a
        report of ID 0x02 with one bit set in the second byte. */
    function Value(): (data: (int, int, int, int))
      ensures data.0 == 0x02 && IsSingleBit(data.1) && data.2 == 0 && data.3 == 0
    {
      match this
      case Eject => (0x02, 0x80, 0x00, 0x00)
      case CdStop => (0x02, 0x40, 0x00, 0x00)
      case PrevTrack => (0x02, 0x20, 0x00, 0x00)
      case NextTrack => (0x02, 0x10, 0x00, 0x00)
      case PlayPause => (0x02, 0x08, 0x00, 0x00)
      case Mute => (0x02, 0x04, 0x00, 0x00)
      case VolumeDown => (0x02, 0x02, 0x00, 0x00)
      case VolumeUp => (0x02, 0x01, 0x00, 0x00)
    }

    function Name(): (name: string)
      ensures |name| > 0
    {
      match this
      case Eject => "EJECT"
      case CdStop => "CD_STOP"
      case PrevTrack => "PREV_TRACK"
      case NextTrack => "NEXT_TRACK"
      case PlayPause => "PLAY_PAUSE"
      case Mute => "MUTE"
      case VolumeDown => "VOLUME_DOWN"
      case VolumeUp => "VOLUME_UP"
    }
  }

  /** MediaKey[name]: the member called name, or KeyError. */
  function MediaKeyFromName(name: string): (r: Result<MediaKey>)
    ensures r.Ok? ==> r.value.Name() == name
    ensures r.Err? ==> r.error == UnknownMemberName(name)
  {
    match name
    case "EJECT" => Ok(Eject)
    case "CD_STOP" => Ok(CdStop)
    case "PREV_TRACK" => Ok(PrevTrack)
    case "NEXT_TRACK" => Ok(NextTrack)
    case "PLAY_PAUSE" => Ok(PlayPause)
    case "MUTE" => Ok(Mute)
    case "VOLUME_DOWN" => Ok(VolumeDown)
    case "VOLUME_UP" => Ok(VolumeUp)
    case _ => Err(UnknownMemberName(name))
  }

  lemma MediaKeyNameRoundTrip(k: MediaKey)
    ensures MediaKeyFromName(k.Name()) == Ok(k)
  {
  }

  /** Different media keys send different data. */
  lemma MediaKeyValueInjective(a: MediaKey, b: MediaKey)
    requires a != b
    ensures a.Value() != b.Value()
  {
  }

  // ---------------------------------------------------------------------------
  // The character table

  /** An entry of the character table: (evdev modifier, evdev key code). The
      modifier is 0 for none. */
  type KeyMapping = (int, int)

  /** str(i) for a digit i. */
  function DigitChar(i: int): (c: char)
    requires 0 <= i < 10
    ensures '0' <= c <= '9' && c as int - '0' as int == i
  {
    ('0' as int + i) as char
  }

  /** char.upper() for a lowercase ASCII letter. */
  function Upper(c: char): (u: char)
    requires 'a' <= c <= 'z'
    ensures 'A' <= u <= 'Z' && u as int == c as int - 32
  {
    (c as int - 32) as char
  }

  /** getattr(KeyCode, f"KEY_{i}").value for a digit i. */
  function DigitCode(i: int): (code: int)
    requires 0 <= i < 10
  {
    match i
    case 0 => KEY_0
    case 1 => KEY_1
    case 2 => KEY_2
    case 3 => KEY_3
    case 4 => KEY_4
    case 5 => KEY_5
    case 6 => KEY_6
    case 7 => KEY_7
    case 8 => KEY_8
    case 9 => KEY_9
    case _ => KEY_9
  }

  /** getattr(KeyCode, f"KEY_{char.upper()}").value for a lowercase letter. */
  function LetterCode(c: char): (code: int)
    requires 'a' <= c <= 'z'
  {
    match c
    case 'a' => KEY_A
    case 'b' => KEY_B
    case 'c' => KEY_C
    case 'd' => KEY_D
    case 'e' => KEY_E
    case 'f' => KEY_F
    case 'g' => KEY_G
    case 'h' => KEY_H
    case 'i' => KEY_I
    case 'j' => KEY_J
    case 'k' => KEY_K
    case 'l' => KEY_L
    case 'm' => KEY_M
    case 'n' => KEY_N
    case 'o' => KEY_O
    case 'p' => KEY_P
    case 'q' => KEY_Q
    case 'r' => KEY_R
    case 's' => KEY_S
    case 't' => KEY_T
    case 'u' => KEY_U
    case 'v' => KEY_V
    case 'w' => KEY_W
    case 'x' => KEY_X
    case 'y' => KEY_Y
    case 'z' => KEY_Z
    case _ => KEY_Z
  }

  /** The digit codes are those of the members named KEY_0 to KEY_9. */
  lemma DigitCodeIsNamedKey(i: int)
    requires 0 <= i < 10
    ensures KeyCodeFromName("KEY_" + [DigitChar(i)]).Ok?
    ensures KeyCodeFromName("KEY_" + [DigitChar(i)]).value.Value() == DigitCode(i)
  {
    var name := "KEY_" + [DigitChar(i)];
    assert |name| == 5 && name[..4] == "KEY_" && name[4] == DigitChar(i);
  }

  /** The letter codes are those of the members named KEY_A to KEY_Z. */
  lemma LetterCodeIsNamedKey(c: char)
    requires 'a' <= c <= 'z'
    ensures KeyCodeFromName("KEY_" + [Upper(c)]).Ok?
    ensures KeyCodeFromName("KEY_" + [Upper(c)]).value.Value() == LetterCode(c)
  {
    var name := "KEY_" + [Upper(c)];
    assert |name| == 5 && name[..4] == "KEY_" && name[4] == Upper(c);
    LetterKeyIsNamed(c);
    LetterKeyValue(c);
  }

  /** The KeyCode member whose name ends in the upper-case letter. */
  function LetterKey(c: char): KeyCode
    requires 'a' <= c <= 'z'
  {
    match c
    case 'a' => KeyA
    case 'b' => KeyB
    case 'c' => KeyC
    case 'd' => KeyD
    case 'e' => KeyE
    case 'f' => KeyF
    case 'g' => KeyG
    case 'h' => KeyH
    case 'i' => KeyI
    case 'j' => KeyJ
    case 'k' => KeyK
    case 'l' => KeyL
    case 'm' => KeyM
    case 'n' => KeyN
    case 'o' => KeyO
    case 'p' => KeyP
    case 'q' => KeyQ
    case 'r' => KeyR
    case 's' => KeyS
    case 't' => KeyT
    case 'u' => KeyU
    case 'v' => KeyV
    case 'w' => KeyW
    case 'x' => KeyX
    case 'y' => KeyY
    case _ => KeyZ
  }

  lemma LetterKeyIsNamed(c: char)
    requires 'a' <= c <= 'z'
    ensures KeyWithCharacter(Upper(c)) == Some(LetterKey(c))
  {
    if c <= 'm' {
      EarlyLetterKeyIsNamed(c);
    } else {
      LateLetterKeyIsNamed(c);
    }
  }

  lemma EarlyLetterKeyIsNamed(c: char)
    requires 'a' <= c <= 'm'
    ensures KeyWithCharacter(Upper(c)) == Some(LetterKey(c))
  {
  }

  lemma LateLetterKeyIsNamed(c: char)
    requires 'n' <= c <= 'z'
    ensures KeyWithCharacter(Upper(c)) == Some(LetterKey(c))
  {
  }

  lemma LetterKeyValue(c: char)
    requires 'a' <= c <= 'z'
    ensures LetterKey(c).Value() == LetterCode(c)
  {
  }


  /** The dictionary literal the table starts from: symbols typed without
      shift, plus the Japanese-layout entries '@', '^', '\' and '_'. The
      entry for '_' carries the raw modifier 0x02 (which is evdev KEY_1),
      where the letters and shifted symbols carry KEY_LEFTSHIFT. */
  const BaseSymbols: map<string, KeyMapping> := map[
    "-" := (0x00, KeyMinus.Value()),
    "=" := (0x00, KeyEqual.Value()),
    "[" := (0x00, KeyLeftBrace.Value()),
    "]" := (0x00, KeyRightBrace.Value()),
    ";" := (0x00, KeySemicolon.Value()),
    "'" := (0x00, KeyApostrophe.Value()),
    "`" := (0x00, KeyGrave.Value()),
    "," := (0x00, KeyComma.Value()),
    "." := (0x00, KeyDot.Value()),
    "/" := (0x00, KeySlash.Value()),
    " " := (0x00, KeySpace.Value()),
    "@" := (0x00, KeyLeftBrace.Value()),
    "^" := (0x00, KeyEqual.Value()),
    "\\" := (0x00, KeyYen.Value()),
    "_" := (0x02, KeyYen.Value())
  ]

  /** The shifted symbols and the base character whose key they shift. The
      key "\"'" has two characters, and the base ':' of '*' is never in the
      table. */
  const ShiftedSymbols: map<string, string> := map[
    "!" := "1",
    "\"'" := "2",
    "#" := "3",
    "$" := "4",
    "%" := "5",
    "&" := "6",
    "'" := "7",
    "(" := "8",
    ")" := "9",
    "~" := "=",
    "|" := "\\",
    "{" := "[",
    "}" := "]",
    "+" := ";",
    "*" := ":",
    "<" := ",",
    ">" := ".",
    "?" := "/"
  ]

  predicate IsDigitString(s: string)
  {
    |s| == 1 && '0' <= s[0] <= '9'
  }

  predicate IsLowerString(s: string)
  {
    |s| == 1 && 'a' <= s[0] <= 'z'
  }

  predicate IsUpperString(s: string)
  {
    |s| == 1 && 'A' <= s[0] <= 'Z'
  }

  /** The table after the literal, the digits and the letters; the digit and
      letter entries are written after the literal ones and so take
      precedence. */
  function UnshiftedEntry(s: string): (r: Option<KeyMapping>)
    ensures r.Some? ==> r.value.0 in {0x00, 0x02, KEY_LEFTSHIFT}
  {
    if IsLowerString(s) then Some((0x00, LetterCode(s[0])))
    else if IsUpperString(s) then Some((KeyLeftShift.Value(), LetterCode((s[0] as int + 32) as char)))
    else if IsDigitString(s) then Some((0x00, DigitCode(s[0] as int - '0' as int)))
    else if s in BaseSymbols then Some(BaseSymbols[s])
    else None
  }

  /** The finished table, _CHARACTER_MAP, entry by entry: a shifted symbol
      whose base character is in the table is KEY_LEFTSHIFT with the base's
      key code, and overrides any earlier entry; every other string keeps
      its unshifted entry, if any. */
  function CharacterEntry(s: string): (r: Option<KeyMapping>)
    ensures r.Some? ==> r.value.0 in {0x00, 0x02, KEY_LEFTSHIFT}
    ensures s !in ShiftedSymbols ==> r == UnshiftedEntry(s)
  {
    if s in ShiftedSymbols && UnshiftedEntry(ShiftedSymbols[s]).Some? then
      Some((KeyLeftShift.Value(), UnshiftedEntry(ShiftedSymbols[s]).value.1))
    else
      UnshiftedEntry(s)
  }

  /** _build_character_map: the dictionary literal, then the three loops
      that add digits, letters and shifted symbols, each overwriting what
      came before. */
  method BuildCharacterMap() returns (table: map<string, KeyMapping>)
    ensures forall s :: s in table <==> CharacterEntry(s).Some?
    ensures forall s :: s in table ==> table[s] == CharacterEntry(s).value
  {
    BaseSymbolsAreUnshiftedEntries();
    table := AddDigits(BaseSymbols);
    table := AddLetters(table);
    ghost var unshifted := table;
    UnshiftedDomain();
    table := AddShiftedSymbols(table);
    forall s
      ensures s in table <==> CharacterEntry(s).Some?
      ensures s in table ==> table[s] == CharacterEntry(s).value
    {
      if s in ShiftedSymbols {
        assert ShiftedSymbols[s] in unshifted <==> UnshiftedEntry(ShiftedSymbols[s]).Some?;
      }
    }
  }

  /** The loop over range(10): str(i) is typed as KEY_<i> without modifier. */
  method AddDigits(start: map<string, KeyMapping>) returns (table: map<string, KeyMapping>)
    ensures forall s :: s in table <==> s in start || IsDigitString(s)
    ensures forall s :: s in table ==>
      table[s] == if IsDigitString(s) then (0x00, DigitCode(s[0] as int - '0' as int)) else start[s]
  {
    table := start;
    for i := 0 to 10
      invariant forall s :: s in table <==> s in start || (IsDigitString(s) && s[0] as int - '0' as int < i)
      invariant forall s :: s in table ==>
        table[s] == if IsDigitString(s) && s[0] as int - '0' as int < i then (0x00, DigitCode(s[0] as int - '0' as int)) else start[s]
    {
      forall s | IsDigitString(s) && s[0] as int - '0' as int == i
        ensures s == [DigitChar(i)]
      {
        assert s == [s[0]];
      }
      table := table[[DigitChar(i)] := (0x00, DigitCode(i))];
    }
  }

  /** The loop over 'a'..'z': each lowercase letter is typed as its key
      without modifier, its uppercase form as the same key with
      KEY_LEFTSHIFT. */
  method AddLetters(start: map<string, KeyMapping>) returns (table: map<string, KeyMapping>)
    ensures forall s :: s in table <==> s in start || IsLowerString(s) || IsUpperString(s)
    ensures forall s :: s in table ==>
      table[s] ==
        if IsLowerString(s) then (0x00, LetterCode(s[0]))
        else if IsUpperString(s) then (KEY_LEFTSHIFT, LetterCode((s[0] as int + 32) as char))
        else start[s]
  {
    table := start;
    for code := 'a' as int to 'z' as int + 1
      invariant forall s :: s in table <==> (s in start
        || (IsLowerString(s) && s[0] as int < code) || (IsUpperString(s) && s[0] as int + 32 < code))
      invariant forall s :: s in table ==>
        table[s] ==
          if IsLowerString(s) && s[0] as int < code then (0x00, LetterCode(s[0]))
          else if IsUpperString(s) && s[0] as int + 32 < code then (KEY_LEFTSHIFT, LetterCode((s[0] as int + 32) as char))
          else start[s]
    {
      var c := code as char;
      var keycode := LetterCode(c);
      forall s | IsLowerString(s) && s[0] as int == code
        ensures s == [c]
      {
        assert s == [s[0]];
      }
      forall s | IsUpperString(s) && s[0] as int + 32 == code
        ensures s == [Upper(c)]
      {
        assert s == [s[0]];
      }
      assert (Upper(c) as int + 32) as char == c;
      table := table[[c] := (0x00, keycode)];
      table := table[[Upper(c)] := (KeyLeftShift.Value(), keycode)];
    }
  }

  /** The loop over the shifted symbols: a symbol whose base character is
      already in the table gets KEY_LEFTSHIFT and the base's key code; the
      others are skipped. Python visits the symbols in insertion order; the
      model lets the loop visit them in any order. */
  method AddShiftedSymbols(start: map<string, KeyMapping>) returns (table: map<string, KeyMapping>)
    ensures forall s :: s in table <==> s in start || ShiftedFrom(s, start)
    ensures forall s :: s in table ==>
      table[s] == if ShiftedFrom(s, start) then (KEY_LEFTSHIFT, start[ShiftedSymbols[s]].1) else start[s]
  {
    table := start;
    var pending := ShiftedSymbols.Keys;
    while pending != {}
      invariant pending <= ShiftedSymbols.Keys
      invariant forall s :: s in table <==> s in start || (ShiftedFrom(s, start) && s !in pending)
      invariant forall s :: s in table ==>
        table[s] == if ShiftedFrom(s, start) && s !in pending then (KEY_LEFTSHIFT, start[ShiftedSymbols[s]].1) else start[s]
      decreases pending
    {
      var symbol :| symbol in pending;
      var baseChar := ShiftedSymbols[symbol];
      BaseCharacterIsNotShifted(symbol);
      if baseChar in table {
        var (_, keycode) := table[baseChar];
        table := table[symbol := (KeyLeftShift.Value(), keycode)];
      }
      pending := pending - {symbol};
    }
  }

  /** A shifted symbol whose base character is in the table. */
  predicate ShiftedFrom(s: string, table: map<string, KeyMapping>)
  {
    s in ShiftedSymbols && ShiftedSymbols[s] in table
  }

  lemma BaseSymbolsAreUnshiftedEntries()
    ensures forall s :: s in BaseSymbols ==> !IsDigitString(s) && !IsLowerString(s) && !IsUpperString(s)
    ensures forall s :: s in BaseSymbols ==> UnshiftedEntry(s) == Some(BaseSymbols[s])
  {
  }

  lemma UnshiftedDomain()
    ensures forall s :: UnshiftedEntry(s).Some? <==>
      s in BaseSymbols || IsDigitString(s) || IsLowerString(s) || IsUpperString(s)
  {
  }

  /** No base character is itself a shifted symbol, so the shifted loop reads
      only entries it never writes, and its visiting order does not matter. */
  lemma BaseCharacterIsNotShifted(symbol: string)
    requires symbol in ShiftedSymbols
    ensures ShiftedSymbols[symbol] !in ShiftedSymbols
  {
  }

  /** get_key_mapping: the entry for a character, or ValueError
      "Unsupported character". */
  function GetKeyMapping(character: string): (r: Result<KeyMapping>)
    ensures r.Ok? <==> CharacterEntry(character).Some?
    ensures r.Ok? ==> r.value == CharacterEntry(character).value
    ensures r.Err? ==> r.error == UnsupportedCharacter(character)
  {
    match CharacterEntry(character)
    case Some(mapping) => Ok(mapping)
    case None => Err(UnsupportedCharacter(character))
  }

  /** Letters: a lowercase letter is its key without modifier. */
  lemma LowerLetterMapping(c: char)
    requires 'a' <= c <= 'z'
    ensures GetKeyMapping([c]) == Ok((0x00, LetterCode(c)))
  {
  }

  /** The uppercase form of a letter is the same key with KEY_LEFTSHIFT. */
  lemma UpperLetterMapping(c: char)
    requires 'a' <= c <= 'z'
    ensures GetKeyMapping([Upper(c)]) == Ok((KEY_LEFTSHIFT, LetterCode(c)))
  {
    assert [Upper(c)][0] as int + 32 == c as int;
  }

  /** Digits: the character of d is KEY_d without modifier. */
  lemma DigitMapping(i: int)
    requires 0 <= i < 10
    ensures GetKeyMapping([DigitChar(i)]) == Ok((0x00, DigitCode(i)))
  {
  }

  /** get_key_mapping('a') is (0, 30) and get_key_mapping('A') is (42, 30). */
  lemma LetterExamples()
    ensures GetKeyMapping("a") == Ok((0x00, KEY_A))
    ensures GetKeyMapping("A") == Ok((KEY_LEFTSHIFT, KEY_A))
  {
    LowerLetterMapping('a');
    UpperLetterMapping('a');
  }

  /** '!' is shift with the key of '1'. */
  lemma ShiftedDigitExample()
    ensures GetKeyMapping("!") == Ok((KEY_LEFTSHIFT, KEY_1))
  {
  }

  /** On the Japanese layout '@' is the key right of P, unshifted. */
  lemma AtSignExample()
    ensures GetKeyMapping("@") == Ok((0x00, KEY_LEFTBRACE))
  {
  }

  /** The apostrophe first gets its own key, then the shifted loop overwrites
      it with shift and the key of '7'. */
  lemma ApostropheOverwritten()
    ensures "'" in BaseSymbols && BaseSymbols["'"] == (0x00, KEY_APOSTROPHE)
    ensures GetKeyMapping("'") == Ok((KEY_LEFTSHIFT, KEY_7))
  {
  }

  /** '_' carries the raw modifier 0x02 on the Yen key. */
  lemma UnderscoreExample()
    ensures GetKeyMapping("_") == Ok((0x02, KEY_YEN))
  {
  }

  /** The two-character key "\"'" is shift with the key of '2'. */
  lemma TwoCharacterKeyExample()
    ensures GetKeyMapping("\"'") == Ok((KEY_LEFTSHIFT, KEY_2))
  {
  }

  /** '"' has no entry of its own: the shifted table lists it only inside
      the two-character key "\"'". */
  lemma DoubleQuoteUnsupported()
    ensures GetKeyMapping("\"") == Err(UnsupportedCharacter("\""))
  {
  }

  /** '*' is skipped because its base ':' is never in the table. */
  lemma AsteriskSkipped()
    ensures "*" in ShiftedSymbols && GetKeyMapping(ShiftedSymbols["*"]).Err?
    ensures GetKeyMapping("*") == Err(UnsupportedCharacter("*"))
  {
  }

  /** The empty string is not a character of the table. */
  lemma EmptyStringUnsupported()
    ensures GetKeyMapping("") == Err(UnsupportedCharacter(""))
  {
  }

  /** Every key code the table holds has a scan code in the keyboard
      translation table, so typing a supported character never fails on
      the key itself. */
  lemma CharacterKeycodeTranslates(character: string)
    requires GetKeyMapping(character).Ok?
    ensures EvdevToUsbHidKeyboard(GetKeyMapping(character).value.1).Ok?
  {
    if character in ShiftedSymbols && UnshiftedEntry(ShiftedSymbols[character]).Some? {
      UnshiftedKeycodeTranslates(ShiftedSymbols[character]);
    } else {
      UnshiftedKeycodeTranslates(character);
    }
  }

  lemma UnshiftedKeycodeTranslates(s: string)
    requires UnshiftedEntry(s).Some?
    ensures EvdevToUsbHidKeyboard(UnshiftedEntry(s).value.1).Ok?
  {
    if IsLowerString(s) {
      LetterCodeTranslates(s[0]);
    } else if IsUpperString(s) {
      LetterCodeTranslates((s[0] as int + 32) as char);
    } else if IsDigitString(s) {
      DigitCodeTranslates(s[0] as int - '0' as int);
    } else {
      BaseSymbolsTranslate();
    }
  }

  lemma LetterCodeTranslates(c: char)
    requires 'a' <= c <= 'z'
    ensures EvdevToUsbHidKeyboard(LetterCode(c)).Ok?
  {
  }

  lemma DigitCodeTranslates(i: int)
    requires 0 <= i < 10
    ensures EvdevToUsbHidKeyboard(DigitCode(i)).Ok?
  {
  }

  lemma BaseSymbolsTranslate()
    ensures forall s :: s in BaseSymbols ==> EvdevToUsbHidKeyboard(BaseSymbols[s].1).Ok?
  {
  }

  /** The modifier of an entry is 0x00 or KEY_LEFTSHIFT, except for '_',
      whose raw 0x02 is not a modifier key at all. */
  lemma CharacterModifier(character: string)
    requires GetKeyMapping(character).Ok?
    ensures GetKeyMapping(character).value.0 in {0x00, KEY_LEFTSHIFT}
      || (character == "_" && GetKeyMapping(character).value.0 == 0x02)
  {
    BaseModifiers();
  }

  lemma BaseModifiers()
    ensures forall s :: s in BaseSymbols ==> BaseSymbols[s].0 == 0x00 || s == "_"
  {
  }

  /** Of the printable ASCII characters exactly '"', '*' and ':' are unsupported. */
  lemma PrintableAsciiCoverage(ch: char)
    requires ' ' <= ch <= '~'
    ensures GetKeyMapping([ch]).Ok? <==> ch != '"' && ch != '*' && ch != ':'
  {
    if ch < '(' {
      PunctuationBeforeDigits(ch);
    } else if ch < '0' {
      PunctuationBeforeDigitsContinued(ch);
    } else if ch <= '9' {
      DigitMapping(ch as int - '0' as int);
      assert [ch] == [DigitChar(ch as int - '0' as int)];
    } else if ch < 'A' {
      PunctuationAfterDigits(ch);
    } else if ch <= 'Z' {
      UpperLetterMapping((ch as int + 32) as char);
      assert [ch] == [Upper((ch as int + 32) as char)];
    } else if ch < 'a' {
      PunctuationAfterUpper(ch);
    } else if ch <= 'z' {
      LowerLetterMapping(ch);
    } else {
      PunctuationAfterLower(ch);
    }
  }

  lemma PunctuationBeforeDigits(ch: char)
    requires ' ' <= ch < '('
    ensures GetKeyMapping([ch]).Ok? <==> ch != '"' && ch != '*' && ch != ':'
  {
  }

  lemma PunctuationBeforeDigitsContinued(ch: char)
    requires '(' <= ch < '0'
    ensures GetKeyMapping([ch]).Ok? <==> ch != '"' && ch != '*' && ch != ':'
  {
  }

  lemma PunctuationAfterDigits(ch: char)
    requires ':' <= ch < 'A'
    ensures GetKeyMapping([ch]).Ok? <==> ch != '"' && ch != '*' && ch != ':'
  {
  }

  lemma PunctuationAfterUpper(ch: char)
    requires '[' <= ch < 'a'
    ensures GetKeyMapping([ch]).Ok? <==> ch != '"' && ch != '*' && ch != ':'
  {
  }

  lemma PunctuationAfterLower(ch: char)
    requires '{' <= ch <= '~'
    ensures GetKeyMapping([ch]).Ok? <==> ch != '"' && ch != '*' && ch != ':'
  {
  }

  /** KeyboardState: the modifier keys held and the ordinary keys pressed,
      in order; both default to empty, so KeyboardState() holds nothing.
      The driver's KeyboardInput is this type. */
  datatype KeyboardState = KeyboardState(modifiers: set<ModifierKey> := {}, keys: seq<KeyCode> := [])

  /** A state that passed the rollover check of __post_init__. */
  type ValidKeyboardState = s: KeyboardState | |s.keys| <= MaxRolloverKeys
    witness KeyboardState({}, [])

  /** KeyboardState(modifiers, keys): more than six keys is ValueError
      "Maximum 6 keys allowed"; otherwise the state keeps both fields as given.
      Both default to empty. */
  function NewKeyboardState(modifiers: set<ModifierKey> := {}, keys: seq<KeyCode> := []): (r: Result<ValidKeyboardState>)
    ensures r.Ok? <==> |keys| <= MaxRolloverKeys
    ensures r.Ok? ==> r.value.modifiers == modifiers && r.value.keys == keys
    ensures r.Err? ==> r.error == TooManyKeys(|keys|)
  {
    if |keys| > MaxRolloverKeys then Err(TooManyKeys(|keys|))
    else Ok(KeyboardState(modifiers, keys))
  }

  /** The driver's MouseInput: buttons held, relative movement and scroll.
      It carries no check of its own; the packet builder clamps the values. */
  datatype MouseInput = MouseInput(buttons: set<MouseButton>, x: int, y: int, scroll: int)
}
