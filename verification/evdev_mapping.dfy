/** Translation from Linux evdev codes to the chip's native codes
    (evdev_mapping.py). The keyboard table yields usage IDs of the
    Keyboard/Keypad page (0x07) of the USB HID Usage Tables 1.12, section 10;
    the modifier table yields the bits of the modifier byte of the boot
    keyboard report and the mouse table the bits of the button byte
    (Appendix B of the USB Device Class Definition for HID 1.11).

    Each constant dictionary of the driver is a function from an evdev code
    to an optional entry; the case labels are the numeric values of the
    evdev names written beside them. */
module EvdevMapping {
  import opened Wrappers
  import opened Ecodes

  /** The keyboard dictionary: evdev key code to HID usage ID. */
  function KeyboardEntry(evdevCode: int): (r: Option<int>)
    ensures r.Some? ==> 0x04 <= r.value < 256
  {
    match evdevCode
    // Letters A-Z
    case 30 => Some(0x04)  // KEY_A
    case 48 => Some(0x05)  // KEY_B
    case 46 => Some(0x06)  // KEY_C
    case 32 => Some(0x07)  // KEY_D
    case 18 => Some(0x08)  // KEY_E
    case 33 => Some(0x09)  // KEY_F
    case 34 => Some(0x0A)  // KEY_G
    case 35 => Some(0x0B)  // KEY_H
    case 23 => Some(0x0C)  // KEY_I
    case 36 => Some(0x0D)  // KEY_J
    case 37 => Some(0x0E)  // KEY_K
    case 38 => Some(0x0F)  // KEY_L
    case 50 => Some(0x10)  // KEY_M
    case 49 => Some(0x11)  // KEY_N
    case 24 => Some(0x12)  // KEY_O
    case 25 => Some(0x13)  // KEY_P
    case 16 => Some(0x14)  // KEY_Q
    case 19 => Some(0x15)  // KEY_R
    case 31 => Some(0x16)  // KEY_S
    case 20 => Some(0x17)  // KEY_T
    case 22 => Some(0x18)  // KEY_U
    case 47 => Some(0x19)  // KEY_V
    case 17 => Some(0x1A)  // KEY_W
    case 45 => Some(0x1B)  // KEY_X
    case 21 => Some(0x1C)  // KEY_Y
    case 44 => Some(0x1D)  // KEY_Z
    // Digits 0-9
    case 2 => Some(0x1E)  // KEY_1
    case 3 => Some(0x1F)  // KEY_2
    case 4 => Some(0x20)  // KEY_3
    case 5 => Some(0x21)  // KEY_4
    case 6 => Some(0x22)  // KEY_5
    case 7 => Some(0x23)  // KEY_6
    case 8 => Some(0x24)  // KEY_7
    case 9 => Some(0x25)  // KEY_8
    case 10 => Some(0x26)  // KEY_9
    case 11 => Some(0x27)  // KEY_0
    // Special keys
    case 28 => Some(0x28)  // KEY_ENTER
    case 1 => Some(0x29)  // KEY_ESC
    case 14 => Some(0x2A)  // KEY_BACKSPACE
    case 15 => Some(0x2B)  // KEY_TAB
    case 57 => Some(0x2C)  // KEY_SPACE
    case 41 => Some(0x35)  // KEY_GRAVE
    // Symbol keys
    case 12 => Some(0x2D)  // KEY_MINUS
    case 13 => Some(0x2E)  // KEY_EQUAL
    case 26 => Some(0x2F)  // KEY_LEFTBRACE
    case 27 => Some(0x30)  // KEY_RIGHTBRACE
    case 43 => Some(0x31)  // KEY_BACKSLASH
    case 39 => Some(0x33)  // KEY_SEMICOLON
    case 40 => Some(0x34)  // KEY_APOSTROPHE
    case 51 => Some(0x36)  // KEY_COMMA
    case 52 => Some(0x37)  // KEY_DOT
    case 53 => Some(0x38)  // KEY_SLASH
    case 89 => Some(0x87)  // KEY_RO
    case 124 => Some(0x89)  // KEY_YEN
    case _ => None
  }

  /** The mouse dictionary: evdev button code to button bit. */
  function MouseEntry(evdevCode: int): (r: Option<int>)
    ensures r.Some? ==> IsSingleBit(r.value)
  {
    match evdevCode
    case 272 => Some(0x01)  // BTN_LEFT
    case 273 => Some(0x02)  // BTN_RIGHT
    case 274 => Some(0x04)  // BTN_MIDDLE
    case _ => None
  }

  /** The modifier dictionary: evdev key code to modifier bit. */
  function ModifierEntry(evdevCode: int): (r: Option<int>)
    ensures r.Some? ==> IsSingleBit(r.value)
  {
    match evdevCode
    case 29 => Some(0x01)  // KEY_LEFTCTRL
    case 97 => Some(0x10)  // KEY_RIGHTCTRL
    case 42 => Some(0x02)  // KEY_LEFTSHIFT
    case 54 => Some(0x20)  // KEY_RIGHTSHIFT
    case 56 => Some(0x04)  // KEY_LEFTALT
    case 100 => Some(0x40)  // KEY_RIGHTALT
    case 125 => Some(0x08)  // KEY_LEFTMETA
    case 126 => Some(0x80)  // KEY_RIGHTMETA
    case _ => None
  }

  /** One of the eight bits of a byte. */
  predicate IsSingleBit(v: int)
  {
    v == 0x01 || v == 0x02 || v == 0x04 || v == 0x08 || v == 0x10 || v == 0x20 || v == 0x40 || v == 0x80
  }

  /** evdev_to_usb_hid_keyboard: the scan code, or UnsupportedEvdevCodeError. */
  function EvdevToUsbHidKeyboard(evdevCode: int): (r: Result<int>)
    ensures r.Ok? <==> KeyboardEntry(evdevCode).Some?
    ensures r.Ok? ==> r.value == KeyboardEntry(evdevCode).value && 0x04 <= r.value < 256
    ensures r.Err? ==> r.error == UnsupportedEvdevCode(evdevCode)
  {
    match KeyboardEntry(evdevCode)
    case Some(scanCode) => Ok(scanCode)
    case None => Err(UnsupportedEvdevCode(evdevCode))
  }

  /** evdev_to_usb_hid_mouse: the button bit, or UnsupportedEvdevCodeError. */
  function EvdevToUsbHidMouse(evdevCode: int): (r: Result<int>)
    ensures r.Ok? <==> evdevCode == BTN_LEFT || evdevCode == BTN_RIGHT || evdevCode == BTN_MIDDLE
    ensures evdevCode == BTN_LEFT ==> r == Ok(0x01)
    ensures evdevCode == BTN_RIGHT ==> r == Ok(0x02)
    ensures evdevCode == BTN_MIDDLE ==> r == Ok(0x04)
    ensures r.Err? ==> r.error == UnsupportedEvdevCode(evdevCode)
  {
    match MouseEntry(evdevCode)
    case Some(bit) => Ok(bit)
    case None => Err(UnsupportedEvdevCode(evdevCode))
  }

  /** evdev_to_usb_hid_modifier: the modifier bit, or UnsupportedEvdevCodeError. */
  function EvdevToUsbHidModifier(evdevCode: int): (r: Result<int>)
    ensures r.Ok? <==> ModifierEntry(evdevCode).Some?
    ensures r.Ok? ==> IsSingleBit(r.value)
    ensures evdevCode == KEY_LEFTCTRL ==> r == Ok(0x01)
    ensures evdevCode == KEY_LEFTSHIFT ==> r == Ok(0x02)
    ensures evdevCode == KEY_LEFTALT ==> r == Ok(0x04)
    ensures evdevCode == KEY_LEFTMETA ==> r == Ok(0x08)
    ensures evdevCode == KEY_RIGHTCTRL ==> r == Ok(0x10)
    ensures evdevCode == KEY_RIGHTSHIFT ==> r == Ok(0x20)
    ensures evdevCode == KEY_RIGHTALT ==> r == Ok(0x40)
    ensures evdevCode == KEY_RIGHTMETA ==> r == Ok(0x80)
    ensures r.Err? ==> r.error == UnsupportedEvdevCode(evdevCode)
  {
    match ModifierEntry(evdevCode)
    case Some(bit) => Ok(bit)
    case None => Err(UnsupportedEvdevCode(evdevCode))
  }

  /** is_supported_evdev_code: present in any of the three dictionaries. */
  function IsSupportedEvdevCode(evdevCode: int): (b: bool)
    ensures b <==> EvdevToUsbHidKeyboard(evdevCode).Ok? || EvdevToUsbHidMouse(evdevCode).Ok? || EvdevToUsbHidModifier(evdevCode).Ok?
  {
    KeyboardEntry(evdevCode).Some? || MouseEntry(evdevCode).Some? || ModifierEntry(evdevCode).Some?
  }

  /** No two evdev codes share a scan code, so the keyboard table is invertible. */
  lemma KeyboardTableInjective(a: int, b: int)
    requires EvdevToUsbHidKeyboard(a).Ok? && EvdevToUsbHidKeyboard(b).Ok? && a != b
    ensures EvdevToUsbHidKeyboard(a).value != EvdevToUsbHidKeyboard(b).value
  {
  }

  /** The eight modifier keys own eight different bits, so OR-ing them loses nothing. */
  lemma ModifierTableInjective(a: int, b: int)
    requires EvdevToUsbHidModifier(a).Ok? && EvdevToUsbHidModifier(b).Ok? && a != b
    ensures EvdevToUsbHidModifier(a).value != EvdevToUsbHidModifier(b).value
  {
  }

  /** The three buttons own three different bits. */
  lemma MouseTableInjective(a: int, b: int)
    requires EvdevToUsbHidMouse(a).Ok? && EvdevToUsbHidMouse(b).Ok? && a != b
    ensures EvdevToUsbHidMouse(a).value != EvdevToUsbHidMouse(b).value
  {
  }

  /** The three dictionaries are disjoint: no evdev code is two kinds of key. */
  lemma TablesDisjoint(evdevCode: int)
    ensures !(EvdevToUsbHidKeyboard(evdevCode).Ok? && EvdevToUsbHidModifier(evdevCode).Ok?)
    ensures !(EvdevToUsbHidKeyboard(evdevCode).Ok? && EvdevToUsbHidMouse(evdevCode).Ok?)
    ensures !(EvdevToUsbHidMouse(evdevCode).Ok? && EvdevToUsbHidModifier(evdevCode).Ok?)
  {
  }

  /** Letters A..Z map to the consecutive usage IDs 0x04..0x1D, digits 1..0
      to 0x1E..0x27, and the Japanese Yen key to International3 (0x89). */
  lemma KeyboardTableExamples()
    ensures EvdevToUsbHidKeyboard(KEY_A) == Ok(0x04)
    ensures EvdevToUsbHidKeyboard(KEY_Z) == Ok(0x1D)
    ensures EvdevToUsbHidKeyboard(KEY_1) == Ok(0x1E)
    ensures EvdevToUsbHidKeyboard(KEY_0) == Ok(0x27)
    ensures EvdevToUsbHidKeyboard(KEY_YEN) == Ok(0x89)
  {
  }

  /** Codes outside the tables, and modifiers looked up as ordinary keys, are refused. */
  lemma UnsupportedExamples()
    ensures !IsSupportedEvdevCode(999)
    ensures EvdevToUsbHidKeyboard(999) == Err(UnsupportedEvdevCode(999))
    ensures EvdevToUsbHidKeyboard(KEY_LEFTCTRL) == Err(UnsupportedEvdevCode(KEY_LEFTCTRL))
    ensures EvdevToUsbHidModifier(KEY_A) == Err(UnsupportedEvdevCode(KEY_A))
  {
  }
}
