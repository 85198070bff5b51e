/** CH9329Driver (driver.py): keyboard, mouse and media calls turned into
    frames sent through a communication adapter, each recordable call also
    handed to an optional operation recorder.

    The adapter is reduced to the list of frames sent through it; the serial
    port behind it is not part of this model. */
module Driver {
  import opened Wrappers
  import opened Protocol
  import opened EvdevMapping
  import opened Models
  import opened Recorder

  // ---------------------------------------------------------------------------
  // Bit masks

  /** The modifier byte of the boot keyboard report (USB HID 1.11,
      Appendix B.1): bit 0 left Ctrl, 1 left Shift, 2 left Alt, 3 left GUI,
      4 to 7 the same on the right. */
  function ModifierMask(modifiers: set<ModifierKey>): bv8
  {
    (if KeyLeftCtrl in modifiers then 0x01 else 0)
    | (if KeyLeftShift in modifiers then 0x02 else 0)
    | (if KeyLeftAlt in modifiers then 0x04 else 0)
    | (if KeyLeftMeta in modifiers then 0x08 else 0)
    | (if KeyRightCtrl in modifiers then 0x10 else 0)
    | (if KeyRightShift in modifiers then 0x20 else 0)
    | (if KeyRightAlt in modifiers then 0x40 else 0)
    | (if KeyRightMeta in modifiers then 0x80 else 0)
  }

  /** The button byte of the boot mouse report: bit 0 left, 1 right, 2 middle. */
  function ButtonMask(buttons: set<MouseButton>): bv8
  {
    (if BtnLeft in buttons then 0x01 else 0)
    | (if BtnRight in buttons then 0x02 else 0)
    | (if BtnMiddle in buttons then 0x04 else 0)
  }

  /** The modifier byte key_down builds from its four flags. */
  function FlagsMask(shift: bool, ctrl: bool, alt: bool, windows: bool): bv8
  {
    (if ctrl then 0x01 else 0) | (if shift then 0x02 else 0)
    | (if alt then 0x04 else 0) | (if windows then 0x08 else 0)
  }

  /** The left-hand modifier keys the four flags of key_down stand for. */
  function LeftModifiers(shift: bool, ctrl: bool, alt: bool, windows: bool): set<ModifierKey>
  {
    (if ctrl then {KeyLeftCtrl} else {}) + (if shift then {KeyLeftShift} else {})
    + (if alt then {KeyLeftAlt} else {}) + (if windows then {KeyLeftMeta} else {})
  }

  /** The bit a modifier key owns in the modifier byte: the byte of the
      report in which that key alone is held. */
  function ModifierBit(m: ModifierKey): (bit: bv8)
    ensures bit == ModifierMask({m})
  {
    match m
    case KeyLeftCtrl => 0x01
    case KeyLeftShift => 0x02
    case KeyLeftAlt => 0x04
    case KeyLeftMeta => 0x08
    case KeyRightCtrl => 0x10
    case KeyRightShift => 0x20
    case KeyRightAlt => 0x40
    case KeyRightMeta => 0x80
  }

  /** The bit a button owns in the button byte: the byte in which that
      button alone is held. */
  function ButtonBit(b: MouseButton): (bit: bv8)
    ensures bit == ButtonMask({b})
  {
    match b
    case BtnLeft => 0x01
    case BtnRight => 0x02
    case BtnMiddle => 0x04
  }

  /** A key is held exactly when its bit is set in the modifier byte. */
  lemma ModifierMaskBits(modifiers: set<ModifierKey>, m: ModifierKey)
    ensures ModifierMask(modifiers) & ModifierBit(m) != 0 <==> m in modifiers
  {
  }

  /** A button is held exactly when its bit is set, and no bit above the
      three buttons is ever set. */
  lemma ButtonMaskBits(buttons: set<MouseButton>, b: MouseButton)
    ensures ButtonMask(buttons) & ButtonBit(b) != 0 <==> b in buttons
    ensures ButtonMask(buttons) < 8
  {
  }

  /** key_down's flags are the left-hand Ctrl, Shift, Alt and GUI bits of
      the report, and nothing else. */
  lemma FlagsAreLeftModifiers(shift: bool, ctrl: bool, alt: bool, windows: bool)
    ensures FlagsMask(shift, ctrl, alt, windows) == ModifierMask(LeftModifiers(shift, ctrl, alt, windows))
    ensures FlagsMask(shift, ctrl, alt, windows) < 0x10
  {
  }

  /** The translation table agrees with the report layout, so OR-ing the
      table's bits builds exactly ModifierMask. */
  lemma ModifierTableGivesMaskBit(m: ModifierKey)
    ensures EvdevToUsbHidModifier(m.Value()) == Ok(ModifierBit(m) as int)
  {
  }

  lemma ButtonTableGivesMaskBit(b: MouseButton)
    ensures EvdevToUsbHidMouse(b.Value()) == Ok(ButtonBit(b) as int)
  {
  }

  /** Adding one more key ORs in its bit. */
  lemma ModifierMaskInsert(modifiers: set<ModifierKey>, m: ModifierKey)
    ensures ModifierMask(modifiers + {m}) == ModifierMask(modifiers) | ModifierBit(m)
  {
  }

  lemma ButtonMaskInsert(buttons: set<MouseButton>, b: MouseButton)
    ensures ButtonMask(buttons + {b}) == ButtonMask(buttons) | ButtonBit(b)
  {
  }

  // ---------------------------------------------------------------------------
  // The frames

  /** evdev_to_usb_hid_keyboard(key.value): every KeyCode member has one. */
  function ScanCode(key: KeyCode): (code: byte)
    ensures EvdevToUsbHidKeyboard(key.Value()) == Ok(code)
  {
    KeyCodeTranslates(key);
    EvdevToUsbHidKeyboard(key.Value()).value
  }

  /** The frame key_down sends. */
  function KeyDownFrame(key: KeyCode, shift: bool, ctrl: bool, alt: bool, windows: bool): (p: Packet)
    ensures IsFrameOf(p, CmdKeyboard, [FlagsMask(shift, ctrl, alt, windows) as int, 0, ScanCode(key), 0, 0, 0, 0, 0])
    ensures |p| == 14 && p[5] == FlagsMask(shift, ctrl, alt, windows) as int && p[7] == ScanCode(key)
  {
    BuildKeyboardPress(FlagsMask(shift, ctrl, alt, windows) as int, ScanCode(key)).value
  }

  /** The data section send_keyboard_state sends: eight bytes, the
      modifier byte, a reserved zero, the keys' scan codes in order, and
      zeros in the unused slots. */
  function KeyboardReport(state: ValidKeyboardState): (data: seq<byte>)
    ensures |data| == 8 && data[0] == ModifierMask(state.modifiers) as int && data[1] == 0
    ensures forall i :: 0 <= i < |state.keys| ==> data[2 + i] == ScanCode(state.keys[i])
    ensures forall i :: 2 + |state.keys| <= i < 8 ==> data[i] == 0
  {
    [ModifierMask(state.modifiers) as int, 0x00]
    + seq(|state.keys|, i requires 0 <= i < |state.keys| => ScanCode(state.keys[i]))
    + seq(MaxRolloverKeys - |state.keys|, _ => 0x00)
  }

  /** The frame of mouse_move_absolute for pixel (x, y) on a screen of the
      given size, or ZeroDivisionError. */
  function MoveAbsoluteFrame(x: int, y: int, width: int, height: int): (r: Result<Packet>)
    ensures r.Ok? <==> width != 0 && height != 0
    ensures r.Err? ==> r.error == ZeroDivision
    ensures r.Ok? ==>
      var p := r.value;
      && |p| == 13 && WellFormed(p) && p[3] == CmdMouseAbs && p[5] == 0x02 && p[6] == 0x00
      && (p[7] as int) + 256 * (p[8] as int) == Clamp(DeviceCoordinate(x, width), 0, MaxAbsCoordinate)
      && (p[9] as int) + 256 * (p[10] as int) == Clamp(DeviceCoordinate(y, height), 0, MaxAbsCoordinate)
  {
    if width == 0 || height == 0 then Err(ZeroDivision)
    else Ok(BuildMouseAbs(0x00, DeviceCoordinate(x, width), DeviceCoordinate(y, height)).value)
  }

  /** int(4096 * pixel / size): the quotient truncated toward zero. */
  function DeviceCoordinate(pixel: int, size: int): (c: int)
    requires size != 0
    ensures Abs(c) * Abs(size) <= 4096 * Abs(pixel) < (Abs(c) + 1) * Abs(size)
    ensures c < 0 ==> (pixel < 0) != (size < 0)
    ensures c > 0 ==> (pixel < 0) == (size < 0)
  {
    TruncatedDivision(4096 * pixel, size)
  }

  /** a / b rounded toward zero, as int() of a float quotient does: the
      largest magnitude whose multiple of b does not pass a, with the sign
      of the quotient. */
  function TruncatedDivision(a: int, b: int): (q: int)
    requires b != 0
    ensures Abs(q) * Abs(b) <= Abs(a) < (Abs(q) + 1) * Abs(b)
    ensures q < 0 ==> (a < 0) != (b < 0)
    ensures q > 0 ==> (a < 0) == (b < 0)
  {
    var q: int := Quotient(Abs(a), Abs(b));
    if (a < 0) != (b < 0) then -q else q
  }

  /** The quotient of naturals: the largest q with q * d not above n. */
  function Quotient(n: nat, d: nat): (q: nat)
    requires d > 0
    ensures q * d <= n < (q + 1) * d
  {
    assert n == (n / d) * d + n % d;
    assert (n / d + 1) * d == (n / d) * d + d;
    n / d
  }

  /** A multiple of d divides exactly. */
  lemma QuotientOfMultiple(k: nat, d: nat)
    requires d > 0
    ensures Quotient(k * d, d) == k
  {
    var q := Quotient(k * d, d);
    if q < k {
      MultiplyMonotone(q + 1, k, d);
    } else if q > k {
      MultiplyMonotone(k + 1, q, d);
    }
  }

  lemma MultiplyMonotone(a: int, b: int, d: nat)
    requires a <= b
    ensures a * d <= b * d
  {
    assert b * d - a * d == (b - a) * d;
  }

  function Abs(v: int): nat { if v < 0 then -v else v }

  /** A pixel on the screen lands inside the device's 0..4095 range, so
      clamping leaves it alone; the right or bottom edge itself is 4096 and
      is clamped to 4095. */
  lemma DeviceCoordinateOnScreen(pixel: int, size: int)
    requires 0 <= pixel < size
    ensures 0 <= DeviceCoordinate(pixel, size) <= MaxAbsCoordinate
    ensures DeviceCoordinate(pixel, size) * size <= 4096 * pixel < (DeviceCoordinate(pixel, size) + 1) * size
  {
  }

  lemma DeviceCoordinateAtEdge(size: int)
    requires size > 0
    ensures DeviceCoordinate(size, size) == 4096
    ensures Clamp(DeviceCoordinate(size, size), 0, MaxAbsCoordinate) == MaxAbsCoordinate
  {
    QuotientOfMultiple(4096, size);
    assert Abs(4096 * size) == 4096 * size;
  }

  /** A negative pixel truncates toward zero, the opposite way from
      Dafny's own division. */
  lemma DeviceCoordinateTruncates()
    ensures DeviceCoordinate(-1, 8192) == 0
    ensures DeviceCoordinate(-3, 8192) == -1
  {
  }

  /** The frame mouse_button_down, mouse_button_up and mouse_scroll send:
      a relative frame without movement. */
  function StillMouseFrame(button: bv8, scroll: int): (p: Packet)
    ensures |p| == 11 && WellFormed(p) && p[3] == CmdMouseRel && p[5] == 0x01 && p[6] == button as int
    ensures FromTwosComplement(p[7]) == 0 && FromTwosComplement(p[8]) == 0
    ensures FromTwosComplement(p[9]) == Clamp(scroll, -127, 127)
  {
    BuildMouseRel(button as int, 0, 0, scroll).value
  }

  /** The frame send_mouse_state sends. */
  function MouseStateFrame(state: MouseInput): (p: Packet)
    ensures |p| == 11 && WellFormed(p) && p[3] == CmdMouseRel && p[5] == 0x01
    ensures p[6] == ButtonMask(state.buttons) as int
    ensures FromTwosComplement(p[7]) == Clamp(state.x, -128, 127)
    ensures FromTwosComplement(p[8]) == Clamp(state.y, -128, 127)
    ensures FromTwosComplement(p[9]) == Clamp(state.scroll, -127, 127)
  {
    BuildMouseRel(ButtonMask(state.buttons) as int, state.x, state.y, state.scroll).value
  }

  /** The frame media_key_down sends: the key's four data bytes. */
  function MediaKeyFrame(key: MediaKey): (p: Packet)
    ensures |p| == 10 && IsFrameOf(p, CmdMedia, [0x02, key.Value().1, 0, 0])
  {
    var (d0, d1, d2, d3) := key.Value();
    BuildMediaPress(d0, d1, d2, d3).value
  }

  /** key_down sends what send_keyboard_state sends for the left-hand
      modifiers its flags name and the one key. */
  lemma KeyDownIsKeyboardState(key: KeyCode, shift: bool, ctrl: bool, alt: bool, windows: bool)
    ensures KeyDownFrame(key, shift, ctrl, alt, windows)
      == Frame(CmdKeyboard, KeyboardReport(KeyboardState(LeftModifiers(shift, ctrl, alt, windows), [key])))
  {
    var state: ValidKeyboardState := KeyboardState(LeftModifiers(shift, ctrl, alt, windows), [key]);
    FlagsAreLeftModifiers(shift, ctrl, alt, windows);
    var data := KeyboardReport(state);
    assert data == [FlagsMask(shift, ctrl, alt, windows) as int, 0, ScanCode(key), 0, 0, 0, 0, 0];
    FrameDeterminedByContent(KeyDownFrame(key, shift, ctrl, alt, windows), CmdKeyboard, data);
  }

  /** key_up sends what send_keyboard_state sends for the empty state. */
  lemma KeyUpIsEmptyKeyboardState()
    ensures BuildKeyboardRelease() == Frame(CmdKeyboard, KeyboardReport(KeyboardState()))
  {
    var state: ValidKeyboardState := KeyboardState();
    assert KeyboardReport(state) == [0, 0, 0, 0, 0, 0, 0, 0];
    FrameDeterminedByContent(BuildKeyboardRelease(), CmdKeyboard, KeyboardReport(state));
  }

  /** With at most one key, send_keyboard_state sends what
      build_keyboard_press_packet builds from the OR of the modifier bits
      and the key's scan code (0 when there is no key). */
  lemma SingleKeyStateIsPress(state: ValidKeyboardState)
    requires |state.keys| <= 1
    ensures var keycode := if |state.keys| == 1 then ScanCode(state.keys[0]) else 0;
      BuildKeyboardPress(ModifierMask(state.modifiers) as int, keycode)
        == Ok(Frame(CmdKeyboard, KeyboardReport(state)))
  {
    var keycode := if |state.keys| == 1 then ScanCode(state.keys[0]) else 0;
    var press := BuildKeyboardPress(ModifierMask(state.modifiers) as int, keycode);
    var data := KeyboardReport(state);
    assert data == [ModifierMask(state.modifiers) as int, 0, keycode, 0, 0, 0, 0, 0];
    FrameDeterminedByContent(press.value, CmdKeyboard, data);
  }

  /** A key_down frame gives back its four flags and its key's scan code
      (which names the key, by KeyCodeValueInjective and
      KeyboardTableInjective). */
  lemma KeyDownFrameDecodes(a: KeyCode, shiftA: bool, ctrlA: bool, altA: bool, windowsA: bool,
                            b: KeyCode, shiftB: bool, ctrlB: bool, altB: bool, windowsB: bool)
    requires KeyDownFrame(a, shiftA, ctrlA, altA, windowsA) == KeyDownFrame(b, shiftB, ctrlB, altB, windowsB)
    ensures ScanCode(a) == ScanCode(b)
    ensures shiftA == shiftB && ctrlA == ctrlB && altA == altB && windowsA == windowsB
  {
    FlagsMaskInjective(shiftA, ctrlA, altA, windowsA, shiftB, ctrlB, altB, windowsB);
  }

  /** The four flags own four different bits. */
  lemma FlagsMaskInjective(shiftA: bool, ctrlA: bool, altA: bool, windowsA: bool,
                           shiftB: bool, ctrlB: bool, altB: bool, windowsB: bool)
    ensures FlagsMask(shiftA, ctrlA, altA, windowsA) == FlagsMask(shiftB, ctrlB, altB, windowsB) ==>
      shiftA == shiftB && ctrlA == ctrlB && altA == altB && windowsA == windowsB
  {
  }

  /** The button byte of a send_mouse_state frame holds exactly the pressed
      buttons, and the movement and scroll bytes read back as the clamped
      values. */
  lemma MouseStateFrameDecodes(state: MouseInput, b: MouseButton)
    ensures var p := MouseStateFrame(state);
      && ((p[6] as bv8) & ButtonBit(b) != 0 <==> b in state.buttons)
      && FromTwosComplement(p[7]) == Clamp(state.x, -128, 127)
      && FromTwosComplement(p[8]) == Clamp(state.y, -128, 127)
      && FromTwosComplement(p[9]) == Clamp(state.scroll, -127, 127)
  {
    ButtonMaskBits(state.buttons, b);
  }

  /** mouse_button_down and mouse_button_up send what send_mouse_state sends
      for that one button, and for no button, without movement. */
  lemma MouseButtonsAreMouseStates(b: MouseButton)
    ensures StillMouseFrame(ButtonBit(b), 0) == MouseStateFrame(MouseInput({b}, 0, 0, 0))
    ensures StillMouseFrame(0, 0) == MouseStateFrame(MouseInput({}, 0, 0, 0))
  {
  }

  /** Different media keys send different frames, each a media frame with
      0x02 and the key's bit. */
  lemma MediaKeyFrameDecodes(a: MediaKey, b: MediaKey)
    ensures IsFrameOf(MediaKeyFrame(a), CmdMedia, [0x02, a.Value().1, 0, 0])
    ensures MediaKeyFrame(a) == MediaKeyFrame(b) ==> a == b
  {
    if a != b {
      MediaKeyValueInjective(a, b);
      var pa, pb := MediaKeyFrame(a), MediaKeyFrame(b);
      assert pa[5..|pa| - 1] == [0x02, a.Value().1, 0, 0];
      assert pb[5..|pb| - 1] == [0x02, b.Value().1, 0, 0];
      assert pa[6] != pb[6];
    }
  }

  /** A pixel inside the screen is sent unclamped: the coordinate bytes hold
      int(4096 * pixel / size) exactly. A zero screen size is the only error. */
  lemma MoveAbsoluteOnScreen(x: int, y: int, width: int, height: int)
    ensures MoveAbsoluteFrame(x, y, width, height).Err? <==> width == 0 || height == 0
    ensures 0 <= x < width && 0 <= y < height ==>
      var p := MoveAbsoluteFrame(x, y, width, height).value;
      && (p[7] as int) + 256 * (p[8] as int) == DeviceCoordinate(x, width)
      && (p[9] as int) + 256 * (p[10] as int) == DeviceCoordinate(y, height)
  {
    if 0 <= x < width && 0 <= y < height {
      DeviceCoordinateOnScreen(x, width);
      DeviceCoordinateOnScreen(y, height);
    }
  }

  // ---------------------------------------------------------------------------
  // write_string

  /** The press frame write_string sends for one character, or the error
      raised on the way: an unsupported character, a key code without scan
      code, or a modifier that is not a modifier key. */
  function CharacterPress(character: string): (r: Result<Packet>)
    ensures GetKeyMapping(character).Err? ==> r == Err(UnsupportedCharacter(character))
    ensures r.Err? ==> r.error == UnsupportedCharacter(character) || r.error.UnsupportedEvdevCode?
    ensures r.Ok? ==>
      var keycode := GetKeyMapping(character).value.1;
      && EvdevToUsbHidKeyboard(keycode).Ok? && |r.value| == 14
      && IsFrameOf(r.value, CmdKeyboard, [r.value[5], 0, EvdevToUsbHidKeyboard(keycode).value, 0, 0, 0, 0, 0])
  {
    var mapping :- GetKeyMapping(character);
    var scanCode :- EvdevToUsbHidKeyboard(mapping.1);
    var modifier :- if mapping.0 != 0x00 then EvdevToUsbHidModifier(mapping.0) else Ok(0x00);
    BuildKeyboardPress(modifier, scanCode)
  }

  /** A run whose first i results pass and whose next result is an error
      ends there, with what the first i sent. */
  lemma PressFramesStopAt(presses: seq<Result<Packet>>, i: nat)
    requires i < |presses| && presses[i].Err? && PressFrames(presses[..i]).1 == Pass
    ensures PressFrames(presses) == (PressFrames(presses[..i]).0, Fail(presses[i].error))
  {
    SplitAt(presses, i);
    PressFramesStopAtError(presses[..i], presses[i].error, presses[i + 1..]);
  }

  lemma SplitAt<T>(s: seq<T>, i: nat)
    requires i < |s|
    ensures s == s[..i] + [s[i]] + s[i + 1..]
  {
  }

  /** When result i passes, what was sent for the first i results and then
      its press and a release is what the first i + 1 results send. */
  lemma PressFramesContinue(before: seq<Packet>, sent: seq<Packet>, presses: seq<Result<Packet>>, i: nat)
    requires i < |presses| && presses[i].Ok? && PressFrames(presses[..i]).1 == Pass
    requires sent == before + PressFrames(presses[..i]).0 + [presses[i].value, BuildKeyboardRelease()]
    ensures sent == before + PressFrames(presses[..i + 1]).0 && PressFrames(presses[..i + 1]).1 == Pass
  {
    PressFramesAppendPress(presses[..i], presses[i].value);
    assert presses[..i + 1] == presses[..i] + [Ok(presses[i].value)];
  }

  /** The press frame, or the error, of each character of text in turn. */
  function CharacterPresses(text: string): (presses: seq<Result<Packet>>)
    ensures |presses| == |text|
    ensures forall i :: 0 <= i < |text| ==> presses[i] == CharacterPress([text[i]])
  {
    seq(|text|, i requires 0 <= i < |text| => CharacterPress([text[i]]))
  }

  /** The frames sent for a run of per-character results and how the run
      ends: a press and a release per success, up to the first error. */
  function PressFrames(presses: seq<Result<Packet>>): (out: (seq<Packet>, Outcome))
    ensures out.1.Pass? ==> |out.0| == 2 * |presses|
    ensures out.1.Fail? ==> |out.0| < 2 * |presses|
  {
    if |presses| == 0 then ([], Pass)
    else match presses[0]
      case Err(e) => ([], Fail(e))
      case Ok(press) =>
        var (rest, outcome) := PressFrames(presses[1..]);
        ([press, BuildKeyboardRelease()] + rest, outcome)
  }

  /** The frames write_string sends for text and how it ends. */
  function Typed(text: string): (out: (seq<Packet>, Outcome))
    ensures out.1.Pass? ==> |out.0| == 2 * |text|
    ensures out.1.Fail? ==> |out.0| < 2 * |text|
  {
    PressFrames(CharacterPresses(text))
  }

  /** A success appended to a run that has not failed adds its press and a
      release at the end. */
  lemma {:induction false} PressFramesAppendPress(presses: seq<Result<Packet>>, press: Packet)
    requires PressFrames(presses).1 == Pass
    ensures PressFrames(presses + [Ok(press)]) == (PressFrames(presses).0 + [press, BuildKeyboardRelease()], Pass)
  {
    if |presses| == 0 {
      assert presses + [Ok(press)] == [Ok(press)];
      assert [Ok(press)][1..] == [];
      assert PressFrames(presses).0 + [press, BuildKeyboardRelease()] == [press, BuildKeyboardRelease()] + PressFrames([]).0;
    } else {
      assert (presses + [Ok(press)])[0] == presses[0];
      assert (presses + [Ok(press)])[1..] == presses[1..] + [Ok(press)];
      PressFramesAppendPress(presses[1..], press);
      var head := [presses[0].value, BuildKeyboardRelease()];
      assert head + (PressFrames(presses[1..]).0 + [press, BuildKeyboardRelease()])
        == (head + PressFrames(presses[1..]).0) + [press, BuildKeyboardRelease()];
    }
  }

  /** The first error ends the run: nothing after it is sent, whatever the
      later characters are. */
  lemma {:induction false} PressFramesStopAtError(presses: seq<Result<Packet>>, e: Error, rest: seq<Result<Packet>>)
    requires PressFrames(presses).1 == Pass
    ensures PressFrames(presses + [Err(e)] + rest) == (PressFrames(presses).0, Fail(e))
  {
    if |presses| == 0 {
      assert presses + [Err(e)] + rest == [Err(e)] + rest;
    } else {
      assert (presses + [Err(e)] + rest)[1..] == presses[1..] + [Err(e)] + rest;
      PressFramesStopAtError(presses[1..], e, rest);
    }
  }

  /** How a run ends: it passes exactly when every result is a success;
      otherwise it stops at the first error, after two frames per earlier
      result. */
  lemma {:induction false} PressFramesOutcome(presses: seq<Result<Packet>>)
    ensures PressFrames(presses).1 == Pass <==> forall k :: 0 <= k < |presses| ==> presses[k].Ok?
    ensures PressFrames(presses).1.Fail? ==>
      exists i :: 0 <= i < |presses| && presses[i] == Err(PressFrames(presses).1.error)
        && (forall k :: 0 <= k < i ==> presses[k].Ok?) && |PressFrames(presses).0| == 2 * i
  {
    if |presses| > 0 && presses[0].Ok? {
      var tail := presses[1..];
      PressFramesOutcome(tail);
      var (rest, outcome) := PressFrames(tail);
      assert PressFrames(presses) == ([presses[0].value, BuildKeyboardRelease()] + rest, outcome);
      forall k | 0 < k < |presses| ensures presses[k] == tail[k - 1] {
      }
      if outcome.Fail? {
        var i :| 0 <= i < |tail| && tail[i] == Err(outcome.error)
          && (forall k :: 0 <= k < i ==> tail[k].Ok?) && |rest| == 2 * i;
        assert presses[i + 1] == Err(outcome.error);
        assert forall k :: 0 <= k < i + 1 ==> presses[k].Ok? by {
          forall k | 0 <= k < i + 1 ensures presses[k].Ok? {
            if k > 0 {
              assert presses[k] == tail[k - 1];
            }
          }
        }
      }
    }
  }

  /** What a run sends, pass or fail: frame 2j is the j-th press and frame
      2j + 1 a release. */
  lemma {:induction false} PressFramesLayout(presses: seq<Result<Packet>>)
    ensures |PressFrames(presses).0| % 2 == 0
    ensures forall j :: 0 <= j < |PressFrames(presses).0| / 2 ==>
      presses[j].Ok? && PressFrames(presses).0[2 * j] == presses[j].value
      && PressFrames(presses).0[2 * j + 1] == BuildKeyboardRelease()
  {
    if |presses| > 0 && presses[0].Ok? {
      var tail := presses[1..];
      PressFramesLayout(tail);
      var rest := PressFrames(tail).0;
      var frames := [presses[0].value, BuildKeyboardRelease()] + rest;
      assert PressFrames(presses).0 == frames;
      forall j | 0 <= j < |frames| / 2
        ensures presses[j].Ok? && frames[2 * j] == presses[j].value && frames[2 * j + 1] == BuildKeyboardRelease()
      {
        if j > 0 {
          assert presses[j] == tail[j - 1];
          assert frames[2 * j] == rest[2 * (j - 1)];
          assert frames[2 * j + 1] == rest[2 * (j - 1) + 1];
        }
      }
    }
  }

  /** write_string's outcome: it passes exactly when every character can be
      pressed, sending two frames per character; otherwise it raises the
      error of the first character that cannot, after two frames for each
      character before it. */
  lemma TypedShape(text: string)
    ensures Typed(text).1 == Pass <==> forall k :: 0 <= k < |text| ==> CharacterPress([text[k]]).Ok?
    ensures Typed(text).1 == Pass ==> |Typed(text).0| == 2 * |text|
    ensures Typed(text).1.Fail? ==>
      exists i :: 0 <= i < |text| && CharacterPress([text[i]]) == Err(Typed(text).1.error)
        && (forall k :: 0 <= k < i ==> CharacterPress([text[k]]).Ok?) && |Typed(text).0| == 2 * i
  {
    var presses := CharacterPresses(text);
    PressFramesOutcome(presses);
    if Typed(text).1.Fail? {
      var i :| 0 <= i < |presses| && presses[i] == Err(Typed(text).1.error)
        && (forall k :: 0 <= k < i ==> presses[k].Ok?) && |Typed(text).0| == 2 * i;
      assert CharacterPress([text[i]]) == Err(Typed(text).1.error);
      assert forall k :: 0 <= k < i ==> CharacterPress([text[k]]).Ok? by {
        forall k | 0 <= k < i ensures CharacterPress([text[k]]).Ok? {
          assert presses[k].Ok?;
        }
      }
    }
    if forall k :: 0 <= k < |text| ==> CharacterPress([text[k]]).Ok? {
      forall k | 0 <= k < |presses| ensures presses[k].Ok? {
        assert CharacterPress([text[k]]).Ok?;
      }
    }
  }

  /** '_' cannot be pressed: the table gives it the raw modifier 0x02, which is
      evdev KEY_1 and not a modifier key, so the modifier lookup raises
      UnsupportedEvdevCodeError before anything is sent. */
  lemma UnderscorePressFails()
    ensures CharacterPress("_") == Err(UnsupportedEvdevCode(0x02))
  {
    UnderscoreExample();
    assert EvdevToUsbHidKeyboard(KeyYen.Value()).Ok?;
    assert EvdevToUsbHidModifier(0x02) == Err(UnsupportedEvdevCode(0x02));
  }

  /** So write_string("_") raises and sends nothing. */
  lemma UnderscoreCannotBeTyped()
    ensures Typed("_") == ([], Fail(UnsupportedEvdevCode(0x02)))
  {
    UnderscorePressFails();
    var presses := CharacterPresses("_");
    assert ["_"[0]] == "_";
    assert presses == [Err(UnsupportedEvdevCode(0x02))];
  }

  /** Every other character in the table can be pressed, with no modifier or
      with the left Shift bit, and its key's scan code. */
  lemma CharacterPressSucceeds(character: string)
    ensures CharacterPress(character).Ok? <==> GetKeyMapping(character).Ok? && character != "_"
    ensures CharacterPress(character).Ok? ==>
      var (modifier, keycode) := GetKeyMapping(character).value;
      CharacterPress(character)
        == BuildKeyboardPress(if modifier == 0x00 then 0x00 else 0x02, EvdevToUsbHidKeyboard(keycode).value)
  {
    if character == "_" {
      UnderscoreExample();
    } else if GetKeyMapping(character).Ok? {
      CharacterModifier(character);
      CharacterKeycodeTranslates(character);
    }
  }

  /** A lower-case letter is its key's scan code with no modifier. */
  lemma LowerLetterPress(c: char)
    requires 'a' <= c <= 'z'
    ensures EvdevToUsbHidKeyboard(LetterCode(c)).Ok?
      && CharacterPress([c]) == BuildKeyboardPress(0x00, EvdevToUsbHidKeyboard(LetterCode(c)).value)
    ensures CharacterPress([c]).Ok?
  {
    LowerLetterMapping(c);
    LetterCodeTranslates(c);
  }

  /** An upper-case letter is the same scan code with the left Shift bit. */
  lemma UpperLetterPress(c: char)
    requires 'a' <= c <= 'z'
    ensures EvdevToUsbHidKeyboard(LetterCode(c)).Ok?
      && CharacterPress([Upper(c)]) == BuildKeyboardPress(0x02, EvdevToUsbHidKeyboard(LetterCode(c)).value)
    ensures CharacterPress([Upper(c)]).Ok?
  {
    UpperLetterMapping(c);
    LetterCodeTranslates(c);
  }

  // ---------------------------------------------------------------------------
  // The adapter and the driver

  /** CommunicationAdapter, reduced to the frames sent through it. */
  class Adapter {
    var sent: seq<Packet>

    constructor()
      ensures sent == []
    {
      sent := [];
    }

    method Send(packet: Packet)
      modifies this
      ensures sent == old(sent) + [packet]
    {
      sent := sent + [packet];
    }
  }

  class CH9329Driver {
    const adapter: Adapter
    const screenWidth: int
    const screenHeight: int
    const recorder: OperationRecorder?

    constructor(adapter: Adapter, screenWidth: int := 1920, screenHeight: int := 1080, recorder: OperationRecorder? := null)
      ensures this.adapter == adapter && this.recorder == recorder
      ensures this.screenWidth == screenWidth && this.screenHeight == screenHeight
    {
      this.adapter := adapter;
      this.screenWidth := screenWidth;
      this.screenHeight := screenHeight;
      this.recorder := recorder;
    }

    /** key_down: one press frame with the flags' modifier byte and the
        key's scan code, then the call is recorded. */
    method KeyDown(key: KeyCode, shift: bool := false, ctrl: bool := false, alt: bool := false, windows: bool := false)
      modifies adapter, recorder
      ensures adapter.sent == old(adapter.sent) + [KeyDownFrame(key, shift, ctrl, alt, windows)]
      ensures recorder != null ==>
        recorder.State() == Recorded(old(recorder.State()), Operation.KeyDown(key, shift, ctrl, alt, windows), recorder.clock.now)
    {
      var translated := EvdevToUsbHidKeyboard(key.Value());
      assert translated == Ok(ScanCode(key));
      var usbHidKeycode := translated.value;
      var modifier := FlagsByte(shift, ctrl, alt, windows);
      var pressPacket := BuildKeyboardPress(modifier as int, usbHidKeycode).value;
      adapter.Send(pressPacket);
      if recorder != null {
        recorder.Record(Operation.KeyDown(key, shift, ctrl, alt, windows));
      }
    }

    /** key_up: the release frame, then the call is recorded. */
    method KeyUp()
      modifies adapter, recorder
      ensures adapter.sent == old(adapter.sent) + [BuildKeyboardRelease()]
      ensures recorder != null ==>
        recorder.State() == Recorded(old(recorder.State()), Operation.KeyUp, recorder.clock.now)
    {
      adapter.Send(BuildKeyboardRelease());
      if recorder != null {
        recorder.Record(Operation.KeyUp);
      }
    }

    /** press_key: key_down then key_up. */
    method PressKey(key: KeyCode, shift: bool := false, ctrl: bool := false, alt: bool := false, windows: bool := false)
      modifies adapter, recorder
      ensures adapter.sent == old(adapter.sent) + [KeyDownFrame(key, shift, ctrl, alt, windows), BuildKeyboardRelease()]
      ensures recorder != null ==>
        recorder.State() == Recorded(Recorded(old(recorder.State()), Operation.KeyDown(key, shift, ctrl, alt, windows),
          recorder.clock.now), Operation.KeyUp, recorder.clock.now)
    {
      KeyDown(key, shift, ctrl, alt, windows);
      KeyUp();
    }

    /** send_keyboard_state: one keyboard frame carrying the whole state;
        nothing is recorded. */
    method SendKeyboardState(state: ValidKeyboardState)
      modifies adapter
      ensures adapter.sent == old(adapter.sent) + [Frame(CmdKeyboard, KeyboardReport(state))]
    {
      var modifierByte := ModifierByteOf(state.modifiers);
      var usbHidKeys := ScanCodesOf(state.keys);
      usbHidKeys := PadKeys(usbHidKeys);
      var data := [modifierByte as int, 0x00] + usbHidKeys;
      assert data == KeyboardReport(state);
      var packet: seq<byte> := [0x57, 0xAB, 0x00, 0x02, |data|] + data;
      var checksum := Sum(packet) % 256;
      packet := packet + [checksum];
      assert packet == Frame(CmdKeyboard, data);
      adapter.Send(packet);
    }

    /** send_mouse_state: one relative frame with the OR of the buttons'
        bits, the movement and the scroll; nothing is recorded. */
    method SendMouseState(state: MouseInput)
      modifies adapter
      ensures adapter.sent == old(adapter.sent) + [MouseStateFrame(state)]
    {
      var buttonByte := ButtonByteOf(state.buttons);
      var packet := BuildMouseRel(buttonByte as int, state.x, state.y, state.scroll).value;
      adapter.Send(packet);
    }

    /** write_string: for each character a press frame with its modifier and
        key, then a release frame; the first character that raises stops
        the loop after the earlier characters were sent. Nothing is recorded. */
    method WriteString(text: string) returns (outcome: Outcome)
      modifies adapter
      ensures adapter.sent == old(adapter.sent) + Typed(text).0
      ensures outcome == Typed(text).1
    {
      if |text| == 0 {
        return Pass;
      }
      ghost var presses := CharacterPresses(text);
      var i := 0;
      while i < |text|
        invariant 0 <= i <= |text|
        invariant adapter.sent == old(adapter.sent) + PressFrames(presses[..i]).0
        invariant PressFrames(presses[..i]).1 == Pass
      {
        var step := TypeCharacter(text[i]);
        assert presses[i] == CharacterPress([text[i]]);
        if step.Fail? {
          PressFramesStopAt(presses, i);
          return step;
        }
        PressFramesContinue(old(adapter.sent), adapter.sent, presses, i);
        i := i + 1;
      }
      assert presses[..i] == presses;
      return Pass;
    }

    /** One pass of write_string's loop: the press and release frames of
        one character, or the error it raises before anything is sent. */
    method TypeCharacter(character: char) returns (outcome: Outcome)
      modifies adapter
      ensures CharacterPress([character]).Ok? ==>
        outcome == Pass && adapter.sent == old(adapter.sent) + [CharacterPress([character]).value, BuildKeyboardRelease()]
      ensures CharacterPress([character]).Err? ==>
        outcome == Fail(CharacterPress([character]).error) && adapter.sent == old(adapter.sent)
    {
      var mapping := GetKeyMapping([character]);
      if mapping.Err? {
        return Fail(mapping.error);
      }
      var (evdevModifier, evdevKeycode) := mapping.value;
      var usbHidKeycode := EvdevToUsbHidKeyboard(evdevKeycode);
      if usbHidKeycode.Err? {
        return Fail(usbHidKeycode.error);
      }
      var usbHidModifier := if evdevModifier != 0x00 then EvdevToUsbHidModifier(evdevModifier) else Ok(0x00);
      if usbHidModifier.Err? {
        return Fail(usbHidModifier.error);
      }
      var pressPacket := BuildKeyboardPress(usbHidModifier.value, usbHidKeycode.value).value;
      adapter.Send(pressPacket);
      var releasePacket := BuildKeyboardRelease();
      adapter.Send(releasePacket);
      return Pass;
    }

    /** mouse_move_absolute: pixels scaled to the device's 4096 steps and
        sent as an absolute frame, then the pixel position is recorded; a
        zero screen size raises before anything is sent. */
    method MouseMoveAbsolute(x: int, y: int) returns (outcome: Outcome)
      modifies adapter, recorder
      ensures MoveAbsoluteFrame(x, y, screenWidth, screenHeight).Err? ==>
        outcome == Fail(ZeroDivision) && adapter.sent == old(adapter.sent)
        && (recorder != null ==> recorder.State() == old(recorder.State()))
      ensures MoveAbsoluteFrame(x, y, screenWidth, screenHeight).Ok? ==>
        outcome == Pass && adapter.sent == old(adapter.sent) + [MoveAbsoluteFrame(x, y, screenWidth, screenHeight).value]
        && (recorder != null ==>
          recorder.State() == Recorded(old(recorder.State()), Operation.MouseMoveAbsolute(x, y), recorder.clock.now))
    {
      if screenWidth == 0 || screenHeight == 0 {
        return Fail(ZeroDivision);
      }
      var deviceX := TruncatedDivision(4096 * x, screenWidth);
      var deviceY := TruncatedDivision(4096 * y, screenHeight);
      var packet := BuildMouseAbs(0x00, deviceX, deviceY).value;
      adapter.Send(packet);
      if recorder != null {
        recorder.Record(Operation.MouseMoveAbsolute(x, y));
      }
      return Pass;
    }

    /** mouse_move_relative: a relative frame with no button and no scroll. */
    method MouseMoveRelative(x: int, y: int)
      modifies adapter, recorder
      ensures adapter.sent == old(adapter.sent) + [BuildMouseRel(0x00, x, y, 0).value]
      ensures recorder != null ==>
        recorder.State() == Recorded(old(recorder.State()), Operation.MouseMoveRelative(x, y), recorder.clock.now)
    {
      var packet := BuildMouseRel(0x00, x, y, 0).value;
      adapter.Send(packet);
      if recorder != null {
        recorder.Record(Operation.MouseMoveRelative(x, y));
      }
    }

    /** mouse_button_down: the button's bit, no movement, no scroll. */
    method MouseButtonDown(button: MouseButton)
      modifies adapter, recorder
      ensures adapter.sent == old(adapter.sent) + [StillMouseFrame(ButtonBit(button), 0)]
      ensures recorder != null ==>
        recorder.State() == Recorded(old(recorder.State()), Operation.MouseButtonDown(button), recorder.clock.now)
    {
      ButtonTableGivesMaskBit(button);
      var usbHidButton := EvdevToUsbHidMouse(button.Value()).value;
      var pressPacket := BuildMouseRel(usbHidButton, 0, 0, 0).value;
      adapter.Send(pressPacket);
      if recorder != null {
        recorder.Record(Operation.MouseButtonDown(button));
      }
    }

    /** mouse_button_up: an all-zero relative frame. */
    method MouseButtonUp()
      modifies adapter, recorder
      ensures adapter.sent == old(adapter.sent) + [StillMouseFrame(0, 0)]
      ensures recorder != null ==>
        recorder.State() == Recorded(old(recorder.State()), Operation.MouseButtonUp, recorder.clock.now)
    {
      var releasePacket := BuildMouseRel(0x00, 0, 0, 0).value;
      adapter.Send(releasePacket);
      if recorder != null {
        recorder.Record(Operation.MouseButtonUp);
      }
    }

    /** mouse_click: mouse_button_down then mouse_button_up. */
    method MouseClick(button: MouseButton)
      modifies adapter, recorder
      ensures adapter.sent == old(adapter.sent) + [StillMouseFrame(ButtonBit(button), 0), StillMouseFrame(0, 0)]
      ensures recorder != null ==>
        recorder.State() == Recorded(Recorded(old(recorder.State()), Operation.MouseButtonDown(button),
          recorder.clock.now), Operation.MouseButtonUp, recorder.clock.now)
    {
      MouseButtonDown(button);
      MouseButtonUp();
    }

    /** mouse_scroll: a relative frame with only the scroll amount. */
    method MouseScroll(amount: int)
      modifies adapter, recorder
      ensures adapter.sent == old(adapter.sent) + [StillMouseFrame(0, amount)]
      ensures recorder != null ==>
        recorder.State() == Recorded(old(recorder.State()), Operation.MouseScroll(amount), recorder.clock.now)
    {
      var packet := BuildMouseRel(0x00, 0, 0, amount).value;
      adapter.Send(packet);
      if recorder != null {
        recorder.Record(Operation.MouseScroll(amount));
      }
    }

    /** media_key_down: the key's four data bytes in a media frame. */
    method MediaKeyDown(key: MediaKey)
      modifies adapter, recorder
      ensures adapter.sent == old(adapter.sent) + [MediaKeyFrame(key)]
      ensures recorder != null ==>
        recorder.State() == Recorded(old(recorder.State()), Operation.MediaKeyDown(key), recorder.clock.now)
    {
      var (data0, data1, data2, data3) := key.Value();
      var pressPacket := BuildMediaPress(data0, data1, data2, data3).value;
      adapter.Send(pressPacket);
      if recorder != null {
        recorder.Record(Operation.MediaKeyDown(key));
      }
    }

    /** media_key_up: the media release frame. */
    method MediaKeyUp()
      modifies adapter, recorder
      ensures adapter.sent == old(adapter.sent) + [BuildMediaRelease()]
      ensures recorder != null ==>
        recorder.State() == Recorded(old(recorder.State()), Operation.MediaKeyUp, recorder.clock.now)
    {
      adapter.Send(BuildMediaRelease());
      if recorder != null {
        recorder.Record(Operation.MediaKeyUp);
      }
    }

    /** press_media_key: media_key_down then media_key_up. */
    method PressMediaKey(key: MediaKey)
      modifies adapter, recorder
      ensures adapter.sent == old(adapter.sent) + [MediaKeyFrame(key), BuildMediaRelease()]
      ensures recorder != null ==>
        recorder.State() == Recorded(Recorded(old(recorder.State()), Operation.MediaKeyDown(key),
          recorder.clock.now), Operation.MediaKeyUp, recorder.clock.now)
    {
      MediaKeyDown(key);
      MediaKeyUp();
    }
  }

  /** key_down's modifier byte, one flag at a time. */
  method FlagsByte(shift: bool, ctrl: bool, alt: bool, windows: bool) returns (modifier: bv8)
    ensures modifier == FlagsMask(shift, ctrl, alt, windows)
  {
    modifier := 0x00;
    if ctrl {
      modifier := modifier | 0x01;
    }
    if shift {
      modifier := modifier | 0x02;
    }
    if alt {
      modifier := modifier | 0x04;
    }
    if windows {
      modifier := modifier | 0x08;
    }
  }

  /** The loop over state.modifiers: OR each key's bit from the translation
      table into the accumulator. The set is visited in whatever order the
      runtime chooses. */
  method ModifierByteOf(modifiers: set<ModifierKey>) returns (modifierByte: bv8)
    ensures modifierByte == ModifierMask(modifiers)
  {
    modifierByte := 0x00;
    var pending := modifiers;
    while pending != {}
      invariant pending <= modifiers
      invariant modifierByte == ModifierMask(modifiers - pending)
      decreases pending
    {
      var modifierKey :| modifierKey in pending;
      ModifierTableGivesMaskBit(modifierKey);
      ModifierMaskInsert(modifiers - pending, modifierKey);
      assert modifiers - (pending - {modifierKey}) == (modifiers - pending) + {modifierKey};
      modifierByte := modifierByte | (EvdevToUsbHidModifier(modifierKey.Value()).value as bv8);
      pending := pending - {modifierKey};
    }
    assert modifiers - pending == modifiers;
  }

  /** The loop over state.buttons, OR-ing each button's bit. */
  method ButtonByteOf(buttons: set<MouseButton>) returns (buttonByte: bv8)
    ensures buttonByte == ButtonMask(buttons)
  {
    buttonByte := 0x00;
    var pending := buttons;
    while pending != {}
      invariant pending <= buttons
      invariant buttonByte == ButtonMask(buttons - pending)
      decreases pending
    {
      var button :| button in pending;
      ButtonTableGivesMaskBit(button);
      ButtonMaskInsert(buttons - pending, button);
      assert buttons - (pending - {button}) == (buttons - pending) + {button};
      buttonByte := buttonByte | (EvdevToUsbHidMouse(button.Value()).value as bv8);
      pending := pending - {button};
    }
    assert buttons - pending == buttons;
  }

  /** [evdev_to_usb_hid_keyboard(key.value) for key in state.keys]. */
  function ScanCodesOf(keys: seq<KeyCode>): (codes: seq<byte>)
    ensures |codes| == |keys|
    ensures forall i :: 0 <= i < |keys| ==> EvdevToUsbHidKeyboard(keys[i].Value()) == Ok(codes[i])
  {
    seq(|keys|, i requires 0 <= i < |keys| => ScanCode(keys[i]))
  }

  /** The padding loop: zeros appended until there are six key slots. */
  method PadKeys(keys: seq<byte>) returns (padded: seq<byte>)
    ensures |keys| <= MaxRolloverKeys ==> padded == keys + seq(MaxRolloverKeys - |keys|, _ => 0x00)
    ensures |keys| > MaxRolloverKeys ==> padded == keys
  {
    padded := keys;
    while |padded| < MaxRolloverKeys
      invariant |keys| <= MaxRolloverKeys ==> |padded| <= MaxRolloverKeys
      invariant |keys| > MaxRolloverKeys ==> padded == keys
      invariant padded == keys + seq(|padded| - |keys|, _ => 0x00)
      decreases MaxRolloverKeys - |padded|
    {
      padded := padded + [0x00];
    }
  }
}
