/** The operation log of recorder.py: the ten recordable operations, their
    dictionary form (what save writes as JSON and load reads back), and the
    recorder that appends operations with the pauses between them.

    Time is an injected integer clock counting microseconds, so the 1 ms
    threshold is 1000 ticks and a Delay carries its length in ticks. */
module Recorder {
  import opened Wrappers
  import opened Models

  /** _MIN_DELAY_THRESHOLD: 0.001 s. */
  const MinDelayThreshold := 1000

  /** The ten operation classes, one constructor each, with the fields their
      constructors store. */
  datatype Operation =
    | KeyDown(key: KeyCode, shift: bool := false, ctrl: bool := false, alt: bool := false, windows: bool := false)
    | KeyUp
    | MouseButtonDown(button: MouseButton)
    | MouseButtonUp
    | MediaKeyDown(mediaKey: MediaKey)
    | MediaKeyUp
    | MouseMoveAbsolute(x: int, y: int)
    | MouseMoveRelative(x: int, y: int)
    | MouseScroll(amount: int)
    | Delay(ticks: int)

  /** The "type" each kind writes and _OPERATION_TYPES dispatches on. */
  function TypeName(op: Operation): (name: string)
    ensures name in TypeNames
  {
    match op
    case KeyDown(_, _, _, _, _) => "key_down"
    case KeyUp => "key_up"
    case MouseButtonDown(_) => "mouse_button_down"
    case MouseButtonUp => "mouse_button_up"
    case MediaKeyDown(_) => "media_key_down"
    case MediaKeyUp => "media_key_up"
    case MouseMoveAbsolute(_, _) => "mouse_move_absolute"
    case MouseMoveRelative(_, _) => "mouse_move_relative"
    case MouseScroll(_) => "mouse_scroll"
    case Delay(_) => "delay"
  }

  /** The keys of _OPERATION_TYPES. */
  const TypeNames: set<string> := {
    "key_down", "key_up", "mouse_button_down", "mouse_button_up", "media_key_down",
    "media_key_up", "mouse_move_absolute", "mouse_move_relative", "mouse_scroll", "delay"
  }

  /** The JSON values a record field can hold. */
  datatype Value = Str(text: string) | Bool(flag: bool) | Int(number: int)

  /** A serialised operation: a dictionary from field names to values. */
  type Dict = map<string, Value>

  /** to_dict: the type discriminator and the operation's fields, enumeration
      members written by name. */
  function ToDict(op: Operation): (d: Dict)
    ensures "type" in d && d["type"] == Str(TypeName(op))
  {
    var fields := match op
      case KeyDown(key, shift, ctrl, alt, windows) =>
        map["key" := Str(key.Name()), "shift" := Bool(shift), "ctrl" := Bool(ctrl),
            "alt" := Bool(alt), "windows" := Bool(windows)]
      case MouseButtonDown(button) => map["button" := Str(button.Name())]
      case MediaKeyDown(mediaKey) => map["key" := Str(mediaKey.Name())]
      case MouseMoveAbsolute(x, y) => map["x" := Int(x), "y" := Int(y)]
      case MouseMoveRelative(x, y) => map["x" := Int(x), "y" := Int(y)]
      case MouseScroll(amount) => map["amount" := Int(amount)]
      case Delay(ticks) => map["seconds" := Int(ticks)]
      case _ => map[];
    fields["type" := Str(TypeName(op))]
  }

  /** data[field] for a text field: KeyError when absent. */
  function TextField(d: Dict, field: string): (r: Result<string>)
    ensures r.Ok? <==> field in d && d[field].Str?
    ensures r.Ok? ==> d[field] == Str(r.value)
    ensures r.Err? ==> r.error == (if field in d then WrongFieldType(field) else MissingField(field))
  {
    if field !in d then Err(MissingField(field))
    else if d[field].Str? then Ok(d[field].text)
    else Err(WrongFieldType(field))
  }

  /** data[field] for a number field: KeyError when absent. */
  function NumberField(d: Dict, field: string): (r: Result<int>)
    ensures r.Ok? <==> field in d && d[field].Int?
    ensures r.Ok? ==> d[field] == Int(r.value)
    ensures r.Err? ==> r.error == (if field in d then WrongFieldType(field) else MissingField(field))
  {
    if field !in d then Err(MissingField(field))
    else if d[field].Int? then Ok(d[field].number)
    else Err(WrongFieldType(field))
  }

  /** data.get(field, False) for a modifier flag: absent means False. */
  function FlagField(d: Dict, field: string): (r: Result<bool>)
    ensures field !in d ==> r == Ok(false)
    ensures field in d ==> (r.Ok? <==> d[field].Bool?)
    ensures field in d && r.Ok? ==> d[field] == Bool(r.value)
    ensures r.Err? ==> r.error == WrongFieldType(field)
  {
    if field !in d then Ok(false)
    else if d[field].Bool? then Ok(d[field].flag)
    else Err(WrongFieldType(field))
  }

  /** KeyDownOperation.from_dict: the key by name, then the four flags. */
  function KeyDownFromDict(d: Dict): (r: Result<Operation>)
    ensures "key" !in d ==> r == Err(MissingField("key"))
    ensures r.Ok? ==>
      && r.value.KeyDown? && "key" in d && d["key"].Str?
      && KeyCodeFromName(d["key"].text) == Ok(r.value.key)
    ensures r.Ok? ==>
      && (r.value.shift <==> "shift" in d && d["shift"] == Bool(true))
      && (r.value.ctrl <==> "ctrl" in d && d["ctrl"] == Bool(true))
      && (r.value.alt <==> "alt" in d && d["alt"] == Bool(true))
      && (r.value.windows <==> "windows" in d && d["windows"] == Bool(true))
  {
    var name :- TextField(d, "key");
    var key :- KeyCodeFromName(name);
    var shift :- FlagField(d, "shift");
    var ctrl :- FlagField(d, "ctrl");
    var alt :- FlagField(d, "alt");
    var windows :- FlagField(d, "windows");
    Ok(KeyDown(key, shift, ctrl, alt, windows))
  }

  /** MouseButtonDownOperation.from_dict: the button by name. */
  function MouseButtonDownFromDict(d: Dict): (r: Result<Operation>)
    ensures "button" !in d ==> r == Err(MissingField("button"))
    ensures r.Ok? ==>
      && r.value.MouseButtonDown? && "button" in d && d["button"].Str?
      && MouseButtonFromName(d["button"].text) == Ok(r.value.button)
  {
    var name :- TextField(d, "button");
    var button :- MouseButtonFromName(name);
    Ok(MouseButtonDown(button))
  }

  /** MediaKeyDownOperation.from_dict: the media key by name. */
  function MediaKeyDownFromDict(d: Dict): (r: Result<Operation>)
    ensures "key" !in d ==> r == Err(MissingField("key"))
    ensures r.Ok? ==>
      && r.value.MediaKeyDown? && "key" in d && d["key"].Str?
      && MediaKeyFromName(d["key"].text) == Ok(r.value.mediaKey)
  {
    var name :- TextField(d, "key");
    var mediaKey :- MediaKeyFromName(name);
    Ok(MediaKeyDown(mediaKey))
  }

  /** The from_dict of the two move operations, which read x then y. */
  function MoveFromDict(d: Dict, absolute: bool): (r: Result<Operation>)
    ensures r.Ok? <==> "x" in d && d["x"].Int? && "y" in d && d["y"].Int?
    ensures r.Ok? ==> r.value.MouseMoveAbsolute? == absolute && r.value.MouseMoveRelative? == !absolute
    ensures r.Ok? ==> d["x"] == Int(r.value.x) && d["y"] == Int(r.value.y)
  {
    var x :- NumberField(d, "x");
    var y :- NumberField(d, "y");
    Ok(if absolute then MouseMoveAbsolute(x, y) else MouseMoveRelative(x, y))
  }

  /** MouseScrollOperation.from_dict: the scroll amount. */
  function ScrollFromDict(d: Dict): (r: Result<Operation>)
    ensures r.Ok? <==> "amount" in d && d["amount"].Int?
    ensures r.Ok? ==> r.value.MouseScroll? && d["amount"] == Int(r.value.amount)
  {
    var amount :- NumberField(d, "amount");
    Ok(MouseScroll(amount))
  }

  /** DelayOperation.from_dict: the pause length. */
  function DelayFromDict(d: Dict): (r: Result<Operation>)
    ensures r.Ok? <==> "seconds" in d && d["seconds"].Int?
    ensures r.Ok? ==> r.value.Delay? && d["seconds"] == Int(r.value.ticks)
  {
    var ticks :- NumberField(d, "seconds");
    Ok(Delay(ticks))
  }

  /** str(data.get("type")): the text of the discriminator, "None" when absent. */
  function TypeText(d: Dict): (text: string)
    ensures "type" !in d ==> text == "None"
    ensures "type" in d && d["type"].Str? ==> text == d["type"].text
    ensures text in TypeNames ==> HasKnownType(d)
  {
    if "type" !in d then "None"
    else match d["type"]
      case Str(text) => text
      case Bool(flag) => if flag then "True" else "False"
      case Int(number) => IntText(number)
  }

  /** str(n) for an integer: a '-' exactly for a negative n, then the
      decimal numeral of its magnitude. */
  function IntText(n: int): (text: string)
    ensures |text| > 0 && (text[0] == '-' || '0' <= text[0] <= '9')
    ensures text[0] == '-' <==> n < 0
    ensures n >= 0 ==> text == NatText(n)
    ensures n < 0 ==> text[1..] == NatText(-n)
  {
    if n < 0 then "-" + NatText(-n) else NatText(n)
  }

  /** str(n) for a natural: decimal digits without a leading zero that spell n. */
  function NatText(n: nat): (text: string)
    ensures |text| > 0 && forall i :: 0 <= i < |text| ==> '0' <= text[i] <= '9'
    ensures text[0] == '0' <==> n == 0
  {
    if n < 10 then [DigitChar(n)] else NatText(n / 10) + [DigitChar(n % 10)]
  }

  /** The digits of str(n) spell n. */
  lemma {:induction false} NatTextValue(n: nat)
    ensures DecimalValue(NatText(n)) == n
  {
    if n >= 10 {
      NatTextValue(n / 10);
      var text := NatText(n);
      assert text[..|text| - 1] == NatText(n / 10);
    }
  }

  /** str(n) of any integer reads back as n. */
  lemma IntTextValue(n: int)
    ensures SignedValue(IntText(n)) == n
  {
    NatTextValue(if n < 0 then -n else n);
  }

  /** The number a string of decimal digits spells, most significant first. */
  function DecimalValue(digits: string): int
  {
    if |digits| == 0 then 0
    else DecimalValue(digits[..|digits| - 1]) * 10 + (digits[|digits| - 1] as int - '0' as int)
  }

  /** The number a numeral with an optional leading '-' spells. */
  function SignedValue(text: string): int
  {
    if |text| > 0 && text[0] == '-' then -DecimalValue(text[1..]) else DecimalValue(text)
  }

  /** The discriminator is one of the ten known names. */
  predicate HasKnownType(d: Dict)
  {
    "type" in d && d["type"].Str? && d["type"].text in TypeNames
  }

  /** _operation_from_dict: dispatch on "type" to the class's from_dict, or
      ValueError "Unknown operation type". A parsed operation always writes
      back the discriminator it was read from. */
  function OperationFromDict(d: Dict): (r: Result<Operation>)
    ensures !HasKnownType(d) ==> r == Err(UnknownOperationType(TypeText(d)))
    ensures r.Ok? ==> "type" in d && d["type"] == Str(TypeName(r.value))
  {
    if !HasKnownType(d) then Err(UnknownOperationType(TypeText(d)))
    else match d["type"].text
      case "key_down" => KeyDownFromDict(d)
      case "key_up" => Ok(KeyUp)
      case "mouse_button_down" => MouseButtonDownFromDict(d)
      case "mouse_button_up" => Ok(MouseButtonUp)
      case "media_key_down" => MediaKeyDownFromDict(d)
      case "media_key_up" => Ok(MediaKeyUp)
      case "mouse_move_absolute" => MoveFromDict(d, true)
      case "mouse_move_relative" => MoveFromDict(d, false)
      case "mouse_scroll" => ScrollFromDict(d)
      case _ => DelayFromDict(d)
  }

  /** from_dict(to_dict(op)) is op, field for field, for every kind. */
  lemma OperationRoundTrip(op: Operation)
    ensures OperationFromDict(ToDict(op)) == Ok(op)
  {
    var d := ToDict(op);
    assert TypeName(op) in TypeNames;
    match op
    case KeyDown(key, _, _, _, _) =>
      KeyCodeNameRoundTrip(key);
      assert d["key"] == Str(key.Name());
    case MouseButtonDown(button) =>
      MouseButtonNameRoundTrip(button);
      assert d["button"] == Str(button.Name());
    case MediaKeyDown(mediaKey) =>
      MediaKeyNameRoundTrip(mediaKey);
      assert d["key"] == Str(mediaKey.Name());
    case _ =>
  }

  /** Every discriminator is one of the ten names, and each of the ten names
      is written by some operation. */
  lemma TypeNamesExactly(name: string)
    ensures name in TypeNames <==> exists op :: TypeName(op) == name
  {
    if name in TypeNames {
      if name == "key_down" {
        assert TypeName(KeyDown(KeyA, false, false, false, false)) == name;
      } else if name == "mouse_button_down" {
        assert TypeName(MouseButtonDown(BtnLeft)) == name;
      } else if name == "media_key_down" {
        assert TypeName(MediaKeyDown(Mute)) == name;
      } else if name == "key_up" {
        assert TypeName(KeyUp) == name;
      } else if name == "mouse_button_up" {
        assert TypeName(MouseButtonUp) == name;
      } else if name == "media_key_up" {
        assert TypeName(MediaKeyUp) == name;
      } else if name == "mouse_move_absolute" {
        assert TypeName(MouseMoveAbsolute(0, 0)) == name;
      } else if name == "mouse_move_relative" {
        assert TypeName(MouseMoveRelative(0, 0)) == name;
      } else if name == "mouse_scroll" {
        assert TypeName(MouseScroll(0)) == name;
      } else {
        assert TypeName(Delay(0)) == name;
      }
    }
  }

  /** The converse of the round trip: whatever a dictionary parses to writes
      back every field it was read from with the same value; a modifier flag
      the dictionary left out is written as False. */
  lemma OperationFromDictFaithful(d: Dict)
    requires OperationFromDict(d).Ok?
    ensures forall f :: f in ToDict(OperationFromDict(d).value) ==>
      var v := ToDict(OperationFromDict(d).value)[f];
      (f in d && d[f] == v) || (f !in d && v == Bool(false))
  {
    if OperationFromDict(d).value.KeyDown? {
      KeyDownFaithful(d);
    } else {
      OtherFaithful(d);
    }
  }

  lemma KeyDownFaithful(d: Dict)
    requires OperationFromDict(d).Ok? && OperationFromDict(d).value.KeyDown?
    ensures forall f :: f in ToDict(OperationFromDict(d).value) ==>
      var v := ToDict(OperationFromDict(d).value)[f];
      (f in d && d[f] == v) || (f !in d && v == Bool(false))
  {
    KeyCodeNameLookup(d["key"].text, OperationFromDict(d).value.key);
  }

  lemma OtherFaithful(d: Dict)
    requires OperationFromDict(d).Ok? && !OperationFromDict(d).value.KeyDown?
    ensures forall f :: f in ToDict(OperationFromDict(d).value) ==>
      var v := ToDict(OperationFromDict(d).value)[f];
      (f in d && d[f] == v) || (f !in d && v == Bool(false))
  {
  }

  /** KeyDownOperation.from_dict with only the key: every flag is False. */
  lemma KeyDownDefaults()
    ensures OperationFromDict(map["type" := Str("key_down"), "key" := Str("KEY_A")])
      == Ok(KeyDown(KeyA, false, false, false, false))
  {
    KeyCodeNameRoundTrip(KeyA);
  }

  /** A missing discriminator reads as None; an unknown one is named in the error. */
  lemma UnknownTypeExamples()
    ensures OperationFromDict(map[]) == Err(UnknownOperationType("None"))
    ensures OperationFromDict(map["type" := Str("unknown")]) == Err(UnknownOperationType("unknown"))
  {
  }

  // ---------------------------------------------------------------------------
  // save and load, without the JSON text and the file

  /** The list save writes: to_dict of each operation, in order. */
  function SaveAll(operations: seq<Operation>): (data: seq<Dict>)
    ensures |data| == |operations|
    ensures forall i :: 0 <= i < |operations| ==> "type" in data[i] && data[i]["type"] == Str(TypeName(operations[i]))
  {
    seq(|operations|, i requires 0 <= i < |operations| => ToDict(operations[i]))
  }

  /** load: _operation_from_dict of each dictionary, in order; the first
      dictionary that does not parse raises and nothing is returned. */
  function LoadAll(data: seq<Dict>): (r: Result<seq<Operation>>)
    ensures r.Ok? <==> forall i :: 0 <= i < |data| ==> OperationFromDict(data[i]).Ok?
    ensures r.Ok? ==> |r.value| == |data| && forall i :: 0 <= i < |data| ==> OperationFromDict(data[i]) == Ok(r.value[i])
    ensures r.Err? ==> exists i :: (0 <= i < |data| && OperationFromDict(data[i]) == Err(r.error)
      && forall j :: 0 <= j < i ==> OperationFromDict(data[j]).Ok?)
  {
    if |data| == 0 then Ok([])
    else
      var first :- OperationFromDict(data[0]);
      var rest :- LoadAll(data[1..]);
      Ok([first] + rest)
  }

  /** load of what save wrote gives the same operations in the same order. */
  lemma {:induction false} SaveLoadRoundTrip(operations: seq<Operation>)
    ensures LoadAll(SaveAll(operations)) == Ok(operations)
  {
    if |operations| > 0 {
      OperationRoundTrip(operations[0]);
      assert SaveAll(operations)[1..] == SaveAll(operations[1..]);
      SaveLoadRoundTrip(operations[1..]);
      assert operations == [operations[0]] + operations[1..];
    }
  }

  // ---------------------------------------------------------------------------
  // The clock

  /** time.time() and time.sleep() over a clock of integer ticks. */
  class Clock {
    var now: int

    constructor(start: int)
      ensures now == start
    {
      now := start;
    }

    /** time.sleep: a negative length is ValueError; otherwise the clock
        advances by exactly that many ticks. */
    method Sleep(ticks: int) returns (outcome: Outcome)
      modifies this
      ensures ticks < 0 ==> outcome == Fail(NegativeSleep(ticks)) && now == old(now)
      ensures ticks >= 0 ==> outcome == Pass && now == old(now) + ticks
    {
      if ticks < 0 {
        return Fail(NegativeSleep(ticks));
      }
      now := now + ticks;
      return Pass;
    }
  }

  // ---------------------------------------------------------------------------
  // The recorder

  /** The three fields of OperationRecorder. */
  datatype RecorderState = RecorderState(operations: seq<Operation>, recording: bool, lastTime: Option<int>)

  /** The pause record inserts before an operation: the time since the last
      one, when there was a last one and it is more than 1 ms ago. */
  function PauseBefore(lastTime: Option<int>, now: int): (pause: seq<Operation>)
    ensures |pause| <= 1
    ensures |pause| == 1 <==> lastTime.Some? && now - lastTime.value > MinDelayThreshold
    ensures |pause| == 1 ==> pause[0] == Delay(now - lastTime.value) && pause[0].ticks > MinDelayThreshold
  {
    if lastTime.Some? && now - lastTime.value > MinDelayThreshold then [Delay(now - lastTime.value)] else []
  }

  /** record(op) at time now, as a function of the state before. */
  function Recorded(s: RecorderState, op: Operation, now: int): (t: RecorderState)
    ensures t.recording == s.recording
    ensures |s.operations| <= |t.operations| <= |s.operations| + 2
    ensures t.operations[..|s.operations|] == s.operations
  {
    if !s.recording then s
    else RecorderState(s.operations + PauseBefore(s.lastTime, now) + [op], true, Some(now))
  }

  /** The operations with the Delay entries taken out. */
  function WithoutDelays(operations: seq<Operation>): seq<Operation>
  {
    if |operations| == 0 then []
    else (if operations[0].Delay? then [] else [operations[0]]) + WithoutDelays(operations[1..])
  }

  lemma {:induction false} WithoutDelaysAppend(a: seq<Operation>, b: seq<Operation>)
    ensures WithoutDelays(a + b) == WithoutDelays(a) + WithoutDelays(b)
  {
    if |a| == 0 {
      assert a + b == b;
    } else {
      assert (a + b)[1..] == a[1..] + b;
      WithoutDelaysAppend(a[1..], b);
    }
  }

  /** Every Delay in the log is longer than the threshold. */
  predicate PausesAboveThreshold(operations: seq<Operation>)
  {
    forall i :: 0 <= i < |operations| && operations[i].Delay? ==> operations[i].ticks > MinDelayThreshold
  }

  /** record while not recording changes nothing. */
  lemma RecordWhileIdle(s: RecorderState, op: Operation, now: int)
    requires !s.recording
    ensures Recorded(s, op, now) == s
  {
  }

  /** record while recording keeps the log as a prefix, ends it with op,
      grows it by one or two, and sets the last time to now, so a gap too
      short to record is not carried over to the next operation. */
  lemma RecordAppends(s: RecorderState, op: Operation, now: int)
    requires s.recording
    ensures var t := Recorded(s, op, now);
      && t.recording && t.lastTime == Some(now)
      && t.operations[..|s.operations|] == s.operations
      && t.operations[|t.operations| - 1] == op
      && |s.operations| + 1 <= |t.operations| <= |s.operations| + 2
  {
  }

  /** A Delay goes in exactly when more than 1 ms has passed since the last
      operation, and it holds that gap. */
  lemma RecordPause(s: RecorderState, op: Operation, now: int)
    requires s.recording
    ensures var t := Recorded(s, op, now);
      (|t.operations| == |s.operations| + 2 <==> s.lastTime.Some? && now - s.lastTime.value > MinDelayThreshold)
      && (|t.operations| == |s.operations| + 2 ==> t.operations[|s.operations|] == Delay(now - s.lastTime.value))
  {
  }

  /** Apart from the pauses, the log is exactly the operations recorded. */
  lemma RecordKeepsOperations(s: RecorderState, op: Operation, now: int)
    requires s.recording && !op.Delay?
    ensures WithoutDelays(Recorded(s, op, now).operations) == WithoutDelays(s.operations) + [op]
  {
    WithoutDelaysAppend(s.operations + PauseBefore(s.lastTime, now), [op]);
    WithoutDelaysAppend(s.operations, PauseBefore(s.lastTime, now));
    assert WithoutDelays([op]) == [op] + WithoutDelays([]);
  }

  /** Recording operations that are not pauses keeps every pause in the
      log above the threshold. */
  lemma RecordKeepsPausesAboveThreshold(s: RecorderState, op: Operation, now: int)
    requires PausesAboveThreshold(s.operations) && !op.Delay?
    ensures PausesAboveThreshold(Recorded(s, op, now).operations)
  {
  }

  /** OperationRecorder: the log, whether it is recording, and the time of
      the last operation, read from an injected clock. */
  class OperationRecorder {
    var operations: seq<Operation>
    var recording: bool
    var lastTime: Option<int>
    const clock: Clock

    function State(): RecorderState
      reads this
    {
      RecorderState(operations, recording, lastTime)
    }

    constructor(clock: Clock)
      ensures operations == [] && !recording && lastTime == None
      ensures this.clock == clock
    {
      operations := [];
      recording := false;
      lastTime := None;
      this.clock := clock;
    }

    /** start_recording: an empty log, recording, and the last time is now. */
    method StartRecording()
      modifies this
      ensures operations == [] && recording && lastTime == Some(clock.now)
    {
      operations := [];
      recording := true;
      lastTime := Some(clock.now);
    }

    /** stop_recording: recording ends and a copy of the log is returned;
        the log itself is kept. */
    method StopRecording() returns (recorded: seq<Operation>)
      modifies this
      ensures !recording && recorded == operations
      ensures operations == old(operations) && lastTime == old(lastTime)
    {
      recording := false;
      recorded := operations;
    }

    /** record: nothing while idle; otherwise the pause since the last
        operation when it is over 1 ms, then the operation, and now becomes
        the last time. */
    method Record(op: Operation)
      modifies this
      ensures State() == Recorded(old(State()), op, clock.now)
    {
      if !recording {
        return;
      }
      var currentTime := clock.now;
      if lastTime.Some? {
        var delay := currentTime - lastTime.value;
        if delay > MinDelayThreshold {
          operations := operations + [Delay(delay)];
        }
      }
      operations := operations + [op];
      lastTime := Some(currentTime);
    }

    /** save, up to the JSON text: the dictionaries of the log, in order. */
    method Save() returns (data: seq<Dict>)
      ensures data == SaveAll(operations)
      ensures LoadAll(data) == Ok(operations)
    {
      data := SaveAll(operations);
      SaveLoadRoundTrip(operations);
    }
  }
}
