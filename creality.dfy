/** The Creality flat message format: a top-level object carrying some of
    `nozzleTemp`, `bedTemp0`, `TotalLayer`, ... that the coordinator turns
    into a sparse fragment of the canonical record. */
module Creality {

  import opened Options
  import opened Json
  import opened Text
  import opened PrinterState

  /** The format is recognised by probing for any of three keys. */
  predicate IsCreality(msg: Message)
  {
    "nozzleTemp" in msg || "bedTemp0" in msg || "TotalLayer" in msg
  }

  /** Whether the message carries what a canonical field is taken from. */
  predicate Written(msg: Message, f: Field)
  {
    match f
    case NozzleTemp => "nozzleTemp" in msg
    case BedTemp => "bedTemp0" in msg
    case NozzleTarget => "targetNozzleTemp" in msg
    case BedTarget => "targetBedTemp0" in msg
    case Progress => "printProgress" in msg
    case PrintDuration => "printJobTime" in msg
    case PrintTimeRemaining => "printLeftTime" in msg
    case TotalDuration => "printJobTime" in msg && "printLeftTime" in msg
    case Filename => "printFileName" in msg
    case State => "state" in msg || "deviceState" in msg
    case PositionX => "curPosition" in msg
    case PositionY => "curPosition" in msg
    case PositionZ => "curPosition" in msg
    case Speed => "realTimeSpeed" in msg
    case SpeedFactor => "curFeedratePct" in msg
    case CurrentLayer => "layer" in msg
    case TotalLayers => "TotalLayer" in msg
    case _ => false
  }

  /** The printer's integer state codes. */
  function CodeName(code: int): string
  {
    if code == 0 then "idle"
    else if code == 1 then "printing"
    else if code == 2 then "paused"
    else if code == 3 then "complete"
    else "idle"
  }

  /** The lookup of a state code in the dict {0: idle, 1: printing, 2: paused,
      3: complete} with default "idle". Python compares keys by value, so
      `True` finds 1 and `2.0` finds 2; a list or dict is unhashable and the
      lookup raises TypeError (None). */
  function StateName(code: Value): Option<string>
  {
    match code
    case Integer(i) => Some(CodeName(i))
    case Boolean(b) => Some(CodeName(if b then 1 else 0))
    case Number(r) => Some(if r == r.Floor as real then CodeName(r.Floor) else "idle")
    case Null => Some("idle")
    case Text(_) => Some("idle")
    case List(_) => None
    case Object(_) => None
  }

  /** The state code: `deviceState` if present, else `state`, else 0. */
  function StateCode(msg: Message): Value
  {
    Get(msg, "deviceState", Get(msg, "state", Integer(0)))
  }

  /** The text of one axis of `curPosition`: "0" when the label is absent,
      otherwise the first whitespace-delimited token after the first
      occurrence of the label (None where Python raises: no such token, or a
      `curPosition` that is not a string). */
  function AxisText(pos: Value, tag: string): Option<string>
    requires tag != []
  {
    match pos
    case Text(s) => if Contains(s, tag) then FirstToken(SecondPiece(s, tag)) else Some("0")
    // `label in pos` tests the elements or keys; `.split` then raises AttributeError
    case List(items) => if Text(tag) in items then None else Some("0")
    case Object(m) => if tag in m then None else Some("0")
    // `label in pos` raises TypeError for None, bools and numbers
    case _ => None
  }

  /** `round(float(v), digits)`. */
  function RoundedFloat(py: Builtins, v: Value, digits: int): Option<Datum>
  {
    match FloatOf(py, v)
    case None => None
    case Some(x) => Some(Rounded(x, digits))
  }

  /** `int(v)`. */
  function WholeOf(py: Builtins, v: Value): Option<Datum>
  {
    match IntOf(py, v)
    case None => None
    case Some(n) => Some(Whole(n))
  }

  /** `round(float(<axis text>), 2)`. */
  function AxisReading(py: Builtins, pos: Value, tag: string): Option<Datum>
    requires tag != []
  {
    match AxisText(pos, tag)
    case None => None
    case Some(t) => match py.parseFloat(t)
      case None => None
      case Some(x) => Some(Rounded(x, 2))
  }

  /** The value a written field takes in the fragment; None where the
      conversion raises. */
  function Reading(py: Builtins, msg: Message, f: Field): (r: Option<Datum>)
    requires Written(msg, f)
    ensures r.Some? && f in {NozzleTemp, BedTemp, NozzleTarget, BedTarget, Progress} ==>
      r.value.Rounded? && r.value.digits == 1
    ensures r.Some? && f in {PositionX, PositionY, PositionZ, Speed} ==>
      r.value.Rounded? && r.value.digits == 2
    ensures r.Some? && f == SpeedFactor ==> r.value.Rounded? && r.value.digits == 0
    ensures r.Some? && f in {PrintDuration, PrintTimeRemaining, TotalDuration, CurrentLayer, TotalLayers} ==>
      r.value.Plain? && r.value.v.Integer?
    ensures f == Filename ==> r.Some? && r.value.Plain? && r.value.v.Text?
    ensures f == State ==>
      (r.Some? <==> !StateCode(msg).List? && !StateCode(msg).Object?) &&
      (r.Some? ==> r.value.Plain? && r.value.v.Text?)
  {
    match f
    case NozzleTemp => RoundedFloat(py, msg["nozzleTemp"], 1)
    case BedTemp => RoundedFloat(py, msg["bedTemp0"], 1)
    case NozzleTarget => RoundedFloat(py, msg["targetNozzleTemp"], 1)
    case BedTarget => RoundedFloat(py, msg["targetBedTemp0"], 1)
    case Progress => RoundedFloat(py, msg["printProgress"], 1)
    case PrintDuration => WholeOf(py, msg["printJobTime"])
    case PrintTimeRemaining => WholeOf(py, msg["printLeftTime"])
    case TotalDuration =>
      (match (IntOf(py, msg["printJobTime"]), IntOf(py, msg["printLeftTime"]))
       case (Some(job), Some(left)) => Some(Whole(job + left))
       case _ => None)
    case Filename => Some(Plain(Text(AfterLastSlash(StrOf(py, msg["printFileName"])))))
    case State =>
      (match StateName(StateCode(msg))
       case None => None
       case Some(name) => Some(Plain(Text(name))))
    case PositionX => AxisReading(py, msg["curPosition"], "X:")
    case PositionY => AxisReading(py, msg["curPosition"], "Y:")
    case PositionZ => AxisReading(py, msg["curPosition"], "Z:")
    case Speed => RoundedFloat(py, msg["realTimeSpeed"], 2)
    case SpeedFactor => RoundedFloat(py, msg["curFeedratePct"], 0)
    case CurrentLayer => WholeOf(py, msg["layer"])
    case TotalLayers => WholeOf(py, msg["TotalLayer"])
    case _ => None
  }

  /** Every written field converts. */
  predicate Readable(py: Builtins, msg: Message)
  {
    forall f :: Written(msg, f) ==> Reading(py, msg, f).Some?
  }

  /** The fragment a Creality message contributes: exactly the written fields
      with their readings, or None when any conversion raises (the handler's
      `except Exception` then discards the whole message). */
  function Fragment(py: Builtins, msg: Message): (r: Option<Record>)
    ensures r.Some? ==> forall f :: f in r.value <==> Written(msg, f)
  {
    AllListed();
    if Readable(py, msg) then
      Some(map f | f in AllFields && Written(msg, f) :: Reading(py, msg, f).value)
    else None
  }



  /** The number of fields the handler may write. */
  const Writable := 17

  /** The `k`-th field the handler writes, in source order. */
  function Nth(k: nat): Field
    requires k < Writable
  {
    match k
    case 0 => NozzleTemp
    case 1 => BedTemp
    case 2 => NozzleTarget
    case 3 => BedTarget
    case 4 => Progress
    case 5 => PrintDuration
    case 6 => PrintTimeRemaining
    case 7 => TotalDuration
    case 8 => Filename
    case 9 => State
    case 10 => PositionX
    case 11 => PositionY
    case 12 => PositionZ
    case 13 => Speed
    case 14 => SpeedFactor
    case 15 => CurrentLayer
    case _ => TotalLayers
  }

  /** Where a field comes in the handler's order; `Writable` for the fields
      it never writes. */
  function Place(f: Field): (k: nat)
    ensures k <= Writable
    ensures k < Writable ==> Nth(k) == f
  {
    match f
    case NozzleTemp => 0
    case BedTemp => 1
    case NozzleTarget => 2
    case BedTarget => 3
    case Progress => 4
    case PrintDuration => 5
    case PrintTimeRemaining => 6
    case TotalDuration => 7
    case Filename => 8
    case State => 9
    case PositionX => 10
    case PositionY => 11
    case PositionZ => 12
    case Speed => 13
    case SpeedFactor => 14
    case CurrentLayer => 15
    case TotalLayers => 16
    case _ => Writable
  }

  /** One conditional insertion: a written field is stored with its reading,
      and a conversion that raises abandons the fragment. */
  function Put(py: Builtins, msg: Message, acc: Option<Record>, f: Field): Option<Record>
  {
    match acc
    case None => None
    case Some(m) =>
      if !Written(msg, f) then acc
      else
        match Reading(py, msg, f)
        case None => None
        case Some(d) => Some(m[f := d])
  }

  /** The fragment after the first `k` conditional insertions. */
  function Prefix(py: Builtins, msg: Message, k: nat): Option<Record>
    requires k <= Writable
  {
    if k == 0 then Some(map[]) else Put(py, msg, Prefix(py, msg, k - 1), Nth(k - 1))
  }

  /** Inserting the `k`-th field's reading. */
  lemma Inserted(py: Builtins, msg: Message, k: nat, acc: Record, d: Datum)
    requires k < Writable && Prefix(py, msg, k) == Some(acc)
    requires Written(msg, Nth(k)) && Reading(py, msg, Nth(k)) == Some(d)
    ensures Prefix(py, msg, k + 1) == Some(acc[Nth(k) := d])
  {
  }

  /** Passing over the `k`-th field when the message does not write it. */
  lemma Skipped(py: Builtins, msg: Message, k: nat, acc: Record)
    requires k < Writable && Prefix(py, msg, k) == Some(acc) && !Written(msg, Nth(k))
    ensures Prefix(py, msg, k + 1) == Some(acc)
  {
  }

  /** The `k`-th conversion raises: the fragment is abandoned for good. */
  lemma Raised(py: Builtins, msg: Message, k: nat, j: nat)
    requires k < j <= Writable && Prefix(py, msg, k).Some?
    requires Written(msg, Nth(k)) && Reading(py, msg, Nth(k)).None?
    ensures Prefix(py, msg, j).None?
  {
    var g := Nth(k);
    assert Prefix(py, msg, k + 1) == Put(py, msg, Prefix(py, msg, k), g);
    assert Put(py, msg, Prefix(py, msg, k), g).None?;
    AbandonedStaysAbandoned(py, msg, k + 1, j);
  }

  /** `coordinator.py` lines 172-179: the four temperatures. */
  method AddTemperatures(py: Builtins, msg: Message, fragment: Record) returns (r: Option<Record>)
    requires Prefix(py, msg, 0) == Some(fragment)
    ensures r == Prefix(py, msg, 4)
  {
    var acc := fragment;
    if "nozzleTemp" in msg {
      var d := RoundedFloat(py, msg["nozzleTemp"], 1);
      if d.None? { Raised(py, msg, 0, 4); return None; }
      Inserted(py, msg, 0, acc, d.value);
      acc := acc[NozzleTemp := d.value];
    } else { Skipped(py, msg, 0, acc); }
    if "bedTemp0" in msg {
      var d := RoundedFloat(py, msg["bedTemp0"], 1);
      if d.None? { Raised(py, msg, 1, 4); return None; }
      Inserted(py, msg, 1, acc, d.value);
      acc := acc[BedTemp := d.value];
    } else { Skipped(py, msg, 1, acc); }
    if "targetNozzleTemp" in msg {
      var d := RoundedFloat(py, msg["targetNozzleTemp"], 1);
      if d.None? { Raised(py, msg, 2, 4); return None; }
      Inserted(py, msg, 2, acc, d.value);
      acc := acc[NozzleTarget := d.value];
    } else { Skipped(py, msg, 2, acc); }
    if "targetBedTemp0" in msg {
      var d := RoundedFloat(py, msg["targetBedTemp0"], 1);
      if d.None? { Raised(py, msg, 3, 4); return None; }
      Inserted(py, msg, 3, acc, d.value);
      acc := acc[BedTarget := d.value];
    } else { Skipped(py, msg, 3, acc); }
    return Some(acc);
  }

  /** `coordinator.py` lines 181-188: progress, elapsed and remaining time, and their sum when
      both times are present. */
  method AddTimes(py: Builtins, msg: Message, fragment: Record) returns (r: Option<Record>)
    requires Prefix(py, msg, 4) == Some(fragment)
    ensures r == Prefix(py, msg, 8)
  {
    var acc := fragment;
    if "printProgress" in msg {
      var d := RoundedFloat(py, msg["printProgress"], 1);
      if d.None? { Raised(py, msg, 4, 8); return None; }
      Inserted(py, msg, 4, acc, d.value);
      acc := acc[Progress := d.value];
    } else { Skipped(py, msg, 4, acc); }
    if "printJobTime" in msg {
      var job := IntOf(py, msg["printJobTime"]);
      if job.None? { Raised(py, msg, 5, 8); return None; }
      Inserted(py, msg, 5, acc, Whole(job.value));
      acc := acc[PrintDuration := Whole(job.value)];
    } else { Skipped(py, msg, 5, acc); }
    if "printLeftTime" in msg {
      var left := IntOf(py, msg["printLeftTime"]);
      if left.None? { Raised(py, msg, 6, 8); return None; }
      Inserted(py, msg, 6, acc, Whole(left.value));
      acc := acc[PrintTimeRemaining := Whole(left.value)];
      if "printJobTime" in msg {
        var job := IntOf(py, msg["printJobTime"]);
        Inserted(py, msg, 7, acc, Whole(job.value + left.value));
        acc := acc[TotalDuration := Whole(job.value + left.value)];
      } else { Skipped(py, msg, 7, acc); }
    } else {
      Skipped(py, msg, 6, acc);
      Skipped(py, msg, 7, acc);
    }
    return Some(acc);
  }

  /** `coordinator.py` lines 190-195: the file name and the state. */
  method AddFileAndState(py: Builtins, msg: Message, fragment: Record) returns (r: Option<Record>)
    requires Prefix(py, msg, 8) == Some(fragment)
    ensures r == Prefix(py, msg, 10)
  {
    var acc := fragment;
    if "printFileName" in msg {
      var name := AfterLastSlash(StrOf(py, msg["printFileName"]));
      Inserted(py, msg, 8, acc, Plain(Text(name)));
      acc := acc[Filename := Plain(Text(name))];
    } else { Skipped(py, msg, 8, acc); }
    if "state" in msg || "deviceState" in msg {
      var name := StateName(StateCode(msg));
      if name.None? { Raised(py, msg, 9, 10); return None; }
      Inserted(py, msg, 9, acc, Plain(Text(name.value)));
      acc := acc[State := Plain(Text(name.value))];
    } else { Skipped(py, msg, 9, acc); }
    return Some(acc);
  }

  /** `coordinator.py` lines 197-204: the three axes of `curPosition`. */
  method AddPosition(py: Builtins, msg: Message, fragment: Record) returns (r: Option<Record>)
    requires Prefix(py, msg, 10) == Some(fragment)
    ensures r == Prefix(py, msg, 13)
  {
    var acc := fragment;
    if "curPosition" in msg {
      var pos := msg["curPosition"];
      var x := AxisReading(py, pos, "X:");
      var y := AxisReading(py, pos, "Y:");
      var z := AxisReading(py, pos, "Z:");
      if x.None? { Raised(py, msg, 10, 13); return None; }
      Inserted(py, msg, 10, acc, x.value);
      acc := acc[PositionX := x.value];
      if y.None? { Raised(py, msg, 11, 13); return None; }
      Inserted(py, msg, 11, acc, y.value);
      acc := acc[PositionY := y.value];
      if z.None? { Raised(py, msg, 12, 13); return None; }
      Inserted(py, msg, 12, acc, z.value);
      acc := acc[PositionZ := z.value];
    } else {
      Skipped(py, msg, 10, acc);
      Skipped(py, msg, 11, acc);
      Skipped(py, msg, 12, acc);
    }
    return Some(acc);
  }

  /** `coordinator.py` lines 206-209: speed and speed factor. */
  method AddSpeed(py: Builtins, msg: Message, fragment: Record) returns (r: Option<Record>)
    requires Prefix(py, msg, 13) == Some(fragment)
    ensures r == Prefix(py, msg, 15)
  {
    var acc := fragment;
    if "realTimeSpeed" in msg {
      var d := RoundedFloat(py, msg["realTimeSpeed"], 2);
      if d.None? { Raised(py, msg, 13, 15); return None; }
      Inserted(py, msg, 13, acc, d.value);
      acc := acc[Speed := d.value];
    } else { Skipped(py, msg, 13, acc); }
    if "curFeedratePct" in msg {
      var d := RoundedFloat(py, msg["curFeedratePct"], 0);
      if d.None? { Raised(py, msg, 14, 15); return None; }
      Inserted(py, msg, 14, acc, d.value);
      acc := acc[SpeedFactor := d.value];
    } else { Skipped(py, msg, 14, acc); }
    return Some(acc);
  }

  /** `coordinator.py` lines 211-214: the current and total layer counts. */
  method AddLayers(py: Builtins, msg: Message, fragment: Record) returns (r: Option<Record>)
    requires Prefix(py, msg, 15) == Some(fragment)
    ensures r == Prefix(py, msg, 17)
  {
    var acc := fragment;
    if "layer" in msg {
      var d := WholeOf(py, msg["layer"]);
      if d.None? { Raised(py, msg, 15, 17); return None; }
      Inserted(py, msg, 15, acc, d.value);
      acc := acc[CurrentLayer := d.value];
    } else { Skipped(py, msg, 15, acc); }
    if "TotalLayer" in msg {
      var d := WholeOf(py, msg["TotalLayer"]);
      if d.None? { Raised(py, msg, 16, 17); return None; }
      Inserted(py, msg, 16, acc, d.value);
      acc := acc[TotalLayers := d.value];
    } else { Skipped(py, msg, 16, acc); }
    return Some(acc);
  }

  /** Once a conversion has raised, later insertions change nothing. */
  lemma {:induction false} AbandonedStaysAbandoned(py: Builtins, msg: Message, k: nat, j: nat)
    requires k <= j <= Writable && Prefix(py, msg, k).None?
    ensures Prefix(py, msg, j).None?
  {
    if k < j {
      AbandonedStaysAbandoned(py, msg, k, j - 1);
    }
  }

  /** `Place` inverts `Nth`. */
  lemma PlaceOfNth(k: nat)
    requires k < Writable
    ensures Place(Nth(k)) == k
  {
  }

  /** After `k` insertions the fragment exists exactly when every field
      written so far converts. */
  lemma {:induction false} PrefixDefined(py: Builtins, msg: Message, k: nat)
    requires k <= Writable
    ensures Prefix(py, msg, k).Some? <==>
      forall i :: 0 <= i < k && Written(msg, Nth(i)) ==> Reading(py, msg, Nth(i)).Some?
  {
    if k > 0 {
      PrefixDefined(py, msg, k - 1);
      var g := Nth(k - 1);
      if Prefix(py, msg, k - 1).Some? && Written(msg, g) && Reading(py, msg, g).None? {
        assert Prefix(py, msg, k).None?;
      }
    }
  }

  /** After `k` insertions the fragment holds exactly the fields written so
      far, each with its reading. */
  lemma {:induction false} PrefixContents(py: Builtins, msg: Message, k: nat)
    requires k <= Writable && Prefix(py, msg, k).Some?
    ensures forall f ::
      (f in Prefix(py, msg, k).value <==> Place(f) < k && Written(msg, f)) &&
      (f in Prefix(py, msg, k).value ==>
         Written(msg, f) && Reading(py, msg, f) == Some(Prefix(py, msg, k).value[f]))
  {
    if k > 0 {
      var g := Nth(k - 1);
      assert Prefix(py, msg, k - 1).Some?;
      PrefixContents(py, msg, k - 1);
      PlaceOfNth(k - 1);
      forall f ensures Place(f) < k <==> Place(f) < k - 1 || f == g {
        if Place(f) == k - 1 { assert Nth(Place(f)) == f; }
      }
    }
  }

  /** All the insertions together build the specified fragment. */
  lemma PrefixIsFragment(py: Builtins, msg: Message)
    ensures Prefix(py, msg, Writable) == Fragment(py, msg)
  {
    PrefixDefined(py, msg, Writable);
    forall f | Written(msg, f) ensures Place(f) < Writable { match f case _ => }
    if Prefix(py, msg, Writable).Some? {
      PrefixContents(py, msg, Writable);
      forall f | Written(msg, f) ensures Reading(py, msg, f).Some? {
        assert Nth(Place(f)) == f;
      }
      assert Readable(py, msg);
      var spec := map f | f in AllFields && Written(msg, f) :: Reading(py, msg, f).value;
      forall f ensures f in AllFields { AllListed(); }
      assert Prefix(py, msg, Writable).value == spec;
    } else {
      var i :| 0 <= i < Writable && Written(msg, Nth(i)) && Reading(py, msg, Nth(i)).None?;
      assert !Readable(py, msg);
    }
  }

  /** Builds the fragment of `coordinator.py` lines 170-214 by successive conditional
      insertions, stopping at the first conversion that raises. */
  method BuildFragment(py: Builtins, msg: Message) returns (r: Option<Record>)
    ensures r == Fragment(py, msg)
  {
    PrefixIsFragment(py, msg);
    r := AddTemperatures(py, msg, map[]);
    if r.None? { AbandonedStaysAbandoned(py, msg, 4, Writable); return; }
    r := AddTimes(py, msg, r.value);
    if r.None? { AbandonedStaysAbandoned(py, msg, 8, Writable); return; }
    r := AddFileAndState(py, msg, r.value);
    if r.None? { AbandonedStaysAbandoned(py, msg, 10, Writable); return; }
    r := AddPosition(py, msg, r.value);
    if r.None? { AbandonedStaysAbandoned(py, msg, 13, Writable); return; }
    r := AddSpeed(py, msg, r.value);
    if r.None? { AbandonedStaysAbandoned(py, msg, 15, Writable); return; }
    r := AddLayers(py, msg, r.value);
  }

  /** The fragment holds exactly the canonical fields whose source keys are
      present, and a message of this format always writes at least one. */
  lemma FragmentFields(py: Builtins, msg: Message)
    requires Fragment(py, msg).Some?
    ensures forall f :: f in Fragment(py, msg).value <==> Written(msg, f)
    ensures IsCreality(msg) ==> Fragment(py, msg).value != map[]
  {
    var frag := Fragment(py, msg).value;
    forall f ensures f in frag <==> Written(msg, f) { AllListed(); }
    if "nozzleTemp" in msg { assert NozzleTemp in frag; }
    else if "bedTemp0" in msg { assert BedTemp in frag; }
    else if "TotalLayer" in msg { assert TotalLayers in frag; }
  }

  /** The value a written field takes in the fragment. */
  lemma FragmentAt(py: Builtins, msg: Message, f: Field)
    requires Fragment(py, msg).Some? && Written(msg, f)
    ensures f in Fragment(py, msg).value && Fragment(py, msg).value[f] == Reading(py, msg, f).value
  {
    AllListed();
  }

  /** `print_time_remaining` is written whenever `printLeftTime` is present;
      `total_duration` only when `printJobTime` is present too, and then it
      is the sum of the elapsed and remaining whole seconds. */
  lemma TotalDurationIsSum(py: Builtins, msg: Message)
    requires Fragment(py, msg).Some?
    ensures var frag := Fragment(py, msg).value;
      (PrintTimeRemaining in frag <==> "printLeftTime" in msg) &&
      (TotalDuration in frag <==> "printJobTime" in msg && "printLeftTime" in msg)
    ensures var frag := Fragment(py, msg).value;
      TotalDuration in frag ==>
        frag[PrintDuration].Plain? && frag[PrintDuration].v.Integer? &&
        frag[PrintTimeRemaining].Plain? && frag[PrintTimeRemaining].v.Integer? &&
        frag[TotalDuration] == Whole(frag[PrintDuration].v.i + frag[PrintTimeRemaining].v.i)
  {
    FragmentFields(py, msg);
    if "printLeftTime" in msg {
      FragmentAt(py, msg, PrintTimeRemaining);
      if "printJobTime" in msg {
        FragmentAt(py, msg, PrintDuration);
        FragmentAt(py, msg, TotalDuration);
      }
    }
  }

  /** The file name kept is the part of `str(printFileName)` after its last
      `/`: it contains no `/`, it ends the original text, and a name without
      any `/` is kept whole. */
  lemma FilenameIsLastSegment(py: Builtins, msg: Message)
    requires Fragment(py, msg).Some? && "printFileName" in msg
    ensures var frag := Fragment(py, msg).value; var path := StrOf(py, msg["printFileName"]);
      Filename in frag && frag[Filename].Plain? && frag[Filename].v.Text? &&
      var name := frag[Filename].v.s;
      '/' !in name && |name| <= |path| && path[|path| - |name|..] == name &&
      (|name| < |path| ==> path[|path| - |name| - 1] == '/') &&
      ('/' !in path ==> name == path)
  {
    FragmentAt(py, msg, Filename);
    var path := StrOf(py, msg["printFileName"]);
    if '/' !in path {
      SlashFreeKeptWhole(path);
    }
  }

  /** A path without `/` is its own last segment. */
  lemma SlashFreeKeptWhole(path: string)
    requires '/' !in path
    ensures AfterLastSlash(path) == path
  {
  }

  /** The printer's codes 0-3 name idle, printing, paused and complete; every
      other integer code reads as idle. */
  lemma StateNameOfCode(code: int)
    ensures StateName(Integer(code)) ==
      Some(if 0 <= code < 4 then ["idle", "printing", "paused", "complete"][code] else "idle")
  {
  }

  /** `deviceState` takes precedence over `state`, and the state written is
      always one of the four names the code table knows. */
  lemma DeviceStateTakesPrecedence(py: Builtins, msg: Message)
    requires Fragment(py, msg).Some? && ("state" in msg || "deviceState" in msg)
    ensures var frag := Fragment(py, msg).value;
      var code := if "deviceState" in msg then msg["deviceState"] else msg["state"];
      State in frag && StateName(code).Some? && frag[State] == Plain(Text(StateName(code).value))
    ensures Fragment(py, msg).value[State].v.s in {"idle", "printing", "paused", "complete"}
  {
    FragmentAt(py, msg, State);
  }

  /** An axis whose label does not occur in `curPosition` reads "0". */
  lemma AbsentAxisIsZero(s: string, tag: string)
    requires tag != [] && !Contains(s, tag)
    ensures AxisText(Text(s), tag) == Some("0")
  {
  }

  /** A token found inside a text without `tag` does not contain `tag`. */
  lemma TokenHasNoLabel(piece: string, tag: string, token: string, i: nat)
    requires tag != [] && forall j :: 0 <= j ==> !OccursAt(piece, tag, j)
    requires i + |token| <= |piece| && piece[i..i + |token|] == token
    ensures forall j :: 0 <= j ==> !OccursAt(token, tag, j)
  {
    forall j | 0 <= j && OccursAt(token, tag, j) ensures false {
      forall k | 0 <= k < |tag| ensures piece[i + j + k] == tag[k] {
        assert token[j + k] == tag[k];
        assert piece[i..i + |token|][j + k] == piece[i + j + k];
      }
      assert piece[i + j..i + j + |tag|] == tag;
      assert OccursAt(piece, tag, i + j);
    }
  }

  /** `w` starts at index `p` of `s`; only whitespace lies between the end of
      the first occurrence of `tag` and it; and it ends at whitespace or where
      the text between that occurrence and the next one (or the end of `s`)
      ends. */
  predicate TokenAfterLabel(s: string, tag: string, p: nat, w: string)
    requires tag != [] && Contains(s, tag)
  {
    var from := Find(s, tag).value + |tag|;
    var end := from + |SecondPiece(s, tag)|;
    from <= p && p + |w| <= end && AllSpace(s[from..p]) && s[p..p + |w|] == w &&
    (p + |w| == end || IsSpace(s[p + |w|]))
  }

  /** An axis whose label occurs reads the first whitespace-delimited token
      after the label's first occurrence, which ends before the label's next
      occurrence; None exactly when the text between the two occurrences is
      all whitespace. */
  lemma AxisIsTokenAfterLabel(s: string, tag: string)
    requires tag != [] && Contains(s, tag)
    ensures AxisText(Text(s), tag).None? <==> AllSpace(SecondPiece(s, tag))
    ensures AxisText(Text(s), tag).Some? ==>
      var token := AxisText(Text(s), tag).value;
      token != [] && NoSpace(token) && forall j :: 0 <= j ==> !OccursAt(token, tag, j)
    ensures AxisText(Text(s), tag).Some? ==>
      exists p :: TokenAfterLabel(s, tag, p, AxisText(Text(s), tag).value)
  {
    var piece := SecondPiece(s, tag);
    assert AxisText(Text(s), tag) == FirstToken(piece);
    FirstTokenAvoidsLabel(piece, tag);
    if FirstToken(piece).Some? {
      var w := FirstToken(piece).value;
      FirstTokenPlace(piece);
      var j :| TokenSpot(piece, j, w);
      PlacedAfterLabel(s, tag, piece, j, w);
    }
  }

  /** A token placed in the text after the label's first occurrence lies
      after that occurrence in the whole text. */
  lemma PlacedAfterLabel(s: string, tag: string, piece: string, j: nat, w: string)
    requires tag != [] && Contains(s, tag) && piece == SecondPiece(s, tag) && TokenSpot(piece, j, w)
    ensures exists p :: TokenAfterLabel(s, tag, p, w)
  {
    var from := Find(s, tag).value + |tag|;
    SpotInText(s, from, piece, j, w);
    assert TokenAfterLabel(s, tag, from + j, w);
  }

  /** The first token of a text without `tag` does not contain `tag`. */
  lemma FirstTokenAvoidsLabel(piece: string, tag: string)
    requires tag != [] && forall j :: 0 <= j ==> !OccursAt(piece, tag, j)
    ensures FirstToken(piece).Some? ==> forall j :: 0 <= j ==> !OccursAt(FirstToken(piece).value, tag, j)
  {
    var rest := SkipSpaces(piece);
    if rest != [] {
      var token := TakeWord(rest);
      var i := |piece| - |rest|;
      assert piece[i..i + |token|] == token;
      TokenHasNoLabel(piece, tag, token, i);
    }
  }


  /** A reading given as an int too large for a float makes `float()` raise
      OverflowError, and the whole message is discarded. */
  lemma OversizedReadingDropsMessage(py: Builtins, msg: Message, i: int)
    requires "nozzleTemp" in msg && msg["nozzleTemp"] == Integer(i) && !FitsFloat(i)
    ensures Fragment(py, msg).None?
  {
    assert Reading(py, msg, NozzleTemp).None?;
  }

  /** An axis label with no token after it makes the conversion raise, and
      the whole message is discarded. */
  lemma MissingAxisTokenDropsMessage(py: Builtins, msg: Message, s: string, tag: string)
    requires "curPosition" in msg && msg["curPosition"] == Text(s)
    requires tag in {"X:", "Y:", "Z:"} && Contains(s, tag) && AllSpace(SecondPiece(s, tag))
    ensures Fragment(py, msg).None?
  {
    AxisIsTokenAfterLabel(s, tag);
    if tag == "X:" { assert Reading(py, msg, PositionX).None?; }
    else if tag == "Y:" { assert Reading(py, msg, PositionY).None?; }
    else { assert Reading(py, msg, PositionZ).None?; }
  }

}
