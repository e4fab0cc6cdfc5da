/** The Moonraker `notify` message format: `{"method": "notify", "params":
    [<status>]}`, where the status nests one object per printer subsystem.
    The coordinator rebuilds the whole canonical record from it. */
module Moonraker {

  import opened Options
  import opened Json
  import opened PrinterState

  predicate IsNotify(msg: Message)
  {
    "method" in msg && msg["method"] == Text("notify")
  }

  /** `params = data.get("params", [{}])` and, when `params` is truthy,
      `params[0]`; None when it is falsy or when the indexing raises (a dict
      has no key 0, numbers and bools cannot be indexed). A non-empty string
      yields its first character, on which the record builder then fails. */
  function NotifyStatus(msg: Message): (r: Option<Value>)
    ensures "params" !in msg ==> r == Some(Object(map[]))
    ensures var params := Get(msg, "params", List([Object(map[])]));
      r.Some? <==> Truthy(params) && (params.List? || params.Text?)
    ensures var params := Get(msg, "params", List([Object(map[])]));
      r.Some? && params.List? ==> r.value == params.items[0]
  {
    var params := Get(msg, "params", List([Object(map[])]));
    if !Truthy(params) then None
    else match params
      case List(items) => Some(items[0])
      case Text(s) => Some(Text([s[0]]))
      case _ => None
  }

  /** `status.get(name, {})`, which the builder goes on to call `.get` on:
      None when the value found is not a dict (AttributeError). */
  function Section(status: map<string, Value>, name: string): Option<map<string, Value>>
  {
    match Get(status, name, Object(map[]))
    case Object(m) => Some(m)
    case _ => None
  }

  function Repeat<T>(s: seq<T>, n: nat): (r: seq<T>)
    ensures |r| == |s| * n
  {
    if n == 0 then [] else s + Repeat(s, n - 1)
  }

  /** `v * 100`. Python repeats a string or a list a hundred times and raises
      TypeError for None and dicts. */
  function TimesHundred(v: Value): Option<Datum>
  {
    match v
    case Integer(i) => Some(Plain(Integer(i * 100)))
    case Boolean(b) => Some(Plain(Integer(if b then 100 else 0)))
    case Number(r) => Some(Plain(Number(r * 100.0)))
    case Text(s) => Some(Plain(Text(Repeat(s, 100))))
    case List(items) => Some(Plain(List(Repeat(items, 100))))
    case _ => None
  }

  /** `v / 60` (true division); None where Python raises: TypeError for
      values that are not numbers, OverflowError for an int whose quotient is
      beyond the float range. */
  function Sixtieth(v: Value): Option<real>
  {
    match v
    case Integer(i) => if -60 * FloatLimit < i < 60 * FloatLimit then Some(i as real / 60.0) else None
    case Boolean(b) => Some(if b then 1.0 / 60.0 else 0.0)
    case Number(r) => Some(r / 60.0)
    case _ => None
  }

  /** `round(v, digits)`; None where `round` raises TypeError. */
  function RoundedNumber(v: Value, digits: int): Option<Datum>
  {
    var x :- NumberOf(v);
    Some(Rounded(x, digits))
  }

  /** `round(position[i], 2)` for i = 0, 1, 2; None unless the position is a
      list of at least three numbers (a shorter list raises IndexError, a
      string's characters make `round` raise TypeError, a dict has no key 0). */
  function Axes(position: Value): Option<(Datum, Datum, Datum)>
  {
    if position.List? && |position.items| >= 3 then
      var x :- RoundedNumber(position.items[0], 2);
      var y :- RoundedNumber(position.items[1], 2);
      var z :- RoundedNumber(position.items[2], 2);
      Some((x, y, z))
    else None
  }

  /** The seven sections of a status object the record is built from. */
  datatype Sections = Sections(
    printStats: map<string, Value>, toolhead: map<string, Value>, extruder: map<string, Value>,
    heaterBed: map<string, Value>, fan: map<string, Value>, gcodeMove: map<string, Value>,
    virtualSdcard: map<string, Value>)

  /** The seven `status.get(name, {})` lookups; None where one of them is not
      a dict and the `.get` on it raises AttributeError. */
  function SectionsOf(st: map<string, Value>): (r: Option<Sections>)
    ensures r.Some? ==>
      Section(st, "print_stats") == Some(r.value.printStats) &&
      Section(st, "toolhead") == Some(r.value.toolhead) &&
      Section(st, "extruder") == Some(r.value.extruder) &&
      Section(st, "heater_bed") == Some(r.value.heaterBed) &&
      Section(st, "fan") == Some(r.value.fan) &&
      Section(st, "gcode_move") == Some(r.value.gcodeMove) &&
      Section(st, "virtual_sdcard") == Some(r.value.virtualSdcard)
    ensures r.None? ==>
      Section(st, "print_stats").None? || Section(st, "toolhead").None? ||
      Section(st, "extruder").None? || Section(st, "heater_bed").None? ||
      Section(st, "fan").None? || Section(st, "gcode_move").None? ||
      Section(st, "virtual_sdcard").None?
  {
    var printStats :- Section(st, "print_stats");
    var toolhead :- Section(st, "toolhead");
    var extruder :- Section(st, "extruder");
    var heaterBed :- Section(st, "heater_bed");
    var fan :- Section(st, "fan");
    var gcodeMove :- Section(st, "gcode_move");
    var virtualSdcard :- Section(st, "virtual_sdcard");
    Some(Sections(printStats, toolhead, extruder, heaterBed, fan, gcodeMove, virtualSdcard))
  }

  /** The numeric readings of a status object; `speed` is already divided
      by 60. */
  datatype Readings = Readings(
    progress: Datum, nozzleTemp: Datum, nozzleTarget: Datum, bedTemp: Datum, bedTarget: Datum,
    x: Datum, y: Datum, z: Datum, speed: real, speedFactor: real, fanSpeed: real)

  /** `toolhead.get("position", [0, 0, 0, 0])`'s default. */
  const DefaultPosition := List([Integer(0), Integer(0), Integer(0), Integer(0)])

  /** The readings taken from the sections, in the order the dict literal
      evaluates them; None where an operation on them raises. */
  function ReadingsOf(secs: Sections): (r: Option<Readings>)
    ensures r.Some? ==>
      var p := Get(secs.virtualSdcard, "progress", Integer(0));
      (p.Integer? ==> r.value.progress == Plain(Integer(100 * p.i))) &&
      (p.Number? ==> r.value.progress == Plain(Number(100.0 * p.r)))
  {
    var progress :- TimesHundred(Get(secs.virtualSdcard, "progress", Integer(0)));
    var nozzleTemp :- RoundedNumber(Get(secs.extruder, "temperature", Integer(0)), 1);
    var nozzleTarget :- RoundedNumber(Get(secs.extruder, "target", Integer(0)), 1);
    var bedTemp :- RoundedNumber(Get(secs.heaterBed, "temperature", Integer(0)), 1);
    var bedTarget :- RoundedNumber(Get(secs.heaterBed, "target", Integer(0)), 1);
    var axes :- Axes(Get(secs.toolhead, "position", DefaultPosition));
    var speed :- Sixtieth(Get(secs.gcodeMove, "speed", Integer(0)));
    var speedFactor :- NumberOf(Get(secs.gcodeMove, "speed_factor", Number(1.0)));
    var fanSpeed :- NumberOf(Get(secs.fan, "speed", Integer(0)));
    Some(Readings(progress, nozzleTemp, nozzleTarget, bedTemp, bedTarget,
                  axes.0, axes.1, axes.2, speed, speedFactor, fanSpeed))
  }

  /** The temperatures are the `extruder` and `heater_bed` numbers (default
      0) rounded to one digit. */
  lemma TemperatureSources(secs: Sections)
    requires ReadingsOf(secs).Some?
    ensures var g := ReadingsOf(secs).value;
      NumberOf(Get(secs.extruder, "temperature", Integer(0))).Some? &&
      NumberOf(Get(secs.extruder, "target", Integer(0))).Some? &&
      NumberOf(Get(secs.heaterBed, "temperature", Integer(0))).Some? &&
      NumberOf(Get(secs.heaterBed, "target", Integer(0))).Some? &&
      g.nozzleTemp == Rounded(NumberOf(Get(secs.extruder, "temperature", Integer(0))).value, 1) &&
      g.nozzleTarget == Rounded(NumberOf(Get(secs.extruder, "target", Integer(0))).value, 1) &&
      g.bedTemp == Rounded(NumberOf(Get(secs.heaterBed, "temperature", Integer(0))).value, 1) &&
      g.bedTarget == Rounded(NumberOf(Get(secs.heaterBed, "target", Integer(0))).value, 1)
  {
  }

  /** The axes are the first three entries of the `toolhead` position
      (default `[0, 0, 0, 0]`) rounded to two digits. */
  lemma PositionSources(secs: Sections)
    requires ReadingsOf(secs).Some?
    ensures var g := ReadingsOf(secs).value;
      var pos := Get(secs.toolhead, "position", DefaultPosition);
      pos.List? && |pos.items| >= 3 &&
      NumberOf(pos.items[0]).Some? && NumberOf(pos.items[1]).Some? && NumberOf(pos.items[2]).Some? &&
      g.x == Rounded(NumberOf(pos.items[0]).value, 2) &&
      g.y == Rounded(NumberOf(pos.items[1]).value, 2) &&
      g.z == Rounded(NumberOf(pos.items[2]).value, 2)
  {
  }

  /** The speed is the sixtieth of the `gcode_move` speed (default 0), and
      the speed factor and fan speed are the `gcode_move` and `fan` numbers
      (defaults 1.0 and 0). */
  lemma SpeedSources(secs: Sections)
    requires ReadingsOf(secs).Some?
    ensures var g := ReadingsOf(secs).value;
      Sixtieth(Get(secs.gcodeMove, "speed", Integer(0))).Some? &&
      NumberOf(Get(secs.gcodeMove, "speed_factor", Number(1.0))).Some? &&
      NumberOf(Get(secs.fan, "speed", Integer(0))).Some? &&
      g.speed == Sixtieth(Get(secs.gcodeMove, "speed", Integer(0))).value &&
      g.speedFactor == NumberOf(Get(secs.gcodeMove, "speed_factor", Number(1.0))).value &&
      g.fanSpeed == NumberOf(Get(secs.fan, "speed", Integer(0))).value
  {
  }

  /** The value the dict literal of `coordinator.py` lines 83-104 gives a
      field; `print_time_remaining` is not in the literal. */
  function AssembledValue(printStats: map<string, Value>, st: map<string, Value>, g: Readings, f: Field): Datum
    requires f != PrintTimeRemaining
  {
    match f
    case State => Plain(Get(printStats, "state", Text("idle")))
    case Filename => Plain(Get(printStats, "filename", Text("")))
    case PrintDuration => Plain(Get(printStats, "print_duration", Integer(0)))
    case TotalDuration => Plain(Get(printStats, "total_duration", Integer(0)))
    case Progress => g.progress
    case NozzleTemp => g.nozzleTemp
    case NozzleTarget => g.nozzleTarget
    case BedTemp => g.bedTemp
    case BedTarget => g.bedTarget
    case PositionX => g.x
    case PositionY => g.y
    case PositionZ => g.z
    case Speed => Rounded(g.speed, 2)
    case SpeedFactor => Rounded(g.speedFactor * 100.0, 0)
    case FanSpeed => Rounded(g.fanSpeed * 100.0, 0)
    case AuxiliaryFan => Whole(0)
    case CaseFan => Whole(0)
    case CurrentLayer => Plain(Get(st, "current_layer", Integer(0)))
    case TotalLayers => Plain(Get(st, "total_layers", Integer(0)))
    case LightOn => Plain(Boolean(false))
  }

  /** The dict literal: every field but `print_time_remaining`. */
  function Assemble(printStats: map<string, Value>, st: map<string, Value>, g: Readings): (r: Record)
    ensures forall f :: f in r <==> f != PrintTimeRemaining
    ensures forall f | f in r :: r[f] == AssembledValue(printStats, st, g, f)
  {
    AllListed();
    map f | f in AllFields - {PrintTimeRemaining} :: AssembledValue(printStats, st, g, f)
  }

  /** The record built from a status object, or None where building it
      raises: every field but `print_time_remaining`, with the two extra fans
      and the light reset to 0, 0 and False. */
  function ProcessPrinterData(status: Value): (r: Option<Record>)
    ensures r.Some? ==> forall f :: f in r.value <==> f != PrintTimeRemaining
    ensures r.Some? ==> r.value[AuxiliaryFan] == Whole(0) && r.value[CaseFan] == Whole(0)
    ensures r.Some? ==> r.value[LightOn] == Plain(Boolean(false))
  {
    if !status.Object? then None
    else
      var secs :- SectionsOf(status.fields);
      var g :- ReadingsOf(secs);
      AssembledConstants(secs.printStats, status.fields, g);
      Some(Assemble(secs.printStats, status.fields, g))
  }

  lemma AssembledConstants(printStats: map<string, Value>, st: map<string, Value>, g: Readings)
    ensures var r := Assemble(printStats, st, g);
      r[AuxiliaryFan] == Whole(0) && r[CaseFan] == Whole(0) && r[LightOn] == Plain(Boolean(false))
  {
    var r := Assemble(printStats, st, g);
    assert r[AuxiliaryFan] == AssembledValue(printStats, st, g, AuxiliaryFan);
    assert r[CaseFan] == AssembledValue(printStats, st, g, CaseFan);
    assert r[LightOn] == AssembledValue(printStats, st, g, LightOn);
  }

  lemma AssembledPassThrough(printStats: map<string, Value>, st: map<string, Value>, g: Readings)
    ensures var r := Assemble(printStats, st, g);
      r[State] == Plain(Get(printStats, "state", Text("idle"))) &&
      r[Filename] == Plain(Get(printStats, "filename", Text(""))) &&
      r[PrintDuration] == Plain(Get(printStats, "print_duration", Integer(0))) &&
      r[TotalDuration] == Plain(Get(printStats, "total_duration", Integer(0))) &&
      r[Progress] == g.progress &&
      r[CurrentLayer] == Plain(Get(st, "current_layer", Integer(0))) &&
      r[TotalLayers] == Plain(Get(st, "total_layers", Integer(0)))
  {
    var r := Assemble(printStats, st, g);
    assert r[State] == AssembledValue(printStats, st, g, State);
    assert r[Filename] == AssembledValue(printStats, st, g, Filename);
    assert r[PrintDuration] == AssembledValue(printStats, st, g, PrintDuration);
    assert r[TotalDuration] == AssembledValue(printStats, st, g, TotalDuration);
    assert r[Progress] == AssembledValue(printStats, st, g, Progress);
    assert r[CurrentLayer] == AssembledValue(printStats, st, g, CurrentLayer);
    assert r[TotalLayers] == AssembledValue(printStats, st, g, TotalLayers);
  }

  lemma AssembledReadings(printStats: map<string, Value>, st: map<string, Value>, g: Readings)
    ensures var r := Assemble(printStats, st, g);
      r[NozzleTemp] == g.nozzleTemp && r[NozzleTarget] == g.nozzleTarget &&
      r[BedTemp] == g.bedTemp && r[BedTarget] == g.bedTarget &&
      r[PositionX] == g.x && r[PositionY] == g.y && r[PositionZ] == g.z
  {
    var r := Assemble(printStats, st, g);
    assert r[NozzleTemp] == AssembledValue(printStats, st, g, NozzleTemp);
    assert r[NozzleTarget] == AssembledValue(printStats, st, g, NozzleTarget);
    assert r[BedTemp] == AssembledValue(printStats, st, g, BedTemp);
    assert r[BedTarget] == AssembledValue(printStats, st, g, BedTarget);
    assert r[PositionX] == AssembledValue(printStats, st, g, PositionX);
    assert r[PositionY] == AssembledValue(printStats, st, g, PositionY);
    assert r[PositionZ] == AssembledValue(printStats, st, g, PositionZ);
  }

  lemma AssembledSpeeds(printStats: map<string, Value>, st: map<string, Value>, g: Readings)
    ensures var r := Assemble(printStats, st, g);
      r[Speed] == Rounded(g.speed, 2) &&
      r[SpeedFactor] == Rounded(g.speedFactor * 100.0, 0) &&
      r[FanSpeed] == Rounded(g.fanSpeed * 100.0, 0)
  {
    var r := Assemble(printStats, st, g);
    assert r[Speed] == AssembledValue(printStats, st, g, Speed);
    assert r[SpeedFactor] == AssembledValue(printStats, st, g, SpeedFactor);
    assert r[FanSpeed] == AssembledValue(printStats, st, g, FanSpeed);
  }

  lemma AssembledFrom(status: Value, secs: Sections, g: Readings)
    requires status.Object? && SectionsOf(status.fields) == Some(secs) && ReadingsOf(secs) == Some(g)
    ensures ProcessPrinterData(status) == Some(Assemble(secs.printStats, status.fields, g))
  {
  }

  /** The record a status builds, named by its sections and readings. */
  lemma Processed(status: Value) returns (secs: Sections, g: Readings)
    requires ProcessPrinterData(status).Some?
    ensures status.Object? && SectionsOf(status.fields) == Some(secs) && ReadingsOf(secs) == Some(g)
    ensures ProcessPrinterData(status) == Some(Assemble(secs.printStats, status.fields, g))
  {
    secs := SectionsOf(status.fields).value;
    g := ReadingsOf(secs).value;
  }

  /** State, file name and durations are passed through from `print_stats`
      with their defaults, and the layers from the status itself. */
  lemma ProcessedPassThrough(status: Value)
    requires ProcessPrinterData(status).Some?
    ensures status.Object? && Section(status.fields, "print_stats").Some?
    ensures var r := ProcessPrinterData(status).value;
      var ps := Section(status.fields, "print_stats").value;
      r[State] == Plain(Get(ps, "state", Text("idle"))) &&
      r[Filename] == Plain(Get(ps, "filename", Text(""))) &&
      r[PrintDuration] == Plain(Get(ps, "print_duration", Integer(0))) &&
      r[TotalDuration] == Plain(Get(ps, "total_duration", Integer(0)))
    ensures var r := ProcessPrinterData(status).value;
      r[CurrentLayer] == Plain(Get(status.fields, "current_layer", Integer(0))) &&
      r[TotalLayers] == Plain(Get(status.fields, "total_layers", Integer(0)))
  {
    var secs, g := Processed(status);
    AssembledPassThrough(secs.printStats, status.fields, g);
  }

  /** Progress is the `virtual_sdcard` reading as a percentage. */
  lemma ProcessedProgress(status: Value)
    requires ProcessPrinterData(status).Some?
    ensures status.Object? && Section(status.fields, "virtual_sdcard").Some?
    ensures var r := ProcessPrinterData(status).value;
      var p := Get(Section(status.fields, "virtual_sdcard").value, "progress", Integer(0));
      (p.Integer? ==> r[Progress] == Plain(Integer(100 * p.i))) &&
      (p.Number? ==> r[Progress] == Plain(Number(100.0 * p.r)))
  {
    var secs, g := Processed(status);
    AssembledPassThrough(secs.printStats, status.fields, g);
  }

  /** A built record's temperatures are the `extruder` and `heater_bed`
      readings (default 0) rounded to one digit. */
  lemma ProcessedTemperatures(status: Value)
    requires ProcessPrinterData(status).Some?
    ensures status.Object? &&
      Section(status.fields, "extruder").Some? && Section(status.fields, "heater_bed").Some?
    ensures var r := ProcessPrinterData(status).value;
      var extruder := Section(status.fields, "extruder").value;
      var bed := Section(status.fields, "heater_bed").value;
      NumberOf(Get(extruder, "temperature", Integer(0))).Some? &&
      NumberOf(Get(extruder, "target", Integer(0))).Some? &&
      NumberOf(Get(bed, "temperature", Integer(0))).Some? &&
      NumberOf(Get(bed, "target", Integer(0))).Some? &&
      r[NozzleTemp] == Rounded(NumberOf(Get(extruder, "temperature", Integer(0))).value, 1) &&
      r[NozzleTarget] == Rounded(NumberOf(Get(extruder, "target", Integer(0))).value, 1) &&
      r[BedTemp] == Rounded(NumberOf(Get(bed, "temperature", Integer(0))).value, 1) &&
      r[BedTarget] == Rounded(NumberOf(Get(bed, "target", Integer(0))).value, 1)
  {
    var secs, g := Processed(status);
    TemperatureSources(secs);
    AssembledReadings(secs.printStats, status.fields, g);
  }

  /** A built record's position is the first three entries of the `toolhead`
      position (default `[0, 0, 0, 0]`) rounded to two digits. */
  lemma ProcessedPosition(status: Value)
    requires ProcessPrinterData(status).Some?
    ensures status.Object? && Section(status.fields, "toolhead").Some?
    ensures var r := ProcessPrinterData(status).value;
      var pos := Get(Section(status.fields, "toolhead").value, "position", DefaultPosition);
      pos.List? && |pos.items| >= 3 &&
      NumberOf(pos.items[0]).Some? && NumberOf(pos.items[1]).Some? && NumberOf(pos.items[2]).Some? &&
      r[PositionX] == Rounded(NumberOf(pos.items[0]).value, 2) &&
      r[PositionY] == Rounded(NumberOf(pos.items[1]).value, 2) &&
      r[PositionZ] == Rounded(NumberOf(pos.items[2]).value, 2)
  {
    var secs, g := Processed(status);
    PositionSources(secs);
    AssembledReadings(secs.printStats, status.fields, g);
  }

  /** A built record's speed is the `gcode_move` speed (default 0) divided by
      60 and rounded to two digits. */
  lemma ProcessedSpeed(status: Value)
    requires ProcessPrinterData(status).Some?
    ensures status.Object? && Section(status.fields, "gcode_move").Some?
    ensures var move := Section(status.fields, "gcode_move").value;
      Sixtieth(Get(move, "speed", Integer(0))).Some? &&
      ProcessPrinterData(status).value[Speed] == Rounded(Sixtieth(Get(move, "speed", Integer(0))).value, 2)
  {
    var secs, g := Processed(status);
    SpeedSources(secs);
    AssembledSpeeds(secs.printStats, status.fields, g);
  }

  /** A built record's speed factor (default 1.0) and `fan` speed (default
      0) are percentages rounded to whole numbers. */
  lemma ProcessedPercentages(status: Value)
    requires ProcessPrinterData(status).Some?
    ensures status.Object? &&
      Section(status.fields, "gcode_move").Some? && Section(status.fields, "fan").Some?
    ensures var r := ProcessPrinterData(status).value;
      var move := Section(status.fields, "gcode_move").value;
      var fan := Section(status.fields, "fan").value;
      NumberOf(Get(move, "speed_factor", Number(1.0))).Some? &&
      NumberOf(Get(fan, "speed", Integer(0))).Some? &&
      r[SpeedFactor] == Rounded(NumberOf(Get(move, "speed_factor", Number(1.0))).value * 100.0, 0) &&
      r[FanSpeed] == Rounded(NumberOf(Get(fan, "speed", Integer(0))).value * 100.0, 0)
  {
    var secs, g := Processed(status);
    SpeedSources(secs);
    AssembledSpeeds(secs.printStats, status.fields, g);
  }

  /** A value `round` and the arithmetic operators accept. */
  predicate IsNumber(v: Value)
  {
    v.Integer? || v.Number? || v.Boolean?
  }

  /** The readings can be taken from the sections: progress is neither None
      nor a dict, the temperatures are numbers, the position is a list
      starting with three numbers, the speed is a number whose sixtieth is
      within the float range, and the speed factor and the fan speed are
      numbers. */
  predicate Readable(secs: Sections)
  {
    var progress := Get(secs.virtualSdcard, "progress", Integer(0));
    var position := Get(secs.toolhead, "position", DefaultPosition);
    var speed := Get(secs.gcodeMove, "speed", Integer(0));
    !progress.Null? && !progress.Object? &&
    IsNumber(Get(secs.extruder, "temperature", Integer(0))) &&
    IsNumber(Get(secs.extruder, "target", Integer(0))) &&
    IsNumber(Get(secs.heaterBed, "temperature", Integer(0))) &&
    IsNumber(Get(secs.heaterBed, "target", Integer(0))) &&
    position.List? && |position.items| >= 3 &&
    IsNumber(position.items[0]) && IsNumber(position.items[1]) && IsNumber(position.items[2]) &&
    IsNumber(speed) && (speed.Integer? ==> -60 * FloatLimit < speed.i < 60 * FloatLimit) &&
    IsNumber(Get(secs.gcodeMove, "speed_factor", Number(1.0))) &&
    IsNumber(Get(secs.fan, "speed", Integer(0)))
  }

  lemma NumberOfDefined(v: Value)
    ensures NumberOf(v).Some? <==> IsNumber(v)
  {
  }

  lemma ReadingsOfDefined(secs: Sections)
    ensures ReadingsOf(secs).Some? <==> Readable(secs)
  {
    NumberOfDefined(Get(secs.extruder, "temperature", Integer(0)));
    NumberOfDefined(Get(secs.extruder, "target", Integer(0)));
    NumberOfDefined(Get(secs.heaterBed, "temperature", Integer(0)));
    NumberOfDefined(Get(secs.heaterBed, "target", Integer(0)));
    NumberOfDefined(Get(secs.gcodeMove, "speed_factor", Number(1.0)));
    NumberOfDefined(Get(secs.fan, "speed", Integer(0)));
    var position := Get(secs.toolhead, "position", DefaultPosition);
    if position.List? && |position.items| >= 3 {
      NumberOfDefined(position.items[0]);
      NumberOfDefined(position.items[1]);
      NumberOfDefined(position.items[2]);
    }
  }

  /** A status the record can be built from: a dict whose seven sections are
      absent or dicts, with readings `Readable` accepts. */
  predicate Buildable(status: Value)
  {
    status.Object? &&
    var st := status.fields;
    Section(st, "print_stats").Some? && Section(st, "toolhead").Some? &&
    Section(st, "extruder").Some? && Section(st, "heater_bed").Some? &&
    Section(st, "fan").Some? && Section(st, "gcode_move").Some? &&
    Section(st, "virtual_sdcard").Some? &&
    Readable(Sections(
      Section(st, "print_stats").value, Section(st, "toolhead").value,
      Section(st, "extruder").value, Section(st, "heater_bed").value,
      Section(st, "fan").value, Section(st, "gcode_move").value,
      Section(st, "virtual_sdcard").value))
  }

  /** The record is built exactly when the status is `Buildable`. */
  lemma ProcessedExactly(status: Value)
    ensures ProcessPrinterData(status).Some? <==> Buildable(status)
  {
    if status.Object? {
      var secs := SectionsOf(status.fields);
      if secs.Some? {
        ReadingsOfDefined(secs.value);
      }
    }
  }

  /** An empty status builds the record of an idle printer: idle state, no
      file, zero durations, progress and layers, zero readings and a speed
      factor of 100. */
  lemma EmptyStatus()
    ensures ProcessPrinterData(Object(map[])).Some?
    ensures var r := ProcessPrinterData(Object(map[])).value;
      r[State] == Plain(Text("idle")) && r[Filename] == Plain(Text("")) &&
      r[PrintDuration] == Whole(0) && r[TotalDuration] == Whole(0) &&
      r[Progress] == Whole(0) &&
      r[CurrentLayer] == Whole(0) && r[TotalLayers] == Whole(0)
    ensures var r := ProcessPrinterData(Object(map[])).value;
      r[NozzleTemp] == Rounded(0.0, 1) && r[NozzleTarget] == Rounded(0.0, 1) &&
      r[BedTemp] == Rounded(0.0, 1) && r[BedTarget] == Rounded(0.0, 1) &&
      r[PositionX] == Rounded(0.0, 2) && r[PositionY] == Rounded(0.0, 2) &&
      r[PositionZ] == Rounded(0.0, 2) && r[Speed] == Rounded(0.0, 2) &&
      r[SpeedFactor] == Rounded(100.0, 0) && r[FanSpeed] == Rounded(0.0, 0)
  {
    var e: map<string, Value> := map[];
    var secs := Sections(e, e, e, e, e, e, e);
    var g := Readings(Whole(0), Rounded(0.0, 1), Rounded(0.0, 1), Rounded(0.0, 1), Rounded(0.0, 1),
                      Rounded(0.0, 2), Rounded(0.0, 2), Rounded(0.0, 2), 0.0, 1.0, 0.0);
    EmptySections();
    EmptyReadings();
    AssembledFrom(Object(e), secs, g);
    AssembledPassThrough(e, e, g);
    AssembledReadings(e, e, g);
    AssembledSpeeds(e, e, g);
  }

  lemma EmptySections()
    ensures var e: map<string, Value> := map[]; SectionsOf(e) == Some(Sections(e, e, e, e, e, e, e))
  {
  }

  lemma EmptyReadings()
    ensures var e: map<string, Value> := map[];
      ReadingsOf(Sections(e, e, e, e, e, e, e)) ==
      Some(Readings(Whole(0), Rounded(0.0, 1), Rounded(0.0, 1), Rounded(0.0, 1), Rounded(0.0, 1),
                    Rounded(0.0, 2), Rounded(0.0, 2), Rounded(0.0, 2), 0.0, 1.0, 0.0))
  {
  }
}
