/** The canonical printer-state record that the coordinator holds in
    `self.data` and hands to every entity, and the default record it serves
    before any message has arrived. */
module PrinterState {

  import opened Json

  /** The keys of the canonical record. */
  datatype Field =
    | State | Filename | PrintDuration | PrintTimeRemaining | TotalDuration
    | Progress | NozzleTemp | NozzleTarget | BedTemp | BedTarget
    | PositionX | PositionY | PositionZ | Speed | SpeedFactor
    | FanSpeed | AuxiliaryFan | CaseFan | CurrentLayer | TotalLayers | LightOn

  /** The dictionary key each field is stored under. */
  function Key(f: Field): string
  {
    match f
    case State => "state"
    case Filename => "filename"
    case PrintDuration => "print_duration"
    case PrintTimeRemaining => "print_time_remaining"
    case TotalDuration => "total_duration"
    case Progress => "progress"
    case NozzleTemp => "nozzle_temp"
    case NozzleTarget => "nozzle_target"
    case BedTemp => "bed_temp"
    case BedTarget => "bed_target"
    case PositionX => "position_x"
    case PositionY => "position_y"
    case PositionZ => "position_z"
    case Speed => "speed"
    case SpeedFactor => "speed_factor"
    case FanSpeed => "fan_speed"
    case AuxiliaryFan => "auxiliary_fan"
    case CaseFan => "case_fan"
    case CurrentLayer => "current_layer"
    case TotalLayers => "total_layers"
    case LightOn => "light_on"
  }

  const AllFields: set<Field> :=
    {State, Filename, PrintDuration, PrintTimeRemaining, TotalDuration,
     Progress, NozzleTemp, NozzleTarget, BedTemp, BedTarget,
     PositionX, PositionY, PositionZ, Speed, SpeedFactor,
     FanSpeed, AuxiliaryFan, CaseFan, CurrentLayer, TotalLayers, LightOn}

  /** Every field is one of the canonical fields. */
  lemma FieldListed(f: Field)
    ensures f in AllFields
  {
    match f
    case _ =>
  }

  lemma AllListed()
    ensures forall f :: f in AllFields
  {
    forall f ensures f in AllFields { FieldListed(f); }
  }

  /** A value stored in the record: a Python value, or `round(x, digits)` of
      a number x, which the model keeps as a term rather than computing the
      decimal rounding of a binary float. */
  datatype Datum = Plain(v: Value) | Rounded(x: real, digits: int)

  /** `self.data`. The empty map stands for "no data yet": Python's None and
      an empty dict both fail the coordinator's `if self.data:` test. */
  type Record = map<Field, Datum>

  /** Every field is populated. */
  predicate Complete(r: Record)
  {
    r.Keys == AllFields
  }

  function Whole(n: int): Datum { Plain(Integer(n)) }

  /** The value each field takes in the default record. */
  function DefaultValue(f: Field): Datum
  {
    match f
    case State => Plain(Text("idle"))
    case Filename => Plain(Text(""))
    case PrintDuration => Whole(0)
    case PrintTimeRemaining => Whole(0)
    case TotalDuration => Whole(0)
    case Progress => Whole(0)
    case NozzleTemp => Whole(0)
    case NozzleTarget => Whole(0)
    case BedTemp => Whole(0)
    case BedTarget => Whole(0)
    case PositionX => Whole(0)
    case PositionY => Whole(0)
    case PositionZ => Whole(0)
    case Speed => Whole(0)
    case SpeedFactor => Whole(100)
    case FanSpeed => Whole(0)
    case AuxiliaryFan => Whole(0)
    case CaseFan => Whole(0)
    case CurrentLayer => Whole(0)
    case TotalLayers => Whole(0)
    case LightOn => Plain(Boolean(false))
  }

  /** The record served before any printer data has arrived. */
  function DefaultRecord(): (r: Record)
    ensures Complete(r)
    ensures forall f :: f in r && r[f] == DefaultValue(f)
  {
    AllListed();
    map f | f in AllFields :: DefaultValue(f)
  }

  /** The coordinator's periodic refresh: the data it already holds, or the
      default record when it holds none. */
  function UpdateData(data: Record): (r: Record)
    ensures r != map[]
    ensures data != map[] ==> r == data
    ensures data == map[] ==> Complete(r) && r == DefaultRecord()
  {
    if data != map[] then data else DefaultRecord()
  }

  /** The default record is idle with no file, a 100 % speed factor, the
      light off and every other field zero. */
  lemma DefaultRecordValues()
    ensures Complete(DefaultRecord())
    ensures DefaultRecord()[State] == Plain(Text("idle"))
    ensures DefaultRecord()[Filename] == Plain(Text(""))
    ensures DefaultRecord()[SpeedFactor] == Plain(Integer(100))
    ensures DefaultRecord()[LightOn] == Plain(Boolean(false))
    ensures forall f :: f != State && f != Filename && f != SpeedFactor && f != LightOn ==>
      DefaultRecord()[f] == Plain(Integer(0))
  {
    var r := DefaultRecord();
    forall f | f != State && f != Filename && f != SpeedFactor && f != LightOn
      ensures r[f] == Plain(Integer(0))
    {
      ZeroByDefault(f);
    }
  }

  /** Every field but the state, the file name, the speed factor and the
      light defaults to 0. */
  lemma ZeroByDefault(f: Field)
    requires f != State && f != Filename && f != SpeedFactor && f != LightOn
    ensures DefaultValue(f) == Whole(0)
  {
  }

  /** Distinct fields are stored under distinct keys. */
  lemma KeysDistinct(f: Field, g: Field)
    requires f != g
    ensures Key(f) != Key(g)
  {
  }
}
