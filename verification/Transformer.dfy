// The transformer design record and its validation.
module Transformer {
  import opened Wrappers
  import opened Decimal

  datatype Transformer = Transformer(
    id: string,
    ratedPower: real,
    hv: real,
    lv: real,
    frequency: int,
    phases: int,
    vectorGroup: string,
    impedance: real,
    cooling: string,
    year: int,
    application: string,
    noLoadLoss: real,
    loadLoss: real,
    mass: real,
    length: real,
    width: real,
    height: real)

  const ONAN := "ONAN"
  const ONAF := "ONAF"
  const OFAF := "OFAF"
  const OFWF := "OFWF"
  const ODAF := "ODAF"

  const VALID_COOLING_TYPES: seq<string> := [ONAN, ONAF, OFAF, OFWF, ODAF]

  const VALID_VECTOR_GROUPS: seq<string> :=
    ["YNd11", "YNd1", "Ynd5", "Yy0", "Dyn1", "Dd0", "YNd5", "Yd11", "Zyn11"]

  const VALID_APPLICATIONS: seq<string> :=
    ["generation", "transmission", "distribution", "industrial", "renewable"]

  datatype TransformerError =
    | EmptyId
    | InvalidId
    | NonPositivePower
    | VoltageOrder
    | InvalidFrequency
    | InvalidPhaseCount
    | InvalidVectorGroup
    | ImpedanceRange
    | InvalidCoolingType
    | CommissioningYear
    | NegativeLosses
    | NonPositiveDimensions

  /** The pattern `^TR-\d{3}$`. */
  predicate MatchesId(id: string)
  {
    |id| == 6 && id[..3] == "TR-" && IsDigit(id[3]) && IsDigit(id[4]) && IsDigit(id[5])
  }

  function Validate(t: Transformer): Option<TransformerError>
  {
    if t.id == "" then Some(EmptyId)
    else if !MatchesId(t.id) then Some(InvalidId)
    else if t.ratedPower <= 0.0 then Some(NonPositivePower)
    else if t.hv <= 0.0 || t.lv <= 0.0 || t.hv <= t.lv then Some(VoltageOrder)
    else if t.frequency != 50 && t.frequency != 60 then Some(InvalidFrequency)
    else if t.phases != 1 && t.phases != 3 then Some(InvalidPhaseCount)
    else if t.vectorGroup !in VALID_VECTOR_GROUPS then Some(InvalidVectorGroup)
    else if t.impedance <= 0.0 || t.impedance > 40.0 then Some(ImpedanceRange)
    else if t.cooling !in VALID_COOLING_TYPES then Some(InvalidCoolingType)
    else if t.year < 1960 then Some(CommissioningYear)
    else if t.noLoadLoss < 0.0 || t.loadLoss < 0.0 then Some(NegativeLosses)
    else if t.mass <= 0.0 || t.length <= 0.0 || t.width <= 0.0 || t.height <= 0.0 then Some(NonPositiveDimensions)
    else None
  }

  predicate Valid(t: Transformer)
  {
    Validate(t).None?
  }

  /** What the rules ask of a record, in no order. */
  lemma ValidExactly(t: Transformer)
    ensures Valid(t) <==>
            && MatchesId(t.id) && t.ratedPower > 0.0 && t.hv > t.lv > 0.0
            && t.frequency in {50, 60} && t.phases in {1, 3}
            && t.vectorGroup in VALID_VECTOR_GROUPS && t.cooling in VALID_COOLING_TYPES
            && 0.0 < t.impedance <= 40.0 && t.year >= 1960 && t.noLoadLoss >= 0.0 && t.loadLoss >= 0.0
            && t.mass > 0.0 && t.length > 0.0 && t.width > 0.0 && t.height > 0.0
  {
  }

  /** The rules that come before the one broken, in their order. */
  ghost predicate PassedBefore(t: Transformer, e: TransformerError)
  {
    var n := match e
      case EmptyId => 0 case InvalidId => 0 case NonPositivePower => 1 case VoltageOrder => 2 case InvalidFrequency => 3
      case InvalidPhaseCount => 4 case InvalidVectorGroup => 5 case ImpedanceRange => 6 case InvalidCoolingType => 7
      case CommissioningYear => 8 case NegativeLosses => 9 case NonPositiveDimensions => 10;
    && (n > 0 ==> MatchesId(t.id)) && (n > 1 ==> t.ratedPower > 0.0) && (n > 2 ==> 0.0 < t.lv < t.hv)
    && (n > 3 ==> t.frequency in {50, 60}) && (n > 4 ==> t.phases in {1, 3})
    && (n > 5 ==> t.vectorGroup in VALID_VECTOR_GROUPS) && (n > 6 ==> 0.0 < t.impedance <= 40.0)
    && (n > 7 ==> t.cooling in VALID_COOLING_TYPES) && (n > 8 ==> t.year >= 1960)
    && (n > 9 ==> t.noLoadLoss >= 0.0 && t.loadLoss >= 0.0)
  }

  /** Every refusal names a rule the record breaks, the first one broken. */
  lemma RefusalIsJustified(t: Transformer)
    requires !Valid(t)
    ensures PassedBefore(t, Validate(t).value)
    ensures match Validate(t).value
            case EmptyId => t.id == ""
            case InvalidId => t.id != "" && !MatchesId(t.id)
            case NonPositivePower => t.ratedPower <= 0.0
            case VoltageOrder => !(0.0 < t.lv < t.hv)
            case InvalidFrequency => t.frequency !in {50, 60}
            case InvalidPhaseCount => t.phases !in {1, 3}
            case InvalidVectorGroup => t.vectorGroup !in VALID_VECTOR_GROUPS
            case ImpedanceRange => !(0.0 < t.impedance <= 40.0)
            case InvalidCoolingType => t.cooling !in VALID_COOLING_TYPES
            case CommissioningYear => t.year < 1960
            case NegativeLosses => t.noLoadLoss < 0.0 || t.loadLoss < 0.0
            case NonPositiveDimensions => t.mass <= 0.0 || t.length <= 0.0 || t.width <= 0.0 || t.height <= 0.0
  {
  }

  /** A valid id carries neither the topic's nor the dedup key's separator. */
  lemma ValidIdIsPlain(id: string)
    requires MatchesId(id)
    ensures '@' !in id && '/' !in id && id != ""
  {
    assert id[0] == id[..3][0] && id[1] == id[..3][1] && id[2] == id[..3][2];
    forall i | 0 <= i < 6 ensures id[i] != '@' && id[i] != '/' {
    }
  }

  /** The number a valid id carries. */
  function IdNumber(id: string): int
    requires MatchesId(id)
  {
    (id[3] as int - 48) * 100 + (id[4] as int - 48) * 10 + (id[5] as int - 48)
  }

  /** Valid ids are told apart by three decimal digits. */
  lemma IdNumberInjective(a: string, b: string)
    requires MatchesId(a) && MatchesId(b)
    ensures 0 <= IdNumber(a) < 1000
    ensures IdNumber(a) == IdNumber(b) <==> a == b
  {
    if IdNumber(a) == IdNumber(b) {
      assert a[3] == b[3] && a[4] == b[4] && a[5] == b[5];
      assert a == a[..3] + a[3..] && b == b[..3] + b[3..];
      assert a[3..] == [a[3], a[4], a[5]] && b[3..] == [b[3], b[4], b[5]];
    }
  }
}
