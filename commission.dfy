/** `Commission` and `defaultCommission` (src/types/commission.ts). */
module CommissionTypes {

  datatype Commission = Commission(
    code: string, description: string, unitMeasure: string, warehouse: string, location: string,
    affectedByIGV: bool, igvAffectationCode: string, igvRate: string, affectedByIVAP: bool,
    affectedByISC: bool, iscType: string, iscPercentage: string, iscUnitMeasure: string,
    affectedByICBPER: bool, affectedByPerception: bool, perceptionPercentage: string,
    affectedByDetraction: bool, detractionCode: string, detractionPercentage: string,
    reorderPoint: string, safetyStock: string, minimumStock: string, maximumStock: string)

  /** The string fields, by name. */
  datatype TextField =
    | Code | Description | UnitMeasure | Warehouse | Location
    | IgvAffectationCode | IgvRate | IscType | IscPercentage | IscUnitMeasure
    | PerceptionPercentage | DetractionCode | DetractionPercentage
    | ReorderPoint | SafetyStock | MinimumStock | MaximumStock

  /** The boolean tax flags, by name. */
  datatype Flag = AffectedByIGV | AffectedByIVAP | AffectedByISC | AffectedByICBPER | AffectedByPerception | AffectedByDetraction

  function Text(c: Commission, f: TextField): string
  {
    match f
    case Code => c.code
    case Description => c.description
    case UnitMeasure => c.unitMeasure
    case Warehouse => c.warehouse
    case Location => c.location
    case IgvAffectationCode => c.igvAffectationCode
    case IgvRate => c.igvRate
    case IscType => c.iscType
    case IscPercentage => c.iscPercentage
    case IscUnitMeasure => c.iscUnitMeasure
    case PerceptionPercentage => c.perceptionPercentage
    case DetractionCode => c.detractionCode
    case DetractionPercentage => c.detractionPercentage
    case ReorderPoint => c.reorderPoint
    case SafetyStock => c.safetyStock
    case MinimumStock => c.minimumStock
    case MaximumStock => c.maximumStock
  }

  function IsSet(c: Commission, f: Flag): bool
  {
    match f
    case AffectedByIGV => c.affectedByIGV
    case AffectedByIVAP => c.affectedByIVAP
    case AffectedByISC => c.affectedByISC
    case AffectedByICBPER => c.affectedByICBPER
    case AffectedByPerception => c.affectedByPerception
    case AffectedByDetraction => c.affectedByDetraction
  }

  /** `defaultCommission`: every flag off, percentages and stock levels "0", everything else empty. */
  const DefaultCommission := Commission(
    "", "", "", "", "",
    false, "", "", false,
    false, "", "0", "",
    false, false, "0",
    false, "", "0",
    "0", "0", "0", "0")

  /** The fields `defaultCommission` sets to "0". */
  predicate ZeroByDefault(f: TextField)
  {
    f in {IscPercentage, PerceptionPercentage, DetractionPercentage, ReorderPoint, SafetyStock, MinimumStock, MaximumStock}
  }

  lemma DefaultCommissionValues(f: TextField, g: Flag)
    ensures !IsSet(DefaultCommission, g)
    ensures Text(DefaultCommission, f) == if ZeroByDefault(f) then "0" else ""
  {
  }

  /** `{ ...prev, [field]: value }` on a string field. */
  function SetText(c: Commission, f: TextField, value: string): (r: Commission)
    ensures Text(r, f) == value
    ensures forall g | g != f :: Text(r, g) == Text(c, g)
    ensures forall g :: IsSet(r, g) == IsSet(c, g)
  {
    match f
    case Code => c.(code := value)
    case Description => c.(description := value)
    case UnitMeasure => c.(unitMeasure := value)
    case Warehouse => c.(warehouse := value)
    case Location => c.(location := value)
    case IgvAffectationCode => c.(igvAffectationCode := value)
    case IgvRate => c.(igvRate := value)
    case IscType => c.(iscType := value)
    case IscPercentage => c.(iscPercentage := value)
    case IscUnitMeasure => c.(iscUnitMeasure := value)
    case PerceptionPercentage => c.(perceptionPercentage := value)
    case DetractionCode => c.(detractionCode := value)
    case DetractionPercentage => c.(detractionPercentage := value)
    case ReorderPoint => c.(reorderPoint := value)
    case SafetyStock => c.(safetyStock := value)
    case MinimumStock => c.(minimumStock := value)
    case MaximumStock => c.(maximumStock := value)
  }

  /** `{ ...prev, [flag]: !prev[flag] }`. */
  function Toggle(c: Commission, f: Flag): (r: Commission)
    ensures IsSet(r, f) == !IsSet(c, f)
    ensures forall g | g != f :: IsSet(r, g) == IsSet(c, g)
    ensures forall t :: Text(r, t) == Text(c, t)
  {
    match f
    case AffectedByIGV => c.(affectedByIGV := !c.affectedByIGV)
    case AffectedByIVAP => c.(affectedByIVAP := !c.affectedByIVAP)
    case AffectedByISC => c.(affectedByISC := !c.affectedByISC)
    case AffectedByICBPER => c.(affectedByICBPER := !c.affectedByICBPER)
    case AffectedByPerception => c.(affectedByPerception := !c.affectedByPerception)
    case AffectedByDetraction => c.(affectedByDetraction := !c.affectedByDetraction)
  }

  /** Ticking a box twice restores the commission. */
  lemma ToggleTwice(c: Commission, f: Flag)
    ensures Toggle(Toggle(c, f), f) == c
  {
    match f {
      case AffectedByIGV =>
      case AffectedByIVAP =>
      case AffectedByISC =>
      case AffectedByICBPER =>
      case AffectedByPerception =>
      case AffectedByDetraction =>
    }
  }

  /** Setting a field to the value it already has changes nothing. */
  lemma SetTextSameValue(c: Commission, f: TextField)
    ensures SetText(c, f, Text(c, f)) == c
  {
    match f {
      case Code =>
      case Description =>
      case UnitMeasure =>
      case Warehouse =>
      case Location =>
      case IgvAffectationCode =>
      case IgvRate =>
      case IscType =>
      case IscPercentage =>
      case IscUnitMeasure =>
      case PerceptionPercentage =>
      case DetractionCode =>
      case DetractionPercentage =>
      case ReorderPoint =>
      case SafetyStock =>
      case MinimumStock =>
      case MaximumStock =>
    }
  }
}

/**
 * The commission editor (src/components/CommissionForm.tsx): one state
 * object, a setter per string field, a toggle per flag, and inputs that
 * are enabled only while their tax flag is on.
 */
module CommissionForm {
  import opened CommissionTypes
  import opened Wrappers

  /** The controls whose `disabled` depends on the commission, and the always read-only inputs. */
  datatype Control =
    | CodeInput | UnitMeasureInput | DescriptionInput | WarehouseSelect | LocationInput
    | IgvAffectationSelect | IgvRateSelect
    | IscTypeSelect | IscUnitMeasureSelect | IscPercentageInput
    | PerceptionPercentageInput
    | DetractionCodeInput | DetractionSearchButton | DetractionPercentageInput
    | StockInput(field: TextField)

  /** The tax flag a control depends on, if any. */
  function GatingFlag(ctrl: Control): (g: Option<Flag>)
  {
    match ctrl
    case IscTypeSelect => Some(AffectedByISC)
    case IscUnitMeasureSelect => Some(AffectedByISC)
    case IscPercentageInput => Some(AffectedByISC)
    case PerceptionPercentageInput => Some(AffectedByPerception)
    case DetractionCodeInput => Some(AffectedByDetraction)
    case DetractionSearchButton => Some(AffectedByDetraction)
    case DetractionPercentageInput => Some(AffectedByDetraction)
    case _ => None
  }

  /** Whether the user can change a control for the current commission. */
  predicate Editable(c: Commission, ctrl: Control)
  {
    match GatingFlag(ctrl)
    case Some(g) => IsSet(c, g)
    case None => !(ctrl.CodeInput? || ctrl.UnitMeasureInput? || ctrl.DescriptionInput?)
  }

  class CommissionForm {
    var commission: Commission

    /** `useState({ ...defaultCommission })`. */
    constructor ()
      ensures commission == DefaultCommission
    {
      commission := DefaultCommission;
    }

    /** `handleChange(field, value)`. */
    method HandleChange(f: TextField, value: string)
      modifies this
      ensures commission == SetText(old(commission), f, value)
    {
      commission := SetText(commission, f, value);
    }

    /** `handleCheckboxChange(flag)`. */
    method HandleCheckboxChange(f: Flag)
      modifies this
      ensures commission == Toggle(old(commission), f)
    {
      commission := Toggle(commission, f);
    }

    /** `handleSubmit`: a toast and a log line; the state is untouched. */
    method HandleSubmit()
      ensures commission == old(commission)
    {
    }
  }

  /**
   * The ISC type, ISC unit and ISC percentage follow `affectedByISC`, the
   * perception percentage follows `affectedByPerception`, and the
   * detraction code, its search button and percentage follow
   * `affectedByDetraction`; code, unit of measure and description are
   * never editable.
   */
  lemma EditabilityFollowsFlags(c: Commission)
    ensures Editable(c, IscTypeSelect) == c.affectedByISC
    ensures Editable(c, IscUnitMeasureSelect) == c.affectedByISC
    ensures Editable(c, IscPercentageInput) == c.affectedByISC
    ensures Editable(c, PerceptionPercentageInput) == c.affectedByPerception
    ensures Editable(c, DetractionCodeInput) == c.affectedByDetraction
    ensures Editable(c, DetractionSearchButton) == c.affectedByDetraction
    ensures Editable(c, DetractionPercentageInput) == c.affectedByDetraction
    ensures !Editable(c, CodeInput) && !Editable(c, UnitMeasureInput) && !Editable(c, DescriptionInput)
  {
  }

  /** On a fresh form every flag-dependent control is disabled. */
  lemma FreshFormGatesClosed(ctrl: Control)
    requires GatingFlag(ctrl).Some?
    ensures !Editable(DefaultCommission, ctrl)
  {
  }

  /**
   * Ticking a flag flips exactly the controls it gates and leaves every
   * other control as it was; ticking it again restores them.
   */
  lemma ToggleOpensGatedControls(c: Commission, f: Flag, ctrl: Control)
    ensures GatingFlag(ctrl) == Some(f) ==> Editable(Toggle(c, f), ctrl) == !Editable(c, ctrl)
    ensures GatingFlag(ctrl) != Some(f) ==> Editable(Toggle(c, f), ctrl) == Editable(c, ctrl)
    ensures Editable(Toggle(Toggle(c, f), f), ctrl) == Editable(c, ctrl)
  {
    ToggleTwice(c, f);
  }
}
