/** `Warehouse` and `defaultWarehouse` (src/types/warehouse.ts). */
module WarehouseTypes {

  datatype Warehouse = Warehouse(
    code: string, establishmentCode: string, name: string, companyId: string,
    address: string, otherAddress: string, branchId: string, locationId: string,
    warehouseType: string, costCenterId: string, observations: string, inactive: bool)

  /** The eleven string fields, by name. */
  datatype TextField =
    | Code | EstablishmentCode | Name | CompanyId | Address | OtherAddress
    | BranchId | LocationId | WarehouseType | CostCenterId | Observations

  function Text(w: Warehouse, f: TextField): string
  {
    match f
    case Code => w.code
    case EstablishmentCode => w.establishmentCode
    case Name => w.name
    case CompanyId => w.companyId
    case Address => w.address
    case OtherAddress => w.otherAddress
    case BranchId => w.branchId
    case LocationId => w.locationId
    case WarehouseType => w.warehouseType
    case CostCenterId => w.costCenterId
    case Observations => w.observations
  }

  /** Every string empty, not inactive. */
  const DefaultWarehouse := Warehouse("", "", "", "", "", "", "", "", "", "", "", false)

  /**
   * A zod string rule: `z.string()` with an optional `.min(n)` (0 when
   * absent) and an optional `.max(n)`, both on the string's length.
   */
  datatype StringRule = StringRule(min: nat, max: int)   // max < 0: no `.max`

  predicate RuleHolds(rule: StringRule, s: string)
  {
    rule.min <= |s| && (rule.max < 0 || |s| <= rule.max)
  }

  /** A `z.object` over a warehouse: one rule per string field (`inactive` is `z.boolean()`). */
  type Schema = TextField -> StringRule

  predicate Accepts(schema: Schema, w: Warehouse)
  {
    forall f: TextField :: RuleHolds(schema(f), Text(w, f))
  }
}

/** `formSchema` (src/components/warehouse/WarehouseFormSchema.ts). */
module WarehouseFormSchema {
  import opened WarehouseTypes

  function FormSchema(f: TextField): StringRule
  {
    match f
    case Code => StringRule(1, 3)
    case EstablishmentCode => StringRule(0, 4)
    case Name => StringRule(1, 40)
    case CompanyId => StringRule(0, -1)
    case Address => StringRule(0, -1)
    case OtherAddress => StringRule(0, 80)
    case BranchId => StringRule(0, -1)
    case LocationId => StringRule(1, -1)
    case WarehouseType => StringRule(1, -1)
    case CostCenterId => StringRule(0, -1)
    case Observations => StringRule(0, 40)
  }

  /** The schema, field by field. */
  predicate Valid(w: Warehouse)
  {
    Accepts(FormSchema, w)
  }

  /**
   * What the schema demands: code of 1 to 3 characters, establishment code
   * of at most 4, name of 1 to 40, other address of at most 80,
   * observations of at most 40, a location and a warehouse type; company,
   * address, branch, cost centre and the inactive flag are free.
   */
  lemma ValidIff(w: Warehouse)
    ensures Valid(w) <==>
      && 1 <= |w.code| <= 3
      && |w.establishmentCode| <= 4
      && 1 <= |w.name| <= 40
      && |w.otherAddress| <= 80
      && |w.locationId| >= 1
      && |w.warehouseType| >= 1
      && |w.observations| <= 40
  {
    if !Valid(w) {
      var f: TextField :| !RuleHolds(FormSchema(f), Text(w, f));
    }
  }

  /** `defaultWarehouse` does not pass: code, name, location and type are empty. */
  lemma DefaultWarehouseInvalid()
    ensures !Valid(DefaultWarehouse)
  {
    assert !RuleHolds(FormSchema(Code), Text(DefaultWarehouse, Code));
  }

  /** Changing an unconstrained field never changes validity. */
  lemma FreeFieldsUnconstrained(w: Warehouse, companyId: string, address: string, branchId: string,
                                costCenterId: string, inactive: bool)
    ensures Valid(w) <==> Valid(w.(companyId := companyId, address := address, branchId := branchId,
                                   costCenterId := costCenterId, inactive := inactive))
  {
    ValidIff(w);
    ValidIff(w.(companyId := companyId, address := address, branchId := branchId,
                costCenterId := costCenterId, inactive := inactive));
  }
}

/**
 * The warehouse form (src/components/EditWarehouseForm.tsx): its own copy
 * of the schema, the `maxLength` of its inputs, the initial values and the
 * submit dispatch.
 */
module EditWarehouseForm {
  import opened Wrappers
  import opened WarehouseTypes
  import WarehouseFormSchema

  /** The schema declared inside the form file. */
  function InlineSchema(f: TextField): StringRule
  {
    match f
    case Code => StringRule(1, 3)
    case EstablishmentCode => StringRule(0, 4)
    case Name => StringRule(1, 40)
    case CompanyId => StringRule(0, -1)
    case Address => StringRule(0, -1)
    case OtherAddress => StringRule(0, 80)
    case BranchId => StringRule(0, -1)
    case LocationId => StringRule(1, -1)
    case WarehouseType => StringRule(1, -1)
    case CostCenterId => StringRule(0, -1)
    case Observations => StringRule(0, 40)
  }

  /** The `maxLength` attribute of each input; `-1` where the input has none (selects, free inputs). */
  function InputMaxLength(f: TextField): int
  {
    match f
    case Code => 3
    case EstablishmentCode => 4
    case Name => 40
    case OtherAddress => 80
    case Observations => 40
    case _ => -1
  }

  /** The two schemas accept exactly the same warehouses. */
  lemma InlineSchemaMatchesModule(w: Warehouse)
    ensures Accepts(InlineSchema, w) <==> WarehouseFormSchema.Valid(w)
  {
    assert forall f: TextField :: InlineSchema(f) == WarehouseFormSchema.FormSchema(f);
  }

  /** Each input's `maxLength` is its schema maximum. */
  lemma MaxLengthsMatchSchema(f: TextField)
    ensures InputMaxLength(f) == InlineSchema(f).max
  {
  }

  /** Text typed into the inputs, capped by their `maxLength`. */
  predicate WithinInputLimits(w: Warehouse)
  {
    forall f: TextField :: InputMaxLength(f) < 0 || |Text(w, f)| <= InputMaxLength(f)
  }

  /**
   * With every input within its `maxLength`, the only way to fail the
   * schema is to leave code, name, location or type empty.
   */
  lemma WithinLimitsOnlyRequiredFieldsMatter(w: Warehouse)
    requires WithinInputLimits(w)
    ensures Accepts(InlineSchema, w) <==>
      w.code != "" && w.name != "" && w.locationId != "" && w.warehouseType != ""
  {
    InlineSchemaMatchesModule(w);
    WarehouseFormSchema.ValidIff(w);
    assert |Text(w, Code)| <= 3 && |Text(w, EstablishmentCode)| <= 4 && |Text(w, Name)| <= 40;
    assert |Text(w, OtherAddress)| <= 80 && |Text(w, Observations)| <= 40;
  }

  /** `initialWarehouse = defaultWarehouse`. */
  function InitialWarehouse(initial: Option<Warehouse>): (w: Warehouse)
    ensures initial.None? ==> w == DefaultWarehouse
    ensures initial.Some? ==> w == initial.value
  {
    initial.GetOr(DefaultWarehouse)
  }

  /** What submitting the form does. */
  datatype SubmitDispatch =
    | ValidationErrors            // the resolver rejects: `handleSubmit` is not called
    | Forwarded(data: Warehouse)  // `onSubmit(data)`
    | LoggedOnly(data: Warehouse) // no `onSubmit`: a log line and a success toast

  /** `form.handleSubmit(handleSubmit)`. */
  function Submit(data: Warehouse, hasOnSubmit: bool): (r: SubmitDispatch)
    ensures r.ValidationErrors? <==> !Accepts(InlineSchema, data)
    ensures r.Forwarded? <==> Accepts(InlineSchema, data) && hasOnSubmit
    ensures !r.ValidationErrors? ==> r.data == data
  {
    if !Accepts(InlineSchema, data) then ValidationErrors
    else if hasOnSubmit then Forwarded(data)
    else LoggedOnly(data)
  }

  /** Submitting the untouched default form never reaches `onSubmit`. */
  lemma DefaultFormNotSubmitted(hasOnSubmit: bool)
    ensures Submit(InitialWarehouse(None), hasOnSubmit) == ValidationErrors
  {
    InlineSchemaMatchesModule(DefaultWarehouse);
    WarehouseFormSchema.DefaultWarehouseInvalid();
  }
}
