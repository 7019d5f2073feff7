/**
 * The comparatif normaliser of the presentation endpoint
 * (`build_comparatif_dto` in blog/views.py): it checks the creation
 * timestamp, dispatches on the energy type, demands the fields of that type,
 * refuses the fields of the other type, checks every rate row, and builds the
 * DTO handed to the template.
 *
 * `BuildDto` is the reference definition, on a typed DTO; the method
 * `BuildComparatifDto` follows the source's loops and builds the dictionary
 * step by step, and is proved to agree with it.
 */
module Comparatif {
  import opened Wrappers
  import opened PyValue

  datatype EnergyType = Gas | Electricity

  /** The exact `energyType` string that selects each kind. */
  function EnergyName(kind: EnergyType): string
  {
    match kind
    case Gas => "GAS"
    case Electricity => "ELECTRICITY"
  }

  const DefaultTitle: string := "Contexte global"

  const GasFields: seq<string> := ["pce", "gasProfile", "routingRate"]

  const ElectricityFields: seq<string> := ["pdl", "segmentation"]

  /** The keys every `comparatifRate` row must carry, in checking order. */
  const RateFields: seq<string> :=
    ["partnerPhoto", "rate2", "abonnement", "partCee", "cta", "ticgn",
     "rate3", "rate4", "rate5", "rate6", "rate7"]

  /** Fields that must be truthy for the kind. */
  function Required(kind: EnergyType): seq<string>
  {
    match kind
    case Gas => GasFields
    case Electricity => ElectricityFields
  }

  /** Fields of the other kind, which must not be truthy. */
  function Forbidden(kind: EnergyType): seq<string>
  {
    match kind
    case Gas => ElectricityFields
    case Electricity => GasFields
  }

  /** The reasons the normaliser raises, in the source's terms.  `item` is
      the 1-based row number the message prints. */
  datatype Error =
    | MissingCreatedOn
    | InvalidCreatedOn
    | InvalidEnergyType
    | MissingRequired(kind: EnergyType, field: string)
    | NotAllowed(kind: EnergyType, field: string)
    | MissingRateField(item: nat, field: string)
    | RateItemRaised(item: nat, field: string, raised: PyError)
    | RateListRaised(raised: PyError)

  /** The text of the raised exception.  For `InvalidCreatedOn` the source
      appends the conversion error's own text; for the Python exceptions the
      model gives only the exception's class. */
  function Message(e: Error): (r: string)
    ensures e.MissingRequired? ==> "Missing required " <= r && EndsWith(r, e.field)
    ensures e.NotAllowed? ==> "Field '" + e.field + "' is not allowed for " <= r
    ensures e.MissingRateField? ==>
              "Missing or empty field '" + e.field + "'" <= r && EndsWith(r, NatToString(e.item))
  {
    match e
    case MissingCreatedOn => "Missing required field: createdOn"
    case InvalidCreatedOn => "Invalid createdOn value: "
    case InvalidEnergyType => "Invalid or missing energyType. Must be 'GAS' or 'ELECTRICITY'."
    case MissingRequired(kind, field) => "Missing required " + EnergyName(kind) + " field: " + field
    case NotAllowed(kind, field) => "Field '" + field + "' is not allowed for " + EnergyName(kind) + " energyType"
    case MissingRateField(item, field) =>
      "Missing or empty field '" + field + "' in comparatifRate item " + NatToString(item)
    case RateItemRaised(_, _, raised) => PyErrorName(raised)
    case RateListRaised(raised) => PyErrorName(raised)
  }

  /** The energy-type specific part of the DTO. */
  datatype Section =
    | GasSection(pce: Value, gasProfile: Value, routingRate: Value)
    | ElectricitySection(pdl: Value, segmentation: Value)

  datatype Dto = Dto(title: Value, createdOn: string, energyType: Value, section: Section, comparatifRate: Value)

  function KindOf(d: Dto): EnergyType
  {
    if d.section.GasSection? then Gas else Electricity
  }

  /** The entries `dto.update(...)` adds for a section. */
  function SectionEntries(section: Section): (r: map<string, Value>)
    ensures var kind := if section.GasSection? then Gas else Electricity;
            r.Keys == set f | f in Required(kind)
  {
    match section
    case GasSection(pce, gasProfile, routingRate) =>
      map["pce" := pce, "gasProfile" := gasProfile, "routingRate" := routingRate]
    case ElectricitySection(pdl, segmentation) =>
      map["pdl" := pdl, "segmentation" := segmentation]
  }

  /** The dictionary the source returns for a DTO. */
  function ToDict(d: Dto): (r: map<string, Value>)
    ensures r.Keys == {"title", "createdOn", "energyType", "comparatifRate"} + set f | f in Required(KindOf(d))
    ensures r["title"] == d.title && r["createdOn"] == Str(d.createdOn)
    ensures r["energyType"] == d.energyType && r["comparatifRate"] == d.comparatifRate
  {
    (map["title" := d.title, "createdOn" := Str(d.createdOn), "energyType" := d.energyType]
      + SectionEntries(d.section))["comparatifRate" := d.comparatifRate]
  }

  /** A normaliser outcome with the DTO as the source's dictionary. */
  function AsDict(res: Result<Dto, Error>): Result<map<string, Value>, Error>
  {
    match res
    case Success(d) => Success(ToDict(d))
    case Failure(e) => Failure(e)
  }

  /** The section copied out of the input with `comparatif.get(...)`. */
  function TakeSection(kind: EnergyType, comparatif: map<string, Value>): (r: Section)
    ensures r.GasSection? <==> kind == Gas
    ensures forall f :: f in Required(kind) ==> f in SectionEntries(r) && SectionEntries(r)[f] == Get(comparatif, f)
  {
    match kind
    case Gas => GasSection(Get(comparatif, "pce"), Get(comparatif, "gasProfile"), Get(comparatif, "routingRate"))
    case Electricity => ElectricitySection(Get(comparatif, "pdl"), Get(comparatif, "segmentation"))
  }

  function Title(data: map<string, Value>): Value
  {
    GetOr(data, "contexte_title", Str(DefaultTitle))
  }

  /** The number `created_on_raw / 1000.0` divides: a JSON number, or a
      boolean, which Python treats as 0 or 1.  Anything else raises. */
  function CreatedOnMillis(raw: Value): (r: Option<int>)
    ensures r.Some? <==> raw.Num? || raw.Bool?
    ensures raw.Num? ==> r == Some(raw.n)
    ensures raw == Bool(true) ==> r == Some(1)
    ensures raw == Bool(false) ==> r == Some(0)
  {
    match raw
    case Num(n) => Some(n)
    case Bool(b) => Some(if b then 1 else 0)
    case _ => None
  }

  /** `formatDate` stands for `fromtimestamp(ms / 1000.0).strftime("%d/%m/%Y")`,
      which depends on the host's time zone and fails on out-of-range values. */
  function FormatCreatedOn(raw: Value, formatDate: int -> Option<string>): (r: Option<string>)
    ensures r.Some? <==> CreatedOnMillis(raw).Some? && formatDate(CreatedOnMillis(raw).value).Some?
    ensures r.Some? ==> r == formatDate(CreatedOnMillis(raw).value)
  {
    match CreatedOnMillis(raw)
    case None => None
    case Some(ms) => formatDate(ms)
  }

  /** The dispatch on `energyType`: an exact, case-sensitive comparison. */
  function ParseEnergyType(v: Value): (r: Option<EnergyType>)
    ensures r.Some? ==> v == Str(EnergyName(r.value))
    ensures r.None? <==> v != Str("GAS") && v != Str("ELECTRICITY")
  {
    if v == Str("GAS") then Some(Gas)
    else if v == Str("ELECTRICITY") then Some(Electricity)
    else None
  }

  predicate AllTruthy(fields: seq<string>, m: map<string, Value>)
  {
    forall j :: 0 <= j < |fields| ==> Truthy(Get(m, fields[j]))
  }

  predicate NoneTruthy(fields: seq<string>, m: map<string, Value>)
  {
    forall j :: 0 <= j < |fields| ==> !Truthy(Get(m, fields[j]))
  }

  /** The loop over the kind's required fields, from position `i`: the
      first field that is not truthy. */
  function MissingFrom(kind: EnergyType, fields: seq<string>, m: map<string, Value>, i: nat): (r: Option<Error>)
    requires i <= |fields|
    ensures r.Some? ==> r.value.MissingRequired? && r.value.kind == kind && r.value.field in fields[i..]
    decreases |fields| - i
  {
    if i == |fields| then None
    else if !Truthy(Get(m, fields[i])) then Some(MissingRequired(kind, fields[i]))
    else MissingFrom(kind, fields, m, i + 1)
  }

  /** The loop over the other kind's fields, from position `i`: the first
      field that is truthy. */
  function ForbiddenFrom(kind: EnergyType, fields: seq<string>, m: map<string, Value>, i: nat): (r: Option<Error>)
    requires i <= |fields|
    ensures r.Some? ==> r.value.NotAllowed? && r.value.kind == kind && r.value.field in fields[i..]
    decreases |fields| - i
  {
    if i == |fields| then None
    else if Truthy(Get(m, fields[i])) then Some(NotAllowed(kind, fields[i]))
    else ForbiddenFrom(kind, fields, m, i + 1)
  }

  /** Required fields are checked before forbidden ones. */
  function EnergyError(kind: EnergyType, comparatif: map<string, Value>): (r: Option<Error>)
    ensures r.Some? ==> (r.value.MissingRequired? && r.value.kind == kind && r.value.field in Required(kind))
                        || (r.value.NotAllowed? && r.value.kind == kind && r.value.field in Forbidden(kind))
    ensures r.Some? && r.value.NotAllowed? ==> MissingFrom(kind, Required(kind), comparatif, 0).None?
  {
    match MissingFrom(kind, Required(kind), comparatif, 0)
    case Some(e) => Some(e)
    case None => ForbiddenFrom(kind, Forbidden(kind), comparatif, 0)
  }

  /** Only `None` and `""` count as empty in a rate row. */
  predicate IsBlank(v: Value)
  {
    v == Null || v == Str("")
  }

  datatype FieldStatus = Filled | Blank | Raised(raised: PyError)

  /** `field not in item or item[field] in [None, ""]`, with the exceptions
      Python raises when `item` is not a dictionary. */
  function RateFieldStatus(item: Value, field: string): (r: FieldStatus)
    ensures r.Raised? ==> r.raised == TypeError && !item.Obj?
    ensures item.Obj? ==> (r == Blank <==> field !in item.fields || IsBlank(item.fields[field]))
    ensures !(item.Obj? || item.List? || item.Str?) ==> r == Raised(TypeError)
  {
    match Contains(item, field)
    case Failure(e) => Raised(e)
    case Success(present) =>
      if !present then Blank
      else match Subscript(item, field)
        case Failure(e) => Raised(e)
        case Success(v) => if IsBlank(v) then Blank else Filled
  }

  /** The inner loop over the fields of row `number`, from position `j`. */
  function RowErrorFrom(item: Value, number: nat, fields: seq<string>, j: nat): (r: Option<Error>)
    requires j <= |fields|
    ensures r.Some? ==> (r.value.MissingRateField? || r.value.RateItemRaised?)
                        && r.value.item == number && r.value.field in fields[j..]
    decreases |fields| - j
  {
    if j == |fields| then None
    else match RateFieldStatus(item, fields[j])
      case Filled => RowErrorFrom(item, number, fields, j + 1)
      case Blank => Some(MissingRateField(number, fields[j]))
      case Raised(e) => Some(RateItemRaised(number, fields[j], e))
  }

  /** The outer loop over the rows, from position `i`; rows are numbered from 1. */
  function RowsErrorFrom(items: seq<Value>, i: nat): (r: Option<Error>)
    requires i <= |items|
    ensures r.Some? ==> (r.value.MissingRateField? || r.value.RateItemRaised?)
                        && i < r.value.item <= |items| && r.value.field in RateFields
    decreases |items| - i
  {
    if i == |items| then None
    else match RowErrorFrom(items[i], i + 1, RateFields, 0)
      case Some(e) => Some(e)
      case None => RowsErrorFrom(items, i + 1)
  }

  /** `comparatif.get("comparatifRate", [])`. */
  function RateList(comparatif: map<string, Value>): (r: Value)
    ensures "comparatifRate" in comparatif ==> r == comparatif["comparatifRate"]
    ensures "comparatifRate" !in comparatif ==> r == List([])
  {
    GetOr(comparatif, "comparatifRate", List([]))
  }

  /** `for idx, item in enumerate(rate, start=1)` and both loops. */
  function RatesError(rate: Value): (r: Option<Error>)
    ensures Iterate(rate).Failure? ==> r == Some(RateListRaised(Iterate(rate).error))
    ensures r.Some? && !r.value.RateListRaised? ==>
              && (r.value.MissingRateField? || r.value.RateItemRaised?)
              && Iterate(rate).Success? && 1 <= r.value.item <= |Iterate(rate).value|
              && r.value.field in RateFields
  {
    match Iterate(rate)
    case Failure(e) => Some(RateListRaised(e))
    case Success(items) => RowsErrorFrom(items, 0)
  }

  /** The reference definition of the normaliser. */
  function BuildDto(comparatif: map<string, Value>, data: map<string, Value>, formatDate: int -> Option<string>)
    : (r: Result<Dto, Error>)
    ensures r == Failure(MissingCreatedOn) <==> !Truthy(Get(comparatif, "createdOn"))
    ensures r.Success? ==>
              && r.value.energyType == Get(comparatif, "energyType")
              && r.value.energyType == Str(EnergyName(KindOf(r.value)))
              && r.value.section == TakeSection(KindOf(r.value), comparatif)
              && r.value.title == GetOr(data, "contexte_title", Str(DefaultTitle))
              && r.value.comparatifRate == GetOr(comparatif, "comparatifRate", List([]))
  {
    var raw := Get(comparatif, "createdOn");
    if !Truthy(raw) then Failure(MissingCreatedOn)
    else
      var createdOn := FormatCreatedOn(raw, formatDate);
      if createdOn.None? then Failure(InvalidCreatedOn)
      else
        var energyType := Get(comparatif, "energyType");
        var kind := ParseEnergyType(energyType);
        if kind.None? then Failure(InvalidEnergyType)
        else match EnergyError(kind.value, comparatif)
          case Some(e) => Failure(e)
          case None =>
            var rate := RateList(comparatif);
            match RatesError(rate)
            case Some(e) => Failure(e)
            case None =>
              Success(Dto(Title(data), createdOn.value, energyType, TakeSection(kind.value, comparatif), rate))
  }

  // ---------------------------------------------------------------------
  // The source's loops
  // ---------------------------------------------------------------------

  /** The loops over the required fields of the kind (read back from the
      partly built `dto`, as the source does) and over the other kind's
      fields (read from the input). */
  method CheckEnergyFields(kind: EnergyType, comparatif: map<string, Value>, dto: map<string, Value>)
    returns (e: Option<Error>)
    requires forall f :: f in Required(kind) ==> f in dto && dto[f] == Get(comparatif, f)
    ensures e == EnergyError(kind, comparatif)
  {
    var required := Required(kind);
    var i := 0;
    while i < |required|
      invariant 0 <= i <= |required|
      invariant MissingFrom(kind, required, comparatif, 0) == MissingFrom(kind, required, comparatif, i)
    {
      if !Truthy(Get(dto, required[i])) {
        return Some(MissingRequired(kind, required[i]));
      }
      i := i + 1;
    }

    var forbidden := Forbidden(kind);
    i := 0;
    while i < |forbidden|
      invariant 0 <= i <= |forbidden|
      invariant ForbiddenFrom(kind, forbidden, comparatif, 0) == ForbiddenFrom(kind, forbidden, comparatif, i)
    {
      if Truthy(Get(comparatif, forbidden[i])) {
        return Some(NotAllowed(kind, forbidden[i]));
      }
      i := i + 1;
    }
    return None;
  }

  /** The inner loop of the rate check: the given fields of one row, in order. */
  method CheckRow(item: Value, number: nat, fields: seq<string>) returns (e: Option<Error>)
    ensures e == RowErrorFrom(item, number, fields, 0)
  {
    var j := 0;
    while j < |fields|
      invariant 0 <= j <= |fields|
      invariant RowErrorFrom(item, number, fields, 0) == RowErrorFrom(item, number, fields, j)
    {
      var field := fields[j];
      var present := Contains(item, field);
      if present.Failure? {
        return Some(RateItemRaised(number, field, present.error));
      }
      if !present.value {
        return Some(MissingRateField(number, field));
      }
      var value := Subscript(item, field);
      if value.Failure? {
        return Some(RateItemRaised(number, field, value.error));
      }
      if IsBlank(value.value) {
        return Some(MissingRateField(number, field));
      }
      j := j + 1;
    }
    return None;
  }

  /** The outer loop of the rate check: the rows, numbered from 1. */
  method CheckRates(rate: Value) returns (e: Option<Error>)
    ensures e == RatesError(rate)
  {
    var iterated := Iterate(rate);
    if iterated.Failure? {
      return Some(RateListRaised(iterated.error));
    }
    var items := iterated.value;
    var idx := 0;
    while idx < |items|
      invariant 0 <= idx <= |items|
      invariant RowsErrorFrom(items, 0) == RowsErrorFrom(items, idx)
    {
      var rowError := CheckRow(items[idx], idx + 1, RateFields);
      if rowError.Some? {
        return rowError;
      }
      idx := idx + 1;
    }
    return None;
  }

  /** `build_comparatif_dto`, step by step. */
  method BuildComparatifDto(comparatif: map<string, Value>, data: map<string, Value>, formatDate: int -> Option<string>)
    returns (r: Result<map<string, Value>, Error>)
    ensures r == AsDict(BuildDto(comparatif, data, formatDate))
  {
    var createdOnRaw := Get(comparatif, "createdOn");
    if !Truthy(createdOnRaw) {
      return Failure(MissingCreatedOn);
    }
    var createdOn := FormatCreatedOn(createdOnRaw, formatDate);
    if createdOn.None? {
      return Failure(InvalidCreatedOn);
    }

    var dto := map["title" := Title(data), "createdOn" := Str(createdOn.value),
                   "energyType" := Get(comparatif, "energyType")];
    var energyType := dto["energyType"];
    var kind: EnergyType;
    if energyType == Str("GAS") {
      kind := Gas;
    } else if energyType == Str("ELECTRICITY") {
      kind := Electricity;
    } else {
      return Failure(InvalidEnergyType);
    }
    dto := dto + SectionEntries(TakeSection(kind, comparatif));

    var energyError := CheckEnergyFields(kind, comparatif, dto);
    if energyError.Some? {
      return Failure(energyError.value);
    }

    var rate := GetOr(comparatif, "comparatifRate", List([]));
    var rateError := CheckRates(rate);
    if rateError.Some? {
      return Failure(rateError.value);
    }

    dto := dto["comparatifRate" := rate];
    return Success(dto);
  }
}
