/**
 * What the comparatif normaliser promises: which check fires first, when a
 * payload is accepted for each energy type, which row and field a rate
 * failure names, and what the accepted DTO holds.
 */
module ComparatifProperties {
  import opened Wrappers
  import opened PyValue
  import opened Comparatif

  /** A rate-row field that passes: the row is a dictionary holding the key
      with a value other than `None` and `""`. */
  predicate FieldFilled(item: Value, f: string)
  {
    item.Obj? && f in item.fields && !IsBlank(item.fields[f])
  }

  predicate RowFilled(item: Value)
  {
    forall j :: 0 <= j < |RateFields| ==> FieldFilled(item, RateFields[j])
  }

  /** The `comparatifRate` values the rate check lets through: a list of
      filled rows, or a value a `for` loop visits no element of. */
  predicate RatesAccepted(rate: Value)
  {
    match rate
    case List(items) => forall k :: 0 <= k < |items| ==> RowFilled(items[k])
    case Str(s) => s == ""
    case Obj(m) => m == map[]
    case _ => false
  }

  predicate CreatedOnAccepted(comparatif: map<string, Value>, formatDate: int -> Option<string>)
  {
    Truthy(Get(comparatif, "createdOn")) && FormatCreatedOn(Get(comparatif, "createdOn"), formatDate).Some?
  }

  // ---------------------------------------------------------------------
  // The scans, one element at a time
  // ---------------------------------------------------------------------

  lemma StatusFilled(item: Value, f: string)
    ensures RateFieldStatus(item, f) == Filled <==> FieldFilled(item, f)
  {
  }

  lemma {:induction false} MissingFromNone(kind: EnergyType, fields: seq<string>, m: map<string, Value>, i: nat)
    requires i <= |fields|
    ensures MissingFrom(kind, fields, m, i) == None <==> forall j :: i <= j < |fields| ==> Truthy(Get(m, fields[j]))
    decreases |fields| - i
  {
    if i < |fields| {
      MissingFromNone(kind, fields, m, i + 1);
    }
  }

  lemma {:induction false} MissingFromFirst(kind: EnergyType, fields: seq<string>, m: map<string, Value>, i: nat, k: nat)
    requires i <= k < |fields|
    requires forall j :: i <= j < k ==> Truthy(Get(m, fields[j]))
    requires !Truthy(Get(m, fields[k]))
    ensures MissingFrom(kind, fields, m, i) == Some(MissingRequired(kind, fields[k]))
    decreases k - i
  {
    if i < k {
      MissingFromFirst(kind, fields, m, i + 1, k);
    }
  }

  lemma {:induction false} ForbiddenFromNone(kind: EnergyType, fields: seq<string>, m: map<string, Value>, i: nat)
    requires i <= |fields|
    ensures ForbiddenFrom(kind, fields, m, i) == None <==> forall j :: i <= j < |fields| ==> !Truthy(Get(m, fields[j]))
    decreases |fields| - i
  {
    if i < |fields| {
      ForbiddenFromNone(kind, fields, m, i + 1);
    }
  }

  lemma {:induction false} ForbiddenFromFirst(kind: EnergyType, fields: seq<string>, m: map<string, Value>, i: nat, k: nat)
    requires i <= k < |fields|
    requires forall j :: i <= j < k ==> !Truthy(Get(m, fields[j]))
    requires Truthy(Get(m, fields[k]))
    ensures ForbiddenFrom(kind, fields, m, i) == Some(NotAllowed(kind, fields[k]))
    decreases k - i
  {
    if i < k {
      ForbiddenFromFirst(kind, fields, m, i + 1, k);
    }
  }

  lemma {:induction false} RowErrorNone(item: Value, number: nat, fields: seq<string>, j: nat)
    requires j <= |fields|
    ensures RowErrorFrom(item, number, fields, j) == None <==> forall g :: j <= g < |fields| ==> FieldFilled(item, fields[g])
    decreases |fields| - j
  {
    if j < |fields| {
      StatusFilled(item, fields[j]);
      RowErrorNone(item, number, fields, j + 1);
    }
  }

  lemma {:induction false} RowErrorFirst(item: Value, number: nat, fields: seq<string>, j: nat, g: nat)
    requires item.Obj?
    requires j <= g < |fields|
    requires forall h :: j <= h < g ==> FieldFilled(item, fields[h])
    requires !FieldFilled(item, fields[g])
    ensures RowErrorFrom(item, number, fields, j) == Some(MissingRateField(number, fields[g]))
    decreases g - j
  {
    if j < g {
      StatusFilled(item, fields[j]);
      RowErrorFirst(item, number, fields, j + 1, g);
    }
  }

  /** One unfolding of the row loop. */
  lemma RowsErrorStep(items: seq<Value>, i: nat)
    requires i < |items|
    ensures RowsErrorFrom(items, i) == None
            <==> RowErrorFrom(items[i], i + 1, RateFields, 0) == None && RowsErrorFrom(items, i + 1) == None
  {
  }

  lemma AllRowsFilledStep(items: seq<Value>, i: nat)
    requires i < |items|
    ensures (forall k :: i <= k < |items| ==> RowFilled(items[k]))
            <==> RowFilled(items[i]) && forall k :: i + 1 <= k < |items| ==> RowFilled(items[k])
  {
  }

  lemma {:induction false} RowsErrorNone(items: seq<Value>, i: nat)
    requires i <= |items|
    ensures RowsErrorFrom(items, i) == None <==> forall k :: i <= k < |items| ==> RowFilled(items[k])
    decreases |items| - i
  {
    if i < |items| {
      RowErrorNone(items[i], i + 1, RateFields, 0);
      RowsErrorNone(items, i + 1);
      RowsErrorStep(items, i);
      AllRowsFilledStep(items, i);
    }
  }

  lemma {:induction false} RowsErrorFirst(items: seq<Value>, i: nat, k: nat)
    requires i <= k < |items|
    requires forall j :: i <= j < k ==> RowFilled(items[j])
    requires !RowFilled(items[k])
    ensures RowsErrorFrom(items, i) == RowErrorFrom(items[k], k + 1, RateFields, 0)
    ensures RowsErrorFrom(items, i).Some?
    decreases k - i
  {
    RowErrorNone(items[k], k + 1, RateFields, 0);
    if i < k {
      RowErrorNone(items[i], i + 1, RateFields, 0);
      RowsErrorFirst(items, i + 1, k);
    }
  }

  // ---------------------------------------------------------------------
  // The rate check
  // ---------------------------------------------------------------------

  /** A rate row that is not a dictionary always fails. */
  lemma NonObjectRowRejected(item: Value, number: nat)
    requires !item.Obj?
    ensures RowErrorFrom(item, number, RateFields, 0).Some?
  {
    RowErrorNone(item, number, RateFields, 0);
    assert !FieldFilled(item, RateFields[0]);
  }

  /** `0` and `False` are falsy, yet they fill a rate field: only `None`
      and `""` count as empty there. */
  lemma ZeroAndFalseFillRateFields(item: Value, f: string)
    requires item.Obj? && f in item.fields
    requires item.fields[f] == Num(0) || item.fields[f] == Bool(false)
    ensures RateFieldStatus(item, f) == Filled
    ensures !Truthy(item.fields[f])
  {
  }

  /** The rate check passes exactly for the accepted `comparatifRate` values. */
  lemma RatesErrorNoneIff(rate: Value)
    ensures RatesError(rate) == None <==> RatesAccepted(rate)
  {
    match rate
    case List(items) =>
      RowsErrorNone(items, 0);
    case Str(s) =>
      var items := Iterate(rate).value;
      RowsErrorNone(items, 0);
      if s != "" {
        assert !RowFilled(items[0]) by {
          assert !FieldFilled(items[0], RateFields[0]);
        }
      }
    case _ =>
  }

  /** A non-empty string is iterated character by character, and a
      one-character string never holds "partnerPhoto": row 1 fails first. */
  lemma NonEmptyStringRateListRejected(s: string)
    requires s != ""
    ensures RatesError(Str(s)) == Some(MissingRateField(1, "partnerPhoto"))
  {
    var items := Iterate(Str(s)).value;
    var row := Str([s[0]]);
    assert items[0] == row;
    assert !IsSubstring("partnerPhoto", [s[0]]) by {
      assert [s[0]][1..] == [];
    }
    assert RateFieldStatus(row, "partnerPhoto") == Blank;
  }

  // ---------------------------------------------------------------------
  // The normaliser
  // ---------------------------------------------------------------------

  /** A missing or falsy `createdOn` is reported before anything else is looked at. */
  lemma CreatedOnCheckedFirst(comparatif: map<string, Value>, data: map<string, Value>, formatDate: int -> Option<string>)
    requires !Truthy(Get(comparatif, "createdOn"))
    ensures BuildDto(comparatif, data, formatDate) == Failure(MissingCreatedOn)
    ensures Message(BuildDto(comparatif, data, formatDate).error) == "Missing required field: createdOn"
  {
  }

  /** A truthy `createdOn` that does not convert is reported next: a value
      that is neither a number nor a boolean, or one the formatter refuses. */
  lemma InvalidCreatedOnIff(comparatif: map<string, Value>, data: map<string, Value>, formatDate: int -> Option<string>)
    ensures BuildDto(comparatif, data, formatDate) == Failure(InvalidCreatedOn)
            <==> Truthy(Get(comparatif, "createdOn")) && FormatCreatedOn(Get(comparatif, "createdOn"), formatDate).None?
  {
  }

  /** A millisecond timestamp sent as a string is refused, whatever the formatter. */
  lemma StringTimestampRejected(comparatif: map<string, Value>, data: map<string, Value>, formatDate: int -> Option<string>)
    requires Get(comparatif, "createdOn") == Str("1700000000000")
    ensures BuildDto(comparatif, data, formatDate) == Failure(InvalidCreatedOn)
  {
  }

  /** Once `createdOn` converts, the energy-type error fires exactly when
      `energyType` is neither "GAS" nor "ELECTRICITY", compared exactly. */
  lemma EnergyTypeMustMatchExactly(comparatif: map<string, Value>, data: map<string, Value>, formatDate: int -> Option<string>)
    requires CreatedOnAccepted(comparatif, formatDate)
    ensures BuildDto(comparatif, data, formatDate) == Failure(InvalidEnergyType)
            <==> Get(comparatif, "energyType") != Str("GAS") && Get(comparatif, "energyType") != Str("ELECTRICITY")
  {
  }

  lemma LowercaseGasRejected(comparatif: map<string, Value>, data: map<string, Value>, formatDate: int -> Option<string>)
    requires CreatedOnAccepted(comparatif, formatDate)
    requires Get(comparatif, "energyType") == Str("gas")
    ensures BuildDto(comparatif, data, formatDate) == Failure(InvalidEnergyType)
  {
  }

  /** For either energy type: the payload is accepted exactly when the
      type's fields are all truthy, none of the other type's fields is
      truthy, and the rate list passes. */
  lemma EnergyAcceptance(kind: EnergyType, comparatif: map<string, Value>, data: map<string, Value>,
                         formatDate: int -> Option<string>)
    requires CreatedOnAccepted(comparatif, formatDate)
    requires Get(comparatif, "energyType") == Str(EnergyName(kind))
    ensures BuildDto(comparatif, data, formatDate).Success?
            <==> AllTruthy(Required(kind), comparatif)
                 && NoneTruthy(Forbidden(kind), comparatif)
                 && RatesAccepted(RateList(comparatif))
  {
    MissingFromNone(kind, Required(kind), comparatif, 0);
    ForbiddenFromNone(kind, Forbidden(kind), comparatif, 0);
    RatesErrorNoneIff(RateList(comparatif));
  }

  /** The first required field that is not truthy is named, whatever the
      other type's fields hold: required checks come first. */
  lemma FirstMissingRequiredReported(kind: EnergyType, comparatif: map<string, Value>, data: map<string, Value>,
                                     formatDate: int -> Option<string>, k: nat)
    requires CreatedOnAccepted(comparatif, formatDate)
    requires Get(comparatif, "energyType") == Str(EnergyName(kind))
    requires k < |Required(kind)|
    requires forall j :: 0 <= j < k ==> Truthy(Get(comparatif, Required(kind)[j]))
    requires !Truthy(Get(comparatif, Required(kind)[k]))
    ensures BuildDto(comparatif, data, formatDate) == Failure(MissingRequired(kind, Required(kind)[k]))
  {
    MissingFromFirst(kind, Required(kind), comparatif, 0, k);
  }

  /** With every required field present, the first truthy field of the
      other type is named. */
  lemma FirstForbiddenReported(kind: EnergyType, comparatif: map<string, Value>, data: map<string, Value>,
                               formatDate: int -> Option<string>, k: nat)
    requires CreatedOnAccepted(comparatif, formatDate)
    requires Get(comparatif, "energyType") == Str(EnergyName(kind))
    requires AllTruthy(Required(kind), comparatif)
    requires k < |Forbidden(kind)|
    requires forall j :: 0 <= j < k ==> !Truthy(Get(comparatif, Forbidden(kind)[j]))
    requires Truthy(Get(comparatif, Forbidden(kind)[k]))
    ensures BuildDto(comparatif, data, formatDate) == Failure(NotAllowed(kind, Forbidden(kind)[k]))
  {
    MissingFromNone(kind, Required(kind), comparatif, 0);
    ForbiddenFromFirst(kind, Forbidden(kind), comparatif, 0, k);
  }

  /** The rate check runs only after the energy-type checks pass; it names
      the first failing row, numbered from 1, and inside it the first
      failing field in `RateFields` order. */
  lemma FirstRateFailureReported(kind: EnergyType, comparatif: map<string, Value>, data: map<string, Value>,
                                 formatDate: int -> Option<string>, k: nat, g: nat)
    requires CreatedOnAccepted(comparatif, formatDate)
    requires Get(comparatif, "energyType") == Str(EnergyName(kind))
    requires AllTruthy(Required(kind), comparatif) && NoneTruthy(Forbidden(kind), comparatif)
    requires RateList(comparatif).List?
    requires k < |RateList(comparatif).items|
    requires forall j :: 0 <= j < k ==> RowFilled(RateList(comparatif).items[j])
    requires RateList(comparatif).items[k].Obj?
    requires g < |RateFields|
    requires forall h :: 0 <= h < g ==> FieldFilled(RateList(comparatif).items[k], RateFields[h])
    requires !FieldFilled(RateList(comparatif).items[k], RateFields[g])
    ensures BuildDto(comparatif, data, formatDate) == Failure(MissingRateField(k + 1, RateFields[g]))
  {
    var items := RateList(comparatif).items;
    MissingFromNone(kind, Required(kind), comparatif, 0);
    ForbiddenFromNone(kind, Forbidden(kind), comparatif, 0);
    RowsErrorFirst(items, 0, k);
    RowErrorFirst(items[k], k + 1, RateFields, 0, g);
  }

  /** An absent `comparatifRate` defaults to the empty list and passes. */
  lemma AbsentRateListAccepted(kind: EnergyType, comparatif: map<string, Value>, data: map<string, Value>,
                               formatDate: int -> Option<string>)
    requires CreatedOnAccepted(comparatif, formatDate)
    requires Get(comparatif, "energyType") == Str(EnergyName(kind))
    requires AllTruthy(Required(kind), comparatif) && NoneTruthy(Forbidden(kind), comparatif)
    requires "comparatifRate" !in comparatif
    ensures BuildDto(comparatif, data, formatDate).Success?
    ensures BuildDto(comparatif, data, formatDate).value.comparatifRate == List([])
  {
    EnergyAcceptance(kind, comparatif, data, formatDate);
  }

  /** What an accepted DTO holds: the title or its default, the formatted
      date, the energy type verbatim and the rate list unchanged. */
  lemma SuccessfulDto(comparatif: map<string, Value>, data: map<string, Value>, formatDate: int -> Option<string>)
    requires BuildDto(comparatif, data, formatDate).Success?
    ensures var d := BuildDto(comparatif, data, formatDate).value;
      && d.title == GetOr(data, "contexte_title", Str(DefaultTitle))
      && Some(d.createdOn) == FormatCreatedOn(Get(comparatif, "createdOn"), formatDate)
      && d.energyType == Get(comparatif, "energyType")
      && d.energyType == Str(EnergyName(KindOf(d)))
      && d.comparatifRate == RateList(comparatif)
      && ToDict(d)["comparatifRate"] == RateList(comparatif)
  {
  }

  /** The dictionary of a DTO holds its section's fields and no field of
      the other energy type. */
  lemma ToDictSection(d: Dto, comparatif: map<string, Value>)
    requires d.section == TakeSection(KindOf(d), comparatif)
    ensures forall f :: f in Required(KindOf(d)) ==> f in ToDict(d) && ToDict(d)[f] == Get(comparatif, f)
    ensures forall f :: f in Forbidden(KindOf(d)) ==> f !in ToDict(d)
  {
    var base := map["title" := d.title, "createdOn" := Str(d.createdOn), "energyType" := d.energyType];
    assert ToDict(d) == (base + SectionEntries(d.section))["comparatifRate" := d.comparatifRate];
    match d.section
    case GasSection(_, _, _) =>
      assert SectionEntries(d.section).Keys == {"pce", "gasProfile", "routingRate"};
    case ElectricitySection(_, _) =>
      assert SectionEntries(d.section).Keys == {"pdl", "segmentation"};
  }

  /** The dictionary of an accepted DTO holds the declared type's fields,
      copied from the input and truthy, no key of the other type, and no key
      besides those fields, the title, the date, the type and the rates. */
  lemma DtoKeysFollowEnergyType(comparatif: map<string, Value>, data: map<string, Value>, formatDate: int -> Option<string>)
    requires BuildDto(comparatif, data, formatDate).Success?
    ensures var d := BuildDto(comparatif, data, formatDate).value;
      && (forall f :: f in Required(KindOf(d)) ==> f in ToDict(d) && ToDict(d)[f] == Get(comparatif, f) && Truthy(ToDict(d)[f]))
      && (forall f :: f in Forbidden(KindOf(d)) ==> f !in ToDict(d))
      && ToDict(d).Keys == {"title", "createdOn", "energyType", "comparatifRate"} + set f | f in Required(KindOf(d))
  {
    var d := BuildDto(comparatif, data, formatDate).value;
    var kind := KindOf(d);
    ToDictSection(d, comparatif);
    MissingFromNone(kind, Required(kind), comparatif, 0);
    forall f | f in Required(kind)
      ensures Truthy(Get(comparatif, f))
    {
      var j :| 0 <= j < |Required(kind)| && Required(kind)[j] == f;
    }
  }
}
