/** The field table of the rule builder and the rules that follow from a
    field's type: which conditions a condition row offers, which kind of
    input it shows, and whether the typed value is stored as text or as a
    number. */
module RuleFields {
  import opened Common

  /** The `type` of a field in the table. */
  datatype FieldType = NumberType | StringType | DateType

  /** One entry of the `fields` table: the value stored in a rule's
      `field` and the field's type (the dropdown caption is display text). */
  datatype FieldInfo = FieldInfo(value: string, fieldType: FieldType)

  /** The condition keys a dropdown can offer. */
  datatype Condition = EQ | NE | GT | LT | GTE | LTE | CONTAINS | NOCONTAINS | INACTIVE_DAYS | ACTIVE_DAYS

  /** The string a condition key is stored as in a rule's `condition`. */
  function Code(c: Condition): (r: string)
  {
    match c
    case EQ => "EQ"
    case NE => "NE"
    case GT => "GT"
    case LT => "LT"
    case GTE => "GTE"
    case LTE => "LTE"
    case CONTAINS => "CONTAINS"
    case NOCONTAINS => "NOCONTAINS"
    case INACTIVE_DAYS => "INACTIVE_DAYS"
    case ACTIVE_DAYS => "ACTIVE_DAYS"
  }

  /** The condition key a stored `condition` string names, if any. */
  function ConditionOf(code: string): (r: Option<Condition>)
  {
    if code == "EQ" then Some(EQ)
    else if code == "NE" then Some(NE)
    else if code == "GT" then Some(GT)
    else if code == "LT" then Some(LT)
    else if code == "GTE" then Some(GTE)
    else if code == "LTE" then Some(LTE)
    else if code == "CONTAINS" then Some(CONTAINS)
    else if code == "NOCONTAINS" then Some(NOCONTAINS)
    else if code == "INACTIVE_DAYS" then Some(INACTIVE_DAYS)
    else if code == "ACTIVE_DAYS" then Some(ACTIVE_DAYS)
    else None
  }

  /** Every key is stored as a string that names it back, so no two keys
      share a string. */
  lemma CodeRoundTrip(c: Condition)
    ensures ConditionOf(Code(c)) == Some(c)
  {
  }

  /** The customer fields a condition can test, in dropdown order. */
  const Fields: seq<FieldInfo> := [
    FieldInfo("totalSpend", NumberType),
    FieldInfo("totalVisits", NumberType),
    FieldInfo("lastActivity", DateType),
    FieldInfo("email", StringType),
    FieldInfo("name", StringType),
    FieldInfo("address", StringType),
    FieldInfo("phone", StringType)
  ]

  /** `getConditionsForField(fieldType)`: the conditions offered for a type. */
  function ConditionsForField(fieldType: FieldType): (r: seq<Condition>)
    ensures r != []
    ensures EQ in r <==> fieldType != DateType
    ensures GT in r <==> fieldType == NumberType
    ensures CONTAINS in r <==> fieldType == StringType
    ensures INACTIVE_DAYS in r <==> fieldType == DateType
  {
    match fieldType
    case NumberType =>
      [ EQ,
        NE,
        GT,
        LT,
        GTE,
        LTE ]
    case StringType =>
      [ EQ,
        NE,
        CONTAINS,
        NOCONTAINS ]
    case DateType =>
      [ INACTIVE_DAYS,
        ACTIVE_DAYS ]
  }

  /** `fs.find(f => f.value === name)` looking from index `i` on: the first
      entry with that value. */
  function FindFrom(fs: seq<FieldInfo>, name: string, i: nat): (r: Option<FieldInfo>)
    requires i <= |fs|
    ensures r.Some? ==> r.value in fs[i..] && r.value.value == name
    ensures r.None? <==> forall j :: i <= j < |fs| ==> fs[j].value != name
    decreases |fs| - i
  {
    if i == |fs| then None
    else if fs[i].value == name then Some(fs[i])
    else FindFrom(fs, name, i + 1)
  }

  /** `find` returns the FIRST entry with the searched value: every entry
      before it has another value. */
  lemma {:induction false} FindFromIsFirst(fs: seq<FieldInfo>, name: string, i: nat)
    requires i <= |fs|
    ensures FindFrom(fs, name, i).Some? ==>
      exists j :: i <= j < |fs| && fs[j] == FindFrom(fs, name, i).value && forall k :: i <= k < j ==> fs[k].value != name
    decreases |fs| - i
  {
    if i < |fs| && fs[i].value != name {
      FindFromIsFirst(fs, name, i + 1);
    }
  }

  /** The selected field of a condition row, `fields.find(f => f.value === rule.field)`. */
  function SelectedField(field: string): (r: Option<FieldInfo>)
    ensures r.Some? ==> r.value in Fields && r.value.value == field
    ensures r.None? <==> forall i :: 0 <= i < |Fields| ==> Fields[i].value != field
  {
    FindFrom(Fields, field, 0)
  }

  /** The options of a condition row: `selectedField ? getConditionsForField(selectedField.type) : []`.
      Every field of the table offers at least one condition; a blank or
      unknown field (the "Select Field" entry, or one the AI service
      invented) offers none. */
  function ConditionsOfRow(field: string): (r: seq<Condition>)
    ensures r != [] <==> SelectedField(field).Some?
  {
    var f := SelectedField(field);
    if f.Some? then ConditionsForField(f.value.fieldType) else []
  }

  /** The `value` strings of a condition row's dropdown: the empty "Select
      Condition" entry, then `c.value` of each offered condition in order. */
  function RowOptions(field: string): (r: seq<string>)
    ensures |r| == |ConditionsOfRow(field)| + 1 && r[0] == ""
  {
    var cs := ConditionsOfRow(field);
    [""] + seq(|cs|, i requires 0 <= i < |cs| => Code(cs[i]))
  }

  /** Choosing a dropdown entry stores a string that names exactly the
      condition the entry shows; the first entry names none. */
  lemma RowOptionsNameConditions(field: string)
    ensures ConditionOf(RowOptions(field)[0]) == None
    ensures forall i :: 1 <= i < |RowOptions(field)| ==>
      ConditionOf(RowOptions(field)[i]) == Some(ConditionsOfRow(field)[i - 1])
  {
    var cs := ConditionsOfRow(field);
    forall i | 1 <= i < |RowOptions(field)|
      ensures ConditionOf(RowOptions(field)[i]) == Some(cs[i - 1])
    {
      CodeRoundTrip(cs[i - 1]);
    }
  }

  /** `isDateCondition || selectedField?.type === 'number'`: the row holds a number. */
  predicate IsNumeric(field: string)
  {
    var f := SelectedField(field);
    f.Some? && (f.value.fieldType == DateType || f.value.fieldType == NumberType)
  }

  /** The value input's `type` attribute for a row: a numeric box exactly
      where the typed value is stored as a number. */
  function InputType(field: string): (r: string)
    ensures r == "number" || r == "text"
    ensures r == "number" <==> IsNumeric(field)
  {
    var f := SelectedField(field);
    if f.Some? && f.value.fieldType == DateType then "number"
    else if f.Some? && f.value.fieldType == NumberType then "number"
    else "text"
  }

  /** The value the row's input stores when the user types `input`. */
  function CoerceValue(field: string, input: string): (r: Value)
    ensures r.text == input
    ensures r.NumberOf? <==> IsNumeric(field)
  {
    if IsNumeric(field) then ToNumber(Text(input)) else Text(input)
  }

  /** Each type offers exactly its conditions, in dropdown order. */
  lemma ConditionsByType()
    ensures ConditionsForField(NumberType) == [EQ, NE, GT, LT, GTE, LTE]
    ensures ConditionsForField(StringType) == [EQ, NE, CONTAINS, NOCONTAINS]
    ensures ConditionsForField(DateType) == [INACTIVE_DAYS, ACTIVE_DAYS]
  {
  }

  /** Only the two number fields and the date field store numbers. */
  lemma OnlyListedNumeric(field: string)
    ensures IsNumeric(field) ==> field == "totalSpend" || field == "totalVisits" || field == "lastActivity"
  {
    if IsNumeric(field) {
      var f := SelectedField(field).value;
      assert f in Fields[..3];
      assert f == Fields[0] || f == Fields[1] || f == Fields[2];
    }
  }

  /** The two number fields and the date field store numbers. */
  lemma ListedNumeric()
    ensures IsNumeric("totalSpend") && IsNumeric("totalVisits") && IsNumeric("lastActivity")
  {
    SelectedAt(0);
    SelectedAt(1);
    SelectedAt(2);
  }

  /** The two number fields and the date field, and only they, store numbers. */
  lemma NumericFieldsExactly(field: string)
    ensures IsNumeric(field) <==> field == "totalSpend" || field == "totalVisits" || field == "lastActivity"
  {
    OnlyListedNumeric(field);
    ListedNumeric();
  }

  /** Looking up the name of entry `k` finds entry `k`: no earlier entry
      has that name. */
  lemma SelectedAt(k: nat)
    requires k < |Fields|
    ensures SelectedField(Fields[k].value) == Some(Fields[k])
  {
    var name := Fields[k].value;
    if k == 0 {
    } else if k == 1 {
      assert |Fields[0].value| != |name|;
    } else if k == 2 {
      assert |Fields[0].value| != |name| && |Fields[1].value| != |name|;
    } else if k == 3 {
      assert |Fields[0].value| != |name| && |Fields[1].value| != |name| && |Fields[2].value| != |name|;
    } else if k == 4 {
      assert |Fields[0].value| != |name| && |Fields[1].value| != |name| && |Fields[2].value| != |name| && |Fields[3].value| != |name|;
    } else if k == 5 {
      assert |Fields[0].value| != |name| && |Fields[1].value| != |name| && |Fields[2].value| != |name| && |Fields[3].value| != |name| && |Fields[4].value| != |name|;
    } else {
      assert |Fields[0].value| != |name| && |Fields[1].value| != |name| && |Fields[2].value| != |name| && Fields[3].value[0] != name[0] && |Fields[4].value| != |name| && |Fields[5].value| != |name|;
    }
  }

  /** The conditions a row offers, by the name of its field. */
  lemma RowConditionsByField()
    ensures ConditionsOfRow("totalSpend") == [EQ, NE, GT, LT, GTE, LTE]
    ensures ConditionsOfRow("totalVisits") == [EQ, NE, GT, LT, GTE, LTE]
    ensures ConditionsOfRow("lastActivity") == [INACTIVE_DAYS, ACTIVE_DAYS]
    ensures ConditionsOfRow("email") == [EQ, NE, CONTAINS, NOCONTAINS]
    ensures ConditionsOfRow("name") == [EQ, NE, CONTAINS, NOCONTAINS]
    ensures ConditionsOfRow("address") == [EQ, NE, CONTAINS, NOCONTAINS]
    ensures ConditionsOfRow("phone") == [EQ, NE, CONTAINS, NOCONTAINS]
  {
    SelectedAt(0); SelectedAt(1); SelectedAt(2); SelectedAt(3); SelectedAt(4); SelectedAt(5); SelectedAt(6);
  }
}
