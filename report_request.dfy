/** The checks the report endpoint makes on a request body before it stores a
    campaign: a body must be given, every required field must be truthy, the
    budget must read as a positive number and the duration as a positive
    whole number, checked in that order, the first failure deciding the answer. */
module ReportRequest {
  import opened AdsCommon

  /** A decoded JSON value. Integers and fractions are both numbers. */
  datatype Json =
    | JNull
    | JBool(b: bool)
    | JNumber(x: real)
    | JString(s: string)
    | JArray(items: seq<Json>)
    | JObject(fields: map<string, Json>)
  {
    /** Python truthiness of the decoded value. */
    predicate Truthy() {
      match this
      case JNull => false
      case JBool(b) => b
      case JNumber(x) => x != 0.0
      case JString(s) => s != ""
      case JArray(items) => items != []
      case JObject(fields) => fields != map[]
    }
  }

  const CampaignNameField := "campaign_name"
  const TargetAudienceField := "target_audience"
  const BudgetField := "budget"
  const DurationField := "duration"
  const ObjectivesField := "objectives"
  const RequiredFields: seq<string> := [CampaignNameField, TargetAudienceField, BudgetField, DurationField, ObjectivesField]

  /** Why a request was turned away. */
  datatype RequestError =
    | NoData
    | MissingFields(fields: seq<string>)
    | BudgetNotNumber
    | BudgetNotPositive
    | DurationNotNumber
    | DurationNotPositive
    /** The body is truthy but not an object, so `data.get` raises and the
        endpoint's catch-all answers with a server error. */
    | NotAnObject
  {
    function Status(): int {
      if NotAnObject? then 500 else 400
    }
  }

  /** The answer to a request: the first error found, or the budget and duration
      the endpoint goes on to use. */
  datatype Outcome = Rejected(error: RequestError) | Accepted(budget: real, duration: int)

  /** `bool(data.get(field))` on an object body. */
  predicate FieldGiven(fields: map<string, Json>, name: string) {
    name in fields && fields[name].Truthy()
  }

  /** `float(v)`: numbers as they are, booleans as 1 or 0, text through the
      number parser (`None` where it raises ValueError); lists and objects raise
      TypeError. Null never gets here, being falsy. */
  function ToFloat(v: Json, parseFloat: string -> Option<real>): (r: Option<real>)
    ensures r.None? <==> v.JNull? || v.JArray? || v.JObject? || (v.JString? && parseFloat(v.s).None?)
    ensures v.JNumber? ==> r == Some(v.x)
    ensures v.JBool? ==> r.Some? && (r.value == 1.0 <==> v.b) && (r.value == 0.0 <==> !v.b)
  {
    match v
    case JNumber(x) => Some(x)
    case JBool(b) => Some(if b then 1.0 else 0.0)
    case JString(s) => parseFloat(s)
    case _ => None
  }

  /** `int(v)`: numbers truncated toward zero, booleans as 1 or 0, text through
      the integer parser; anything else raises. */
  function ToInt(v: Json, parseInt: string -> Option<int>): (r: Option<int>)
    ensures r.None? <==> v.JNull? || v.JArray? || v.JObject? || (v.JString? && parseInt(v.s).None?)
    ensures v.JNumber? ==> r.Some? && (0.0 <= v.x ==> r.value as real <= v.x < r.value as real + 1.0)
                                   && (v.x < 0.0 ==> r.value as real - 1.0 < v.x <= r.value as real)
    ensures v.JBool? ==> r.Some? && (r.value == 1 <==> v.b) && (r.value == 0 <==> !v.b)
  {
    match v
    case JNumber(x) => Some(Trunc(x))
    case JBool(b) => Some(if b then 1 else 0)
    case JString(s) => parseInt(s)
    case _ => None
  }

  /** The required fields an object body lacks or gives a falsy value, in the required order. */
  function Missing(fields: map<string, Json>): seq<string> {
    MissingNames(RequiredFields, GivenIn(fields))
  }

  /** `FieldGiven` on one body, as the test `MissingNames` applies to each name. */
  function GivenIn(fields: map<string, Json>): string -> bool {
    n => FieldGiven(fields, n)
  }

  /** A truthy object body: one whose fields `data.get` can look up. */
  predicate ObjectBody(body: Option<Json>) {
    body.Some? && body.value.JObject? && body.value.Truthy()
  }

  /** An object body in which every required field is truthy. */
  predicate Complete(body: Option<Json>) {
    ObjectBody(body) && forall n :: n in RequiredFields ==> FieldGiven(body.value.fields, n)
  }

  /** The budget as `float` reads it, on a complete body. */
  function BudgetOf(body: Option<Json>, parseFloat: string -> Option<real>): Option<real>
    requires Complete(body)
  {
    assert BudgetField in RequiredFields;
    ToFloat(body.value.fields[BudgetField], parseFloat)
  }

  /** The duration as `int` reads it, on a complete body. */
  function DurationOf(body: Option<Json>, parseInt: string -> Option<int>): Option<int>
    requires Complete(body)
  {
    assert DurationField in RequiredFields;
    ToInt(body.value.fields[DurationField], parseInt)
  }

  /** The validation prefix of `generate_report`. `body` is what `get_json()`
      returned, None when the request carried no JSON; the two parsers stand for
      Python's `float` and `int` on text. Each answer holds exactly when every
      earlier check passed and its own failed. */
  function Validate(body: Option<Json>, parseFloat: string -> Option<real>, parseInt: string -> Option<int>): (r: Outcome)
    ensures r == Rejected(NoData) <==> body.None? || !body.value.Truthy()
    ensures r == Rejected(NotAnObject) <==> body.Some? && body.value.Truthy() && !body.value.JObject?
    ensures r.Rejected? ==> (r.error.Status() == 500 <==> body.Some? && body.value.Truthy() && !body.value.JObject?)
    ensures r.Rejected? && r.error.MissingFields? <==> ObjectBody(body) && !Complete(body)
    ensures r.Rejected? && r.error.MissingFields? ==>
              r.error.fields == Missing(body.value.fields) && r.error.fields != [] &&
              IsSubsequence(r.error.fields, RequiredFields) &&
              forall n :: n in r.error.fields <==> n in RequiredFields && !FieldGiven(body.value.fields, n)
    ensures r == Rejected(BudgetNotNumber) <==> Complete(body) && BudgetOf(body, parseFloat).None?
    ensures r == Rejected(BudgetNotPositive) <==>
              Complete(body) && BudgetOf(body, parseFloat).Some? && BudgetOf(body, parseFloat).value <= 0.0
    ensures r == Rejected(DurationNotNumber) <==>
              Complete(body) && BudgetOf(body, parseFloat).Some? && BudgetOf(body, parseFloat).value > 0.0 &&
              DurationOf(body, parseInt).None?
    ensures r == Rejected(DurationNotPositive) <==>
              Complete(body) && BudgetOf(body, parseFloat).Some? && BudgetOf(body, parseFloat).value > 0.0 &&
              DurationOf(body, parseInt).Some? && DurationOf(body, parseInt).value <= 0
    ensures r.Accepted? <==>
              Complete(body) && BudgetOf(body, parseFloat).Some? && BudgetOf(body, parseFloat).value > 0.0 &&
              DurationOf(body, parseInt).Some? && DurationOf(body, parseInt).value > 0
    ensures r.Accepted? ==>
              Some(r.budget) == BudgetOf(body, parseFloat) && Some(r.duration) == DurationOf(body, parseInt)
  {
    if body.None? || !body.value.Truthy() then Rejected(NoData)
    else if !body.value.JObject? then Rejected(NotAnObject)
    else
      var fields := body.value.fields;
      var missing := Missing(fields);
      if missing != [] then Rejected(MissingFields(missing))
      else
        match BudgetOf(body, parseFloat)
        case None => Rejected(BudgetNotNumber)
        case Some(budget) =>
          if budget <= 0.0 then Rejected(BudgetNotPositive)
          else
            match DurationOf(body, parseInt)
            case None => Rejected(DurationNotNumber)
            case Some(duration) =>
              if duration <= 0 then Rejected(DurationNotPositive)
              else Accepted(budget, duration)
  }

  /** A budget of 0 (or any falsy budget) is reported as missing, never as a
      budget that is not positive: the presence check comes first. */
  lemma FalsyBudgetIsMissing(fields: map<string, Json>, parseFloat: string -> Option<real>,
                             parseInt: string -> Option<int>)
    requires BudgetField in fields && !fields[BudgetField].Truthy()
    ensures var r := Validate(Some(JObject(fields)), parseFloat, parseInt);
            r.Rejected? && r.error.MissingFields? && BudgetField in r.error.fields
  {
    assert BudgetField in RequiredFields;
    assert !Complete(Some(JObject(fields)));
  }

  /** When the budget is rejected, the duration is never looked at: replacing
      the duration by any value leaves the answer unchanged. */
  lemma BudgetCheckedBeforeDuration(fields: map<string, Json>, duration: Json,
                                    parseFloat: string -> Option<real>, parseInt: string -> Option<int>)
    requires Complete(Some(JObject(fields))) && duration.Truthy()
    requires var budget := BudgetOf(Some(JObject(fields)), parseFloat);
             budget.None? || budget.value <= 0.0
    ensures Validate(Some(JObject(fields)), parseFloat, parseInt)
            == Validate(Some(JObject(fields[DurationField := duration])), parseFloat, parseInt)
  {
    var other := fields[DurationField := duration];
    assert BudgetField != DurationField;
    assert Complete(Some(JObject(other)));
    assert BudgetOf(Some(JObject(other)), parseFloat) == BudgetOf(Some(JObject(fields)), parseFloat);
  }

  /** A duration between 0 and 1 passes the presence check, being non-zero,
      but `int` truncates it to 0 and it is rejected as not positive. */
  lemma FractionalDurationRejected(fields: map<string, Json>, x: real,
                                   parseFloat: string -> Option<real>, parseInt: string -> Option<int>)
    requires Complete(Some(JObject(fields)))
    requires var budget := BudgetOf(Some(JObject(fields)), parseFloat);
             budget.Some? && budget.value > 0.0
    requires DurationField in fields && fields[DurationField] == JNumber(x) && 0.0 < x < 1.0
    ensures Validate(Some(JObject(fields)), parseFloat, parseInt) == Rejected(DurationNotPositive)
  {
    assert DurationOf(Some(JObject(fields)), parseInt) == Some(0);
  }

  /** A body that gives objectives, campaign name and a zero budget, in that order. */
  const ExampleFields: map<string, Json> :=
    map[ObjectivesField := JString("grow"), CampaignNameField := JString("spring"), BudgetField := JNumber(0.0)]

  /** Missing fields are listed in the order the endpoint requires them, whatever
      order the body gives: here target_audience, budget, duration. */
  lemma MissingFieldsInRequiredOrder(parseFloat: string -> Option<real>, parseInt: string -> Option<int>)
    ensures Validate(Some(JObject(ExampleFields)), parseFloat, parseInt)
            == Rejected(MissingFields([TargetAudienceField, BudgetField, DurationField]))
  {
    ExampleMissing();
    var body := Some(JObject(ExampleFields));
    assert ObjectBody(body) by {
      assert CampaignNameField in ExampleFields;
    }
    assert TargetAudienceField in RequiredFields;
  }

  lemma ExampleMissing()
    ensures !FieldGiven(ExampleFields, TargetAudienceField)
    ensures Missing(ExampleFields) == [TargetAudienceField, BudgetField, DurationField]
  {
    var given := GivenIn(ExampleFields);
    ExampleFieldsGiven();
    ExampleMissingTail();
    var s2 := [BudgetField, DurationField, ObjectivesField];
    MissingNamesCons(TargetAudienceField, s2, given);
    MissingNamesCons(CampaignNameField, [TargetAudienceField] + s2, given);
    RequiredFieldsSplit();
  }

  lemma RequiredFieldsSplit()
    ensures RequiredFields == [CampaignNameField] + ([TargetAudienceField] + [BudgetField, DurationField, ObjectivesField])
  {
  }

  lemma ExampleMissingTail()
    ensures MissingNames([BudgetField, DurationField, ObjectivesField], GivenIn(ExampleFields)) == [BudgetField, DurationField]
  {
    var given := GivenIn(ExampleFields);
    ExampleFieldsGiven();
    MissingNamesCons(ObjectivesField, [], given);
    MissingNamesCons(DurationField, [ObjectivesField], given);
    MissingNamesCons(BudgetField, [DurationField, ObjectivesField], given);
    assert [ObjectivesField] + [] == [ObjectivesField];
    assert [DurationField] + [ObjectivesField] == [DurationField, ObjectivesField];
    assert [BudgetField] + [DurationField, ObjectivesField] == [BudgetField, DurationField, ObjectivesField];
  }

  lemma ExampleFieldsGiven()
    ensures FieldGiven(ExampleFields, CampaignNameField) && FieldGiven(ExampleFields, ObjectivesField)
    ensures !FieldGiven(ExampleFields, BudgetField)
    ensures !FieldGiven(ExampleFields, TargetAudienceField) && !FieldGiven(ExampleFields, DurationField)
  {
    assert TargetAudienceField[0] !in {ObjectivesField[0], CampaignNameField[0], BudgetField[0]};
    assert DurationField[0] !in {ObjectivesField[0], CampaignNameField[0], BudgetField[0]};
  }

  lemma MissingNamesCons(n: string, rest: seq<string>, isSet: string -> bool)
    ensures MissingNames([n] + rest, isSet) == (if isSet(n) then [] else [n]) + MissingNames(rest, isSet)
  {
    assert ([n] + rest)[1..] == rest;
  }
}
