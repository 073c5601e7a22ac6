/**
  The response and request models that the handlers build from store
  documents: `UserProfileResponse`, `UpdateProfileRequest`, `DailyVitals` and
  `DailyActivity`. A model is a list of fields, each with a kind, whether
  `None` is allowed and a default. Building a model from a dict (`Model(**d)`)
  keeps the model's fields, fills the missing ones from their defaults, drops
  the keys the model does not declare, and fails with a validation error on a
  missing required field or a value of the wrong kind.
 */
module Schemas {
  import opened Values

  datatype Kind = KStr | KInt | KFloat | KBool | KList | KObj

  /** A declared field. `default == None` marks a required field. */
  datatype Field = Field(name: string, kind: Kind, optional: bool, default: Option<Value>)

  predicate HasKind(v: Value, k: Kind)
  {
    match k
    case KStr => v.Str?
    case KInt => v.Int?
    case KFloat => v.Float? || v.Int?
    case KBool => v.Bool?
    case KList => v.List?
    case KObj => v.Obj?
  }

  /** An int given for a float field is stored as that float. */
  function Widen(v: Value, k: Kind): Value
  {
    if k == KFloat && v.Int? then Float(v.i as real) else v
  }

  /** The value one field takes when the model is built from `data`. */
  function FieldValue(model: string, f: Field, data: Doc): Result<Value>
  {
    if f.name in data then
      var v := data[f.name];
      if v == Null && f.optional then Ok(Null)
      else if HasKind(v, f.kind) then Ok(Widen(v, f.kind))
      else Err(ValidationError(model, f.name))
    else if f.default.Some? then Ok(f.default.value)
    else Err(ValidationError(model, f.name))
  }

  function Names(schema: seq<Field>): set<string>
  {
    set i | 0 <= i < |schema| :: schema[i].name
  }

  predicate DistinctNames(schema: seq<Field>)
  {
    forall i, j :: 0 <= i < j < |schema| ==> schema[i].name != schema[j].name
  }

  /** `Model(**data)`: the built model as a dict of its declared fields. */
  function Conform(model: string, schema: seq<Field>, data: Doc): (r: Result<Doc>)
    ensures r.Ok? <==> forall i :: 0 <= i < |schema| ==> FieldValue(model, schema[i], data).Ok?
    ensures r.Ok? ==> r.value.Keys == Names(schema)
    ensures r.Ok? && DistinctNames(schema) ==>
      forall i :: 0 <= i < |schema| ==> r.value[schema[i].name] == FieldValue(model, schema[i], data).value
    ensures r.Err? ==> r.error.ValidationError? && r.error.model == model
  {
    if schema == [] then Ok(map[])
    else
      match FieldValue(model, schema[0], data)
      case Err(e) => Err(e)
      case Ok(v) =>
        match Conform(model, schema[1..], data)
        case Err(e) => Err(e)
        case Ok(rest) =>
          assert Names(schema) == Names(schema[1..]) + {schema[0].name} by {
            forall n | n in Names(schema) ensures n in Names(schema[1..]) + {schema[0].name} {
              var i :| 0 <= i < |schema| && schema[i].name == n;
              if i > 0 { assert schema[1..][i - 1].name == n; }
            }
          }
          Ok(rest[schema[0].name := v])
  }

  /** Two dicts that give every field the same value build the same model. */
  lemma {:induction false} ConformAgrees(model: string, schema: seq<Field>, d1: Doc, d2: Doc)
    requires forall i :: 0 <= i < |schema| ==> FieldValue(model, schema[i], d1) == FieldValue(model, schema[i], d2)
    ensures Conform(model, schema, d1) == Conform(model, schema, d2)
  {
    if schema != [] {
      ConformAgrees(model, schema[1..], d1, d2);
    }
  }

  /** Two field lists, each without a repeated name and sharing no name,
      declare no name twice between them. */
  lemma DistinctAppend(a: seq<Field>, b: seq<Field>)
    requires DistinctNames(a) && DistinctNames(b) && Names(a) !! Names(b)
    ensures DistinctNames(a + b)
    ensures Names(a + b) == Names(a) + Names(b)
  {
    forall i, j | 0 <= i < j < |a + b|
      ensures (a + b)[i].name != (a + b)[j].name
    {
      if j >= |a| {
        assert (a + b)[j] == b[j - |a|];
        if i < |a| {
          assert (a + b)[i].name in Names(a);
          assert (a + b)[j].name in Names(b);
        } else {
          assert (a + b)[i] == b[i - |a|];
        }
      }
    }
    forall n | n in Names(a) + Names(b)
      ensures n in Names(a + b)
    {
      if n in Names(a) {
        var i :| 0 <= i < |a| && a[i].name == n;
        assert (a + b)[i].name == n;
      } else {
        var i :| 0 <= i < |b| && b[i].name == n;
        assert (a + b)[|a| + i].name == n;
      }
    }
    forall n | n in Names(a + b)
      ensures n in Names(a) + Names(b)
    {
      var i :| 0 <= i < |a + b| && (a + b)[i].name == n;
      if i < |a| {
        assert a[i].name == n;
      } else {
        assert b[i - |a|].name == n;
      }
    }
  }

  /** `d1` and `d2` give every field of `schema` the same, valid value. */
  predicate Agree(model: string, schema: seq<Field>, d1: Doc, d2: Doc)
  {
    forall i :: 0 <= i < |schema| ==>
      FieldValue(model, schema[i], d1) == FieldValue(model, schema[i], d2) && FieldValue(model, schema[i], d1).Ok?
  }

  lemma AgreeAppend(model: string, a: seq<Field>, b: seq<Field>, d1: Doc, d2: Doc)
    requires Agree(model, a, d1, d2) && Agree(model, b, d1, d2)
    ensures Agree(model, a + b, d1, d2)
  {
    forall i | 0 <= i < |a + b|
      ensures FieldValue(model, (a + b)[i], d1) == FieldValue(model, (a + b)[i], d2)
      ensures FieldValue(model, (a + b)[i], d1).Ok?
    {
      if i >= |a| {
        assert (a + b)[i] == b[i - |a|];
      }
    }
  }

  /** The first declared field always takes its own value, whatever names
      the later fields repeat. */
  lemma ConformFirst(model: string, schema: seq<Field>, d: Doc)
    requires schema != [] && Conform(model, schema, d).Ok?
    ensures Conform(model, schema, d).value[schema[0].name] == FieldValue(model, schema[0], d).value
  {
  }

  /** `d` already is an instance of the model: it holds exactly the declared
      fields, each with a value that the field keeps as it is. */
  predicate Fits(model: string, schema: seq<Field>, d: Doc)
  {
    d.Keys == Names(schema) &&
    forall i :: 0 <= i < |schema| ==> schema[i].name in d && FieldValue(model, schema[i], d) == Ok(d[schema[i].name])
  }

  /** Building a model from a dict that already fits it gives the dict back. */
  lemma ConformFits(model: string, schema: seq<Field>, d: Doc)
    requires DistinctNames(schema) && Fits(model, schema, d)
    ensures Conform(model, schema, d) == Ok(d)
  {
    FitsBuilds(model, schema, d);
    var m := Conform(model, schema, d).value;
    forall k | k in d
      ensures k in m && m[k] == d[k]
    {
      var i :| 0 <= i < |schema| && schema[i].name == k;
      FieldOfFit(model, schema, d, m, i);
    }
    assert m == d;
  }

  /** Every field of a fitting dict validates, so the model builds. */
  lemma FitsBuilds(model: string, schema: seq<Field>, d: Doc)
    requires Fits(model, schema, d)
    ensures Conform(model, schema, d).Ok? && Conform(model, schema, d).value.Keys == d.Keys
  {
  }

  /** One field of a fitting dict keeps its value in the built model. */
  lemma FieldOfFit(model: string, schema: seq<Field>, d: Doc, m: Doc, i: int)
    requires DistinctNames(schema) && Fits(model, schema, d) && Conform(model, schema, d) == Ok(m)
    requires 0 <= i < |schema|
    ensures schema[i].name in m && m[schema[i].name] == d[schema[i].name]
  {
  }

  /** `[Model(**d) for d in docs]`: every dict built in turn; the first that
      fails stops the list. */
  function ConformAll(model: string, schema: seq<Field>, docs: seq<Doc>): (r: Result<seq<Doc>>)
    ensures r.Ok? <==> forall i :: 0 <= i < |docs| ==> Conform(model, schema, docs[i]).Ok?
    ensures r.Ok? ==> |r.value| == |docs| && forall i :: 0 <= i < |docs| ==> Conform(model, schema, docs[i]) == Ok(r.value[i])
    ensures r.Err? ==>
      exists i :: 0 <= i < |docs| && Conform(model, schema, docs[i]) == Err(r.error) &&
        forall j :: 0 <= j < i ==> Conform(model, schema, docs[j]).Ok?
  {
    if docs == [] then Ok([])
    else
      match Conform(model, schema, docs[0])
      case Err(e) => Err(e)
      case Ok(d) =>
        match ConformAll(model, schema, docs[1..])
        case Err(e) =>
          assert forall i :: 1 <= i < |docs| ==> docs[i] == docs[1..][i - 1];
          Err(e)
        case Ok(rest) => Ok([d] + rest)
  }

  /** `[x.dict() for x in xs]` for nested models already given as dicts. */
  function DictList(xs: seq<Doc>): (r: seq<Value>)
    ensures |r| == |xs| && forall i :: 0 <= i < |xs| ==> r[i] == Obj(xs[i])
  {
    seq(|xs|, i requires 0 <= i < |xs| => Obj(xs[i]))
  }

  /** `StandardResponse(success=True, message=…)` as the dict it serialises to. */
  function Standard(message: string): Doc
  {
    map["success" := Bool(true), "message" := Str(message), "data" := Null]
  }

  function StrField(name: string): Field { Field(name, KStr, false, None) }
  function OptField(name: string, k: Kind): Field { Field(name, k, true, Some(Null)) }
  function DefField(name: string, k: Kind, d: Value): Field { Field(name, k, false, Some(d)) }

  const ProfileModel := "UserProfileResponse"

  /** `UserProfileResponse`: `user_id` required, the rest optional or with
      the goal defaults, declared in five groups. */
  const ProfileSchema: seq<Field> := ProfilePersonal + ProfileHealth + ProfilePlan + ProfileActivityGoals + ProfileMacroGoals

  const ProfilePersonal: seq<Field> := [
    StrField("user_id"),
    OptField("age", KInt),
    OptField("gender", KStr),
    OptField("weight_kg", KFloat),
    OptField("height_cm", KFloat),
    OptField("activity_level", KStr)
  ]

  const ProfileHealth: seq<Field> := [
    DefField("has_hypertension", KBool, Bool(false)),
    DefField("has_diabetes", KBool, Bool(false)),
    DefField("has_heart_condition", KBool, Bool(false)),
    OptField("medications", KStr),
    OptField("allergies", KStr)
  ]

  const ProfilePlan: seq<Field> := [
    OptField("goal_type", KStr),
    OptField("goal_intensity", KStr),
    OptField("target_weight_kg", KFloat)
  ]

  const ProfileActivityGoals: seq<Field> := [
    DefField("daily_calorie_goal", KInt, Int(2000)),
    DefField("daily_step_goal", KInt, Int(10000)),
    DefField("daily_distance_goal", KFloat, Float(5.0)),
    DefField("daily_active_minutes_goal", KInt, Int(30))
  ]

  /** The nutrient goals, then the time of the last update. */
  const ProfileMacroGoals: seq<Field> := [
    DefField("daily_protein_goal", KInt, Int(150)),
    DefField("daily_carbs_goal", KInt, Int(250)),
    DefField("daily_fats_goal", KInt, Int(70)),
    OptField("updated_at", KStr)
  ]

  const UpdateProfileModel := "UpdateProfileRequest"

  /** `UpdateProfileRequest`: every field optional with default `None`. */
  const UpdateProfileSchema: seq<Field> := [
    OptField("age", KInt),
    OptField("gender", KStr),
    OptField("weight_kg", KFloat),
    OptField("height_cm", KFloat),
    OptField("activity_level", KStr),
    OptField("has_hypertension", KBool),
    OptField("has_diabetes", KBool),
    OptField("has_heart_condition", KBool),
    OptField("medications", KStr),
    OptField("allergies", KStr),
    OptField("goal_type", KStr),
    OptField("goal_intensity", KStr),
    OptField("target_weight_kg", KFloat),
    OptField("daily_calorie_goal", KInt),
    OptField("daily_step_goal", KInt),
    OptField("daily_distance_goal", KFloat),
    OptField("daily_active_minutes_goal", KInt),
    OptField("daily_protein_goal", KInt),
    OptField("daily_carbs_goal", KInt),
    OptField("daily_fats_goal", KInt)
  ]

  const DailyVitalsModel := "DailyVitals"

  /** `DailyVitals`: the nested readings and summary are checked only for
      being a list and a dict. */
  const DailyVitalsSchema: seq<Field> := [
    StrField("user_id"),
    StrField("date"),
    Field("readings", KList, false, None),
    Field("summary", KObj, false, None),
    OptField("synced_at", KStr)
  ]

  const DailyActivityModel := "DailyActivity"

  /** `DailyActivity`: counters default to zero, `hourly_breakdown` to `[]`. */
  const DailyActivitySchema: seq<Field> := [
    StrField("user_id"),
    StrField("date"),
    DefField("steps", KInt, Int(0)),
    DefField("distance_km", KFloat, Float(0.0)),
    DefField("active_minutes", KInt, Int(0)),
    DefField("calories_burned", KInt, Int(0)),
    Field("hourly_breakdown", KList, true, Some(List([]))),
    OptField("synced_at", KStr)
  ]

  /** `request.dict(exclude_unset=True)`: the declared fields the client sent,
      an explicit `null` included, each checked against its kind. */
  function ExcludeUnset(model: string, schema: seq<Field>, body: Doc): (r: Result<Doc>)
    ensures r.Err? <==> exists i :: 0 <= i < |schema| && schema[i].name in body && FieldValue(model, schema[i], body).Err?
    ensures r.Err? ==> r.error.ValidationError? && r.error.model == model
    ensures r.Ok? ==> r.value.Keys == set i | 0 <= i < |schema| && schema[i].name in body :: schema[i].name
    ensures r.Ok? && DistinctNames(schema) ==>
      forall i :: 0 <= i < |schema| && schema[i].name in body ==>
        r.value[schema[i].name] == FieldValue(model, schema[i], body).value
  {
    if schema == [] then Ok(map[])
    else
      var f := schema[0];
      match ExcludeUnset(model, schema[1..], body)
      case Err(e) => Err(e)
      case Ok(rest) =>
        assert forall i :: 1 <= i < |schema| ==> schema[i] == schema[1..][i - 1];
        if f.name !in body then Ok(rest)
        else
          match FieldValue(model, f, body)
          case Err(e) => Err(e)
          case Ok(v) => Ok(rest[f.name := v])
  }
}
