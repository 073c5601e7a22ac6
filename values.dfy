/**
  The dynamic values the backend passes around: JSON-like Python values, the
  dicts that stand for documents and request bodies, the exceptions the core
  raises, and the few Python built-ins the core relies on (`str()`, truth
  testing, `dict.get`).
 */
module Values {
  import opened Text

  /** A JSON-like Python value. Floats carry no arithmetic anywhere in the
      core, so `Float` holds an opaque real; ints are unbounded, as in Python. */
  datatype Value =
    | Null
    | Bool(b: bool)
    | Int(i: int)
    | Float(r: real)
    | Str(s: string)
    | List(items: seq<Value>)
    | Obj(fields: map<string, Value>)

  /** A document or request dict: field name to value. */
  type Doc = map<string, Value>

  datatype Option<+T> = None | Some(value: T)

  /** The exceptions that the modelled code raises or catches. */
  datatype Error =
    | ValueError(msg: string)
    | KeyError(key: string)
    | TypeError(msg: string)
    | OverflowError(msg: string)
    | StoreError(msg: string)
    | ValidationError(model: string, field: string)
    | HttpError(status: nat, detail: string)

  datatype Result<+T> = Ok(value: T) | Err(error: Error)

  /** `str(e)` for each exception. `HTTPException` renders as
      "<status>: <detail>", `KeyError` as the quoted key. */
  function Describe(e: Error): string
  {
    match e
    case ValueError(m) => m
    case KeyError(k) => "'" + k + "'"
    case TypeError(m) => m
    case OverflowError(m) => m
    case StoreError(m) => m
    case ValidationError(model, field) => "1 validation error for " + model + "\n" + field
    case HttpError(status, detail) => Decimal(status) + ": " + detail
  }

  /** Python truth testing. */
  predicate Truthy(v: Value)
  {
    match v
    case Null => false
    case Bool(b) => b
    case Int(i) => i != 0
    case Float(r) => r != 0.0
    case Str(s) => s != ""
    case List(items) => items != []
    case Obj(fields) => fields != map[]
  }

  /** Truth of an optional dict read (`if not profile:`): None and `{}` are false. */
  predicate Present(d: Option<Doc>)
  {
    d.Some? && d.value != map[]
  }

  /** `dict.get(key, default)`. */
  function DictGet(d: Doc, key: string, default: Value): Value
  {
    if key in d then d[key] else default
  }

  /** `str(v)` for the scalar values; the text of a float, list or dict is
      not part of this model and renders as "". */
  function PyStr(v: Value): string
  {
    match v
    case Null => "None"
    case Bool(b) => if b then "True" else "False"
    case Int(i) => IntText(i)
    case Str(s) => s
    case _ => ""
  }
}
