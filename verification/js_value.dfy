/**
 * The JSON values a backend replies with, and how JavaScript reads a chain
 * of property accesses such as `data.choices[0].message.content` out of one.
 */
module JsValue {
  import opened Wrappers

  datatype Value =
    | Undefined
    | Null
    | Bool(b: bool)
    | Num(n: real)
    | Str(s: string)
    | Arr(items: seq<Value>)
    | Obj(fields: map<string, Value>)

  /**
   * The property names the replies are read through. None of them is a
   * property of Object, Array, String, Number or Boolean prototypes, so on a
   * value that lacks them as own properties they read as `undefined`.
   */
  datatype Field = Choices | Message | Content | Result | Output | Text

  function FieldName(f: Field): string {
    match f
    case Choices => "choices"
    case Message => "message"
    case Content => "content"
    case Result => "result"
    case Output => "output"
    case Text => "text"
  }

  /** One property access: `.name` or `[0]`. */
  datatype Step = Prop(field: Field) | First

  function StepKey(step: Step): string {
    match step
    case Prop(f) => FieldName(f)
    case First => "0"
  }

  /** The TypeError V8 raises for a property read on `undefined` or `null`. */
  function ReadError(kind: string, step: Step): string {
    "Cannot read properties of " + kind + " (reading '" + StepKey(step) + "')"
  }

  /** One property access on `v`. */
  function ReadStep(v: Value, step: Step): (r: Result<Value, string>)
    ensures r.Failure? <==> v.Undefined? || v.Null?
    ensures v.Obj? && StepKey(step) in v.fields ==> r == Success(v.fields[StepKey(step)])
    ensures v.Obj? && StepKey(step) !in v.fields ==> r == Success(Undefined)
  {
    match v
    case Undefined => Failure(ReadError("undefined", step))
    case Null => Failure(ReadError("null", step))
    case Obj(m) => Success(if StepKey(step) in m then m[StepKey(step)] else Undefined)
    case Arr(items) => Success(if step == First && |items| > 0 then items[0] else Undefined)
    case Str(s) => Success(if step == First && |s| > 0 then Str(s[..1]) else Undefined)
    case _ => Success(Undefined)
  }

  /** A chain of property accesses, stopping at the first TypeError. */
  function ReadPath(v: Value, path: seq<Step>): Result<Value, string>
    decreases |path|
  {
    if |path| == 0 then Success(v)
    else
      match ReadStep(v, path[0])
      case Failure(e) => Failure(e)
      case Success(next) => ReadPath(next, path[1..])
  }

  /** The smallest value in which `path` leads to `leaf`. */
  function Nest(path: seq<Step>, leaf: Value): Value
    decreases |path|
  {
    if |path| == 0 then leaf
    else
      var inner := Nest(path[1..], leaf);
      match path[0]
      case Prop(f) => Obj(map[FieldName(f) := inner])
      case First => Arr([inner])
  }

  /** Reading a path out of the value built for it gives back the leaf. */
  lemma {:induction false} ReadNest(path: seq<Step>, leaf: Value)
    ensures ReadPath(Nest(path, leaf), path) == Success(leaf)
    decreases |path|
  {
    if |path| > 0 {
      ReadNest(path[1..], leaf);
    }
  }

  /**
   * `path` leads to `leaf` in `v` through own properties and first items,
   * whatever other properties and items `v` holds besides.
   */
  predicate Reaches(v: Value, path: seq<Step>, leaf: Value)
    decreases |path|
  {
    if |path| == 0 then v == leaf
    else
      match path[0]
      case Prop(f) => v.Obj? && FieldName(f) in v.fields && Reaches(v.fields[FieldName(f)], path[1..], leaf)
      case First => v.Arr? && |v.items| > 0 && Reaches(v.items[0], path[1..], leaf)
  }

  /** Reading a path gives the leaf it leads to. */
  lemma {:induction false} ReadReaches(v: Value, path: seq<Step>, leaf: Value)
    requires Reaches(v, path, leaf)
    ensures ReadPath(v, path) == Success(leaf)
    decreases |path|
  {
    if |path| > 0 {
      match path[0]
      case Prop(f) => ReadReaches(v.fields[FieldName(f)], path[1..], leaf);
      case First => ReadReaches(v.items[0], path[1..], leaf);
    }
  }

  /** The value built for a path is one in which the path leads to the leaf. */
  lemma {:induction false} NestReaches(path: seq<Step>, leaf: Value)
    ensures Reaches(Nest(path, leaf), path, leaf)
    decreases |path|
  {
    if |path| > 0 {
      NestReaches(path[1..], leaf);
    }
  }
}
