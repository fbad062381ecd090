/**
 * The JavaScript values the components test and pass around, reduced to
 * what the code actually looks at: absent-or-string properties, truthiness,
 * `a || b` fallbacks, thrown values, promise outcomes and `Array.isArray`.
 */
module Js {

  datatype Option<+T> = None | Some(value: T)

  /**
   * A string-valued property that may be absent, where the code only looks
   * at it through truthiness, `||`, `?.` or `Array.isArray`, which treat
   * `undefined` and `null` alike.
   */
  type Field = Option<string>

  /**
   * A string property of a server record where `undefined` (missing) and
   * `null` lead to different text, as they do in a template literal.
   */
  datatype Prop = Undefined | Null | Str(value: string)

  /** The property as `?.`, `||` and truthiness see it. */
  function FieldOf(p: Prop): Field {
    if p.Str? then Some(p.value) else None
  }

  /** JavaScript truthiness of a string property: present and non-empty. */
  predicate Truthy(f: Field) {
    f.Some? && f.value != ""
  }

  /** `f || fallback` where `f` is a string property and `fallback` a string. */
  function OrElse(f: Field, fallback: string): string {
    if Truthy(f) then f.value else fallback
  }

  /** `f || g` where both are string properties. */
  function OrField(f: Field, g: Field): Field {
    if Truthy(f) then f else g
  }

  /** `${p}` in a template literal. */
  function TemplateText(p: Prop): string {
    match p
    case Undefined => "undefined"
    case Null => "null"
    case Str(s) => s
  }

  /** `new Error(m).message` for a string or undefined `m`: undefined gives the empty message. */
  function ErrorText(m: Field): string {
    if m.Some? then m.value else ""
  }

  /**
   * What a `catch` clause receives. Most helpers in src/utils rethrow
   * `error.message`, a bare string, while others (and `checkAdmin`) throw
   * objects carrying `message` or `error`, so both shapes occur.
   */
  datatype Thrown =
    | ErrObj(message: Field, error: Field)
    | ErrStr(text: string)

  /** `err.message`; a bare string has no `message` property. */
  function MessageOf(e: Thrown): Field {
    if e.ErrObj? then e.message else None
  }

  /** `err.error`; a bare string has no `error` property. */
  function ErrorFieldOf(e: Thrown): Field {
    if e.ErrObj? then e.error else None
  }

  /** `new Error(m)`. */
  function NewError(m: string): Thrown {
    ErrObj(Some(m), None)
  }

  /** The settled value of an awaited call: a result, or what it threw. */
  datatype Outcome<+T> = Ok(value: T) | Fail(thrown: Thrown)

  /** A decoded JSON response body, as far as `Array.isArray` tells it apart. */
  datatype Payload<+T> = List(items: seq<T>) | NotList

  /** `Array.isArray(data) ? data : []`. */
  function ListOrEmpty<T>(p: Payload<T>): seq<T> {
    if p.List? then p.items else []
  }

  /** A call to react-router's `navigate(path, { replace })`. */
  datatype Navigation = Navigation(path: string, replace: bool)

  /** `navigate(path)` without options. */
  function Go(path: string): Navigation {
    Navigation(path, false)
  }
}
