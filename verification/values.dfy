/**
 * The few pieces of JavaScript value semantics the pipeline depends on:
 * truthiness, strict equality against a string-or-undefined setting,
 * template-literal rendering, and `Response.ok`.
 */
module Values {
  import opened Wrappers

  /**
   * A JavaScript value as seen through a property read: `undefined`, a
   * string, or any other value (number, boolean, null, object), which is
   * kept only through its truthiness and its `String(...)` rendering.
   */
  datatype Field = Undefined | Str(s: string) | Other(truthy: bool, rendered: string)

  /** JavaScript truthiness of a field. */
  predicate Truthy(f: Field) {
    match f
    case Undefined => false
    case Str(s) => s != ""
    case Other(t, _) => t
  }

  /** `${f}` in a template literal, or `"" + f`. */
  function Render(f: Field): string {
    match f
    case Undefined => "undefined"
    case Str(s) => s
    case Other(_, r) => r
  }

  /** `f === t` where `t` is a string setting that may be unset (`undefined`). */
  predicate StrictEquals(f: Field, t: Option<string>) {
    match t
    case None => f.Undefined?
    case Some(v) => f == Str(v)
  }

  /** Truthiness of a `string | undefined`: present and non-empty. */
  predicate Present(v: Option<string>) {
    v.Some? && v.value != ""
  }

  /** `${v}` for a `string | undefined`. */
  function RenderOpt(v: Option<string>): string {
    match v
    case Some(s) => s
    case None => "undefined"
  }

  /** `Response.ok`: the status is in the range 200-299. */
  predicate IsOk(status: int) {
    200 <= status <= 299
  }

  /** Every name in `names` is set to a non-empty value in `env`. */
  function AllPresent(env: map<string, string>, names: seq<string>): (ok: bool)
    ensures ok <==> forall i :: 0 <= i < |names| ==> Present(Lookup(env, names[i]))
  {
    if names == [] then true
    else
      assert forall i :: 1 <= i < |names| ==> names[i] == names[1..][i - 1];
      Present(Lookup(env, names[0])) && AllPresent(env, names[1..])
  }

  /** A `map<string, string>` read the way `obj[key]` reads a plain object. */
  function Lookup(m: map<string, string>, key: string): Option<string> {
    if key in m then Some(m[key]) else None
  }
}
