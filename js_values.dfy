/**
 * How the handlers read JSON request fields: JavaScript truthiness, string
 * interpolation of a possibly missing value, the `typeof v === 'object'`
 * conversion before a TEXT column, and the decimal ids of query strings.
 */
module JsValues {
  import opened Wrappers

  /** `!!v` for a string field: present and not empty. */
  predicate Truthy(v: Option<string>) {
    v.Some? && v.value != ""
  }

  /** `!!v` for a numeric field: present and not zero. */
  predicate TruthyNumber(v: Option<int>) {
    v.Some? && v.value != 0
  }

  /** `${v}` or `v + ""` of a string field: a missing field reads "undefined". */
  function Interpolate(v: Option<string>): string {
    match v
    case Some(s) => s
    case None => "undefined"
  }

  /** A request field that may hold a string, an object or array (kept with its JSON text), null, or nothing. */
  datatype JsValue = Undefined | Null | Str(s: string) | Compound(json: string)

  /**
   * `typeof v === 'object' ? JSON.stringify(v) : v`, as the value a TEXT column
   * receives (undefined becomes SQL NULL; `typeof null` is 'object', so null becomes the text "null").
   */
  function ColumnText(v: JsValue): Option<string> {
    match v
    case Undefined => None
    case Null => Some("null")
    case Str(s) => Some(s)
    case Compound(json) => Some(json)
  }

  predicate IsDigit(c: char) {
    '0' <= c <= '9'
  }

  predicate AllDigits(s: string) {
    forall i :: 0 <= i < |s| ==> IsDigit(s[i])
  }

  /** The value of a string of decimal digits. */
  function DigitsValue(s: string): (n: nat)
    requires AllDigits(s)
  {
    if s == [] then 0 else DigitsValue(s[..|s| - 1]) * 10 + (s[|s| - 1] as int - '0' as int)
  }

  /** An id parameter as the database reads it: a non-empty run of digits, anything else is an error. */
  function ParseId(s: string): (r: Option<nat>)
    ensures r.Some? <==> s != [] && AllDigits(s)
  {
    if s != [] && AllDigits(s) then Some(DigitsValue(s)) else None
  }

  /** The decimal text of `n`, as a template literal renders an id. */
  function ShowNat(n: nat): (s: string)
    ensures s != [] && AllDigits(s)
  {
    if n < 10 then [('0' as int + n) as char]
    else ShowNat(n / 10) + [('0' as int + n % 10) as char]
  }

  /** Rendering an id and reading it back gives the same id. */
  lemma {:induction false} ParseShow(n: nat)
    ensures ParseId(ShowNat(n)) == Some(n)
  {
    var s := ShowNat(n);
    if n >= 10 {
      ParseShow(n / 10);
      assert s[..|s| - 1] == ShowNat(n / 10);
      assert DigitsValue(s) == (n / 10) * 10 + n % 10;
    } else {
      assert s[..|s| - 1] == [];
    }
  }
}
