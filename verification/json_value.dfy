// A decoded JSON document, as `json.loads` hands it to the extractors, and
// the Python operations the extractors apply to it: `dict.get`, truthiness
// and iteration.

module JsonValue {
  import opened Common
  import opened Strings

  /**
   * Numbers keep their literal text: float parsing and formatting are not
   * part of this model. Objects are dictionaries after duplicate keys have
   * been resolved.
   */
  datatype Json =
    | JNull
    | JBool(b: bool)
    | JNum(text: string)
    | JStr(s: string)
    | JArr(items: seq<Json>)
    | JObj(fields: map<string, Json>)

  /** A numeral is zero when its mantissa has no non-zero digit. */
  predicate IsZeroNumeral(t: string) {
    var mantissa := Before(Before(t, 'e'), 'E');
    forall i :: 0 <= i < |mantissa| ==> !('1' <= mantissa[i] <= '9')
  }

  /** A numeral equal to one, written without an exponent: `1`, `1.0`, `1.00`, ... */
  predicate IsOneNumeral(t: string) {
    |t| >= 1 && t[0] == '1' && (|t| == 1 || (t[1] == '.' && forall i :: 2 <= i < |t| ==> t[i] == '0'))
  }

  lemma OneIsNotZero(t: string)
    requires IsOneNumeral(t)
    ensures !IsZeroNumeral(t)
  {
    assert 'e' !in t && 'E' !in t;
    assert Before(Before(t, 'e'), 'E')[0] == '1';
  }

  /**
   * A value bound to an SQLAlchemy `Boolean` column: a boolean, or a number
   * equal to 0 or 1, is stored as that truth value; any other value is
   * refused when the row is flushed.
   */
  datatype BooleanBind = Stored(b: bool) | Refused

  /** Python truthiness of a decoded value. */
  predicate Truthy(j: Json) {
    match j
    case JNull => false
    case JBool(b) => b
    case JNum(t) => !IsZeroNumeral(t)
    case JStr(s) => s != []
    case JArr(a) => a != []
    case JObj(m) => m != map[]
  }

  /** `d.get(k)`: absent keys give None. */
  function Lookup(m: map<string, Json>, k: string): Option<Json> {
    if k in m then Some(m[k]) else None
  }

  /** `d.get(k, default)`. */
  function LookupOr(m: map<string, Json>, k: string, default: Json): Json {
    if k in m then m[k] else default
  }

  /**
   * A value the source uses as text. Only a JSON string is text here; any
   * other value, and an absent key, reads as None.
   */
  function Text(v: Option<Json>): Option<string> {
    match v
    case Some(JStr(s)) => Some(s)
    case _ => None
  }

  function TextOf(m: map<string, Json>, k: string): Option<string> {
    Text(Lookup(m, k))
  }

  /**
   * `for x in v`: an array yields its items and a string its characters.
   * An empty object yields nothing. Null, booleans and numbers raise a
   * TypeError. A non-empty object yields its keys in insertion order, which
   * a map does not record, so it is treated as raising.
   */
  function Iter(v: Json): Result<seq<Json>> {
    match v
    case JArr(a) => Ok(a)
    case JStr(s) => Ok(seq(|s|, i requires 0 <= i < |s| => JStr([s[i]])))
    case JObj(m) => if m == map[] then Ok([]) else Failed(Raised)
    case _ => Failed(Raised)
  }

  /** `v[0]` on a value already known to be truthy. */
  function First(v: Json): Result<Json> {
    match v
    case JArr(a) => if a != [] then Ok(a[0]) else Failed(Raised)
    case JStr(s) => if s != [] then Ok(JStr([s[0]])) else Failed(Raised)
    case _ => Failed(Raised)
  }

  /**
   * A Python loop over `xs` whose body may raise, and otherwise appends
   * zero or one item: the collected items in order, or the failure of the
   * first body that raised.
   */
  function Collect<A, B>(xs: seq<A>, f: A -> Result<Option<B>>): Result<seq<B>>
    decreases |xs|
  {
    if xs == [] then Ok([])
    else
      var head := f(xs[0]);
      if head.Failed? then Failed(head.reason)
      else
        var tail := Collect(xs[1..], f);
        if tail.Failed? then tail
        else Ok((if head.value.Some? then [head.value.value] else []) + tail.value)
  }

  /** Items already collected, followed by the outcome of the rest of the loop. */
  function Then<B>(acc: seq<B>, rest: Result<seq<B>>): Result<seq<B>> {
    if rest.Failed? then rest else Ok(acc + rest.value)
  }

  /** Before the first turn nothing is collected; after the last, nothing remains. */
  lemma ThenBounds<B>(acc: seq<B>, r: Result<seq<B>>)
    ensures Then([], r) == r
    ensures Then(acc, Ok([])) == Ok(acc)
  {
    if r.Ok? {
      assert [] + r.value == r.value;
    }
    assert acc + [] == acc;
  }

  /** One more turn of the loop: the invariant of every collecting loop. */
  lemma CollectStep<A, B>(xs: seq<A>, i: nat, f: A -> Result<Option<B>>, acc: seq<B>)
    requires i < |xs|
    ensures f(xs[i]).Failed? ==> Then(acc, Collect(xs[i..], f)) == Failed(f(xs[i]).reason)
    ensures f(xs[i]).Ok? ==>
      Then(acc, Collect(xs[i..], f))
      == Then(acc + (if f(xs[i]).value.Some? then [f(xs[i]).value.value] else []), Collect(xs[i + 1..], f))
  {
    assert xs[i..][0] == xs[i];
    assert xs[i..][1..] == xs[i + 1..];
    var rest := Collect(xs[i + 1..], f);
    if f(xs[i]).Ok? && rest.Ok? {
      var h := if f(xs[i]).value.Some? then [f(xs[i]).value.value] else [];
      assert Collect(xs[i..], f) == Ok(h + rest.value);
      assert acc + (h + rest.value) == (acc + h) + rest.value;
    }
  }

  /** Every collected item comes from an element for which the body produced it. */
  lemma {:induction false} CollectSound<A, B>(xs: seq<A>, f: A -> Result<Option<B>>, k: nat)
    requires Collect(xs, f).Ok? && k < |Collect(xs, f).value|
    ensures exists j :: 0 <= j < |xs| && f(xs[j]) == Ok(Some(Collect(xs, f).value[k]))
    decreases |xs|
  {
    var head := f(xs[0]);
    var tail := Collect(xs[1..], f);
    if head.value.Some? && k == 0 {
      assert f(xs[0]) == Ok(Some(Collect(xs, f).value[k]));
    } else {
      var k' := if head.value.Some? then k - 1 else k;
      assert Collect(xs, f).value[k] == tail.value[k'];
      CollectSound(xs[1..], f, k');
      var j :| 0 <= j < |xs[1..]| && f(xs[1..][j]) == Ok(Some(tail.value[k']));
      assert xs[1..][j] == xs[j + 1];
    }
  }

  /** The loop raises exactly when the body raises on some element. */
  lemma {:induction false} CollectFails<A, B>(xs: seq<A>, f: A -> Result<Option<B>>)
    ensures Collect(xs, f).Failed? <==> exists j :: 0 <= j < |xs| && f(xs[j]).Failed?
    decreases |xs|
  {
    if xs != [] {
      CollectFails(xs[1..], f);
      if exists j :: 0 <= j < |xs| && f(xs[j]).Failed? {
        var j :| 0 <= j < |xs| && f(xs[j]).Failed?;
        if j > 0 { assert xs[1..][j - 1] == xs[j]; }
      }
      if exists j :: 0 <= j < |xs[1..]| && f(xs[1..][j]).Failed? {
        var j :| 0 <= j < |xs[1..]| && f(xs[1..][j]).Failed?;
        assert xs[1..][j] == xs[j + 1];
      }
    }
  }

  /** Python's `needle in s` for texts. */
  predicate Occurs(needle: string, s: string)
    decreases |s|
  {
    StartsWith(s, needle) || (s != [] && Occurs(needle, s[1..]))
  }
}
