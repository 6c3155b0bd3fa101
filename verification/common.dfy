/**
 * Values shared by every part of the model: Go's error conventions, the
 * JSON values that tool results are serialised from, the release calls a
 * Close makes, and the two number formats the code relies on (`%d` and
 * `time.Duration.Milliseconds`).
 */
module Common {

  datatype Option<+T> = None | Some(value: T)

  /** A Go `(value, error)` pair; an error is carried by its message text. */
  datatype Result<+T> = Ok(value: T) | Err(error: string)

  /** A Go `error` on its own: nil, or an error with its message text. */
  datatype Outcome = Pass | Fail(error: string)

  /**
   * A JSON value as `encoding/json` would produce it from the code's
   * structs and `map[string]interface{}` results. The text form is not
   * modelled: a tool result carries the value itself.
   */
  datatype Json =
    | JNull
    | JBool(b: bool)
    | JInt(i: int)
    | JStr(s: string)
    | JArr(items: seq<Json>)
    | JObj(fields: map<string, Json>)

  /** A release call made by a Close or a cleanup on an external resource. */
  datatype Teardown = CloseClient | CancelContext | CloseDatabase

  /** An optional error wrapped with a prefix, as `fmt.Errorf("<prefix>%w", err)` does. */
  function Wrapped(prefix: string, err: Option<string>): (r: Option<string>)
    ensures r.Some? <==> err.Some?
    ensures r.Some? ==> StartsWith(r.value, prefix) && EndsWith(r.value, err.value)
  {
    if err.Some? then Some(prefix + err.value) else None
  }

  predicate StartsWith(s: string, prefix: string) {
    |prefix| <= |s| && s[..|prefix|] == prefix
  }

  predicate EndsWith(s: string, suffix: string) {
    |suffix| <= |s| && s[|s| - |suffix|..] == suffix
  }

  predicate IsDigits(s: string) {
    forall i :: 0 <= i < |s| ==> '0' <= s[i] <= '9'
  }

  function DigitChar(d: nat): (c: char)
    requires d < 10
    ensures '0' <= c <= '9' && c as int - '0' as int == d
  {
    ('0' as int + d) as char
  }

  /**
   * The position of the first element of `s` that satisfies `p`: every
   * element before it fails `p`, and there is none exactly when every
   * element fails it.
   */
  function FirstIndex<T>(s: seq<T>, p: T -> bool): (r: Option<nat>)
    ensures r.None? <==> forall i :: 0 <= i < |s| ==> !p(s[i])
    ensures r.Some? ==> r.value < |s| && p(s[r.value]) && forall j :: 0 <= j < r.value ==> !p(s[j])
  {
    if s == [] then None
    else if p(s[0]) then Some(0)
    else
      match FirstIndex(s[1..], p)
      case None => None
      case Some(k) => Some(k + 1)
  }

  /**
   * A `range` over a map's keys: every key exactly once, in an order the
   * caller cannot rely on.
   */
  method KeyOrder<K, V>(m: map<K, V>) returns (order: seq<K>)
    ensures |order| == |m|
    ensures forall i :: 0 <= i < |order| ==> order[i] in m
    ensures forall k :: k in m ==> k in order
    ensures forall i, j :: 0 <= i < j < |order| ==> order[i] != order[j]
  {
    order := [];
    var remaining := m.Keys;
    ghost var done: set<K> := {};
    while remaining != {}
      invariant done <= m.Keys && remaining == m.Keys - done
      invariant Enumerates(order, done)
      decreases remaining
    {
      var k :| k in remaining;
      EnumeratesOneMore(order, done, k);
      order := order + [k];
      done := done + {k};
      remaining := remaining - {k};
    }
    assert done == m.Keys;
  }

  /** `order` lists the elements of `done`, each once. */
  ghost predicate Enumerates<K>(order: seq<K>, done: set<K>) {
    && |order| == |done|
    && (forall i :: 0 <= i < |order| ==> order[i] in done)
    && (forall k :: k in done ==> k in order)
    && (forall i, j :: 0 <= i < j < |order| ==> order[i] != order[j])
  }

  /** Appending an element not yet listed lists one more element. */
  lemma EnumeratesOneMore<K>(order: seq<K>, done: set<K>, k: K)
    requires Enumerates(order, done) && k !in done
    ensures Enumerates(order + [k], done + {k})
  {
  }

  /** A concatenation splits back into its parts. */
  lemma SplitAt<T>(front: seq<T>, back: seq<T>)
    ensures (front + back)[..|front|] == front && (front + back)[|front|..] == back
  {
  }

  /** Decimal text of a natural number, as Go's `%d` prints it. */
  function NatToString(n: nat): (s: string)
    ensures |s| > 0 && IsDigits(s)
    ensures n < 10 <==> |s| == 1
    decreases n
  {
    if n < 10 then [DigitChar(n)] else NatToString(n / 10) + [DigitChar(n % 10)]
  }

  /** Decimal text of an integer, as Go's `%d` / `%v` print it. */
  function IntToString(i: int): (s: string)
    ensures |s| > 0
    ensures i >= 0 ==> IsDigits(s)
    ensures i < 0 ==> s[0] == '-' && IsDigits(s[1..])
  {
    if i >= 0 then NatToString(i) else "-" + NatToString(-i)
  }

  /** The value of a string of decimal digits: the inverse of NatToString. */
  function ParseDigits(s: string): nat
    requires IsDigits(s)
    decreases |s|
  {
    if s == [] then 0 else ParseDigits(s[..|s| - 1]) * 10 + (s[|s| - 1] as int - '0' as int)
  }

  /** The decimal text of a count determines the count. */
  lemma {:induction false} ParseNatToString(n: nat)
    ensures ParseDigits(NatToString(n)) == n
    decreases n
  {
    if n >= 10 {
      var s := NatToString(n);
      assert s[..|s| - 1] == NatToString(n / 10);
      ParseNatToString(n / 10);
    }
  }

  /**
   * Go's `time.Duration.Milliseconds()`: a duration in nanoseconds divided
   * by 1e6, truncated toward zero (Go's integer division), not floored.
   */
  function Milliseconds(ns: int): (ms: int)
    ensures ns >= 0 ==> 0 <= ms * 1000000 <= ns < (ms + 1) * 1000000
    ensures ns < 0 ==> (ms - 1) * 1000000 < ns <= ms * 1000000 <= 0
  {
    if ns >= 0 then ns / 1000000 else -((-ns) / 1000000)
  }
}
