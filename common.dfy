/** Small shared vocabulary: optional values, results of operations that
    can fail, and the string helpers the controllers use. */
module Common {

  datatype Option<T> = None | Some(value: T)

  /** The outcome of an operation that either yields a value or raises an
      error (a JavaScript `throw` or an HTTP error status). */
  datatype Result<T, E> = Success(value: T) | Failure(error: E)

  /** JavaScript truthiness of an optional string field: absent and empty
      strings are falsy. */
  predicate Present(s: Option<string>)
  {
    s.Some? && s.value != ""
  }

  /** `p` occurs in `s` starting at index `i`. */
  predicate OccursAt(s: string, p: string, i: nat)
  {
    i + |p| <= |s| && s[i..i + |p|] == p
  }

  /** `String.prototype.includes`: does `p` occur anywhere in `s`? */
  function Contains(s: string, p: string): (b: bool)
    ensures b <==> exists i: nat :: OccursAt(s, p, i)
    decreases |s|
  {
    if |s| < |p| then
      assert forall i: nat :: !OccursAt(s, p, i);
      false
    else if s[..|p|] == p then
      assert OccursAt(s, p, 0);
      true
    else
      var rest := Contains(s[1..], p);
      ShiftOccurrence(s, p);
      rest
  }

  lemma ShiftOccurrence(s: string, p: string)
    requires |s| >= 1
    ensures forall i: nat :: OccursAt(s, p, i + 1) <==> OccursAt(s[1..], p, i)
    ensures (exists i: nat :: OccursAt(s, p, i)) <==> OccursAt(s, p, 0) || exists i: nat :: OccursAt(s[1..], p, i)
  {
    forall i: nat ensures OccursAt(s, p, i + 1) <==> OccursAt(s[1..], p, i) {
      if i + 1 + |p| <= |s| {
        var a, b := s[i + 1..i + 1 + |p|], s[1..][i..i + |p|];
        forall k | 0 <= k < |a| ensures a[k] == b[k] { }
        assert a == b;
      }
    }
    if exists i: nat :: OccursAt(s, p, i) {
      var i: nat :| OccursAt(s, p, i);
      if i > 0 {
        assert OccursAt(s[1..], p, i - 1);
      }
    }
  }

  /** The decimal digits of a natural number, as `String(n)` writes them. */
  function NatToString(n: nat): (s: string)
    ensures |s| >= 1
    ensures forall k :: 0 <= k < |s| ==> '0' <= s[k] <= '9'
    ensures s[0] == '0' ==> n == 0
  {
    if n < 10 then [Digit(n)] else NatToString(n / 10) + [Digit(n % 10)]
  }

  function Digit(d: nat): (c: char)
    requires d < 10
    ensures '0' <= c <= '9'
    ensures c == '0' <==> d == 0
  {
    ['0', '1', '2', '3', '4', '5', '6', '7', '8', '9'][d]
  }
}
