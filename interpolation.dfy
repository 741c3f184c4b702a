/**
 * The check `configparser`'s default (basic) interpolation makes when a
 * value is set: after removing the escapes `%%` and the references
 * `%(name)s`, no `%` may remain, or setting the value raises `ValueError`.
 */
module Interpolation {

  /** `t.replace("%%", "")`, scanning left to right. */
  function DropEscapes(t: string): (r: string)
    ensures |r| <= |t|
    ensures forall c :: c in r ==> c in t
    decreases |t|
  {
    if t == [] then []
    else if |t| >= 2 && t[0] == '%' && t[1] == '%' then DropEscapes(t[2..])
    else [t[0]] + DropEscapes(t[1..])
  }

  /** Index of the first `)` in `t`, or `|t|` when there is none. */
  function CloseParen(t: string): (n: nat)
    ensures n <= |t|
    ensures n < |t| ==> t[n] == ')'
    ensures forall k :: 0 <= k < n ==> t[k] != ')'
  {
    if t == [] || t[0] == ')' then 0 else 1 + CloseParen(t[1..])
  }

  /** The length of a reference `%(name)s` (a non-empty name without `)`)
      at the start of `t`, if one starts there. */
  function RefLength(t: string): (l: nat)
    ensures l == 0 || (4 < l <= |t| && t[0] == '%')
  {
    if |t| >= 2 && t[0] == '%' && t[1] == '(' then
      var n := CloseParen(t[2..]);
      if n >= 1 && 2 + n + 1 < |t| && t[2 + n + 1] == 's' then n + 4 else 0
    else 0
  }

  /** `re.sub(r"%\(([^)]+)\)s", "", t)`: every reference removed, scanning
      left to right. */
  function DropRefs(t: string): (r: string)
    ensures |r| <= |t|
    ensures forall c :: c in r ==> c in t
    decreases |t|
  {
    if t == [] then []
    else if RefLength(t) > 0 then DropRefs(t[RefLength(t)..])
    else [t[0]] + DropRefs(t[1..])
  }

  /** Setting the value `t` raises `ValueError` ("invalid interpolation syntax"). */
  predicate Rejects(t: string) {
    '%' in DropRefs(DropEscapes(t))
  }

  /** A value without `%` is always accepted. */
  lemma NoPercentAccepted(t: string)
    requires '%' !in t
    ensures !Rejects(t)
  {
  }

  /** Removing escapes leaves a prefix without `%` in place. */
  lemma {:induction false} DropEscapesPrefix(a: string, u: string)
    requires '%' !in a
    ensures DropEscapes(a + u) == a + DropEscapes(u)
    decreases |a|
  {
    if a != [] {
      assert (a + u)[0] == a[0] && (a + u)[1..] == a[1..] + u;
      assert a[0] != '%';
      DropEscapesPrefix(a[1..], u);
      assert [a[0]] + (a[1..] + DropEscapes(u)) == a + DropEscapes(u);
    } else {
      assert a + u == u;
    }
  }

  /** Removing references leaves a prefix without `%` in place. */
  lemma {:induction false} DropRefsPrefix(a: string, u: string)
    requires '%' !in a
    ensures DropRefs(a + u) == a + DropRefs(u)
    decreases |a|
  {
    if a != [] {
      assert (a + u)[0] == a[0] && (a + u)[1..] == a[1..] + u;
      assert a[0] != '%';
      var t := a + u;
      assert RefLength(t) == 0;
      assert DropRefs(t) == [t[0]] + DropRefs(t[1..]);
      DropRefsPrefix(a[1..], u);
      assert [a[0]] + (a[1..] + DropRefs(u)) == a + DropRefs(u);
    } else {
      assert a + u == u;
    }
  }

  /** A value with a single `%` that does not open a reference is rejected:
      a key cell `N1%` makes the list text `['N1%']` unacceptable. */
  lemma LonePercentRejected(a: string, b: string)
    requires '%' !in a && '%' !in b
    requires b == [] || b[0] != '('
    ensures Rejects(a + "%" + b)
  {
    assert a + "%" + b == a + ("%" + b);
    DropEscapesPrefix(a, "%" + b);
    assert ("%" + b)[1..] == b;
    assert DropEscapes(b) == b by { DropEscapesPrefix(b, []); assert b + [] == b; }
    assert DropEscapes("%" + b) == "%" + b;
    var u := "%" + b;
    assert DropEscapes(a + u) == a + u;
    DropRefsPrefix(a, u);
    assert RefLength(u) == 0;
    assert u[0] == '%';
    assert '%' in DropRefs(u);
    assert '%' in a + DropRefs(u);
  }
}
