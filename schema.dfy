/** Schema violations: what a failed `safeParse` reports, reduced to the
    path of each offending field (the message text is not modelled). */
module Schema {

  /** One step of a field path: an object key or an array index. */
  datatype PathSegment = Key(name: string) | Index(i: nat)

  type Path = seq<PathSegment>

  datatype Violation = Violation(path: Path)

  /** The length zod's string checks measure: JavaScript's `length`, which
      counts UTF-16 code units, so a character beyond the Basic Multilingual
      Plane counts twice. It is at least 1 exactly when the string is
      non-empty, so only exact lengths tell it apart from `|s|`. */
  function Utf16Length(s: string): (n: nat)
    ensures |s| <= n <= 2 * |s|
    ensures n == |s| <==> forall i :: 0 <= i < |s| ==> s[i] <= '\U{FFFF}'
  {
    if s == [] then 0
    else (if s[0] <= '\U{FFFF}' then 1 else 2) + Utf16Length(s[1..])
  }

  /** `[f]` when field `f` fails its check (`ok` is false), `[]` otherwise. */
  function IfFails<F(!new)>(ok: bool, f: F): (r: seq<F>)
    ensures forall g :: g in r <==> g == f && !ok
  {
    if ok then [] else [f]
  }

  /** One violation per failed field of the object at `prefix`; `path` gives
      each field's path inside that object. */

  function AtFields<F>(prefix: Path, failed: seq<F>, path: F -> Path): (vs: seq<Violation>)
    ensures |vs| == |failed|
    ensures forall i :: 0 <= i < |failed| ==> vs[i].path == prefix + path(failed[i])
  {
    if failed == [] then []
    else [Violation(prefix + path(failed[0]))] + AtFields(prefix, failed[1..], path)
  }

  /** The violations of an array's elements from index `start` on: those of
      each element in turn, where `check(i, x)` lists the violations of
      element `x` at index `i`. */
  function ElementViolations<T>(xs: seq<T>, start: nat, check: (nat, T) -> seq<Violation>): seq<Violation>
  {
    if xs == [] then []
    else check(start, xs[0]) + ElementViolations(xs[1..], start + 1, check)
  }

  /** An array has no violations exactly when none of its elements has any. */
  lemma {:induction false} NoElementViolations<T>(xs: seq<T>, start: nat, check: (nat, T) -> seq<Violation>)
    ensures ElementViolations(xs, start, check) == [] <==> forall j :: 0 <= j < |xs| ==> check(start + j, xs[j]) == []
  {
    if xs != [] {
      NoElementViolations(xs[1..], start + 1, check);
      assert forall j :: 0 < j < |xs| ==> xs[1..][j - 1] == xs[j] && start + 1 + (j - 1) == start + j;
    }
  }

  /** Each violation of an element appears among the array's violations. */
  lemma {:induction false} ElementViolationPosition<T>(xs: seq<T>, start: nat, check: (nat, T) -> seq<Violation>, i: nat, v: Violation)
    returns (k: nat)
    requires start <= i < start + |xs| && v in check(i, xs[i - start])
    ensures k < |ElementViolations(xs, start, check)| && ElementViolations(xs, start, check)[k] == v
  {
    var head := check(start, xs[0]);
    var tail := ElementViolations(xs[1..], start + 1, check);
    assert ElementViolations(xs, start, check) == head + tail;
    if i == start {
      k :| k < |head| && head[k] == v;
    } else {
      assert xs[1..][i - (start + 1)] == xs[i - start];
      var k' := ElementViolationPosition(xs[1..], start + 1, check, i, v);
      k := |head| + k';
    }
  }

  /** Each of the array's violations is a violation of one of its elements. */
  lemma {:induction false} ElementViolationOrigin<T>(xs: seq<T>, start: nat, check: (nat, T) -> seq<Violation>, v: Violation)
    returns (i: nat)
    requires v in ElementViolations(xs, start, check)
    ensures start <= i < start + |xs| && v in check(i, xs[i - start])
  {
    var head := check(start, xs[0]);
    var tail := ElementViolations(xs[1..], start + 1, check);
    assert ElementViolations(xs, start, check) == head + tail;
    if v in head {
      i := start;
    } else {
      i := ElementViolationOrigin(xs[1..], start + 1, check, v);
      assert xs[1..][i - (start + 1)] == xs[i - start];
    }
  }

  /** `ElementViolationPosition` for a whole array, indexed from 0. */
  lemma ElementViolationsInclude<T>(xs: seq<T>, check: (nat, T) -> seq<Violation>, i: nat, v: Violation)
    requires i < |xs| && v in check(i, xs[i])
    ensures v in ElementViolations(xs, 0, check)
  {
    assert xs[i - 0] == xs[i];
    var k := ElementViolationPosition(xs, 0, check, i, v);
  }

  /** `ElementViolationOrigin` for a whole array, indexed from 0. */
  lemma ElementViolationSource<T>(xs: seq<T>, check: (nat, T) -> seq<Violation>, v: Violation) returns (i: nat)
    requires v in ElementViolations(xs, 0, check)
    ensures i < |xs| && v in check(i, xs[i])
  {
    i := ElementViolationOrigin(xs, 0, check, v);
    assert xs[i - 0] == xs[i];
  }
}
