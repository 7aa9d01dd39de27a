/** Small shared vocabulary: optional values, service results, ASCII case
    mapping, time units and order-preserving de-duplication. */
module Common {

  datatype Option<+T> = None | Some(value: T)

  /** The failures the services raise: the two NestJS HTTP exceptions, and
      a plain `Error`. */
  datatype Error =
    | NotFound(what: string)
    | BadRequest(why: string)
    | Failure(message: string)

  datatype Result<+T> = Ok(value: T) | Err(error: Error)

  /** Time is an instant in milliseconds since the epoch. */
  const DAY: int := 24 * 3600 * 1000
  const WEEK: int := 7 * DAY

  /** date-fns `addDays`: calendar days are modelled as fixed 24-hour spans. */
  function AddDays(t: int, days: int): int { t + days * DAY }

  predicate IsUpperAscii(c: char) { 'A' <= c <= 'Z' }
  predicate IsLowerAscii(c: char) { 'a' <= c <= 'z' }

  function LowerChar(c: char): (r: char)
    ensures !IsUpperAscii(r)
    ensures IsUpperAscii(c) ==> r as int == c as int + 32
    ensures !IsUpperAscii(c) ==> r == c
  {
    if IsUpperAscii(c) then (c as int + 32) as char else c
  }

  function UpperChar(c: char): (r: char)
    ensures !IsLowerAscii(r)
    ensures IsLowerAscii(c) ==> r as int == c as int - 32
    ensures !IsLowerAscii(c) ==> r == c
  {
    if IsLowerAscii(c) then (c as int - 32) as char else c
  }

  /** `String.prototype.toLowerCase`, restricted to ASCII letters. */
  function Lower(s: string): (r: string)
    ensures |r| == |s|
    ensures forall i :: 0 <= i < |s| ==> r[i] == LowerChar(s[i])
  {
    if s == [] then [] else [LowerChar(s[0])] + Lower(s[1..])
  }

  /** `String.prototype.toUpperCase`, restricted to ASCII letters. */
  function Upper(s: string): (r: string)
    ensures |r| == |s|
    ensures forall i :: 0 <= i < |s| ==> r[i] == UpperChar(s[i])
  {
    if s == [] then [] else [UpperChar(s[0])] + Upper(s[1..])
  }

  lemma LowerIdempotent(s: string)
    ensures Lower(Lower(s)) == Lower(s)
  {
  }

  lemma AppendAssoc<T>(a: seq<T>, b: seq<T>, c: seq<T>)
    ensures a + (b + c) == a + b + c
  {
  }

  predicate Distinct<T(==)>(s: seq<T>) {
    forall i, j :: 0 <= i < j < |s| ==> s[i] != s[j]
  }

  /** `[...new Set(xs)]`: the distinct elements in order of first occurrence. */
  function Dedup(xs: seq<string>): (r: seq<string>)
    ensures Distinct(r)
    ensures forall x :: x in r <==> x in xs
    ensures |r| <= |xs|
  {
    DedupFrom(xs, [])
  }

  function DedupFrom(xs: seq<string>, seen: seq<string>): (r: seq<string>)
    requires Distinct(seen)
    ensures Distinct(r)
    ensures forall x :: x in r <==> x in seen || x in xs
    ensures |r| <= |seen| + |xs|
    ensures |seen| <= |r| && r[..|seen|] == seen
    decreases |xs|
  {
    if xs == [] then seen
    else if xs[0] in seen then DedupFrom(xs[1..], seen)
    else DedupFrom(xs[1..], seen + [xs[0]])
  }

  lemma {:induction false} DedupOfDistinct(xs: seq<string>)
    requires Distinct(xs)
    ensures Dedup(xs) == xs
  {
    DedupFromDistinct(xs, []);
  }

  lemma {:induction false} DedupFromDistinct(xs: seq<string>, seen: seq<string>)
    requires Distinct(seen) && Distinct(seen + xs)
    ensures DedupFrom(xs, seen) == seen + xs
    decreases |xs|
  {
    if xs != [] {
      assert (seen + xs)[|seen|] == xs[0];
      assert xs[0] !in seen by {
        forall i | 0 <= i < |seen| ensures seen[i] != xs[0] {
          assert (seen + xs)[i] == seen[i];
        }
      }
      assert seen + xs == (seen + [xs[0]]) + xs[1..];
      DedupFromDistinct(xs[1..], seen + [xs[0]]);
    }
  }
}
