/** Value wrappers and the Python list and string operations the chat backend is built from. */
module Basics {

  datatype Option<+T> = None | Some(value: T)

  /** A value, or the message of an exception that escaped. */
  datatype Result<+T> = Ok(value: T) | Err(error: string)

  function Min(a: int, b: int): int
  {
    if a <= b then a else b
  }

  predicate StartsWith(s: string, prefix: string)
  {
    |prefix| <= |s| && s[..|prefix|] == prefix
  }

  predicate EndsWith(s: string, suffix: string)
  {
    |suffix| <= |s| && s[|s| - |suffix|..] == suffix
  }

  /** `t` appears in `s` starting at index `i`. */
  predicate OccursAt(t: string, s: string, i: nat)
  {
    i + |t| <= |s| && s[i..i + |t|] == t
  }

  /** `t` appears somewhere in `s` as a contiguous piece. */
  ghost predicate Occurs(t: string, s: string)
  {
    exists i: nat :: OccursAt(t, s, i)
  }

  /** Python's `s[:n]` for a non-negative `n`: the first `n` elements, or all of them. */
  function Take<T>(s: seq<T>, n: nat): (r: seq<T>)
    ensures |r| == Min(n, |s|)
    ensures r == s[..|r|]
  {
    if |s| <= n then s else s[..n]
  }

  /** Python's `xs[-n:]` for a positive `n`: the last `n` elements, oldest first,
      or the whole list when it is shorter. */
  function Recent<T>(xs: seq<T>, n: nat): (r: seq<T>)
    requires n > 0
    ensures |r| == Min(n, |xs|)
    ensures xs == xs[..|xs| - |r|] + r
  {
    xs[|xs| - Min(n, |xs|)..]
  }

  /** Python's `sep.join(parts)`. */
  function Join(sep: string, parts: seq<string>): (r: string)
    ensures parts == [] ==> r == ""
    ensures parts != [] ==> StartsWith(r, parts[0]) && EndsWith(r, parts[|parts| - 1])
    decreases |parts|
  {
    if parts == [] then ""
    else if |parts| == 1 then parts[0]
    else parts[0] + sep + Join(sep, parts[1..])
  }

  /** Where `parts[k]` begins inside `Join(sep, parts)`. */
  function Offset(sep: string, parts: seq<string>, k: nat): nat
    requires k < |parts|
  {
    if k == 0 then 0 else |parts[0]| + |sep| + Offset(sep, parts[1..], k - 1)
  }

  /** A piece of `b` is a piece of `a + b`, shifted by `|a|`. */
  lemma OccursAtShift(t: string, a: string, b: string, o: nat)
    requires OccursAt(t, b, o)
    ensures OccursAt(t, a + b, |a| + o)
  {
    forall k | 0 <= k < |t|
      ensures (a + b)[|a| + o + k] == t[k]
    {
      assert b[o..o + |t|][k] == b[o + k];
    }
    assert (a + b)[|a| + o..|a| + o + |t|] == t;
  }

  /** A piece of `a` is a piece of `a + b` at the same place. */
  lemma OccursAtExtend(t: string, a: string, b: string, o: nat)
    requires OccursAt(t, a, o)
    ensures OccursAt(t, a + b, o)
  {
    forall k | 0 <= k < |t|
      ensures (a + b)[o + k] == t[k]
    {
      assert a[o..o + |t|][k] == a[o + k];
    }
    assert (a + b)[o..o + |t|] == t;
  }

  /** A piece of a piece of `s` is a piece of `s`. */
  lemma OccursAtTrans(t: string, u: string, s: string, i: nat, j: nat)
    requires OccursAt(t, u, i) && OccursAt(u, s, j)
    ensures OccursAt(t, s, j + i)
  {
    forall k | 0 <= k < |t|
      ensures s[j + i + k] == t[k]
    {
      assert s[j..j + |u|][i + k] == s[j + i + k];
      assert u[i..i + |t|][k] == u[i + k];
    }
    assert s[j + i..j + i + |t|] == t;
  }

  /** Every part sits, unchanged, at its offset inside the joined string. */
  lemma {:induction false} JoinPlacesPart(sep: string, parts: seq<string>, k: nat)
    requires k < |parts|
    ensures OccursAt(parts[k], Join(sep, parts), Offset(sep, parts, k))
  {
    if k == 0 {
      assert Join(sep, parts)[..|parts[0]|] == parts[0];
    } else {
      JoinPlacesPart(sep, parts[1..], k - 1);
      OccursAtShift(parts[k], parts[0] + sep, Join(sep, parts[1..]), Offset(sep, parts[1..], k - 1));
    }
  }

  /** The part after `parts[k]` begins one part and one separator further on. */
  lemma {:induction false} OffsetNext(sep: string, parts: seq<string>, k: nat)
    requires k + 1 < |parts|
    ensures Offset(sep, parts, k + 1) == Offset(sep, parts, k) + |parts[k]| + |sep|
  {
    if k > 0 {
      OffsetNext(sep, parts[1..], k - 1);
    }
  }

  /** In `a + sep + b`, `sep` sits right after `a`. */
  lemma OccursBetween(a: string, sep: string, b: string)
    ensures OccursAt(sep, a + sep + b, |a|)
  {
    assert (a + sep + b)[|a|..|a| + |sep|] == sep;
  }

  /** A separator found in the join of the tail is found in the whole join, one part and one
      separator further on. */
  lemma JoinSepStep(sep: string, parts: seq<string>, k: nat)
    requires 0 < k && k + 1 < |parts|
    requires OccursAt(sep, Join(sep, parts[1..]), Offset(sep, parts[1..], k - 1) + |parts[k]|)
    ensures OccursAt(sep, Join(sep, parts), Offset(sep, parts, k) + |parts[k]|)
  {
    var rest := Join(sep, parts[1..]);
    var o := Offset(sep, parts[1..], k - 1) + |parts[k]|;
    OccursAtShift(sep, parts[0] + sep, rest, o);
    assert Join(sep, parts) == parts[0] + sep + rest;
    assert Offset(sep, parts, k) + |parts[k]| == |parts[0] + sep| + o;
  }

  /** The separator sits right after every part but the last. */
  lemma {:induction false} JoinPlacesSep(sep: string, parts: seq<string>, k: nat)
    requires k + 1 < |parts|
    ensures OccursAt(sep, Join(sep, parts), Offset(sep, parts, k) + |parts[k]|)
  {
    if k == 0 {
      OccursBetween(parts[0], sep, Join(sep, parts[1..]));
    } else {
      JoinPlacesSep(sep, parts[1..], k - 1);
      assert parts[1..][k - 1] == parts[k];
      JoinSepStep(sep, parts, k);
    }
  }

  /** The joined string ends where the last part ends. */
  lemma {:induction false} JoinLength(sep: string, parts: seq<string>)
    requires parts != []
    ensures |Join(sep, parts)| == Offset(sep, parts, |parts| - 1) + |parts[|parts| - 1]|
    decreases |parts|
  {
    if |parts| > 1 {
      JoinLength(sep, parts[1..]);
    }
  }

  /** Joining non-empty parts gives the empty string only for an empty list. */
  lemma JoinEmptyIff(sep: string, parts: seq<string>)
    requires forall i :: 0 <= i < |parts| ==> parts[i] != ""
    ensures Join(sep, parts) == "" <==> parts == []
  {
    if parts != [] {
      assert |parts[0]| > 0;
    }
  }
}
