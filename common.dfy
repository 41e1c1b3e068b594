/** Helpers shared by the whole model: optional values, JavaScript's
    `Array.prototype.filter` and `Array.prototype.join`, and subsequences. */
module Common {

  datatype Option<+T> = None | Some(value: T)

  /** What an awaited request to the server gives the client: the payload,
      or a thrown error carrying the server's `message` when it sent one. */
  datatype Reply<+T> = Ok(value: T) | Failed(message: Option<string>)

  /** JavaScript `s || fallback` on a string that may be absent: the fallback
      is taken when the value is missing or is the (falsy) empty string. */
  function OrElse(s: Option<string>, fallback: string): (r: string)
    ensures s.Some? && s.value != "" ==> r == s.value
    ensures s.None? || s.value == "" ==> r == fallback
  {
    if s.Some? && s.value != "" then s.value else fallback
  }

  /** `a` can be obtained from `b` by deleting elements: each element of `b`
      is either used (in order) or skipped. */
  ghost predicate IsSubsequence<T>(a: seq<T>, b: seq<T>)
    decreases |b|
  {
    if b == [] then a == []
    else (a != [] && a[0] == b[0] && IsSubsequence(a[1..], b[1..])) || IsSubsequence(a, b[1..])
  }

  /** `s.filter(keep)`: the elements of `s` that pass `keep`, in their order. */
  function Filter<T(!new)>(s: seq<T>, keep: T -> bool): (r: seq<T>)
    ensures |r| <= |s|
    ensures forall x :: x in r <==> x in s && keep(x)
  {
    if s == [] then []
    else
      assert s == [s[0]] + s[1..];
      (if keep(s[0]) then [s[0]] else []) + Filter(s[1..], keep)
  }

  lemma {:induction false} FilterIsSubsequence<T(!new)>(s: seq<T>, keep: T -> bool)
    ensures IsSubsequence(Filter(s, keep), s)
  {
    if s != [] {
      FilterIsSubsequence(s[1..], keep);
      var rest := Filter(s[1..], keep);
      if keep(s[0]) {
        assert Filter(s, keep) == [s[0]] + rest;
        assert ([s[0]] + rest)[1..] == rest;
      } else {
        assert Filter(s, keep) == rest;
      }
    }
  }

  /** A filter that keeps every element of `s` gives `s` back. */
  lemma {:induction false} FilterKeepsAll<T(!new)>(s: seq<T>, keep: T -> bool)
    requires forall i | 0 <= i < |s| :: keep(s[i])
    ensures Filter(s, keep) == s
  {
    if s != [] {
      FilterKeepsAll(s[1..], keep);
      assert s == [s[0]] + s[1..];
    }
  }

  /** Every element passing `keep` occurs in the filtered sequence as often as
      in `s`; no other element occurs in it. */
  lemma {:induction false} FilterCounts<T(!new)>(s: seq<T>, keep: T -> bool, x: T)
    ensures multiset(Filter(s, keep))[x] == if keep(x) then multiset(s)[x] else 0
  {
    if s != [] {
      FilterCounts(s[1..], keep, x);
      assert s == [s[0]] + s[1..];
    }
  }

  lemma {:induction false} FilterAppend<T(!new)>(a: seq<T>, b: seq<T>, keep: T -> bool)
    ensures Filter(a + b, keep) == Filter(a, keep) + Filter(b, keep)
  {
    if a == [] {
      assert a + b == b;
    } else {
      var head := if keep(a[0]) then [a[0]] else [];
      assert (a + b)[0] == a[0];
      assert (a + b)[1..] == a[1..] + b;
      calc {
        Filter(a + b, keep);
        head + Filter(a[1..] + b, keep);
        { FilterAppend(a[1..], b, keep); }
        head + (Filter(a[1..], keep) + Filter(b, keep));
        (head + Filter(a[1..], keep)) + Filter(b, keep);
        Filter(a, keep) + Filter(b, keep);
      }
    }
  }

  /** `parts.join(sep)`. */
  function Join(parts: seq<string>, sep: string): (r: string)
    ensures |parts| == 1 ==> r == parts[0]
  {
    if parts == [] then ""
    else if |parts| == 1 then parts[0]
    else parts[0] + sep + Join(parts[1..], sep)
  }

  /** Where part `k` starts in the joined text: the sum, over the parts
      before it, of each part's length plus one separator. */
  function PartOffset(parts: seq<string>, sep: string, k: nat): nat
    requires k <= |parts|
  {
    if k == 0 then 0 else |parts[0]| + |sep| + PartOffset(parts[1..], sep, k - 1)
  }

  /** Each part moves the next offset on by its length and one separator. */
  lemma {:induction false} PartOffsetStep(parts: seq<string>, sep: string, k: nat)
    requires k < |parts|
    ensures PartOffset(parts, sep, k + 1) == PartOffset(parts, sep, k) + |parts[k]| + |sep|
  {
    if k > 0 {
      PartOffsetStep(parts[1..], sep, k - 1);
    }
  }

  /** The joined text as the parts, laid out position by position: part `k`
      sits at its offset (and, by `JoinSepAfter`, a separator follows it
      unless it is the last). With `JoinEnd` this determines the whole
      joined text. */
  lemma {:induction false} JoinPartAt(parts: seq<string>, sep: string, k: nat)
    requires k < |parts|
    ensures PartOffset(parts, sep, k) + |parts[k]| <= |Join(parts, sep)|
    ensures Join(parts, sep)[PartOffset(parts, sep, k)..PartOffset(parts, sep, k) + |parts[k]|] == parts[k]
  {
    if |parts| > 1 {
      JoinUnfold(parts, sep);
      if k == 0 {
        ShiftedSlice(Join(parts, sep), [], Join(parts, sep), 0, 0, parts[0]);
      } else {
        var o := PartOffset(parts[1..], sep, k - 1);
        JoinPartAt(parts[1..], sep, k - 1);
        assert parts[1..][k - 1] == parts[k];
        assert PartOffset(parts, sep, k) == |parts[0] + sep| + o;
        ShiftedSlice(Join(parts, sep), parts[0] + sep, Join(parts[1..], sep), PartOffset(parts, sep, k), o, parts[k]);
      }
    }
  }

  /** Every part but the last is followed by one separator. */
  lemma {:induction false} JoinSepAfter(parts: seq<string>, sep: string, k: nat)
    requires k + 1 < |parts|
    ensures PartOffset(parts, sep, k) + |parts[k]| + |sep| <= |Join(parts, sep)|
    ensures Join(parts, sep)[PartOffset(parts, sep, k) + |parts[k]|..PartOffset(parts, sep, k) + |parts[k]| + |sep|] == sep
  {
    JoinUnfold(parts, sep);
    if k == 0 {
      ShiftedSlice(Join(parts, sep), parts[0], sep + Join(parts[1..], sep), |parts[0]|, 0, sep);
    } else {
      var o := PartOffset(parts[1..], sep, k - 1) + |parts[k]|;
      JoinSepAfter(parts[1..], sep, k - 1);
      assert parts[1..][k - 1] == parts[k];
      assert PartOffset(parts, sep, k) == |parts[0] + sep| + PartOffset(parts[1..], sep, k - 1);
      ShiftedSlice(Join(parts, sep), parts[0] + sep, Join(parts[1..], sep), PartOffset(parts, sep, k) + |parts[k]|, o, sep);
    }
  }

  /** Several parts join as the first, a separator, and the rest joined. */
  lemma JoinUnfold(parts: seq<string>, sep: string)
    requires |parts| > 1
    ensures Join(parts, sep) == (parts[0] + sep) + Join(parts[1..], sep)
    ensures Join(parts, sep) == parts[0] + (sep + Join(parts[1..], sep))
  {
  }

  /** A piece at offset `o` of `rest` sits at offset `|prefix| + o` of
      `r == prefix + rest`. */
  lemma ShiftedSlice(r: string, prefix: string, rest: string, at: nat, o: nat, piece: string)
    requires r == prefix + rest && at == |prefix| + o
    requires o + |piece| <= |rest| && rest[o..o + |piece|] == piece
    ensures at + |piece| <= |r| && r[at..at + |piece|] == piece
  {
    SliceAfterPrefix(prefix, rest, o, o + |piece|);
  }

  /** A slice of `b` read inside `a + b`. */
  lemma SliceAfterPrefix(a: string, b: string, i: nat, j: nat)
    requires i <= j <= |b|
    ensures (a + b)[|a| + i..|a| + j] == b[i..j]
  {
    assert forall m | 0 <= m < j - i :: (a + b)[|a| + i..|a| + j][m] == b[i..j][m];
  }

  /** The last part ends the joined text. */
  lemma {:induction false} JoinEnd(parts: seq<string>, sep: string)
    requires parts != []
    ensures PartOffset(parts, sep, |parts| - 1) + |parts[|parts| - 1]| == |Join(parts, sep)|
  {
    if |parts| > 1 {
      JoinEnd(parts[1..], sep);
      assert parts[1..][|parts| - 2] == parts[|parts| - 1];
    }
  }

  /** `a` occurs in `b` as a contiguous run. */
  ghost predicate IsInfix(a: string, b: string)
  {
    exists i | 0 <= i <= |b| :: a <= b[i..]
  }

  /** Part `k` appears, unbroken, in the joined text. */
  lemma JoinContainsPart(parts: seq<string>, sep: string, k: nat)
    requires k < |parts|
    ensures IsInfix(parts[k], Join(parts, sep))
  {
    JoinPartAt(parts, sep, k);
    var r := Join(parts, sep);
    var i := PartOffset(parts, sep, k);
    assert r[i..][..|parts[k]|] == parts[k];
  }

  /** Every part appears, unbroken, in the joined text. */
  lemma JoinContainsParts(parts: seq<string>, sep: string)
    ensures forall k | 0 <= k < |parts| :: IsInfix(parts[k], Join(parts, sep))
  {
    forall k | 0 <= k < |parts| ensures IsInfix(parts[k], Join(parts, sep)) {
      JoinContainsPart(parts, sep, k);
    }
  }
}
