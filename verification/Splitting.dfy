/** Splitting at a separator and joining again, for any element type. */
module Splitting {
  import opened Prelude

  /** The index of the first c in s, |s| when there is none. */
  function IndexOf<T(==)>(s: seq<T>, c: T): (i: nat)
    ensures i <= |s| && c !in s[..i] && (i < |s| ==> s[i] == c)
  {
    if s == [] || s[0] == c then 0 else 1 + IndexOf(s[1..], c)
  }

  /** strings.Split with a separator of length one. */
  function Split<T(==)>(s: seq<T>, c: T): (r: seq<seq<T>>)
    ensures r != []
    decreases |s|
  {
    var i := IndexOf(s, c);
    if i == |s| then [s] else [s[..i]] + Split(s[i + 1..], c)
  }

  /** strings.Join with a separator of length one. */
  function Join<T>(parts: seq<seq<T>>, c: T): seq<T>
  {
    if parts == [] then []
    else if |parts| == 1 then parts[0]
    else parts[0] + [c] + Join(parts[1..], c)
  }

  predicate Free<T(==)>(parts: seq<seq<T>>, c: T)
  {
    forall p | p in parts :: c !in p
  }

  lemma {:induction false} IndexOfSkips<T>(a: seq<T>, b: seq<T>, c: T)
    requires c !in a
    ensures IndexOf(a + [c] + b, c) == |a|
  {
    if a != [] {
      assert (a + [c] + b)[1..] == a[1..] + [c] + b;
      IndexOfSkips(a[1..], b, c);
    }
  }

  lemma SplitWhole<T>(s: seq<T>, c: T)
    requires c !in s
    ensures Split(s, c) == [s]
  {
    assert IndexOf(s, c) == |s|;
  }

  lemma SplitFirst<T>(piece: seq<T>, rest: seq<T>, c: T)
    requires c !in piece
    ensures Split(piece + [c] + rest, c) == [piece] + Split(rest, c)
  {
    var s := piece + [c] + rest;
    IndexOfSkips(piece, rest, c);
    assert s[..|piece|] == piece && s[|piece| + 1..] == rest;
  }

  lemma Regroup<T>(a: seq<T>, i: nat, b: seq<T>)
    requires i < |a|
    ensures a + [a[i]] + b == a[..i] + [a[i]] + (a[i + 1..] + [a[i]] + b)
  {
  }

  lemma Associate<T>(a: seq<T>, b: seq<T>, c: seq<T>)
    ensures a + (b + c) == (a + b) + c
  {
  }

  lemma SameTail<T>(a: seq<T>, b: seq<T>, c: seq<T>)
    ensures a + b == a + c <==> b == c
  {
    assert (a + b)[|a|..] == b && (a + c)[|a|..] == c;
  }

  lemma SplitAtFirst<T>(s: seq<T>, piece: seq<T>, rest: seq<T>, c: T)
    requires s == piece + [c] + rest && c !in piece
    ensures Split(s, c) == [piece] + Split(rest, c)
  {
    SplitFirst(piece, rest, c);
  }

  /** Splitting commutes with concatenation at a separator. */
  lemma {:induction false} SplitConcat<T>(a: seq<T>, b: seq<T>, c: T)
    ensures Split(a + [c] + b, c) == Split(a, c) + Split(b, c)
    decreases |a|
  {
    var i := IndexOf(a, c);
    if i == |a| {
      assert a[..i] == a;
      SplitWhole(a, c);
      SplitFirst(a, b, c);
    } else {
      Regroup(a, i, b);
      SplitAtFirst(a + [c] + b, a[..i], a[i + 1..] + [c] + b, c);
      SplitConcat(a[i + 1..], b, c);
      Associate([a[..i]], Split(a[i + 1..], c), Split(b, c));
    }
  }

  /** Joining what was split restores it. */
  lemma {:induction false} JoinOfSplit<T>(s: seq<T>, c: T)
    ensures Join(Split(s, c), c) == s
    decreases |s|
  {
    var i := IndexOf(s, c);
    if i == |s| {
      assert Split(s, c) == [s];
    } else {
      var rest := Split(s[i + 1..], c);
      JoinOfSplit(s[i + 1..], c);
      assert Split(s, c) == [s[..i]] + rest;
      assert ([s[..i]] + rest)[1..] == rest;
      assert Join([s[..i]] + rest, c) == s[..i] + [c] + s[i + 1..];
    }
  }

  lemma {:induction false} PiecesAreFree<T>(s: seq<T>, c: T)
    ensures Free(Split(s, c), c)
    decreases |s|
  {
    var i := IndexOf(s, c);
    if i < |s| {
      PiecesAreFree(s[i + 1..], c);
    }
  }

  lemma FreeTail<T>(parts: seq<seq<T>>, c: T)
    requires parts != [] && Free(parts, c)
    ensures c !in parts[0] && Free(parts[1..], c)
  {
    assert parts[0] in parts;
    forall p | p in parts[1..]
      ensures c !in p
    {
      assert p in parts;
    }
  }

  /** Joining parts in front of a last one that may hold the separator. */
  lemma {:induction false} SplitOfJoinLast<T>(parts: seq<seq<T>>, last: seq<T>, c: T)
    requires Free(parts, c)
    ensures Split(Join(parts + [last], c), c) == parts + Split(last, c)
  {
    if parts != [] {
      var tail := parts[1..];
      FreeTail(parts, c);
      SplitOfJoinLast(tail, last, c);
      assert (parts + [last])[1..] == tail + [last];
      SplitFirst(parts[0], Join(tail + [last], c), c);
      assert [parts[0]] + tail == parts;
      Associate([parts[0]], tail, Split(last, c));
    }
  }

  lemma {:induction false} SplitOfJoin<T>(parts: seq<seq<T>>, c: T)
    requires parts != [] && Free(parts, c)
    ensures Split(Join(parts, c), c) == parts
  {
    SplitOfJoinLast(Front(parts), Last(parts), c) by {
      assert forall p | p in Front(parts) :: p in parts;
    }
    assert Last(parts) in parts;
    SplitWhole(Last(parts), c);
    assert Front(parts) + [Last(parts)] == parts;
  }

  /** A joined list splits back into its parts exactly when none holds the
      separator. */
  lemma {:induction false} SplitOfJoinIff<T>(parts: seq<seq<T>>, c: T)
    requires parts != []
    ensures Split(Join(parts, c), c) == parts <==> Free(parts, c)
  {
    PiecesAreFree(Join(parts, c), c);
    if Free(parts, c) {
      SplitOfJoin(parts, c);
    }
  }

  lemma OccursFurtherOn<T>(s: seq<T>, m: nat, piece: seq<T>)
    requires m <= |s| && Contains(s[m..], piece)
    ensures Contains(s, piece)
  {
    var k :| 0 <= k <= |s[m..]| - |piece| && OccursAt(s[m..], piece, k);
    assert s[m + k..m + k + |piece|] == s[m..][k..k + |piece|];
    assert OccursAt(s, piece, m + k);
  }

  /** Every piece occurs in what was split. */
  lemma {:induction false} PieceOccurs<T>(s: seq<T>, c: T, piece: seq<T>)
    requires piece in Split(s, c)
    ensures Contains(s, piece)
    decreases |s|
  {
    var i := IndexOf(s, c);
    if i == |s| {
      assert OccursAt(s, piece, 0);
    } else if piece == s[..i] {
      assert OccursAt(s, piece, 0);
    } else {
      PieceOccurs(s[i + 1..], c, piece);
      OccursFurtherOn(s, i + 1, piece);
    }
  }

  lemma ContainsTransitive<T>(a: seq<T>, b: seq<T>, c: seq<T>)
    requires Contains(a, b) && Contains(b, c)
    ensures Contains(a, c)
  {
    var i :| 0 <= i <= |a| - |b| && OccursAt(a, b, i);
    var k :| 0 <= k <= |b| - |c| && OccursAt(b, c, k);
    forall m | 0 <= m < |c|
      ensures a[i + k + m] == c[m]
    {
      assert a[i..i + |b|][k + m] == b[k + m];
      assert b[k..k + |c|][m] == c[m];
    }
    assert OccursAt(a, c, i + k);
  }
}
