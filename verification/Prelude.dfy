/** Shared vocabulary: optional values, results, and the few library functions
    on slices and strings that the program relies on. */
module Prelude {

  datatype Option<+T> = None | Some(value: T)

  datatype Result<+T, +E> = Ok(value: T) | Err(error: E)

  function Last<T>(s: seq<T>): T
    requires s != []
  {
    s[|s| - 1]
  }

  function Front<T>(s: seq<T>): seq<T>
    requires s != []
  {
    s[..|s| - 1]
  }

  /** The elements satisfying keep, in input order: what an
      append-if loop over a slice builds. */
  function Filter<T>(keep: T -> bool, s: seq<T>): seq<T>
  {
    if s == [] then []
    else Filter(keep, Front(s)) + if keep(Last(s)) then [Last(s)] else []
  }

  lemma {:induction false} FilterAppend<T>(keep: T -> bool, s: seq<T>, x: T)
    ensures Filter(keep, s + [x]) == Filter(keep, s) + if keep(x) then [x] else []
  {
    assert Front(s + [x]) == s;
  }

  /** A filtered sequence holds exactly the kept elements. */
  lemma {:induction false} FilterMembers<T>(keep: T -> bool, s: seq<T>, x: T)
    ensures x in Filter(keep, s) <==> x in s && keep(x)
  {
    if s != [] {
      FilterMembers(keep, Front(s), x);
      assert s == Front(s) + [Last(s)];
    }
  }

  /** Filtering commutes with cutting a sequence in two. */
  lemma {:induction false} FilterConcat<T>(keep: T -> bool, a: seq<T>, b: seq<T>)
    ensures Filter(keep, a + b) == Filter(keep, a) + Filter(keep, b)
  {
    if b == [] {
      assert a + b == a;
    } else {
      FilterConcat(keep, a, Front(b));
      assert a + b == (a + Front(b)) + [Last(b)];
      FilterAppend(keep, a + Front(b), Last(b));
    }
  }

  lemma {:induction false} FilterAll<T>(keep: T -> bool, s: seq<T>)
    requires forall x | x in s :: keep(x)
    ensures Filter(keep, s) == s
  {
    if s != [] {
      FilterAll(keep, Front(s));
      assert s == Front(s) + [Last(s)];
    }
  }

  lemma {:induction false} FilterNone<T>(keep: T -> bool, s: seq<T>)
    requires forall x | x in s :: !keep(x)
    ensures Filter(keep, s) == []
  {
    if s != [] {
      FilterNone(keep, Front(s));
      assert s == Front(s) + [Last(s)];
    }
  }

  predicate OccursAt<T(==)>(s: seq<T>, sub: seq<T>, i: int)
  {
    0 <= i <= |s| - |sub| && s[i..i + |sub|] == sub
  }

  /** strings.Contains */
  predicate Contains<T(==)>(s: seq<T>, sub: seq<T>)
  {
    exists i | 0 <= i <= |s| - |sub| :: OccursAt(s, sub, i)
  }

  /** sub stands somewhere in s. */
  ghost predicate Inside(sub: string, s: string)
  {
    exists before, after :: s == before + sub + after
  }

  lemma ContainsMeaning(s: string, sub: string)
    ensures Contains(s, sub) <==> Inside(sub, s)
  {
    if i :| 0 <= i <= |s| - |sub| && OccursAt(s, sub, i) {
      assert s == s[..i] + sub + s[i + |sub|..];
    }
    if before, after :| s == before + sub + after {
      assert s[|before|..|before| + |sub|] == sub;
      assert OccursAt(s, sub, |before|);
    }
  }

  /** unicode.IsSpace */
  predicate IsSpace(c: char)
  {
    || '\t' <= c <= '\r'
    || c == ' ' || c == '\U{85}' || c == '\U{A0}' || c == '\U{1680}'
    || '\U{2000}' <= c <= '\U{200A}'
    || c == '\U{2028}' || c == '\U{2029}' || c == '\U{202F}'
    || c == '\U{205F}' || c == '\U{3000}'
  }

  function TrimLeft(s: string): string
  {
    if s != [] && IsSpace(s[0]) then TrimLeft(s[1..]) else s
  }

  function TrimRight(s: string): string
  {
    if s != [] && IsSpace(Last(s)) then TrimRight(Front(s)) else s
  }

  /** strings.TrimSpace */
  function TrimSpace(s: string): string
  {
    TrimRight(TrimLeft(s))
  }

  predicate AllSpace(s: string)
  {
    forall c | c in s :: IsSpace(c)
  }

  /** Nothing to trim at either end. */
  predicate IsTrimmed(s: string)
  {
    s == "" || (!IsSpace(s[0]) && !IsSpace(Last(s)))
  }

  lemma {:induction false} TrimLeftSplits(s: string)
    ensures exists space :: AllSpace(space) && s == space + TrimLeft(s)
    ensures TrimLeft(s) == "" || !IsSpace(TrimLeft(s)[0])
  {
    if s != [] && IsSpace(s[0]) {
      TrimLeftSplits(s[1..]);
      var space :| AllSpace(space) && s[1..] == space + TrimLeft(s[1..]);
      assert s == ([s[0]] + space) + TrimLeft(s);
      assert AllSpace([s[0]] + space);
    } else {
      assert AllSpace("") && s == "" + TrimLeft(s);
    }
  }

  lemma {:induction false} TrimRightSplits(s: string)
    ensures TrimRight(s) <= s && AllSpace(s[|TrimRight(s)|..])
    ensures TrimRight(s) == "" || !IsSpace(Last(TrimRight(s)))
  {
    if s != [] && IsSpace(Last(s)) {
      TrimRightSplits(Front(s));
      assert s == Front(s) + [Last(s)];
    }
  }

  lemma CutIn(before: string, s: string, i: nat)
    requires i <= |s|
    ensures before + s == before + s[..i] + s[i..]
  {
    assert s == s[..i] + s[i..];
  }

  /** Trimming takes white space off both ends, and nothing else. */
  lemma TrimSpaceMeaning(s: string)
    ensures IsTrimmed(TrimSpace(s))
    ensures exists before, after :: AllSpace(before) && AllSpace(after) && s == before + TrimSpace(s) + after
  {
    TrimLeftSplits(s);
    var left := TrimLeft(s);
    var before :| AllSpace(before) && s == before + left;
    TrimRightSplits(left);
    CutIn(before, left, |TrimRight(left)|);
  }

  /** Space, tab and newline count. */
  lemma CommonSpaces()
    ensures IsSpace(' ') && IsSpace('\t') && IsSpace('\n') && IsSpace('\r') && !IsSpace('a') && !IsSpace('=')
  {
  }
}
