/** The merge of the deployment's identity into OTEL_RESOURCE_ATTRIBUTES, a
    comma-separated list of key=value entries. */
module OtelAttrs {
  import opened Prelude
  import opened Splitting

  datatype Pair = Pair(key: string, val: string)
  {
    function Entry(): string
    {
      key + "=" + val
    }
  }

  /** The key that strings.Cut(strings.TrimSpace(piece), "=") finds. */
  function KeyOf(piece: string): Option<string>
  {
    var s := TrimSpace(piece);
    var i := IndexOf(s, '=');
    if i == |s| then None else Some(s[..i])
  }

  function KeysOf(pieces: seq<string>): set<string>
  {
    set p | p in pieces && KeyOf(p).Some? :: KeyOf(p).value
  }

  function Keys(attrs: string): set<string>
  {
    KeysOf(Split(attrs, ','))
  }

  // ------------------------------------------------------------- the merge

  /** What the deployment wants to say about itself. */
  function Wanted(podName: string, podNamespace: string, nodeName: string): seq<Pair>
  {
    [ Pair("service.namespace", "giantswarm.observability"),
      Pair("k8s.pod.name", podName),
      Pair("k8s.namespace.name", podNamespace),
      Pair("k8s.node.name", nodeName) ]
  }

  predicate IsMissing(have: set<string>, p: Pair)
  {
    p.val != "" && p.key !in have
  }

  function Missing(have: set<string>, wanted: seq<Pair>): seq<string>
  {
    if wanted == [] then []
    else Missing(have, Front(wanted)) + if IsMissing(have, Last(wanted)) then [Last(wanted).Entry()] else []
  }

  function Merged(existing: string, wanted: seq<Pair>): string
  {
    var add := Missing(Keys(existing), wanted);
    if add == [] then existing
    else if existing == "" then Join(add, ',')
    else existing + [','] + Join(add, ',')
  }

  /** The new value of OTEL_RESOURCE_ATTRIBUTES. */
  method PrependOTELResourceAttrs(existing: string, podName: string, podNamespace: string, nodeName: string)
    returns (merged: string)
    ensures merged == Merged(existing, Wanted(podName, podNamespace, nodeName))
  {
    var pieces := Split(existing, ',');
    var have := {};
    for i := 0 to |pieces|
      invariant have == KeysOf(pieces[..i])
    {
      var key := KeyOf(pieces[i]);
      assert pieces[..i + 1] == pieces[..i] + [pieces[i]];
      if key.Some? {
        have := have + {key.value};
      }
    }
    assert pieces[..|pieces|] == pieces;
    var wanted := Wanted(podName, podNamespace, nodeName);
    var add := [];
    for i := 0 to |wanted|
      invariant add == Missing(have, wanted[..i])
    {
      assert Front(wanted[..i + 1]) == wanted[..i];
      if wanted[i].val != "" && wanted[i].key !in have {
        add := add + [wanted[i].Entry()];
      }
    }
    assert wanted[..|wanted|] == wanted;
    if add == [] {
      return existing;
    }
    merged := Join(add, ',');
    if existing != "" {
      merged := existing + [','] + merged;
    }
  }

  lemma {:induction false} KeysOfConcat(a: seq<string>, b: seq<string>)
    ensures KeysOf(a + b) == KeysOf(a) + KeysOf(b)
  {
    assert forall p :: p in a + b <==> p in a || p in b;
  }

  // ---------------------------------------------------------- entries parse

  /** A key that survives splitting, trimming and cutting. */
  predicate Clean(key: string)
  {
    key != "" && !IsSpace(key[0]) && ',' !in key && '=' !in key
  }

  lemma {:induction false} TrimRightKeeps(a: string, w: string)
    requires a != [] && !IsSpace(Last(a))
    ensures a <= TrimRight(a + w)
  {
    if w == [] {
      assert a + w == a;
    } else {
      assert Last(a + w) == Last(w) && Front(a + w) == a + Front(w);
      if IsSpace(Last(w)) {
        TrimRightKeeps(a, Front(w));
      }
    }
  }

  /** piece is key=rest, perhaps behind white space. */
  ghost predicate DefinesKey(piece: string, key: string)
  {
    && '=' !in key && (key != "" ==> !IsSpace(key[0]))
    && exists space, rest :: AllSpace(space) && piece == space + key + "=" + rest
  }

  lemma {:induction false} TrimLeftSkips(space: string, s: string)
    requires AllSpace(space) && s != "" && !IsSpace(s[0])
    ensures TrimLeft(space + s) == s
  {
    if space == "" {
      assert space + s == s;
    } else {
      assert (space + s)[1..] == space[1..] + s;
      TrimLeftSkips(space[1..], s);
    }
  }

  lemma KeyIsCut(key: string, space: string, rest: string)
    requires '=' !in key && (key != "" ==> !IsSpace(key[0])) && AllSpace(space)
    ensures KeyOf(space + key + "=" + rest) == Some(key)
  {
    var s := key + "=" + rest;
    assert space + key + "=" + rest == space + s;
    assert s[0] == if key == "" then '=' else key[0];
    TrimLeftSkips(space, s);
    assert Last(key + "=") == '=';
    TrimRightKeeps(key + "=", rest);
    var t := TrimSpace(space + s);
    assert t == key + ['='] + t[|key| + 1..];
    IndexOfSkips(key, t[|key| + 1..], '=');
    assert t[..|key|] == key;
  }

  lemma Regrouped(before: string, key: string, rest: string, after: string)
    ensures before + (key + "=" + rest) + after == before + key + "=" + (rest + after)
  {
  }

  lemma CutAtEquals(t: string, i: nat)
    requires i < |t| && t[i] == '='
    ensures t == t[..i] + "=" + t[i + 1..]
  {
  }

  lemma CutFindsKey(piece: string)
    requires KeyOf(piece).Some?
    ensures DefinesKey(piece, KeyOf(piece).value)
  {
    var t := TrimSpace(piece);
    var key := KeyOf(piece).value;
    TrimSpaceMeaning(piece);
    var before, after :| AllSpace(before) && AllSpace(after) && piece == before + t + after;
    var rest := t[|key| + 1..];
    assert t == key + "=" + rest by {
      CutAtEquals(t, |key|);
    }
    Regrouped(before, key, rest, after);
    assert key != "" ==> t[0] == key[0];
  }

  /** The key of a piece is what stands before its first equals sign, without
      the white space in front. */
  lemma {:induction false} KeyOfMeaning(piece: string, key: string)
    ensures KeyOf(piece) == Some(key) <==> DefinesKey(piece, key)
  {
    if DefinesKey(piece, key) {
      var space, rest :| AllSpace(space) && piece == space + key + "=" + rest;
      KeyIsCut(key, space, rest);
    }
    if KeyOf(piece).Some? {
      CutFindsKey(piece);
    }
  }

  lemma KeyOfEntry(key: string, val: string)
    requires Clean(key)
    ensures KeyOf(key + "=" + val) == Some(key)
  {
    KeyIsCut(key, "", val);
    assert "" + key + "=" + val == key + "=" + val;
  }

  /** The pieces that a value's own commas make of it, after the first. */
  function Spill(val: string): seq<string>
  {
    var i := IndexOf(val, ',');
    if i == |val| then [] else Split(val[i + 1..], ',')
  }

  lemma CutAtComma(before: string, val: string, i: nat)
    requires i < |val| && val[i] == ','
    ensures before + val == (before + val[..i]) + [','] + val[i + 1..]
  {
    assert val == val[..i] + [','] + val[i + 1..];
  }

  lemma SplitBehind(before: string, val: string)
    requires ',' !in before
    ensures Split(before + val, ',') == [before + val[..IndexOf(val, ',')]] + Spill(val)
  {
    var i := IndexOf(val, ',');
    if i < |val| {
      CutAtComma(before, val, i);
      SplitAtFirst(before + val, before + val[..i], val[i + 1..], ',');
    } else {
      assert val[..i] == val;
      SplitWhole(before + val, ',');
    }
  }

  /** An entry splits into a piece with its key and what its value spills. */
  lemma {:induction false} EntrySplits(p: Pair)
    requires Clean(p.key)
    ensures exists first :: KeyOf(first) == Some(p.key) && Split(p.Entry(), ',') == [first] + Spill(p.val)
  {
    KeyOfEntry(p.key, p.val[..IndexOf(p.val, ',')]);
    SplitBehind(p.key + "=", p.val);
  }

  lemma {:induction false} EntryHasItsKey(p: Pair)
    requires Clean(p.key)
    ensures p.key in Keys(p.Entry())
  {
    EntrySplits(p);
    var first :| KeyOf(first) == Some(p.key) && Split(p.Entry(), ',') == [first] + Spill(p.val);
    assert first in Split(p.Entry(), ',');
  }

  // ------------------------------------------------------------ the theorems

  lemma {:induction false} MissingMeans(have: set<string>, wanted: seq<Pair>, e: string)
    ensures e in Missing(have, wanted) <==> exists p :: p in wanted && IsMissing(have, p) && p.Entry() == e
  {
    if wanted != [] {
      MissingMeans(have, Front(wanted), e);
      assert wanted == Front(wanted) + [Last(wanted)];
    }
  }

  lemma {:induction false} JoinKeepsKeys(parts: seq<string>, part: string)
    requires part in parts
    ensures Keys(part) <= Keys(Join(parts, ','))
  {
    if |parts| > 1 {
      SplitConcat(parts[0], Join(parts[1..], ','), ',');
      KeysOfConcat(Split(parts[0], ','), Split(Join(parts[1..], ','), ','));
      if part != parts[0] {
        JoinKeepsKeys(parts[1..], part);
      }
    }
  }

  /** The pieces of the merged value: the existing ones in place, then those of
      the appended entries. */
  lemma {:induction false} MergedSplits(existing: string, wanted: seq<Pair>)
    requires existing != "" && Missing(Keys(existing), wanted) != []
    ensures Split(Merged(existing, wanted), ',') == Split(existing, ',') + Split(Join(Missing(Keys(existing), wanted), ','), ',')
  {
    SplitConcat(existing, Join(Missing(Keys(existing), wanted), ','), ',');
  }

  /** Existing entries stay in place and unchanged, and no key is lost. */
  lemma {:induction false} MergeIsConservative(existing: string, wanted: seq<Pair>)
    ensures existing <= Merged(existing, wanted)
    ensures existing != "" ==> Split(existing, ',') <= Split(Merged(existing, wanted), ',')
    ensures Keys(existing) <= Keys(Merged(existing, wanted))
  {
    var add := Missing(Keys(existing), wanted);
    if existing != "" && add != [] {
      MergedSplits(existing, wanted);
      KeysOfConcat(Split(existing, ','), Split(Join(add, ','), ','));
    }
  }

  /** The merge leaves no wanted key out. */
  lemma {:induction false} MergeFillsIn(existing: string, wanted: seq<Pair>, p: Pair)
    requires p in wanted && p.val != "" && Clean(p.key)
    ensures p.key in Keys(Merged(existing, wanted))
  {
    var add := Missing(Keys(existing), wanted);
    MergeIsConservative(existing, wanted);
    if p.key !in Keys(existing) {
      MissingMeans(Keys(existing), wanted, p.Entry());
      EntryHasItsKey(p);
      JoinKeepsKeys(add, p.Entry());
      if existing != "" {
        MergedSplits(existing, wanted);
        KeysOfConcat(Split(existing, ','), Split(Join(add, ','), ','));
      }
    }
  }

  lemma {:induction false} NothingMissing(have: set<string>, wanted: seq<Pair>)
    requires forall p | p in wanted && p.val != "" :: p.key in have
    ensures Missing(have, wanted) == []
  {
    if wanted != [] {
      assert wanted == Front(wanted) + [Last(wanted)];
      NothingMissing(have, Front(wanted));
    }
  }

  /** Merging again changes nothing, whatever the values hold. */
  lemma {:induction false} MergeIsIdempotent(existing: string, wanted: seq<Pair>)
    requires forall p | p in wanted :: Clean(p.key)
    ensures Merged(Merged(existing, wanted), wanted) == Merged(existing, wanted)
  {
    forall p | p in wanted && p.val != ""
      ensures p.key in Keys(Merged(existing, wanted))
    {
      MergeFillsIn(existing, wanted, p);
    }
    NothingMissing(Keys(Merged(existing, wanted)), wanted);
  }

  lemma WantedKeysAreClean(podName: string, podNamespace: string, nodeName: string)
    ensures forall p | p in Wanted(podName, podNamespace, nodeName) :: Clean(p.key)
  {
    assert Clean("service.namespace");
    assert Clean("k8s.pod.name");
    assert Clean("k8s.namespace.name");
    assert Clean("k8s.node.name");
  }

  /** The program's four keys parse back, so its merge is idempotent. */
  lemma {:induction false} RestartChangesNothing(existing: string, podName: string, podNamespace: string, nodeName: string)
    ensures var wanted := Wanted(podName, podNamespace, nodeName);
      Merged(Merged(existing, wanted), wanted) == Merged(existing, wanted)
  {
    WantedKeysAreClean(podName, podNamespace, nodeName);
    MergeIsIdempotent(existing, Wanted(podName, podNamespace, nodeName));
  }

  /** The pieces that were there before; an empty value has none. */
  function Before(existing: string): seq<string>
  {
    if existing == "" then [] else Split(existing, ',')
  }

  /** The merged value reads as the existing pieces followed by exactly one
      entry for each absent key with a value, if and only if no appended entry
      holds a comma. */
  lemma {:induction false} OneEntryPerMissingKeyIff(existing: string, wanted: seq<Pair>)
    requires Missing(Keys(existing), wanted) != []
    ensures Split(Merged(existing, wanted), ',') == Before(existing) + Missing(Keys(existing), wanted)
       <==> forall p | p in wanted && IsMissing(Keys(existing), p) :: ',' !in p.Entry()
  {
    var have := Keys(existing);
    var add := Missing(have, wanted);
    SplitOfJoinIff(add, ',');
    if existing != "" {
      MergedSplits(existing, wanted);
    }
    SameTail(Before(existing), Split(Join(add, ','), ','), add);
    forall e
      ensures e in add <==> exists p :: p in wanted && IsMissing(have, p) && p.Entry() == e
    {
      MissingMeans(have, wanted, e);
    }
  }

  /** The pieces that the merge added. */
  function Appended(existing: string, wanted: seq<Pair>): seq<string>
  {
    var pieces := Split(Merged(existing, wanted), ',');
    if |Before(existing)| <= |pieces| then pieces[|Before(existing)|..] else []
  }

  lemma {:induction false} JoinedPieces(parts: seq<string>, piece: string)
    requires parts != []
    ensures piece in Split(Join(parts, ','), ',') <==> exists part :: part in parts && piece in Split(part, ',')
  {
    assert parts == [parts[0]] + parts[1..];
    if |parts| > 1 {
      JoinedPieces(parts[1..], piece);
      SplitConcat(parts[0], Join(parts[1..], ','), ',');
    }
  }

  lemma AppendedIsJoined(existing: string, wanted: seq<Pair>)
    ensures var add := Missing(Keys(existing), wanted);
      Appended(existing, wanted) == if add != [] then Split(Join(add, ','), ',') else if existing == "" then [""] else []
  {
    var add := Missing(Keys(existing), wanted);
    if existing != "" && add != [] {
      MergedSplits(existing, wanted);
    }
    if existing == "" && add == [] {
      SplitWhole("", ',');
    }
  }

  ghost predicate AppendedBy(existing: string, wanted: seq<Pair>, p: Pair, piece: string)
  {
    p in wanted && IsMissing(Keys(existing), p) && piece in Split(p.Entry(), ',')
  }

  /** Every appended piece comes from the entry of a missing pair. */
  lemma AppendedMeans(existing: string, wanted: seq<Pair>, piece: string)
    requires piece != ""
    ensures piece in Appended(existing, wanted) <==> exists p :: AppendedBy(existing, wanted, p, piece)
  {
    var have := Keys(existing);
    var add := Missing(have, wanted);
    AppendedIsJoined(existing, wanted);
    if add != [] {
      JoinedPieces(add, piece);
    }
    if p :| AppendedBy(existing, wanted, p, piece) {
      MissingMeans(have, wanted, p.Entry());
    }
    if e :| e in add && piece in Split(e, ',') {
      MissingMeans(have, wanted, e);
      var p :| p in wanted && IsMissing(have, p) && p.Entry() == e;
      assert AppendedBy(existing, wanted, p, piece);
    }
  }

  /** The piece defines one of these keys. */
  predicate Defines(piece: string, keys: set<string>)
  {
    KeyOf(piece).Some? && KeyOf(piece).value in keys
  }

  ghost predicate SomeDefines(pieces: seq<string>, keys: set<string>)
  {
    exists piece :: piece in pieces && Defines(piece, keys)
  }

  lemma EmptyHasNoKey()
    ensures KeyOf("") == None
  {
  }

  /** Existing entries win, that is, nothing appended defines a key that was
      there, except exactly where the value of a missing pair spills a piece
      that does. */
  lemma {:induction false} ExistingEntriesLoseIff(existing: string, wanted: seq<Pair>)
    requires forall p | p in wanted && IsMissing(Keys(existing), p) :: Clean(p.key)
    ensures SomeDefines(Appended(existing, wanted), Keys(existing))
       <==> exists p :: p in wanted && IsMissing(Keys(existing), p) && SomeDefines(Spill(p.val), Keys(existing))
  {
    var have := Keys(existing);
    if piece :| piece in Appended(existing, wanted) && Defines(piece, have) {
      EmptyHasNoKey();
      AppendedMeans(existing, wanted, piece);
      var p :| AppendedBy(existing, wanted, p, piece);
      EntrySplits(p);
      assert piece in Spill(p.val);
    }
    if p :| p in wanted && IsMissing(have, p) && SomeDefines(Spill(p.val), have) {
      var piece :| piece in Spill(p.val) && Defines(piece, have);
      EmptyHasNoKey();
      EntrySplits(p);
      assert AppendedBy(existing, wanted, p, piece);
      AppendedMeans(existing, wanted, piece);
    }
  }

  /** In particular they win where no missing value holds a comma. */
  lemma {:induction false} ExistingEntriesWin(existing: string, wanted: seq<Pair>, piece: string)
    requires forall p | p in wanted && IsMissing(Keys(existing), p) :: Clean(p.key) && ',' !in p.val
    requires piece in Appended(existing, wanted)
    ensures !Defines(piece, Keys(existing))
  {
    ExistingEntriesLoseIff(existing, wanted);
    forall p | p in wanted && IsMissing(Keys(existing), p)
      ensures Spill(p.val) == []
    {
      assert IndexOf(p.val, ',') == |p.val|;
    }
  }

  lemma OneEntry(key: string, val: string)
    requires Clean(key) && ',' !in val
    ensures KeyOf(key + "=" + val) == Some(key) && Keys(key + "=" + val) == {key}
  {
    KeyOfEntry(key, val);
    SplitWhole(key + "=" + val, ',');
    assert forall p :: p in Split(key + "=" + val, ',') <==> p == key + "=" + val;
  }

  lemma SpillAfter(before: string, after: string)
    requires ',' !in before && ',' !in after
    ensures Spill(before + [','] + after) == [after]
  {
    IndexOfSkips(before, after, ',');
    assert (before + [','] + after)[|before| + 1..] == after;
    SplitWhole(after, ',');
  }

  lemma SpillDefines(key: string, val: string, before: string)
    requires Clean(key) && ',' !in val && ',' !in before
    ensures SomeDefines(Spill(before + [','] + (key + "=" + val)), {key})
  {
    SpillAfter(before, key + "=" + val);
    OneEntry(key, val);
    assert (key + "=" + val) in Spill(before + [','] + (key + "=" + val));
  }

  /** A missing pair whose value spills an entry for the key that is there. */
  lemma {:induction false} SpilledEntryWins(key: string, val: string, other: string, before: string, wanted: seq<Pair>, p: Pair)
    requires Clean(key) && ',' !in val && ',' !in other && ',' !in before
    requires p in wanted && p.key != key && p.val == before + [','] + (key + "=" + other)
    requires forall q | q in wanted :: Clean(q.key)
    ensures SomeDefines(Appended(key + "=" + val, wanted), Keys(key + "=" + val))
  {
    OneEntry(key, val);
    SpillDefines(key, other, before);
    assert IsMissing(Keys(key + "=" + val), p);
    ExistingEntriesLoseIff(key + "=" + val, wanted);
  }

  /** A pod name that makes the existing entry a=1 lose. */
  lemma {:induction false} ExistingEntryLoses()
    ensures SomeDefines(Appended("a=1", Wanted("p,a=2", "", "")), Keys("a=1"))
  {
    var wanted := Wanted("p,a=2", "", "");
    WantedKeysAreClean("p,a=2", "", "");
    assert "p,a=2" == "p" + [','] + ("a" + "=" + "2") && "a=1" == "a" + "=" + "1";
    SpilledEntryWins("a", "1", "2", "p", wanted, wanted[1]);
  }

  /** Each key is clean and each value free of commas. */
  predicate Plain(wanted: seq<Pair>)
  {
    forall q | q in wanted :: Clean(q.key) && ',' !in q.val
  }

  /** Unless the key was there or the value is empty, merged has key=val as an
      entry of its own. */
  predicate Says(existing: string, merged: string, key: string, val: string)
  {
    key !in Keys(existing) && val != "" ==> key + "=" + val in Split(merged, ',')
  }

  lemma WantedIsPlain(podName: string, podNamespace: string, nodeName: string)
    requires ',' !in podName && ',' !in podNamespace && ',' !in nodeName
    ensures Plain(Wanted(podName, podNamespace, nodeName))
  {
    WantedKeysAreClean(podName, podNamespace, nodeName);
    assert ',' !in "giantswarm.observability";
  }

  lemma MissingIsSaid(existing: string, wanted: seq<Pair>, p: Pair)
    requires p in wanted && Plain(wanted)
    ensures Says(existing, Merged(existing, wanted), p.key, p.val)
  {
    if IsMissing(Keys(existing), p) {
      MissingMeans(Keys(existing), wanted, p.Entry());
      forall q | q in wanted
        ensures ',' !in q.Entry()
      {
        assert Clean(q.key) && ',' !in q.val;
      }
      OneEntryPerMissingKeyIff(existing, wanted);
    }
  }

  lemma SaidAt(existing: string, podName: string, podNamespace: string, nodeName: string, i: nat)
    requires ',' !in podName && ',' !in podNamespace && ',' !in nodeName && i < 4
    ensures var wanted := Wanted(podName, podNamespace, nodeName);
      Says(existing, Merged(existing, wanted), wanted[i].key, wanted[i].val)
  {
    WantedIsPlain(podName, podNamespace, nodeName);
    var wanted := Wanted(podName, podNamespace, nodeName);
    MissingIsSaid(existing, wanted, wanted[i]);
  }

  /** The deployment's four attributes are said under their names, if no
      variable holds a comma. */
  lemma {:induction false} DeploymentIsNamed(existing: string, podName: string, podNamespace: string, nodeName: string)
    requires ',' !in podName && ',' !in podNamespace && ',' !in nodeName
    ensures var merged := Merged(existing, Wanted(podName, podNamespace, nodeName));
      && Says(existing, merged, "service.namespace", "giantswarm.observability")
      && Says(existing, merged, "k8s.pod.name", podName)
      && Says(existing, merged, "k8s.namespace.name", podNamespace)
      && Says(existing, merged, "k8s.node.name", nodeName)
  {
    SaidAt(existing, podName, podNamespace, nodeName, 0);
    SaidAt(existing, podName, podNamespace, nodeName, 1);
    SaidAt(existing, podName, podNamespace, nodeName, 2);
    SaidAt(existing, podName, podNamespace, nodeName, 3);
  }
}
