/** Datasources of an org: type matching, picking one for a call, and the
    Grafana client's per-org listing cache. */
module Datasources {
  import opened Prelude
  import opened TtlCache

  datatype Datasource = Datasource(id: int, name: string, uid: string, kind: string, manageAlerts: bool)

  /** A datasource as Grafana sends it: manageAlerts may be absent. */
  datatype RawDatasource = RawDatasource(id: int, name: string, uid: string, kind: string, manageAlerts: Option<bool>)

  function Decode(r: RawDatasource): Datasource
  {
    Datasource(r.id, r.name, r.uid, r.kind, if r.manageAlerts.Some? then r.manageAlerts.value else true)
  }

  /** A datasource as it was sent; alerts are managed unless it says false. */
  predicate IsReading(ds: Datasource, raw: RawDatasource)
  {
    && ds.id == raw.id && ds.name == raw.name && ds.uid == raw.uid && ds.kind == raw.kind
    && (ds.manageAlerts <==> raw.manageAlerts != Some(false))
  }

  function DecodeAll(raw: seq<RawDatasource>): (dss: seq<Datasource>)
    ensures |dss| == |raw|
    ensures forall i | 0 <= i < |raw| :: dss[i] == Decode(raw[i])
  {
    seq(|raw|, i requires 0 <= i < |raw| => Decode(raw[i]))
  }

  predicate MatchesType(lower: string -> string, ds: Datasource, dsType: string)
  {
    Contains(lower(ds.kind), lower(dsType))
  }

  /** The type stands somewhere in the plugin type, both lower-cased. */
  ghost predicate Fits(lower: string -> string, ds: Datasource, dsType: string)
  {
    Inside(lower(dsType), lower(ds.kind))
  }

  lemma MatchingIsFitting(lower: string -> string, ds: Datasource, dsType: string)
    ensures MatchesType(lower, ds, dsType) <==> Fits(lower, ds, dsType)
  {
    ContainsMeaning(lower(ds.kind), lower(dsType));
  }

  function OfType(lower: string -> string, dss: seq<Datasource>, dsType: string): seq<Datasource>
  {
    Filter(ds => MatchesType(lower, ds, dsType), dss)
  }

  method FilterDatasourcesByType(lower: string -> string, dss: seq<Datasource>, dsType: string) returns (out: seq<Datasource>)
    ensures out == OfType(lower, dss, dsType)
    ensures forall ds :: ds in out <==> ds in dss && Fits(lower, ds, dsType)
  {
    out := [];
    for i := 0 to |dss|
      invariant out == OfType(lower, dss[..i], dsType)
    {
      FilterAppend((ds: Datasource) => MatchesType(lower, ds, dsType), dss[..i], dss[i]);
      assert dss[..i + 1] == dss[..i] + [dss[i]];
      if MatchesType(lower, dss[i], dsType) {
        out := out + [dss[i]];
      }
    }
    assert dss[..|dss|] == dss;
    forall ds
      ensures ds in out <==> ds in dss && Fits(lower, ds, dsType)
    {
      FilterMembers((d: Datasource) => MatchesType(lower, d, dsType), dss, ds);
      MatchingIsFitting(lower, ds, dsType);
    }
  }

  /** The first datasource of the listing with the given UID. */
  function FirstWithUID(dss: seq<Datasource>, uid: string): Option<Datasource>
  {
    if dss == [] then None
    else if dss[0].uid == uid then Some(dss[0])
    else FirstWithUID(dss[1..], uid)
  }

  lemma {:induction false} FirstWithUIDMeaning(dss: seq<Datasource>, uid: string)
    ensures match FirstWithUID(dss, uid)
      case None => forall i | 0 <= i < |dss| :: dss[i].uid != uid
      case Some(ds) => exists i | 0 <= i < |dss| :: dss[i] == ds && ds.uid == uid && forall j | 0 <= j < i :: dss[j].uid != uid
  {
    if dss != [] && dss[0].uid != uid {
      FirstWithUIDMeaning(dss[1..], uid);
      match FirstWithUID(dss[1..], uid)
      case None =>
        forall i | 0 <= i < |dss|
          ensures dss[i].uid != uid
        {
          assert i > 0 ==> dss[i] == dss[1..][i - 1];
        }
      case Some(ds) =>
        var i :| 0 <= i < |dss[1..]| && dss[1..][i] == ds && ds.uid == uid && forall j | 0 <= j < i :: dss[1..][j].uid != uid;
        assert dss[i + 1] == ds;
        forall j | 0 <= j < i + 1
          ensures dss[j].uid != uid
        {
          assert j > 0 ==> dss[j] == dss[1..][j - 1];
        }
    }
  }

  ghost predicate UIDsUnique(dss: seq<Datasource>)
  {
    && (forall i | 0 <= i < |dss| :: dss[i].uid != "")
    && (forall i, j | 0 <= i < |dss| && 0 <= j < |dss| && dss[i].uid == dss[j].uid :: i == j)
  }

  datatype ListError = UIDRequired | FetchFailed | UIDNotFound

  /** LookupDatasourceByUID over a listing. */
  function LookupIn(listing: Result<seq<Datasource>, ListError>, uid: string): Result<Datasource, ListError>
  {
    if uid == "" then Err(UIDRequired)
    else
      match listing
      case Err(e) => Err(e)
      case Ok(dss) =>
        match FirstWithUID(dss, uid)
        case None => Err(UIDNotFound)
        case Some(ds) => Ok(ds)
  }

  datatype PickError = NoSuchUID | IncompatibleType | NoneOfType

  /** The datasource a call runs on: the one the caller names, if it fits the
      type, or else the first of that type. */
  function Pick(lower: string -> string, dss: seq<Datasource>, dsType: string, uid: string): Result<Datasource, PickError>
  {
    if uid != "" then
      match FirstWithUID(dss, uid)
      case None => Err(NoSuchUID)
      case Some(ds) => if MatchesType(lower, ds, dsType) then Ok(ds) else Err(IncompatibleType)
    else if OfType(lower, dss, dsType) == [] then Err(NoneOfType)
    else Ok(OfType(lower, dss, dsType)[0])
  }

  /** A picked datasource is in the listing, fits the type, and carries the UID
      asked for, if any. */
  lemma PickIsListed(lower: string -> string, dss: seq<Datasource>, dsType: string, uid: string)
    requires Pick(lower, dss, dsType, uid).Ok?
    ensures var ds := Pick(lower, dss, dsType, uid).value;
      ds in dss && MatchesType(lower, ds, dsType) && (uid != "" ==> ds.uid == uid)
  {
    if uid != "" {
      FirstWithUIDMeaning(dss, uid);
    } else {
      FilterMembers((ds: Datasource) => MatchesType(lower, ds, dsType), dss, OfType(lower, dss, dsType)[0]);
    }
  }

  ghost predicate IsFirstOfType(lower: string -> string, dss: seq<Datasource>, dsType: string, i: int)
  {
    && 0 <= i < |dss| && MatchesType(lower, dss[i], dsType)
    && forall j | 0 <= j < i :: !MatchesType(lower, dss[j], dsType)
  }

  lemma {:induction false} SomeFirstOfType(lower: string -> string, dss: seq<Datasource>, dsType: string, n: nat)
    requires n < |dss| && MatchesType(lower, dss[n], dsType)
    ensures exists i :: IsFirstOfType(lower, dss, dsType, i)
  {
    if j :| 0 <= j < n && MatchesType(lower, dss[j], dsType) {
      SomeFirstOfType(lower, dss, dsType, j);
    } else {
      assert IsFirstOfType(lower, dss, dsType, n);
    }
  }

  lemma FirstOfTypeIsDefault(lower: string -> string, dss: seq<Datasource>, dsType: string, i: int)
    requires IsFirstOfType(lower, dss, dsType, i)
    ensures Pick(lower, dss, dsType, "") == Ok(dss[i])
  {
    var keep := (ds: Datasource) => MatchesType(lower, ds, dsType);
    FilterAppend(keep, dss[..i], dss[i]);
    FilterNone(keep, dss[..i]);
    FilterConcat(keep, dss[..i] + [dss[i]], dss[i + 1..]);
    assert dss == dss[..i] + [dss[i]] + dss[i + 1..];
  }

  /** The default pick is the first datasource of the type. */
  lemma DefaultIsFirstOfType(lower: string -> string, dss: seq<Datasource>, dsType: string)
    requires Pick(lower, dss, dsType, "").Ok?
    ensures exists i :: IsFirstOfType(lower, dss, dsType, i) && Pick(lower, dss, dsType, "").value == dss[i]
  {
    var ds := Pick(lower, dss, dsType, "").value;
    PickIsListed(lower, dss, dsType, "");
    var n :| 0 <= n < |dss| && dss[n] == ds;
    SomeFirstOfType(lower, dss, dsType, n);
    var i :| IsFirstOfType(lower, dss, dsType, i);
    FirstOfTypeIsDefault(lower, dss, dsType, i);
  }

  /** Datasource i is the first to fit the type. */
  ghost predicate FirstFits(lower: string -> string, dss: seq<Datasource>, dsType: string, i: int)
  {
    && 0 <= i < |dss| && Fits(lower, dss[i], dsType)
    && forall j | 0 <= j < i :: !Fits(lower, dss[j], dsType)
  }

  /** Datasource i is the first with this UID. */
  ghost predicate FirstNamed(dss: seq<Datasource>, uid: string, i: int)
  {
    && 0 <= i < |dss| && dss[i].uid == uid
    && forall j | 0 <= j < i :: dss[j].uid != uid
  }

  /** Without a UID the pick is the first datasource that fits the type, and
      there is none only where nothing fits. */
  lemma DefaultPickMeaning(lower: string -> string, dss: seq<Datasource>, dsType: string)
    ensures match Pick(lower, dss, dsType, "")
      case Ok(ds) => exists i :: FirstFits(lower, dss, dsType, i) && dss[i] == ds
      case Err(e) => e == NoneOfType && forall i | 0 <= i < |dss| :: !Fits(lower, dss[i], dsType)
  {
    forall ds {
      MatchingIsFitting(lower, ds, dsType);
    }
    if Pick(lower, dss, dsType, "").Ok? {
      DefaultIsFirstOfType(lower, dss, dsType);
      var i :| IsFirstOfType(lower, dss, dsType, i) && Pick(lower, dss, dsType, "").value == dss[i];
      assert FirstFits(lower, dss, dsType, i);
    } else {
      forall i | 0 <= i < |dss|
        ensures !Fits(lower, dss[i], dsType)
      {
        FilterMembers((d: Datasource) => MatchesType(lower, d, dsType), dss, dss[i]);
      }
    }
  }

  /** With a UID the pick is the first datasource that carries it, if that fits
      the type. */
  lemma NamedPickMeaning(lower: string -> string, dss: seq<Datasource>, dsType: string, uid: string)
    requires uid != ""
    ensures match Pick(lower, dss, dsType, uid)
      case Ok(ds) => exists i :: FirstNamed(dss, uid, i) && dss[i] == ds && Fits(lower, ds, dsType)
      case Err(e) =>
        || (e == NoSuchUID && forall i | 0 <= i < |dss| :: dss[i].uid != uid)
        || (e == IncompatibleType && exists i :: FirstNamed(dss, uid, i) && !Fits(lower, dss[i], dsType))
  {
    FirstWithUIDMeaning(dss, uid);
    forall ds {
      MatchingIsFitting(lower, ds, dsType);
    }
    if FirstWithUID(dss, uid).Some? {
      var ds := FirstWithUID(dss, uid).value;
      var i :| 0 <= i < |dss| && dss[i] == ds && ds.uid == uid && forall j | 0 <= j < i :: dss[j].uid != uid;
      assert FirstNamed(dss, uid, i);
    }
  }

  lemma ShorterIsNotAround(sub: string, s: string)
    requires |s| < |sub|
    ensures !Inside(sub, s)
  {
  }

  lemma LongerKind()
    ensures Inside("prometheus", "grafana-amazonprometheus-datasource") && !Inside("prometheus", "prom")
  {
    assert "grafana-amazonprometheus-datasource" == "grafana-amazon" + "prometheus" + "-datasource";
    ShorterIsNotAround("prometheus", "prom");
  }

  /** A plugin type that properly contains the type fits it; one that the type
      properly contains does not. */
  lemma LongerKindFits(lower: string -> string, short: Datasource, long: Datasource)
    requires lower("prometheus") == "prometheus" && lower("prom") == "prom"
    requires lower("grafana-amazonprometheus-datasource") == "grafana-amazonprometheus-datasource"
    requires short.kind == "prom" && long.kind == "grafana-amazonprometheus-datasource"
    ensures Pick(lower, [short, long], "prometheus", "") == Ok(long)
    ensures Pick(lower, [short], "prometheus", "") == Err(NoneOfType)
  {
    LongerKind();
    assert Fits(lower, long, "prometheus") && !Fits(lower, short, "prometheus");
    DefaultPickMeaning(lower, [short, long], "prometheus");
    DefaultPickMeaning(lower, [short], "prometheus");
  }

  /** Naming the default pick explicitly picks it again if and only if its UID
      is empty or no datasource listed before it carries the same UID. */
  lemma DefaultPickAgainIff(lower: string -> string, dss: seq<Datasource>, dsType: string, i: int)
    requires IsFirstOfType(lower, dss, dsType, i)
    ensures Pick(lower, dss, dsType, "") == Ok(dss[i])
    ensures Pick(lower, dss, dsType, dss[i].uid) == Ok(dss[i])
       <==> dss[i].uid == "" || forall j | 0 <= j < i :: dss[j].uid != dss[i].uid
  {
    FirstOfTypeIsDefault(lower, dss, dsType, i);
    FirstWithUIDMeaning(dss, dss[i].uid);
  }

  /** In particular, where UIDs are unique. */
  lemma DefaultPickRoundTrip(lower: string -> string, dss: seq<Datasource>, dsType: string)
    requires UIDsUnique(dss) && Pick(lower, dss, dsType, "").Ok?
    ensures var ds := Pick(lower, dss, dsType, "").value;
      Pick(lower, dss, dsType, ds.uid) == Ok(ds)
  {
    DefaultIsFirstOfType(lower, dss, dsType);
    var i :| IsFirstOfType(lower, dss, dsType, i) && Pick(lower, dss, dsType, "").value == dss[i];
    DefaultPickAgainIff(lower, dss, dsType, i);
  }

  /** Without unique UIDs the round trip fails: a second datasource of another
      type can own the default pick's UID. */
  lemma DefaultPickNeedsUniqueUIDs(lower: string -> string)
    requires lower("loki") == "loki" && lower("tempo") == "tempo"
    ensures var dss := [Datasource(1, "a", "u", "loki", true), Datasource(2, "b", "u", "tempo", true)];
      Pick(lower, dss, "tempo", "") == Ok(dss[1]) && Pick(lower, dss, "tempo", "u") == Err(IncompatibleType)
  {
    var a := Datasource(1, "a", "u", "loki", true);
    var b := Datasource(2, "b", "u", "tempo", true);
    var keep := (ds: Datasource) => MatchesType(lower, ds, "tempo");
    assert !MatchesType(lower, a, "tempo");
    assert MatchesType(lower, b, "tempo") by {
      assert OccursAt("tempo", "tempo", 0);
    }
    FilterAppend(keep, [], a);
    FilterAppend(keep, [a], b);
    assert [] + [a] == [a] && [a] + [b] == [a, b];
    assert OfType(lower, [a, b], "tempo") == [b];
  }

  // ----------------------------------------------------------- the client

  type Cache = map<int, Entry<seq<Datasource>>>

  /** One listing request's environment: the clock at the cache check, what
      Grafana would answer for an org (None is a failure), and the clock at
      the store. */
  datatype Listing = Listing(lookupAt: int, answer: int -> Option<seq<RawDatasource>>, stampAt: int)

  function FetchAnswer(env: Listing, orgID: int): Option<seq<Datasource>>
  {
    match env.answer(orgID)
    case None => None
    case Some(raw) => Some(DecodeAll(raw))
  }

  function ListingVisit(env: Listing, orgID: int, ttl: int): Visit<seq<Datasource>>
  {
    Visit(env.lookupAt, FetchAnswer(env, orgID), env.stampAt, ttl)
  }

  /** ListDatasources as a function of the cache: a fresh entry, or else this
      call's own fetch. */
  function Listed(cache: Cache, env: Listing, orgID: int): Result<seq<Datasource>, ListError>
  {
    match Get(cache, orgID, env.lookupAt)
    case Some(dss) => Ok(dss)
    case None =>
      match FetchAnswer(env, orgID)
      case None => Err(FetchFailed)
      case Some(dss) => Ok(dss)
  }

  class Client {
    const ttl: int
    var dsCache: Cache

    constructor (ttl: int)
      ensures dsCache == map[] && this.ttl == ttl
    {
      this.ttl := ttl;
      dsCache := map[];
    }

    method FetchDatasources(orgID: int, env: Listing) returns (r: Option<seq<Datasource>>)
      ensures r == FetchAnswer(env, orgID)
      ensures r.Some? ==>
        && env.answer(orgID).Some? && |r.value| == |env.answer(orgID).value|
        && forall i | 0 <= i < |r.value| :: IsReading(r.value[i], env.answer(orgID).value[i])
    {
      var body := env.answer(orgID);
      if body.None? {
        return None;
      }
      var raw := body.value;
      var out := new Datasource[|raw|](_ => Datasource(0, "", "", "", false));
      for i := 0 to |raw|
        invariant forall j | 0 <= j < i :: out[j] == Decode(raw[j])
      {
        var manageAlerts := true;
        if raw[i].manageAlerts.Some? {
          manageAlerts := raw[i].manageAlerts.value;
        }
        out[i] := Datasource(raw[i].id, raw[i].name, raw[i].uid, raw[i].kind, manageAlerts);
      }
      assert out[..] == DecodeAll(raw);
      return Some(out[..]);
    }

    /** ListDatasources: only a successful fetch changes the cache, and only at
        the org it was made for. */
    method ListDatasources(orgID: int, env: Listing) returns (r: Result<seq<Datasource>, ListError>)
      modifies this`dsCache
      ensures r == Listed(old(dsCache), env, orgID)
      ensures dsCache == After(old(dsCache), orgID, ListingVisit(env, orgID, ttl))
    {
      if orgID in dsCache {
        var entry := dsCache[orgID];
        if env.lookupAt < entry.expiresAt {
          return Ok(entry.value);
        }
      }
      var dss := FetchDatasources(orgID, env);
      if dss.None? {
        return Err(FetchFailed);
      }
      dsCache := dsCache[orgID := Entry(dss.value, env.stampAt + ttl)];
      return Ok(dss.value);
    }

    method LookupDatasourceByUID(orgID: int, uid: string, env: Listing) returns (r: Result<Datasource, ListError>)
      modifies this`dsCache
      ensures r == LookupIn(Listed(old(dsCache), env, orgID), uid)
      ensures dsCache == if uid == "" then old(dsCache) else After(old(dsCache), orgID, ListingVisit(env, orgID, ttl))
    {
      if uid == "" {
        return Err(UIDRequired);
      }
      var listing := ListDatasources(orgID, env);
      if listing.Err? {
        return Err(listing.error);
      }
      var list := listing.value;
      for i := 0 to |list|
        invariant FirstWithUID(list, uid) == FirstWithUID(list[i..], uid)
      {
        if list[i].uid == uid {
          return Ok(list[i]);
        }
      }
      return Err(UIDNotFound);
    }
  }

  // -------------------------------------------- refining the uncached fetch

  /** One request of a sequential run against a client. */
  datatype Request = Request(orgID: int, env: Listing)

  function CacheAfter(cache: Cache, ttl: int, reqs: seq<Request>): Cache
  {
    if reqs == [] then cache
    else
      var r := Last(reqs);
      After(CacheAfter(cache, ttl, Front(reqs)), r.orgID, ListingVisit(r.env, r.orgID, ttl))
  }

  /** Request k of the run found nothing fresh, fetched `dss` for its org, and
      stored it with this deadline. */
  ghost predicate FetchedBy(reqs: seq<Request>, ttl: int, k: int, orgID: int, dss: seq<Datasource>, deadline: int)
  {
    && 0 <= k < |reqs| && reqs[k].orgID == orgID
    && Get(CacheAfter(map[], ttl, reqs[..k]), orgID, reqs[k].env.lookupAt).None?
    && FetchAnswer(reqs[k].env, orgID) == Some(dss)
    && deadline == reqs[k].env.stampAt + ttl
  }

  lemma {:induction false} EntriesComeFromFetches(ttl: int, reqs: seq<Request>, orgID: int)
    requires orgID in CacheAfter(map[], ttl, reqs)
    ensures var e := CacheAfter(map[], ttl, reqs)[orgID];
      exists k :: FetchedBy(reqs, ttl, k, orgID, e.value, e.expiresAt)
  {
    if reqs != [] {
      var n := |reqs| - 1;
      var before := CacheAfter(map[], ttl, Front(reqs));
      var visit := ListingVisit(reqs[n].env, reqs[n].orgID, ttl);
      var e := CacheAfter(map[], ttl, reqs)[orgID];
      if reqs[n].orgID == orgID && Fetches(before, orgID, visit) {
        assert reqs[..n] == Front(reqs);
        assert FetchedBy(reqs, ttl, n, orgID, e.value, e.expiresAt);
      } else {
        EntriesComeFromFetches(ttl, Front(reqs), orgID);
        var k :| FetchedBy(Front(reqs), ttl, k, orgID, e.value, e.expiresAt);
        assert Front(reqs)[..k] == reqs[..k];
        assert FetchedBy(reqs, ttl, k, orgID, e.value, e.expiresAt);
      }
    }
  }

  /** Every listing a run returns is the request's own successful fetch, made
      because it found nothing fresh, or one that an earlier request for the
      same org made for the same reason and stored less than one lifetime
      before. A listing fails only where the request itself fetched in vain. */
  lemma ListingRefinesFetch(ttl: int, earlier: seq<Request>, r: Request)
    ensures var missed := Get(CacheAfter(map[], ttl, earlier), r.orgID, r.env.lookupAt).None?;
      match Listed(CacheAfter(map[], ttl, earlier), r.env, r.orgID)
      case Ok(dss) =>
        if missed then FetchAnswer(r.env, r.orgID) == Some(dss)
        else exists k, deadline :: FetchedBy(earlier, ttl, k, r.orgID, dss, deadline) && r.env.lookupAt < deadline
      case Err(e) => missed && e == FetchFailed && FetchAnswer(r.env, r.orgID) == None
  {
    var cache := CacheAfter(map[], ttl, earlier);
    if Get(cache, r.orgID, r.env.lookupAt).Some? {
      EntriesComeFromFetches(ttl, earlier, r.orgID);
    }
  }

  /** n successful fetches for one org by requests that follow one another
      within a time span T satisfy (n - 1) * ttl <= T. */
  lemma SourceLoadIsBounded(cache: Cache, ttl: int, orgID: int, envs: seq<Listing>)
    requires envs != []
    requires forall i | 0 <= i < |envs| :: envs[i].lookupAt <= envs[i].stampAt
    requires forall i, j | 0 <= i < j < |envs| :: envs[i].stampAt <= envs[j].lookupAt
    ensures var visits := seq(|envs|, i requires 0 <= i < |envs| => ListingVisit(envs[i], orgID, ttl));
      var n := |FetchTimes(cache, orgID, visits)|;
      n > 0 ==> (n - 1) * ttl <= Last(envs).stampAt - envs[0].lookupAt
  {
    var visits := seq(|envs|, i requires 0 <= i < |envs| => ListingVisit(envs[i], orgID, ttl));
    assert forall i | 0 <= i < |visits| :: visits[i] == ListingVisit(envs[i], orgID, ttl);
    FetchLoadIsBounded(cache, orgID, visits, ttl);
  }
}
