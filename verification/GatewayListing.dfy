/** The step machine and the sequential method ListDatasources agree, in the
    same two directions. */
module GatewayListing {
  import opened Prelude
  import opened TtlCache
  import DS = Datasources
  import opened Gateway
  import opened GatewayRefinement

  function EncodeAll(dss: seq<DS.Datasource>): (raw: seq<DS.RawDatasource>)
    ensures DS.DecodeAll(raw) == dss
  {
    seq(|dss|, i requires 0 <= i < |dss| =>
      DS.RawDatasource(dss[i].id, dss[i].name, dss[i].uid, dss[i].kind, Some(dss[i].manageAlerts)))
  }

  /** One listing request's environment, all at one instant, with Grafana
      answering. */
  function ListingAt(w: World): DS.Listing
  {
    DS.Listing(w.now, orgID => Some(EncodeAll(SourcesOf(w, orgID))), w.now)
  }

  /** Whatever env answers is what the world is at this instant; it may fail. */
  ghost predicate MayList(env: DS.Listing, w: World)
  {
    && env.lookupAt == w.now == env.stampAt
    && forall orgID :: DS.FetchAnswer(env, orgID).Some? ==> DS.FetchAnswer(env, orgID) == Some(SourcesOf(w, orgID))
  }

  /** The request has this listing, or was refused for want of one. */
  ghost predicate HasListing(t: State, id: nat, r: Result<seq<DS.Datasource>, DS.ListError>, cache: DS.Cache)
  {
    && t.sourceCache == cache && id in t.requests
    && match r
       case Ok(dss) =>
         && t.requests[id].phase.Using? && t.requests[id].phase.u.HasSources?
         && t.requests[id].phase.u.sources.dss == dss
       case Err(e) => e == DS.FetchFailed && t.requests[id].phase == Closed(Refused)
  }

  /** From s the request, left alone, can end its listing like this. */
  ghost predicate Lists(cfg: Config, s: State, id: nat, r: Result<seq<DS.Datasource>, DS.ListError>, cache: DS.Cache)
  {
    exists k: nat, t :: Reaches(cfg, s, id, k, t) && HasListing(t, id, r, cache)
  }

  lemma ListsAfterStep(cfg: Config, s: State, id: nat, n: Phase, m: State, r: Result<seq<DS.Datasource>, DS.ListError>, cache: DS.Cache)
    requires RequestStep(cfg, s, id, n, m) && Lists(cfg, m, id, r, cache)
    ensures Lists(cfg, s, id, r, cache)
  {
    var k: nat, t :| Reaches(cfg, m, id, k, t) && HasListing(t, id, r, cache);
    assert CanStep(cfg, s, id, m);
    assert Reaches(cfg, s, id, k + 1, t);
  }

  lemma ListsAlready(cfg: Config, t: State, id: nat, r: Result<seq<DS.Datasource>, DS.ListError>, cache: DS.Cache)
    requires HasListing(t, id, r, cache)
    ensures Lists(cfg, t, id, r, cache)
  {
    assert Reaches(cfg, t, id, 0, t);
  }

  ghost predicate UsesAt(s: State, id: nat, g: Grant, u: UsePhase)
  {
    Holds(s, id) && s.requests[id].asked.want.WantTool? && s.requests[id].phase == Using(g, u)
  }

  lemma FromSourcesStamped(cfg: Config, s: State, id: nat, g: Grant, fetch: Fetch, dss: seq<DS.Datasource>)
    requires UsesAt(s, id, g, SourcesStamped(fetch, dss)) && fetch.stampAt == s.At()
    ensures Lists(cfg, s, id, Ok(dss), Put(s.sourceCache, g.org.orgID, dss, s.Now().now, cfg.sourceTTL))
  {
    var cache := Put(s.sourceCache, g.org.orgID, dss, s.Now().now, cfg.sourceTTL);
    var n := Using(g, HasSources(SourceEvidence(fetch, dss, fetch.start, true)));
    var t := Written(cfg, s, s.requests[id].asked, s.requests[id].phase).Move(id, n);
    assert RequestStep(cfg, s, id, n, t);
    ListsAlready(cfg, t, id, Ok(dss), cache);
    ListsAfterStep(cfg, s, id, n, t, Ok(dss), cache);
  }

  lemma FromMissedSources(cfg: Config, s: State, id: nat, g: Grant, start: nat)
    requires UsesAt(s, id, g, MissedSources(start))
    ensures var dss := SourcesOf(s.Now(), g.org.orgID);
      Lists(cfg, s, id, Ok(dss), Put(s.sourceCache, g.org.orgID, dss, s.Now().now, cfg.sourceTTL))
  {
    var dss := SourcesOf(s.Now(), g.org.orgID);
    var cache := Put(s.sourceCache, g.org.orgID, dss, s.Now().now, cfg.sourceTTL);
    var fetch := Fetch(g.org.orgID, start, s.At(), s.At());
    var n := Using(g, Fetched(fetch, dss));
    var m := s.Move(id, n);
    assert RequestStep(cfg, s, id, n, m);
    var n' := Using(g, SourcesStamped(fetch, dss));
    var m' := m.Move(id, n');
    assert RequestStep(cfg, m, id, n', m');
    FromSourcesStamped(cfg, m', id, g, fetch, dss);
    ListsAfterStep(cfg, m, id, n', m', Ok(dss), cache);
    ListsAfterStep(cfg, s, id, n, m, Ok(dss), cache);
  }

  lemma FromFailedListing(cfg: Config, s: State, id: nat, g: Grant, start: nat)
    requires UsesAt(s, id, g, MissedSources(start))
    ensures Lists(cfg, s, id, Err(DS.FetchFailed), s.sourceCache)
  {
    var t := s.Move(id, Closed(Refused));
    assert RequestStep(cfg, s, id, Closed(Refused), t);
    ListsAlready(cfg, t, id, Err(DS.FetchFailed), s.sourceCache);
    ListsAfterStep(cfg, s, id, Closed(Refused), t, Err(DS.FetchFailed), s.sourceCache);
  }

  /** What listDatasources computes, at this instant, from the cache of s. */
  function ListingSpec(cfg: Config, s: State, g: Grant, env: DS.Listing): (Result<seq<DS.Datasource>, DS.ListError>, DS.Cache)
  {
    (DS.Listed(s.sourceCache, env, g.org.orgID), After(s.sourceCache, g.org.orgID, DS.ListingVisit(env, g.org.orgID, cfg.sourceTTL)))
  }

  function SeenIn(s: State, orgID: int): Option<(Entry<seq<DS.Datasource>>, Fetch)>
    requires s.sourceCache.Keys <= s.sourceOrigin.Keys
  {
    if orgID in s.sourceCache then Some((s.sourceCache[orgID], s.sourceOrigin[orgID])) else None
  }

  lemma FromPeeked(cfg: Config, s: State, id: nat, g: Grant, env: DS.Listing)
    requires Holds(s, id) && MayList(env, s.Now()) && UsesAt(s, id, g, Peeked(SeenIn(s, g.org.orgID)))
    ensures Lists(cfg, s, id, ListingSpec(cfg, s, g, env).0, ListingSpec(cfg, s, g, env).1)
  {
    var orgID := g.org.orgID;
    var (r, cache) := ListingSpec(cfg, s, g, env);
    if Get(s.sourceCache, orgID, s.Now().now).Some? {
      var n := Using(g, HasSources(SourceEvidence(s.sourceOrigin[orgID], r.value, s.At(), false)));
      var t := s.Move(id, n);
      assert RequestStep(cfg, s, id, n, t);
      ListsAlready(cfg, t, id, r, cache);
      ListsAfterStep(cfg, s, id, n, t, r, cache);
    } else {
      var n := Using(g, MissedSources(s.At()));
      var m := s.Move(id, n);
      assert RequestStep(cfg, s, id, n, m);
      if r.Ok? {
        FromMissedSources(cfg, m, id, g, s.At());
      } else {
        FromFailedListing(cfg, m, id, g, s.At());
      }
      ListsAfterStep(cfg, s, id, n, m, r, cache);
    }
  }

  /** A granted request whose tool needs datasources. */
  ghost predicate NeedsListing(s: State, id: nat, g: Grant)
  {
    && UsesAt(s, id, g, Authorized)
    && TenantGate(s.requests[id].asked.want.tool, g.org) && NeedsSources(s.requests[id].asked.want.tool)
  }

  /** Running alone, a granted request can reach whatever the method
      ListDatasources computes: for every Grafana that answers from this instant
      or fails, the same listing or failure and the same cache. */
  lemma AloneItLists(cfg: Config, s: State, id: nat, g: Grant, env: DS.Listing)
    requires NeedsListing(s, id, g) && MayList(env, s.Now())
    ensures Lists(cfg, s, id, ListingSpec(cfg, s, g, env).0, ListingSpec(cfg, s, g, env).1)
  {
    var n := Using(g, Peeked(SeenIn(s, g.org.orgID)));
    var m := s.Move(id, n);
    assert RequestStep(cfg, s, id, n, m);
    FromPeeked(cfg, m, id, g, env);
    ListsAfterStep(cfg, s, id, n, m, ListingSpec(cfg, s, g, env).0, ListingSpec(cfg, s, g, env).1);
  }

  // ------------------------------------------------------ and nothing else

  /** How a request that ran alone from s, where it was granted g, stands in t. */
  ghost predicate AloneInSources(cfg: Config, s: State, id: nat, g: Grant, t: State)
    requires NeedsListing(s, id, g)
  {
    var (r, cache) := ListingSpec(cfg, s, g, ListingAt(s.Now()));
    var missed := Get(s.sourceCache, g.org.orgID, s.Now().now).None?;
    var listed := SourcesOf(s.Now(), g.org.orgID);
    && t.hist == s.hist && id in t.requests && t.requests[id].asked == s.requests[id].asked
    && match t.requests[id].phase
       case Resolving(_) => false
       case Using(h, u) =>
         && h == g
         && (match u
             case Authorized => t.sourceCache == s.sourceCache && t.sourceOrigin == s.sourceOrigin
             case Peeked(seen) => t.sourceCache == s.sourceCache && seen == SeenIn(s, g.org.orgID)
             case MissedSources(_) => missed && t.sourceCache == s.sourceCache
             case Fetched(_, dss) => missed && t.sourceCache == s.sourceCache && dss == listed
             case SourcesStamped(fetch, dss) => missed && t.sourceCache == s.sourceCache && dss == listed && fetch.stampAt == s.At()
             case HasSources(ev) => HasListing(t, id, r, cache))
       case Closed(o) => t.sourceCache == cache || (o == Refused && t.sourceCache == s.sourceCache)
  }

  lemma SourceStepAlone(cfg: Config, s: State, id: nat, g: Grant, m: State, n: Phase, t: State)
    requires NeedsListing(s, id, g) && AloneInSources(cfg, s, id, g, m) && RequestStep(cfg, m, id, n, t)
    ensures AloneInSources(cfg, s, id, g, t)
  {
  }

  lemma {:induction false} StaysAloneInSources(cfg: Config, s: State, id: nat, g: Grant, m: State, k: nat, t: State)
    requires NeedsListing(s, id, g) && AloneInSources(cfg, s, id, g, m) && Reaches(cfg, m, id, k, t)
    ensures AloneInSources(cfg, s, id, g, t)
    decreases k
  {
    if k > 0 {
      var m' :| CanStep(cfg, m, id, m') && Reaches(cfg, m', id, k - 1, t);
      var n :| RequestStep(cfg, m, id, n, m');
      SourceStepAlone(cfg, s, id, g, m, n, m');
      StaysAloneInSources(cfg, s, id, g, m', k - 1, t);
    }
  }

  function FailingListing(w: World): DS.Listing
  {
    DS.Listing(w.now, orgID => None, w.now)
  }

  /** Running alone, a granted request can reach nothing else: a listing in its
      hand is the one that ListDatasources computes for a Grafana that answers,
      with its cache; and where the request is refused, the cache is what
      ListDatasources leaves for some Grafana that answers or fails. */
  lemma AloneItOnlyLists(cfg: Config, s: State, id: nat, g: Grant, k: nat, t: State)
    requires NeedsListing(s, id, g) && Reaches(cfg, s, id, k, t)
    ensures id in t.requests
    ensures var phase := t.requests[id].phase;
      var (r, cache) := ListingSpec(cfg, s, g, ListingAt(s.Now()));
      && (phase.Using? && phase.u.HasSources? ==> HasListing(t, id, r, cache))
      && (phase == Closed(Refused) ==> exists env :: MayList(env, s.Now()) && t.sourceCache == ListingSpec(cfg, s, g, env).1)
  {
    StaysAloneInSources(cfg, s, id, g, s, k, t);
    assert MayList(ListingAt(s.Now()), s.Now());
    assert MayList(FailingListing(s.Now()), s.Now());
    assert ListingSpec(cfg, s, g, FailingListing(s.Now())).1 == s.sourceCache;
  }
}
