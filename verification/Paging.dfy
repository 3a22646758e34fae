/** Sorting, filtering and cutting lists into pages: alerts, silences and plain
    strings. Page arithmetic is in 64-bit integers, as in the program. */
module Paging {
  import opened Prelude
  import opened Sorting

  datatype Page<T> = Page(total: nat, page: int, pageSize: int, hasMore: bool, items: seq<T>)

  datatype PageError = UnmarshalFailed | UnknownState

  /** Panicked: a slice expression with a negative bound. */
  datatype Outcome<T> = Shown(page: Page<T>) | Rejected(error: PageError) | Panicked

  const TWO_63: int := 0x8000_0000_0000_0000

  function Min(a: int, b: int): int
  {
    if a < b then a else b
  }

  /** The value of a 64-bit signed integer after overflow. */
  function Wrap64(x: int): int
  {
    (x + TWO_63) % (2 * TWO_63) - TWO_63
  }

  function ClampInt(n: int, lo: int, hi: int): int
  {
    if n < lo then lo else if n > hi then hi else n
  }

  function MapSeq<T, U>(f: T -> U, s: seq<T>): (r: seq<U>)
    ensures |r| == |s| && forall i | 0 <= i < |s| :: r[i] == f(s[i])
  {
    seq(|s|, i requires 0 <= i < |s| => f(s[i]))
  }

  /** The tail that all three paginators share: s[start:end] and its envelope. */
  function Cut<T>(s: seq<T>, page: int, pageSize: int): Outcome<T>
    requires pageSize >= 1
  {
    var start := Min(Wrap64(page * pageSize), |s|);
    if start < 0 then Panicked
    else
      var end := Min(start + pageSize, |s|);
      Shown(Page(|s|, page, pageSize, end < |s|, s[start..end]))
  }

  // ------------------------------------------------------------ cutting right

  /** What a page should be, in unbounded arithmetic. */
  ghost predicate IsPage<T>(s: seq<T>, page: int, pageSize: int, o: Outcome<T>)
    requires pageSize >= 1
  {
    && page >= 0 && o.Shown?
    && o.page.total == |s| && o.page.page == page && o.page.pageSize == pageSize
    && (o.page.hasMore <==> (page + 1) * pageSize < |s|)
    && |o.page.items| == Min(pageSize, if page * pageSize < |s| then |s| - page * pageSize else 0)
    && forall i | 0 <= i < |o.page.items| && page * pageSize + i < |s| :: o.page.items[i] == s[page * pageSize + i]
  }

  /** Every 64-bit page number gets the right page, the empty one past the end,
      exactly when it is not negative and its product with the page size either
      fits in 64 bits or wraps to a number past the end. */
  lemma {:induction false} CutIsThePageIff<T>(s: seq<T>, page: int, pageSize: int)
    requires 1 <= pageSize <= 1000 && -TWO_63 <= page < TWO_63 && |s| < TWO_63
    ensures IsPage(s, page, pageSize, Cut(s, page, pageSize))
       <==> page >= 0 && (page * pageSize < TWO_63 || Wrap64(page * pageSize) >= |s|)
  {
    var product := page * pageSize;
    assert (page + 1) * pageSize == product + pageSize;
    if 0 <= page {
      assert product >= 0;
    }
  }

  /** A wrapped product shows a page past the end as if it were the first. */
  lemma OverflowShowsTheFirstPage<T>(s: seq<T>)
    requires 0 < |s| < TWO_63
    ensures Cut(s, 0x4000_0000_0000_0000, 4) == Shown(Page(|s|, 0x4000_0000_0000_0000, 4, 4 < |s|, s[..Min(4, |s|)]))
    ensures !IsPage(s, 0x4000_0000_0000_0000, 4, Cut(s, 0x4000_0000_0000_0000, 4))
  {
    assert Wrap64(0x4000_0000_0000_0000 * 4) == 0;
  }

  /** A small negative page number makes the program panic. */
  lemma NegativePagePanics<T>(s: seq<T>, page: int, pageSize: int)
    requires pageSize >= 1 && page < 0 && -TWO_63 <= page * pageSize
    ensures Cut(s, page, pageSize).Panicked?
  {
    assert page * pageSize < 0;
  }

  // ------------------------------------------------------ following hasMore

  /** read serves the pages of s. */
  ghost predicate Serves<T>(read: int -> Outcome<T>, s: seq<T>, pageSize: int)
    requires pageSize >= 1
  {
    forall p: int | p >= 0 :: read(p) == Cut(s, p, pageSize)
  }

  predicate ShowsPage<T>(o: Outcome<T>, hasMore: bool)
  {
    o.Shown? && o.page.hasMore == hasMore
  }

  /** A client that starts at page 0 and goes on while hasMore reads k pages. */
  ghost predicate ReadsPages<T>(read: int -> Outcome<T>, k: nat)
  {
    k >= 1 && forall p | 0 <= p < k :: ShowsPage(read(p), p < k - 1)
  }

  /** The items of pages 0 to k - 1 together. */
  function Collected<T>(read: int -> Outcome<T>, k: nat): seq<T>
  {
    if k == 0 then []
    else Collected(read, k - 1) +
         (match read(k - 1)
          case Shown(page) => page.items
          case _ => [])
  }

  lemma CeilBounds(n: nat, d: int)
    requires d >= 1
    ensures var k := (n + d - 1) / d; k * d >= n && (k - 1) * d < n
  {
    var k, r := (n + d - 1) / d, (n + d - 1) % d;
    assert n + d - 1 == k * d + r && 0 <= r < d;
    assert (k - 1) * d == k * d - d;
  }

  /** max(1, ceil(n / pageSize)) */
  function PagesFor(n: nat, pageSize: int): (k: nat)
    requires pageSize >= 1
    ensures k >= 1 && k * pageSize >= n && (k > 1 ==> (k - 1) * pageSize < n)
  {
    CeilBounds(n, pageSize);
    if n == 0 then 1 else (n + pageSize - 1) / pageSize
  }

  lemma Times(a: int, b: int, d: int)
    requires a <= b && d >= 1
    ensures a * d <= b * d
  {
  }

  lemma WrapFits(x: int)
    requires 0 <= x < TWO_63
    ensures Wrap64(x) == x
  {
  }

  lemma NextProduct(p: nat, d: int)
    requires d >= 1
    ensures 0 <= p * d && (p + 1) * d == p * d + d
  {
  }

  lemma InRangeCut<T>(s: seq<T>, p: nat, pageSize: int)
    requires 1 <= pageSize && p * pageSize < TWO_63
    ensures 0 <= p * pageSize <= (p + 1) * pageSize
    ensures ShowsPage(Cut(s, p, pageSize), (p + 1) * pageSize < |s|)
    ensures Cut(s, p, pageSize).page.items == s[Min(p * pageSize, |s|)..Min((p + 1) * pageSize, |s|)]
  {
    NextProduct(p, pageSize);
    WrapFits(p * pageSize);
  }

  /** hasMore leads a client through exactly max(1, ceil(n / pageSize)) pages. */
  lemma {:induction false} FollowingHasMoreIff<T>(read: int -> Outcome<T>, s: seq<T>, pageSize: int, k: nat)
    requires 1 <= pageSize && |s| < TWO_63 && Serves(read, s, pageSize)
    ensures ReadsPages(read, k) <==> k == PagesFor(|s|, pageSize)
  {
    var n := PagesFor(|s|, pageSize);
    forall p | 0 <= p < n
      ensures ShowsPage(read(p), p < n - 1)
    {
      Times(p, n - 1, pageSize);
      InRangeCut(s, p, pageSize);
      if p < n - 1 {
        Times(p + 1, n - 1, pageSize);
      }
    }
    if ReadsPages(read, k) {
      var p := if k < n then k - 1 else n - 1;
      assert ShowsPage(read(p), p < k - 1) && ShowsPage(read(p), p < n - 1);
    }
  }

  lemma NextPage<T>(s: seq<T>, a: nat, b: nat)
    requires a <= b
    ensures s[..Min(a, |s|)] + s[Min(a, |s|)..Min(b, |s|)] == s[..Min(b, |s|)]
  {
  }

  /** The first k pages hold the first k * pageSize items, none twice. */
  lemma {:induction false} PagesAreAPrefix<T>(read: int -> Outcome<T>, s: seq<T>, pageSize: int, k: nat)
    requires 1 <= pageSize && Serves(read, s, pageSize) && (k >= 1 ==> (k - 1) * pageSize < TWO_63)
    ensures 0 <= k * pageSize && Collected(read, k) == s[..Min(k * pageSize, |s|)]
  {
    if k >= 1 {
      Times(k - 2, k - 1, pageSize);
      PagesAreAPrefix(read, s, pageSize, k - 1);
      InRangeCut(s, k - 1, pageSize);
      NextPage(s, (k - 1) * pageSize, k * pageSize);
    }
  }

  /** Pages partition the list: a client that follows hasMore ends up with
      every item once, in order. */
  lemma {:induction false} PagesPartition<T>(read: int -> Outcome<T>, s: seq<T>, pageSize: int, k: nat)
    requires 1 <= pageSize && |s| < TWO_63 && Serves(read, s, pageSize) && ReadsPages(read, k)
    ensures Collected(read, k) == s
  {
    FollowingHasMoreIff(read, s, pageSize, k);
    PagesAreAPrefix(read, s, pageSize, k);
  }

  // ------------------------------------------------------------------ alerts

  datatype Alert = Alert(startsAt: string, labels: map<string, string>, state: string, fingerprint: string)

  datatype AlertItem = AlertItem(name: string, state: string, severity: string, fingerprint: string)

  /** Indexing a Go map of strings. */
  function At(labels: map<string, string>, key: string): string
  {
    if key in labels then labels[key] else ""
  }

  function SeverityRank(lower: string -> string, s: string): int
  {
    match lower(s)
    case "critical" => 4
    case "page" => 4
    case "error" => 3
    case "high" => 3
    case "warning" => 2
    case "warn" => 2
    case "info" => 1
    case "notice" => 1
    case "low" => 1
    case _ => 0
  }

  function RankOf(lower: string -> string, a: Alert): int
  {
    SeverityRank(lower, At(a.labels, "severity"))
  }

  function AlertLess(lower: string -> string): (Alert, Alert) -> bool
  {
    (a: Alert, b: Alert) =>
      if RankOf(lower, a) != RankOf(lower, b) then RankOf(lower, a) > RankOf(lower, b)
      else StringLess(a.startsAt, b.startsAt)
  }

  function AlertItemOf(a: Alert): AlertItem
  {
    var name := At(a.labels, "alertname");
    AlertItem(if name == "" then "(unnamed)" else name, a.state, At(a.labels, "severity"), a.fingerprint)
  }

  function AlertsPage(lower: string -> string, sort: seq<Alert> -> seq<Alert>, body: Option<seq<Alert>>, page: int, pageSize: int): Outcome<AlertItem>
    requires pageSize >= 1
  {
    match body
    case None => Rejected(UnmarshalFailed)
    case Some(alerts) => Cut(MapSeq(AlertItemOf, sort(alerts)), page, pageSize)
  }

  /** The loop that projects a page of alerts. */
  method ProjectAlerts(alerts: seq<Alert>, start: nat, end: nat) returns (items: seq<AlertItem>)
    requires start <= end <= |alerts|
    ensures items == MapSeq(AlertItemOf, alerts)[start..end]
  {
    items := [];
    for i := start to end
      invariant items == MapSeq(AlertItemOf, alerts)[start..i]
    {
      items := items + [AlertItemOf(alerts[i])];
    }
  }

  /** sort is sort.Slice with the alert ordering; body is the decoded answer. */
  method PaginateAlerts(lower: string -> string, sort: seq<Alert> -> seq<Alert>, body: Option<seq<Alert>>, page: int, pageSize: int)
    returns (r: Outcome<AlertItem>)
    requires pageSize >= 1
    ensures r == AlertsPage(lower, sort, body, page, pageSize)
  {
    if body.None? {
      return Rejected(UnmarshalFailed);
    }
    var alerts := sort(body.value);
    var start := Min(Wrap64(page * pageSize), |alerts|);
    var end := Min(start + pageSize, |alerts|);
    if start < 0 {
      return Panicked;
    }
    var items := ProjectAlerts(alerts, start, end);
    r := Shown(Page(|alerts|, page, pageSize, end < |alerts|, items));
  }

  /** sort.Slice may be used with the alert ordering. */
  lemma {:induction false} AlertLessIsWeakOrder(lower: string -> string)
    ensures WeakOrder(AlertLess(lower))
  {
    StringLessIsTotal();
    var less := AlertLess(lower);
    forall x, y, z | less(x, y) && less(y, z)
      ensures less(x, z)
    {
      if RankOf(lower, x) == RankOf(lower, z) {
        StringLessTransitive(x.startsAt, y.startsAt, z.startsAt);
      }
    }
    forall x, y, z | !less(x, y) && !less(y, z)
      ensures !less(x, z)
    {
      if RankOf(lower, x) == RankOf(lower, z) {
        StringLessNegative(x.startsAt, y.startsAt, z.startsAt);
      }
    }
  }

  /** Some sorting function meets the alert ordering's contract. */
  lemma AlertsCanBeSorted(lower: string -> string)
    ensures exists sort :: Sorts(AlertLess(lower), sort)
  {
    AlertLessIsWeakOrder(lower);
    SomethingSorts(AlertLess(lower));
  }

  /** An alert's severity as it is compared; none is the empty one. */
  function SeverityOf(lower: string -> string, a: Alert): string
  {
    lower(if "severity" in a.labels then a.labels["severity"] else "")
  }

  /** The severities, most severe first; all others come after these. */
  const CLASSES: seq<set<string>> := [{"critical", "page"}, {"error", "high"}, {"warning", "warn"}, {"info", "notice", "low"}]

  predicate InClass(lower: string -> string, a: Alert, k: nat)
    requires k < |CLASSES|
  {
    SeverityOf(lower, a) in CLASSES[k]
  }

  /** a is in some class, and b neither in that nor in one before it. */
  ghost predicate MoreSevere(lower: string -> string, a: Alert, b: Alert)
  {
    exists k: nat | k < |CLASSES| :: InClass(lower, a, k) && forall l: nat | l <= k :: !InClass(lower, b, l)
  }

  ghost predicate SameClass(lower: string -> string, a: Alert, b: Alert)
  {
    forall k: nat | k < |CLASSES| :: InClass(lower, a, k) <==> InClass(lower, b, k)
  }

  /** No alert comes after a less severe one, nor, within a class, after one
      that started later. */
  ghost predicate MostSevereFirst(lower: string -> string, t: seq<Alert>)
  {
    forall i, j | 0 <= i < j < |t| ::
      && !MoreSevere(lower, t[j], t[i])
      && (SameClass(lower, t[i], t[j]) ==> !StringLess(t[j].startsAt, t[i].startsAt))
  }

  lemma RankIsClass(lower: string -> string, a: Alert)
    ensures RankOf(lower, a) ==
      if InClass(lower, a, 0) then 4 else if InClass(lower, a, 1) then 3 else if InClass(lower, a, 2) then 2 else if InClass(lower, a, 3) then 1 else 0
    ensures forall k: nat, l: nat | k < l < |CLASSES| :: !(InClass(lower, a, k) && InClass(lower, a, l))
  {
  }

  lemma SortedAlerts(lower: string -> string, t: seq<Alert>)
    requires Ordered(AlertLess(lower), t)
    ensures MostSevereFirst(lower, t)
  {
    forall i, j | 0 <= i < j < |t|
      ensures !MoreSevere(lower, t[j], t[i])
      ensures SameClass(lower, t[i], t[j]) ==> !StringLess(t[j].startsAt, t[i].startsAt)
    {
      RankIsClass(lower, t[i]);
      RankIsClass(lower, t[j]);
      assert !AlertLess(lower)(t[j], t[i]);
    }
  }

  /** An item shows its alert: its name, if it has one, and three of its fields. */
  predicate ShowsAlert(item: AlertItem, a: Alert)
  {
    && item.state == a.state && item.fingerprint == a.fingerprint
    && item.severity == (if "severity" in a.labels then a.labels["severity"] else "")
    && (if "alertname" in a.labels && a.labels["alertname"] != "" then item.name == a.labels["alertname"] else item.name == "(unnamed)")
  }

  lemma ItemShowsAlert(a: Alert)
    ensures ShowsAlert(AlertItemOf(a), a)
  {
  }

  /** A client that follows hasMore over one body reads k pages exactly when k is
      max(1, ceil(n / pageSize)), and together they show every alert once, most
      severe first and, among equals, oldest first. */
  lemma {:induction false} AlertPagesPartition(lower: string -> string, sort: seq<Alert> -> seq<Alert>, alerts: seq<Alert>, pageSize: int, k: nat)
    requires Sorts(AlertLess(lower), sort) && 1 <= pageSize && |alerts| < TWO_63
    ensures var read := (p: int) => AlertsPage(lower, sort, Some(alerts), p, pageSize);
      && (ReadsPages(read, k) <==> k == PagesFor(|alerts|, pageSize))
      && (ReadsPages(read, k) ==>
            exists t ::
              && multiset(t) == multiset(alerts) && MostSevereFirst(lower, t)
              && |Collected(read, k)| == |t| && forall i | 0 <= i < |t| :: ShowsAlert(Collected(read, k)[i], t[i]))
  {
    var t := sort(alerts);
    var items := MapSeq(AlertItemOf, t);
    var read := (p: int) => AlertsPage(lower, sort, Some(alerts), p, pageSize);
    assert Serves(read, items, pageSize);
    assert multiset(t) == multiset(alerts) && Ordered(AlertLess(lower), t);
    SameSize(t, alerts);
    SortedAlerts(lower, t);
    FollowingHasMoreIff(read, items, pageSize, k);
    if ReadsPages(read, k) {
      PagesPartition(read, items, pageSize, k);
      forall i | 0 <= i < |t|
        ensures ShowsAlert(Collected(read, k)[i], t[i])
      {
        ItemShowsAlert(t[i]);
      }
    }
  }

  // ---------------------------------------------------------------- silences

  datatype Silence = Silence(id: string, state: string, createdBy: string, endsAt: string, comment: string, matchers: nat)

  function SilenceLess(): (Silence, Silence) -> bool
  {
    (a: Silence, b: Silence) => StringLess(a.endsAt, b.endsAt)
  }

  function StateOrDefault(state: string): string
  {
    if state == "" then "active" else state
  }

  predicate KnownState(state: string)
  {
    state == "active" || state == "pending" || state == "expired" || state == "all"
  }

  /** Which silences a state asks for; fold makes strings that
      strings.EqualFold identifies equal. */
  function InState(fold: string -> string, state: string): Silence -> bool
  {
    (s: Silence) => state == "all" || fold(s.state) == fold(state)
  }

  function SilencesPage(fold: string -> string, sort: seq<Silence> -> seq<Silence>, body: Option<seq<Silence>>, state: string, page: int, pageSize: int): Outcome<Silence>
    requires pageSize >= 1
  {
    match body
    case None => Rejected(UnmarshalFailed)
    case Some(silences) =>
      var asked := StateOrDefault(state);
      if !KnownState(asked) then Rejected(UnknownState)
      else Cut(sort(Filter(InState(fold, asked), silences)), page, pageSize)
  }

  method KeepInState(fold: string -> string, silences: seq<Silence>, asked: string) returns (kept: seq<Silence>)
    ensures kept == Filter(InState(fold, asked), silences)
  {
    if asked == "all" {
      FilterAll(InState(fold, asked), silences);
      return silences;
    }
    kept := [];
    for i := 0 to |silences|
      invariant kept == Filter(InState(fold, asked), silences[..i])
    {
      assert silences[..i + 1] == silences[..i] + [silences[i]];
      FilterAppend(InState(fold, asked), silences[..i], silences[i]);
      if fold(silences[i].state) == fold(asked) {
        kept := kept + [silences[i]];
      }
    }
    assert silences[..|silences|] == silences;
  }

  /** Which states are understood, and that none asks for the active ones. */
  lemma StatesMeaning(fold: string -> string, sort: seq<Silence> -> seq<Silence>, silences: seq<Silence>, state: string, page: int, pageSize: int)
    requires pageSize >= 1
    ensures SilencesPage(fold, sort, Some(silences), state, page, pageSize) == Rejected(UnknownState)
       <==> state !in {"", "active", "pending", "expired", "all"}
    ensures SilencesPage(fold, sort, Some(silences), "", page, pageSize) == SilencesPage(fold, sort, Some(silences), "active", page, pageSize)
    ensures forall s: Silence :: InState(fold, "all")(s)
    ensures forall s: Silence | state != "all" :: InState(fold, state)(s) <==> fold(s.state) == fold(state)
  {
  }

  /** sort is sort.Slice by endsAt; the record's projected fields are its item. */
  method PaginateSilences(fold: string -> string, sort: seq<Silence> -> seq<Silence>, body: Option<seq<Silence>>, state: string, page: int, pageSize: int)
    returns (r: Outcome<Silence>)
    requires pageSize >= 1
    ensures r == SilencesPage(fold, sort, body, state, page, pageSize)
  {
    if body.None? {
      return Rejected(UnmarshalFailed);
    }
    var asked := StateOrDefault(state);
    if !KnownState(asked) {
      return Rejected(UnknownState);
    }
    var kept := KeepInState(fold, body.value, asked);
    var silences := sort(kept);
    var start := Min(Wrap64(page * pageSize), |silences|);
    if start < 0 {
      return Panicked;
    }
    var end := Min(start + pageSize, |silences|);
    var items := [];
    for i := start to end
      invariant items == silences[start..i]
    {
      items := items + [silences[i]];
    }
    r := Shown(Page(|silences|, page, pageSize, end < |silences|, items));
  }

  lemma {:induction false} SilenceLessIsWeakOrder()
    ensures WeakOrder(SilenceLess())
  {
    StringLessIsTotal();
    forall x, y, z | !SilenceLess()(x, y) && !SilenceLess()(y, z)
      ensures !SilenceLess()(x, z)
    {
      StringLessNegative(x.endsAt, y.endsAt, z.endsAt);
    }
    forall x, y, z | SilenceLess()(x, y) && SilenceLess()(y, z)
      ensures SilenceLess()(x, z)
    {
      StringLessTransitive(x.endsAt, y.endsAt, z.endsAt);
    }
  }

  /** Some sorting function meets the silence ordering's contract. */
  lemma SilencesCanBeSorted()
    ensures exists sort :: Sorts(SilenceLess(), sort)
  {
    SilenceLessIsWeakOrder();
    SomethingSorts(SilenceLess());
  }

  lemma {:induction false} FilterCounts<T>(keep: T -> bool, s: seq<T>, x: T)
    ensures multiset(Filter(keep, s))[x] == if keep(x) then multiset(s)[x] else 0
  {
    if s != [] {
      FilterCounts(keep, Front(s), x);
      assert s == Front(s) + [Last(s)];
    }
  }

  ghost predicate EndingSoonestFirst(t: seq<Silence>)
  {
    forall i, j | 0 <= i < j < |t| :: !StringLess(t[j].endsAt, t[i].endsAt)
  }

  predicate Expired(s: Silence, now: string)
  {
    StringLess(s.endsAt, now)
  }

  /** Expired silences sink to the bottom: after one there are only others. */
  ghost predicate ExpiredSink(t: seq<Silence>, now: string)
  {
    forall i, j | 0 <= i < j < |t| && Expired(t[i], now) :: Expired(t[j], now)
  }

  /** In this order they do so only where all are expired or none is. */
  lemma ExpiredSinkIff(t: seq<Silence>, now: string)
    requires EndingSoonestFirst(t)
    ensures ExpiredSink(t, now) <==> (forall s | s in t :: Expired(s, now)) || (forall s | s in t :: !Expired(s, now))
  {
    if i, j :| 0 <= i < |t| && 0 <= j < |t| && Expired(t[i], now) && !Expired(t[j], now) {
      if j < i {
        assert !StringLess(t[i].endsAt, t[j].endsAt);
        StringLessNegative(t[i].endsAt, t[j].endsAt, now);
        assert false;
      }
    }
  }

  /** t holds what silences holds in the asked state, as often. */
  ghost predicate HoldsInState(fold: string -> string, state: string, silences: seq<Silence>, t: seq<Silence>)
  {
    forall x :: multiset(t)[x] == if InState(fold, state)(x) then multiset(silences)[x] else 0
  }

  lemma FilterHoldsInState(fold: string -> string, state: string, silences: seq<Silence>)
    ensures HoldsInState(fold, state, silences, Filter(InState(fold, state), silences))
  {
    forall x {
      FilterCounts(InState(fold, state), silences, x);
    }
  }

  lemma {:induction false} FilterShrinks<T>(keep: T -> bool, s: seq<T>)
    ensures |Filter(keep, s)| <= |s|
  {
    if s != [] {
      FilterShrinks(keep, Front(s));
    }
  }

  lemma KeptAndSorted(fold: string -> string, sort: seq<Silence> -> seq<Silence>, silences: seq<Silence>, asked: string)
    requires Sorts(SilenceLess(), sort)
    ensures var t := sort(Filter(InState(fold, asked), silences));
      HoldsInState(fold, asked, silences, t) && EndingSoonestFirst(t) && |t| <= |silences|
  {
    var kept := Filter(InState(fold, asked), silences);
    var t := sort(kept);
    assert multiset(t) == multiset(kept) && Ordered(SilenceLess(), t);
    SameSize(t, kept);
    FilterShrinks(InState(fold, asked), silences);
    FilterHoldsInState(fold, asked, silences);
    assert forall i, j | 0 <= i < j < |t| :: !SilenceLess()(t[j], t[i]);
  }

  /** A client that follows hasMore reads every silence in the asked state, as
      often as the answer holds it, and nothing else; one that ends earlier
      never comes later, so expired silences come first. */
  lemma {:induction false} SilencePagesPartition(fold: string -> string, sort: seq<Silence> -> seq<Silence>, silences: seq<Silence>, state: string, pageSize: int, k: nat)
    requires Sorts(SilenceLess(), sort) && 1 <= pageSize && |silences| < TWO_63 && KnownState(StateOrDefault(state))
    ensures var read := (p: int) => SilencesPage(fold, sort, Some(silences), state, p, pageSize);
      exists t ::
        && HoldsInState(fold, StateOrDefault(state), silences, t) && EndingSoonestFirst(t)
        && (ReadsPages(read, k) <==> k == PagesFor(|t|, pageSize))
        && (ReadsPages(read, k) ==> Collected(read, k) == t)
  {
    var asked := StateOrDefault(state);
    var t := sort(Filter(InState(fold, asked), silences));
    var read := (p: int) => SilencesPage(fold, sort, Some(silences), state, p, pageSize);
    assert Serves(read, t, pageSize);
    KeptAndSorted(fold, sort, silences, asked);
    FollowingHasMoreIff(read, t, pageSize, k);
    if ReadsPages(read, k) {
      PagesPartition(read, t, pageSize, k);
    }
  }

  // ----------------------------------------------------------------- strings

  function StringsPageSize(pageSize: int): (r: int)
    ensures 1 <= r <= 1000
    ensures pageSize <= 0 ==> r == 100
    ensures 1 <= pageSize <= 1000 ==> r == pageSize
    ensures pageSize > 1000 ==> r == 1000
  {
    ClampInt(if pageSize <= 0 then 100 else pageSize, 1, 1000)
  }

  function Matching(lower: string -> string, prefix: string): string -> bool
  {
    v => prefix == "" || Contains(lower(v), lower(prefix))
  }

  function Listing(lower: string -> string, values: seq<string>, prefix: string): seq<string>
  {
    InsertionSort(StringLess, Filter(Matching(lower, prefix), values))
  }

  function StringsPage(lower: string -> string, values: seq<string>, prefix: string, page: int, pageSize: int): Outcome<string>
  {
    Cut(Listing(lower, values, prefix), if page < 0 then 0 else page, StringsPageSize(pageSize))
  }

  /** The filter loop, or the clone when there is no prefix. */
  method Matches(lower: string -> string, values: array<string>, prefix: string) returns (kept: seq<string>)
    ensures kept == Filter(Matching(lower, prefix), values[..])
  {
    if prefix == "" {
      FilterAll(Matching(lower, prefix), values[..]);
      return values[..];
    }
    kept := [];
    for i := 0 to values.Length
      invariant kept == Filter(Matching(lower, prefix), values[..i])
    {
      assert values[..i + 1] == values[..i] + [values[i]];
      FilterAppend(Matching(lower, prefix), values[..i], values[i]);
      if Contains(lower(values[i]), lower(prefix)) {
        kept := kept + [values[i]];
      }
    }
    assert values[..values.Length] == values[..];
  }

  method CutArray(work: array<string>, page: int, pageSize: int) returns (r: Outcome<string>)
    requires pageSize >= 1
    ensures r == Cut(work[..], page, pageSize)
  {
    var start := Min(Wrap64(page * pageSize), work.Length);
    if start < 0 {
      return Panicked;
    }
    var end := Min(start + pageSize, work.Length);
    assert work[start..end] == work[..][start..end];
    r := Shown(Page(work.Length, page, pageSize, end < work.Length, work[start..end]));
  }

  /** The caller's array is not in the frame: it is only read, and the sort
      happens in a copy. */
  method PaginateStrings(lower: string -> string, values: array<string>, prefix: string, page: int, pageSize: int)
    returns (r: Outcome<string>)
    ensures r == StringsPage(lower, values[..], prefix, page, pageSize)
  {
    var kept := Matches(lower, values, prefix);
    var work := new string[|kept|](i requires 0 <= i < |kept| => kept[i]);
    assert work[..] == kept;
    SortStrings(work);
    var size := StringsPageSize(pageSize);
    var at := if page < 0 then 0 else page;
    r := CutArray(work, at, size);
  }

  /** Every page depends on the multiset of the values alone. */
  lemma {:induction false} PagesForgetOrder(lower: string -> string, a: seq<string>, b: seq<string>, prefix: string, page: int, pageSize: int)
    requires multiset(a) == multiset(b)
    ensures StringsPage(lower, a, prefix, page, pageSize) == StringsPage(lower, b, prefix, page, pageSize)
  {
    var fa, fb := Filter(Matching(lower, prefix), a), Filter(Matching(lower, prefix), b);
    forall x
      ensures multiset(fa)[x] == multiset(fb)[x]
    {
      FilterCounts(Matching(lower, prefix), a, x);
      FilterCounts(Matching(lower, prefix), b, x);
    }
    StringLessIsTotal();
    InsertionSortIsSorted(StringLess, fa);
    InsertionSortIsSorted(StringLess, fb);
    assert multiset(fa) == multiset(fb);
    SortedIsUnique(StringLess, InsertionSort(StringLess, fa), InsertionSort(StringLess, fb));
  }

  ghost predicate HoldsMatching(lower: string -> string, prefix: string, values: seq<string>, t: seq<string>)
  {
    forall x :: multiset(t)[x] == if prefix == "" || Inside(lower(prefix), lower(x)) then multiset(values)[x] else 0
  }

  lemma ListingHoldsMatching(lower: string -> string, values: seq<string>, prefix: string)
    ensures HoldsMatching(lower, prefix, values, Listing(lower, values, prefix))
    ensures Ordered(StringLess, Listing(lower, values, prefix))
  {
    StringLessIsTotal();
    InsertionSortIsSorted(StringLess, Filter(Matching(lower, prefix), values));
    forall x
      ensures multiset(Filter(Matching(lower, prefix), values))[x] == if prefix == "" || Inside(lower(prefix), lower(x)) then multiset(values)[x] else 0
    {
      FilterCounts(Matching(lower, prefix), values, x);
      ContainsMeaning(lower(x), lower(prefix));
    }
  }

  /** A client that follows hasMore reads the matching values, each as often as
      it is given, in alphabetical order. */
  lemma {:induction false} StringPagesPartition(lower: string -> string, values: seq<string>, prefix: string, pageSize: int, k: nat)
    requires |values| < TWO_63
    ensures var read := (p: int) => StringsPage(lower, values, prefix, p, pageSize);
      exists t ::
        && HoldsMatching(lower, prefix, values, t) && Ordered(StringLess, t)
        && (ReadsPages(read, k) <==> k == PagesFor(|t|, StringsPageSize(pageSize)))
        && (ReadsPages(read, k) ==> Collected(read, k) == t)
  {
    var t := Listing(lower, values, prefix);
    var read := (p: int) => StringsPage(lower, values, prefix, p, pageSize);
    assert Serves(read, t, StringsPageSize(pageSize));
    FilterShrinks(Matching(lower, prefix), values);
    ListingHoldsMatching(lower, values, prefix);
    FollowingHasMoreIff(read, t, StringsPageSize(pageSize), k);
    if ReadsPages(read, k) {
      PagesPartition(read, t, StringsPageSize(pageSize), k);
    }
  }
}
