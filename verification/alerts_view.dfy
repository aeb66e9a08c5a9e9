/**
 * The alerts page: counts per alert type, the search and type filters, the
 * three sort orders, the 20-alert display limit and the relative-time label.
 */
module AlertsView {
  import opened Wrappers
  import opened Text
  import opened Js
  import opened Sorting
  import opened StoreModel
  import opened SystemStore

  /** At most this many alerts are shown. */
  const AlertsLimit := 20

  // ---------------------------------------------------------------------------
  // Filters

  /** The `type` text of an alert. */
  function KindName(k: AlertType): string {
    match k
    case Danger => "danger"
    case Warning => "warning"
    case Info => "info"
  }

  function OfKind(alerts: seq<Alert>, k: AlertType): seq<Alert> {
    Filter(alerts, (a: Alert) => a.kind == k)
  }

  datatype Stats = Stats(total: nat, danger: nat, warning: nat, info: nat)

  /** `alertStats`. */
  function AlertStats(alerts: seq<Alert>): (s: Stats)
    ensures s.total == |alerts|
    ensures s.danger + s.warning + s.info == s.total
  {
    StatsAddUp(alerts);
    Stats(|alerts|, |OfKind(alerts, Danger)|, |OfKind(alerts, Warning)|, |OfKind(alerts, Info)|)
  }

  /** Every alert has one of the three types, so the three counts add up to
      the total. */
  lemma {:induction false} StatsAddUp(alerts: seq<Alert>)
    ensures |OfKind(alerts, Danger)| + |OfKind(alerts, Warning)| + |OfKind(alerts, Info)| == |alerts|
  {
    if alerts != [] {
      StatsAddUp(alerts[1..]);
    }
  }

  /** The search test: the message or the sensor contains the query, ignoring
      case. */
  predicate Matches(a: Alert, query: string) {
    Includes(ToLower(a.message), ToLower(query)) || Includes(ToLower(a.sensor), ToLower(query))
  }

  /** The search filter's test. */
  function SearchTest(query: string): Alert -> bool {
    (a: Alert) => Matches(a, query)
  }

  /** The type filter's test. */
  function TypeTest(filterType: string): Alert -> bool {
    (a: Alert) => KindName(a.kind) == filterType
  }

  /** Whether an alert passes both filters (a filter that is off passes all). */
  predicate Passes(a: Alert, query: string, filterType: string) {
    (query == "" || Matches(a, query)) && (filterType == "all" || KindName(a.kind) == filterType)
  }

  /** The two filters: a non-empty query keeps the matching alerts, and a
      type other than "all" keeps the alerts of that type, each as often as
      it occurs. */
  function Filtered(alerts: seq<Alert>, query: string, filterType: string): (r: seq<Alert>)
    ensures forall a :: a in r ==> (query != "" ==> Matches(a, query)) && (filterType != "all" ==> KindName(a.kind) == filterType)
    ensures forall a :: (a in alerts && (query == "" || Matches(a, query))
                         && (filterType == "all" || KindName(a.kind) == filterType)) ==> a in r
    ensures forall a :: multiset(r)[a] == if Passes(a, query, filterType) then multiset(alerts)[a] else 0
    ensures query == "" && filterType == "all" ==> r == alerts
  {
    var searched := FilterWhen(query != "", alerts, SearchTest(query));
    FilterWhen(filterType != "all", searched, TypeTest(filterType))
  }

  /** The filters keep the store's order: filtering a concatenation filters
      each part. */
  lemma FilteredAppend(a: seq<Alert>, b: seq<Alert>, query: string, filterType: string)
    ensures Filtered(a + b, query, filterType) == Filtered(a, query, filterType) + Filtered(b, query, filterType)
  {
    FilterWhenAppend(query != "", a, b, SearchTest(query));
    FilterWhenAppend(filterType != "all", FilterWhen(query != "", a, SearchTest(query)),
                     FilterWhen(query != "", b, SearchTest(query)), TypeTest(filterType));
  }

  // ---------------------------------------------------------------------------
  // Sort orders

  /** Code-unit order on text. */
  predicate StrLess(a: string, b: string) {
    if |a| == 0 then |b| > 0
    else if |b| == 0 then false
    else if a[0] != b[0] then a[0] < b[0]
    else StrLess(a[1..], b[1..])
  }

  lemma {:induction false} StrLessIrreflexive(a: string)
    ensures !StrLess(a, a)
  {
    if |a| > 0 {
      StrLessIrreflexive(a[1..]);
    }
  }

  lemma {:induction false} StrLessTotal(a: string, b: string)
    ensures StrLess(a, b) || a == b || StrLess(b, a)
  {
    if |a| > 0 && |b| > 0 && a[0] == b[0] {
      StrLessTotal(a[1..], b[1..]);
      if a[1..] == b[1..] {
        assert a == [a[0]] + a[1..] && b == [b[0]] + b[1..];
      }
    }
  }

  lemma {:induction false} StrLessTransitive(a: string, b: string, c: string)
    requires StrLess(a, b) && StrLess(b, c)
    ensures StrLess(a, c)
  {
    if |a| > 0 && a[0] == b[0] && b[0] == c[0] {
      StrLessTransitive(a[1..], b[1..], c[1..]);
    }
  }

  /** Text order is a strict total order, so the comparator on sensor names is
      a strict weak order. */
  lemma StrLessOrder()
    ensures forall a, b :: StrLess(a, b) ==> !StrLess(b, a)
    ensures forall a, b, c :: StrLess(a, c) ==> StrLess(a, b) || StrLess(b, c)
  {
    forall a, b | StrLess(a, b) ensures !StrLess(b, a) {
      if StrLess(b, a) {
        StrLessTransitive(a, b, a);
        StrLessIrreflexive(a);
      }
    }
    forall a, b, c | StrLess(a, c) ensures StrLess(a, b) || StrLess(b, c) {
      StrLessTotal(a, b);
      StrLessTotal(b, c);
      if StrLess(b, a) && StrLess(c, b) {
        StrLessTransitive(c, b, a);
        StrLessTransitive(a, c, a);
        StrLessIrreflexive(a);
      }
    }
  }

  /** The place of a type in the "type" order: danger 3, warning 2, info 1. */
  function TypeRank(k: AlertType): int {
    match k
    case Danger => 3
    case Warning => 2
    case Info => 1
  }

  /** `before(a, b)` holds when the page's comparator returns a negative
      number for `(a, b)`: newest first, most serious first, sensor names in
      ascending order; an unknown order compares everything equal. */
  function Before(sortBy: string): (Alert, Alert) -> bool {
    match sortBy
    case "timestamp" => (a: Alert, b: Alert) => a.timestamp > b.timestamp
    case "type" => (a: Alert, b: Alert) => TypeRank(a.kind) > TypeRank(b.kind)
    case "sensor" => (a: Alert, b: Alert) => StrLess(a.sensor, b.sensor)
    case _ => (a: Alert, b: Alert) => false
  }

  lemma BeforeOrder(sortBy: string)
    ensures StrictWeakOrder(Before(sortBy))
  {
    if sortBy == "sensor" {
      StrLessOrder();
    }
  }

  /** With an unknown order nothing moves. */
  lemma {:induction false} UnknownOrderKeeps(s: seq<Alert>, sortBy: string)
    requires sortBy !in {"timestamp", "type", "sensor"}
    ensures SortBy(s, Before(sortBy)) == s
  {
    if s != [] {
      UnknownOrderKeeps(s[..|s| - 1], sortBy);
      assert s[..|s| - 1] + [s[|s| - 1]] == s;
    }
  }

  // ---------------------------------------------------------------------------
  // The view

  datatype View = View(shown: seq<Alert>, totalFiltered: nat)

  /** The filtered, sorted and limited list, and the count before limiting. */
  function PageView(alerts: seq<Alert>, query: string, filterType: string, sortBy: string): (v: View)
    ensures v.totalFiltered == |Filtered(alerts, query, filterType)|
    ensures |v.shown| == Min(AlertsLimit, v.totalFiltered)
  {
    var sorted := SortBy(Filtered(alerts, query, filterType), Before(sortBy));
    assert |sorted| == |Filtered(alerts, query, filterType)| by {
      assert |multiset(sorted)| == |multiset(Filtered(alerts, query, filterType))|;
    }
    View(Take(sorted, AlertsLimit), |sorted|)
  }

  /** A prefix of an ordered list is ordered. */
  lemma PrefixSorted<T>(s: seq<T>, n: nat, before: (T, T) -> bool)
    requires SortedBy(s, before) && n <= |s|
    ensures SortedBy(s[..n], before)
  {
  }

  /** An element of an ordered list that is not in its first `n` places
      (counting repeats) does not have to precede any of them. */
  lemma PrefixComesFirst<T>(s: seq<T>, n: nat, before: (T, T) -> bool)
    requires SortedBy(s, before) && n <= |s|
    ensures forall a, k :: 0 <= k < n && multiset(s[..n])[a] < multiset(s)[a] ==> !before(a, s[k])
  {
    assert s == s[..n] + s[n..];
    forall a, k | 0 <= k < n && multiset(s[..n])[a] < multiset(s)[a] ensures !before(a, s[k]) {
      assert a in s[n..];
      var j :| 0 <= j < |s| - n && s[n..][j] == a;
      assert s[n + j] == a;
    }
  }

  /** The 20 shown alerts come first in the chosen order: no alert that
      passes the filters but is left out has to precede a shown one. */
  lemma ViewShowsFirst(alerts: seq<Alert>, query: string, filterType: string, sortBy: string)
    ensures var v := PageView(alerts, query, filterType, sortBy);
      var f := Filtered(alerts, query, filterType);
      forall a, k :: 0 <= k < |v.shown| && multiset(v.shown)[a] < multiset(f)[a] ==>
        !Before(sortBy)(a, v.shown[k])
  {
    var f := Filtered(alerts, query, filterType);
    var sorted := SortBy(f, Before(sortBy));
    var v := PageView(alerts, query, filterType, sortBy);
    BeforeOrder(sortBy);
    SortBySorted(f, Before(sortBy));
    assert v.shown == sorted[..|v.shown|];
    PrefixComesFirst(sorted, |v.shown|, Before(sortBy));
  }

  /** The shown alerts are in the chosen order. */
  lemma ViewSorted(alerts: seq<Alert>, query: string, filterType: string, sortBy: string)
    ensures SortedBy(PageView(alerts, query, filterType, sortBy).shown, Before(sortBy))
  {
    var sorted := SortBy(Filtered(alerts, query, filterType), Before(sortBy));
    BeforeOrder(sortBy);
    SortBySorted(Filtered(alerts, query, filterType), Before(sortBy));
    PrefixSorted(sorted, |PageView(alerts, query, filterType, sortBy).shown|, Before(sortBy));
  }

  /** The shown alerts are among those that pass both filters, and are all
      of them when no more than 20 pass. */
  lemma ViewContents(alerts: seq<Alert>, query: string, filterType: string, sortBy: string)
    ensures multiset(PageView(alerts, query, filterType, sortBy).shown) <= multiset(Filtered(alerts, query, filterType))
    ensures PageView(alerts, query, filterType, sortBy).totalFiltered <= AlertsLimit ==>
      multiset(PageView(alerts, query, filterType, sortBy).shown) == multiset(Filtered(alerts, query, filterType))
  {
    var f := Filtered(alerts, query, filterType);
    var sorted := SortBy(f, Before(sortBy));
    TakeMultiset(sorted, AlertsLimit);
  }

  /** Every shown alert passes the search and the type filter. */
  lemma ViewFiltered(alerts: seq<Alert>, query: string, filterType: string, sortBy: string)
    ensures forall a :: a in PageView(alerts, query, filterType, sortBy).shown ==>
      (query != "" ==> Matches(a, query)) && (filterType != "all" ==> KindName(a.kind) == filterType)
  {
    ViewContents(alerts, query, filterType, sortBy);
    forall a | a in PageView(alerts, query, filterType, sortBy).shown
      ensures a in Filtered(alerts, query, filterType)
    {
      assert a in multiset(PageView(alerts, query, filterType, sortBy).shown);
    }
  }

  /** The "timestamp" order shows the newest alert first. */
  lemma NewestFirst(alerts: seq<Alert>)
    ensures var shown := PageView(alerts, "", "all", "timestamp").shown;
      forall i, j :: 0 <= i < j < |shown| ==> shown[i].timestamp >= shown[j].timestamp
  {
    ViewSorted(alerts, "", "all", "timestamp");
  }

  /** The "type" order puts every danger alert ahead of every warning, and
      every warning ahead of every info alert. */
  lemma MostSeriousFirst(alerts: seq<Alert>, query: string, filterType: string)
    ensures var shown := PageView(alerts, query, filterType, "type").shown;
      forall i, j :: 0 <= i < j < |shown| ==> TypeRank(shown[i].kind) >= TypeRank(shown[j].kind)
  {
    ViewSorted(alerts, query, filterType, "type");
  }

  // ---------------------------------------------------------------------------
  // Sorting the store's own list

  /** The number of active alerts depends only on which alerts there are. */
  lemma {:induction false} ActiveCountAppend(a: seq<Alert>, b: seq<Alert>)
    ensures ActiveCount(a + b) == ActiveCount(a) + ActiveCount(b)
  {
    if a != [] {
      ActiveCountAppend(a[1..], b);
      assert (a + b)[1..] == a[1..] + b;
    } else {
      assert a + b == b;
    }
  }

  /** Taking one alert out of a list takes its share out of the count. */
  lemma ActiveCountRemove(b: seq<Alert>, j: int)
    requires 0 <= j < |b|
    ensures ActiveCount(b) == ActiveCount([b[j]]) + ActiveCount(b[..j] + b[j + 1..])
  {
    var p, x, q := b[..j], [b[j]], b[j + 1..];
    assert b == p + (x + q);
    ActiveCountAppend(p, x + q);
    ActiveCountAppend(x, q);
    ActiveCountAppend(p, q);
  }

  /** Taking one alert out of a list takes it out of the multiset. */
  lemma MultisetRemove(b: seq<Alert>, j: int)
    requires 0 <= j < |b|
    ensures multiset(b[..j] + b[j + 1..]) == multiset(b) - multiset{b[j]}
  {
    assert b == b[..j] + [b[j]] + b[j + 1..];
  }

  lemma {:induction false} ActiveCountPermutation(a: seq<Alert>, b: seq<Alert>)
    requires multiset(a) == multiset(b)
    ensures ActiveCount(a) == ActiveCount(b)
    decreases |a|
  {
    if a != [] {
      assert a[0] in multiset(b);
      var j :| 0 <= j < |b| && b[j] == a[0];
      var rest := b[..j] + b[j + 1..];
      MultisetRemove(b, j);
      assert a == [a[0]] + a[1..];
      assert multiset(a[1..]) == multiset(rest);
      ActiveCountPermutation(a[1..], rest);
      ActiveCountRemove(b, j);
      ActiveCountAppend([a[0]], a[1..]);
    }
  }

  lemma ModeOfPermutation(a: seq<Alert>, b: seq<Alert>)
    requires multiset(a) == multiset(b)
    ensures ModeOf(a) == ModeOf(b)
  {
    forall k ensures HasActive(a, k) <==> HasActive(b, k) {
      if HasActive(a, k) {
        var i :| 0 <= i < |a| && !a[i].acknowledged && a[i].kind == k;
        assert a[i] in multiset(b);
      }
      if HasActive(b, k) {
        var i :| 0 <= i < |b| && !b[i].acknowledged && b[i].kind == k;
        assert b[i] in multiset(a);
      }
    }
  }

  /** The page as written: with an empty search and the "all" filter the
      list it sorts is the store's own array, so rendering reorders the
      store's alerts in place. The counts and the mode survive; the
      newest-first order that `addAlert`'s cut relies on does not. */
  method RenderAsWritten(store: Store, query: string, filterType: string, sortBy: string)
    returns (v: View)
    requires store.Valid()
    modifies store`alerts
    ensures store.Valid()
    ensures v == PageView(old(store.alerts), query, filterType, sortBy)
    ensures query == "" && filterType == "all" ==> store.alerts == SortBy(old(store.alerts), Before(sortBy))
    ensures !(query == "" && filterType == "all") ==> store.alerts == old(store.alerts)
  {
    v := PageView(store.alerts, query, filterType, sortBy);
    if query == "" && filterType == "all" {
      var sorted := SortBy(store.alerts, Before(sortBy));
      ActiveCountPermutation(store.alerts, sorted);
      ModeOfPermutation(store.alerts, sorted);
      assert |sorted| == |store.alerts| by {
        assert |multiset(sorted)| == |multiset(store.alerts)|;
      }
      store.alerts := sorted;
    }
  }

  /** The input that shows it: a newer warning ahead of an older danger
      alert. Sorting by type swaps them in the store, so the list is no
      longer newest first and the next `addAlert` on a full list drops the
      newer warning instead of the older danger alert. */
  lemma TypeSortReordersStore(w: Alert, d: Alert)
    requires w.kind == Warning && d.kind == Danger && w.timestamp > d.timestamp
    ensures SortBy([w, d], Before("type")) == [d, w]
    ensures SortBy([w, d], Before("type")) != [w, d]
    ensures !SortedBy(SortBy([w, d], Before("type")), Before("timestamp"))
  {
    assert [w, d][..1] == [w];
    assert SortBy([w], Before("type")) == [w] by {
      assert [w][..0] == [];
    }
    assert Before("type")(d, w);
  }

  /** The page as intended: a pure view on a copy of the list, which leaves
      the store's alerts alone and still shows them in the chosen order. */
  method Render(store: Store, query: string, filterType: string, sortBy: string) returns (v: View)
    requires store.Valid()
    ensures v == PageView(store.alerts, query, filterType, sortBy)
    ensures SortedBy(v.shown, Before(sortBy))
  {
    v := PageView(store.alerts, query, filterType, sortBy);
    ViewSorted(store.alerts, query, filterType, sortBy);
  }

  // ---------------------------------------------------------------------------
  // Relative time

  datatype Ago = Days(n: nat) | Hours(n: nat) | Minutes(n: nat) | Moments

  const MinuteMs := 60000
  const HourMs := 3600000
  const DayMs := 86400000

  /** Dividing by `a` and then by `b`, rounding down each time, is dividing
      by `a * b` once. */
  lemma DivDiv(d: int, a: int, b: int)
    requires a > 0 && b > 0
    ensures (d / a) / b == d / (a * b)
  {
    var q := d / a;
    var q2 := q / b;
    assert d == a * q + d % a;
    assert q == b * q2 + q % b;
    assert d == (a * b) * q2 + (a * (q % b) + d % a) by {
      assert a * q == a * (b * q2) + a * (q % b);
    }
    assert 0 <= a * (q % b) + d % a < a * b by {
      MulMono(a, 0, q % b);
      MulMono(a, q % b, b - 1);
      assert a * (b - 1) == a * b - a;
    }
    DivUnique(d, a * b, q2, a * (q % b) + d % a);
  }

  lemma DivUnique(d: int, m: int, q: int, r: int)
    requires m > 0 && d == m * q + r && 0 <= r < m
    ensures d / m == q
  {
    var q0 := d / m;
    assert m * q0 + d % m == m * q + r;
    assert m * (q0 - q) == r - d % m;
    MulAtLeast(m, q0 - q);
  }

  /** A non-zero multiple of `m` is at least `m` away from zero. */
  lemma {:induction false} MulAtLeast(m: int, k: int)
    requires m > 0
    ensures k >= 1 ==> m * k >= m
    ensures k <= -1 ==> m * k <= -m
    decreases if k < 0 then -k else k
  {
    if k > 1 {
      MulAtLeast(m, k - 1);
      assert m * k == m * (k - 1) + m;
    } else if k < -1 {
      MulAtLeast(m, k + 1);
      assert m * k == m * (k + 1) - m;
    }
  }

  /** Multiplying by a non-negative number keeps the order. */
  lemma MulMono(a: int, x: int, y: int)
    requires a >= 0 && x <= y
    ensures a * x <= a * y
  {
    assert a * y - a * x == a * (y - x);
  }

  /** `getTimeAgo` on the age in milliseconds: whole minutes, then whole
      hours of those, then whole days of those; the largest that is
      non-zero is reported. A timestamp in the future reads as a few
      seconds ago. */
  function TimeAgo(diff: int): (r: Ago)
    ensures r.Days? <==> diff >= DayMs
    ensures r.Hours? <==> HourMs <= diff < DayMs
    ensures r.Minutes? <==> MinuteMs <= diff < HourMs
    ensures r.Moments? <==> diff < MinuteMs
    ensures r.Days? ==> r.n == diff / DayMs
    ensures r.Hours? ==> r.n == diff / HourMs
    ensures r.Minutes? ==> r.n == diff / MinuteMs
  {
    var minutes := diff / MinuteMs;
    var hours := minutes / 60;
    var days := hours / 24;
    DivDiv(diff, MinuteMs, 60);
    DivDiv(diff, HourMs, 24);
    if days > 0 then Days(days)
    else if hours > 0 then Hours(hours)
    else if minutes > 0 then Minutes(minutes)
    else Moments
  }

  /** The label: the count and the unit, plural above one. */
  function AgoText(ago: Ago): (t: string)
    ensures StartsWith(t, "hace ")
    ensures !ago.Moments? ==> (t[|t| - 1] == 's' <==> ago.n > 1)
  {
    match ago
    case Days(n) => "hace " + NatText(n) + " día" + (if n > 1 then "s" else "")
    case Hours(n) => "hace " + NatText(n) + " hora" + (if n > 1 then "s" else "")
    case Minutes(n) => "hace " + NatText(n) + " minuto" + (if n > 1 then "s" else "")
    case Moments => "hace unos segundos"
  }
}
