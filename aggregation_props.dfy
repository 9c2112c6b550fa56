/** What the license loop of `Main` guarantees, proved about its reference
    definition `Aggregation.Run`. */
module AggregationProperties {
  import opened Options
  import opened Dictionaries
  import opened Steam
  import opened PicsInfo
  import opened Aggregation

  // ---------------------------------------------------------------------
  // Classification and one counted app.

  /** A package is free exactly when it bills as FreeOnDemand or is package 0. */
  lemma FreeClassification(p: PackageInfo)
    ensures IsFree(p) <==> p.billingType == FreeOnDemand || p.id == 0
    ensures PaymentType(IsFree(p)) == (if IsFree(p) then "free" else "paid")
  {
  }

  lemma TwoOccurrences(a: string, b: string, k: string)
    ensures Occurrences([a, b], k) == (if k == a then 1 else 0) + (if k == b then 1 else 0)
  {
    assert [a, b][..1] == [a];
    assert [a][..0] == [];
    assert Occurrences([a], k) == if k == a then 1 else 0;
  }

  /** An app already owned in the partition changes nothing. Otherwise it is
      appended to that partition's owned list and exactly two different keys,
      the payment type and `"{appType}_{paymentType}"`, go up by one, both in
      the day's `Entries` and in the totals. */
  lemma CountedAppBumpsTwoKeys(c: Counters, appid: nat, isFree: bool, apps: map<nat, AppInfo>)
    requires Valid(c.totals) && appid in apps
    ensures var r := CountApp(c, appid, isFree, apps);
      var payment := PaymentType(isFree);
      var typeKey := TypeKey(AppTypeOf(apps[appid]), payment);
      && payment != typeKey
      && (appid in Owned(c, isFree) ==> r == c)
      && (appid !in Owned(c, isFree) ==>
            && Owned(r, isFree) == Owned(c, isFree) + [appid]
            && Owned(r, !isFree) == Owned(c, !isFree)
            && (forall k :: GetOr(r.entries, k, 0) ==
                  GetOr(c.entries, k, 0) + (if k == payment || k == typeKey then 1 else 0))
            && (forall k :: GetOr(r.totals.items, k, 0) ==
                  GetOr(c.totals.items, k, 0) + (if k == payment || k == typeKey then 1 else 0)))
  {
    var payment := PaymentType(isFree);
    var typeKey := TypeKey(AppTypeOf(apps[appid]), payment);
    assert |typeKey| > |payment|;
    if appid !in Owned(c, isFree) {
      var c' := if isFree then c.(appsOwnedFree := c.appsOwnedFree + [appid])
                else c.(appsOwned := c.appsOwned + [appid]);
      CountTypesCounts(c', [payment, typeKey]);
      forall k ensures Occurrences([payment, typeKey], k) == if k == payment || k == typeKey then 1 else 0 {
        TwoOccurrences(payment, typeKey, k);
      }
    }
  }

  // ---------------------------------------------------------------------
  // Ownership: each (app, partition) pair is counted once.

  /** The apps of the packages of the counted licenses of one partition. */
  ghost function GrantedApps(ls: seq<License>, packages: map<nat, PackageInfo>, isFree: bool): set<nat> {
    if ls == [] then {}
    else
      var l := ls[|ls| - 1];
      GrantedApps(ls[..|ls| - 1], packages, isFree) + Granted(l, packages, isFree)
  }

  ghost function Granted(l: License, packages: map<nat, PackageInfo>, isFree: bool): set<nat> {
    if Counted(l) && l.packageId in packages && IsFree(packages[l.packageId]) == isFree
    then Elements(packages[l.packageId].apps)
    else {}
  }

  /** The owned list and the payment-type total of a partition grow together. */
  ghost predicate OwnershipAgrees(c: Counters, isFree: bool) {
    && Distinct(Owned(c, isFree))
    && GetOr(c.totals.items, PaymentType(isFree), 0) == |Owned(c, isFree)|
  }

  lemma CountAppOwnership(m: Counters, appid: nat, isFree: bool, apps: map<nat, AppInfo>)
    requires Valid(m.totals) && appid in apps && OwnershipAgrees(m, isFree)
    ensures var r := CountApp(m, appid, isFree, apps);
      && OwnershipAgrees(r, isFree)
      && Elements(Owned(r, isFree)) == Elements(Owned(m, isFree)) + {appid}
      && Owned(r, !isFree) == Owned(m, !isFree)
      && GetOr(r.totals.items, PaymentType(!isFree), 0) == GetOr(m.totals.items, PaymentType(!isFree), 0)
  {
    CountedAppBumpsTwoKeys(m, appid, isFree, apps);
    var o := Owned(m, isFree);
    if appid !in o {
      DistinctAppend(o, appid);
      assert Elements(o + [appid]) == Elements(o) + {appid};
      assert |TypeKey(AppTypeOf(apps[appid]), PaymentType(isFree))| > |PaymentType(!isFree)|;
    }
  }

  lemma {:induction false} CountAppsOwnership(c: Counters, ids: seq<nat>, isFree: bool, apps: map<nat, AppInfo>)
    requires Valid(c.totals) && forall a | a in ids :: a in apps
    requires OwnershipAgrees(c, isFree)
    ensures var r := CountApps(c, ids, isFree, apps);
      && OwnershipAgrees(r, isFree)
      && Elements(Owned(r, isFree)) == Elements(Owned(c, isFree)) + Elements(ids)
      && Owned(r, !isFree) == Owned(c, !isFree)
      && GetOr(r.totals.items, PaymentType(!isFree), 0) == GetOr(c.totals.items, PaymentType(!isFree), 0)
  {
    if ids != [] {
      var init := ids[..|ids| - 1];
      var appid := ids[|ids| - 1];
      assert forall a | a in init :: a in ids;
      CountAppsOwnership(c, init, isFree, apps);
      CountAppOwnership(CountApps(c, init, isFree, apps), appid, isFree, apps);
      ElementsOfLast(ids);
    }
  }

  lemma StepOwnership(t: Tally, l: License, packages: map<nat, PackageInfo>, apps: map<nat, AppInfo>)
    requires Valid(t.days) && Valid(t.totals) && Resolvable(l, packages, apps)
    requires OwnershipAgrees(Counters(map[], t.totals, t.appsOwned, t.appsOwnedFree), true)
    requires OwnershipAgrees(Counters(map[], t.totals, t.appsOwned, t.appsOwnedFree), false)
    ensures var r := Step(t, l, packages, apps);
      && OwnershipAgrees(Counters(map[], r.totals, r.appsOwned, r.appsOwnedFree), true)
      && OwnershipAgrees(Counters(map[], r.totals, r.appsOwned, r.appsOwnedFree), false)
      && Elements(r.appsOwnedFree) == Elements(t.appsOwnedFree) + Granted(l, packages, true)
      && Elements(r.appsOwned) == Elements(t.appsOwned) + Granted(l, packages, false)
  {
    if Counted(l) {
      var date := DateOf(l.timeCreated);
      var days := if date in t.days.items then t.days else Put(t.days, date, DayInfo(map[]));
      var package := packages[l.packageId];
      var c := Counters(days.items[date].entries, t.totals, t.appsOwned, t.appsOwnedFree);
      CountAppsOwnership(c, package.apps, IsFree(package), apps);
    }
  }

  /** Over the whole run the two owned lists never repeat an app; each
      holds exactly the apps granted by that partition's counted licenses;
      and the `"free"` and `"paid"` totals are their lengths. */
  lemma {:induction false} RunOwnership(ls: seq<License>, packages: map<nat, PackageInfo>, apps: map<nat, AppInfo>)
    requires AllResolvable(ls, packages, apps)
    ensures var t := Run(ls, packages, apps);
      && Distinct(t.appsOwned) && Distinct(t.appsOwnedFree)
      && Elements(t.appsOwnedFree) == GrantedApps(ls, packages, true)
      && Elements(t.appsOwned) == GrantedApps(ls, packages, false)
      && GetOr(t.totals.items, "free", 0) == |t.appsOwnedFree|
      && GetOr(t.totals.items, "paid", 0) == |t.appsOwned|
  {
    if ls != [] {
      var init := ls[..|ls| - 1];
      var l := ls[|ls| - 1];
      assert forall x | x in init :: x in ls;
      assert l in ls;
      RunOwnership(init, packages, apps);
      StepOwnership(Run(init, packages, apps), l, packages, apps);
    }
  }

  /** The `"free"` total counts the distinct apps of the free licenses, the
      `"paid"` total those of the paid ones: the same app can count once in
      each. */
  lemma TotalsCountDistinctApps(licenses: seq<License>, packages: map<nat, PackageInfo>, apps: map<nat, AppInfo>)
    requires Resolves(licenses, packages, apps)
    ensures var t := Summarize(licenses, packages, apps);
      && GetOr(t.totals.items, "free", 0) == |GrantedApps(Ordered(licenses), packages, true)|
      && GetOr(t.totals.items, "paid", 0) == |GrantedApps(Ordered(licenses), packages, false)|
  {
    var t := Summarize(licenses, packages, apps);
    RunOwnership(Ordered(licenses), packages, apps);
    DistinctCardinality(t.appsOwnedFree);
    DistinctCardinality(t.appsOwned);
  }

  // ---------------------------------------------------------------------
  // Totals are the sums of the days.

  function EntryCount(key: string): DayInfo -> int {
    (d: DayInfo) => GetOr(d.entries, key, 0)
  }

  /** The count of `key` summed over all days, a day without the key counting 0. */
  function DaySum(days: Dict<int, DayInfo>, key: string): int {
    SumOver(days.keys, days.items, EntryCount(key))
  }

  lemma {:induction false} CountAppsSameDelta(c: Counters, ids: seq<nat>, isFree: bool, apps: map<nat, AppInfo>)
    requires Valid(c.totals) && forall a | a in ids :: a in apps
    ensures var r := CountApps(c, ids, isFree, apps);
      forall k :: GetOr(r.entries, k, 0) - GetOr(c.entries, k, 0) == GetOr(r.totals.items, k, 0) - GetOr(c.totals.items, k, 0)
  {
    if ids != [] {
      var init := ids[..|ids| - 1];
      assert forall a | a in init :: a in ids;
      CountAppsSameDelta(c, init, isFree, apps);
      CountedAppBumpsTwoKeys(CountApps(c, init, isFree, apps), ids[|ids| - 1], isFree, apps);
    }
  }

  /** A new, empty day adds nothing to any sum. */
  lemma DaySumNewDay(days: Dict<int, DayInfo>, date: int, key: string)
    requires Valid(days) && date !in days.items
    ensures DaySum(Put(days, date, DayInfo(map[])), key) == DaySum(days, key)
  {
    var f := EntryCount(key);
    SumOverUnchanged(days.keys, days.items, date, DayInfo(map[]), f);
    SumOverAppend(days.keys, date, days.items[date := DayInfo(map[])], f);
  }

  /** Rewriting an existing day replaces its contribution. */
  lemma DaySumRewrite(days: Dict<int, DayInfo>, date: int, d: DayInfo, key: string)
    requires Valid(days) && date in days.items
    ensures DaySum(Put(days, date, d), key) ==
            DaySum(days, key) - GetOr(days.items[date].entries, key, 0) + GetOr(d.entries, key, 0)
  {
    SumOverUpdate(days.keys, days.items, date, d, EntryCount(key));
  }

  ghost predicate TotalsMatchDays(t: Tally) {
    forall k :: GetOr(t.totals.items, k, 0) == DaySum(t.days, k)
  }

  lemma StepTotalsMatchDays(t: Tally, l: License, packages: map<nat, PackageInfo>, apps: map<nat, AppInfo>)
    requires Valid(t.days) && Valid(t.totals) && Resolvable(l, packages, apps)
    requires TotalsMatchDays(t)
    ensures TotalsMatchDays(Step(t, l, packages, apps))
  {
    if Counted(l) {
      var date := DateOf(l.timeCreated);
      var days := if date in t.days.items then t.days else Put(t.days, date, DayInfo(map[]));
      var package := packages[l.packageId];
      var c := Counters(days.items[date].entries, t.totals, t.appsOwned, t.appsOwnedFree);
      var r := CountApps(c, package.apps, IsFree(package), apps);
      CountAppsSameDelta(c, package.apps, IsFree(package), apps);
      forall k ensures GetOr(r.totals.items, k, 0) == DaySum(Put(days, date, DayInfo(r.entries)), k) {
        if date !in t.days.items {
          DaySumNewDay(t.days, date, k);
        }
        DaySumRewrite(days, date, DayInfo(r.entries), k);
      }
    }
  }

  /** Keys only ever go up together in a day and in the totals, so every
      total is the sum over the days of that day's count. */
  lemma {:induction false} TotalsAreDaySums(ls: seq<License>, packages: map<nat, PackageInfo>, apps: map<nat, AppInfo>)
    requires AllResolvable(ls, packages, apps)
    ensures TotalsMatchDays(Run(ls, packages, apps))
  {
    if ls != [] {
      var init := ls[..|ls| - 1];
      var l := ls[|ls| - 1];
      assert forall x | x in init :: x in ls;
      assert l in ls;
      TotalsAreDaySums(init, packages, apps);
      StepTotalsMatchDays(Run(init, packages, apps), l, packages, apps);
    }
  }

  // ---------------------------------------------------------------------
  // Counts are positive.

  ghost predicate Positive(m: map<string, int>) {
    forall k | k in m :: m[k] >= 1
  }

  ghost predicate DaysPositive(days: Dict<int, DayInfo>) {
    forall d | d in days.items :: Positive(days.items[d].entries)
  }

  lemma {:induction false} CountTypesPositive(c: Counters, types: seq<string>)
    requires Valid(c.totals) && Positive(c.entries) && Positive(c.totals.items)
    ensures Positive(CountTypes(c, types).entries) && Positive(CountTypes(c, types).totals.items)
  {
    if types != [] {
      CountTypesPositive(c, types[..|types| - 1]);
    }
  }

  lemma {:induction false} CountAppsPositive(c: Counters, ids: seq<nat>, isFree: bool, apps: map<nat, AppInfo>)
    requires Valid(c.totals) && forall a | a in ids :: a in apps
    requires Positive(c.entries) && Positive(c.totals.items)
    ensures Positive(CountApps(c, ids, isFree, apps).entries) && Positive(CountApps(c, ids, isFree, apps).totals.items)
  {
    if ids != [] {
      var init := ids[..|ids| - 1];
      var appid := ids[|ids| - 1];
      assert forall a | a in init :: a in ids;
      CountAppsPositive(c, init, isFree, apps);
      var m := CountApps(c, init, isFree, apps);
      if appid !in Owned(m, isFree) {
        var m' := if isFree then m.(appsOwnedFree := m.appsOwnedFree + [appid])
                  else m.(appsOwned := m.appsOwned + [appid]);
        CountTypesPositive(m', TypesFor(apps[appid], isFree));
      }
    }
  }

  lemma StepPositive(t: Tally, l: License, packages: map<nat, PackageInfo>, apps: map<nat, AppInfo>)
    requires Valid(t.days) && Valid(t.totals) && Resolvable(l, packages, apps)
    requires DaysPositive(t.days) && Positive(t.totals.items)
    ensures DaysPositive(Step(t, l, packages, apps).days) && Positive(Step(t, l, packages, apps).totals.items)
  {
    if Counted(l) {
      var date := DateOf(l.timeCreated);
      var days := if date in t.days.items then t.days else Put(t.days, date, DayInfo(map[]));
      var package := packages[l.packageId];
      var c := Counters(days.items[date].entries, t.totals, t.appsOwned, t.appsOwnedFree);
      CountAppsPositive(c, package.apps, IsFree(package), apps);
    }
  }

  /** Every count stored in a day or in the totals is at least 1. */
  lemma {:induction false} RunCountsPositive(ls: seq<License>, packages: map<nat, PackageInfo>, apps: map<nat, AppInfo>)
    requires AllResolvable(ls, packages, apps)
    ensures DaysPositive(Run(ls, packages, apps).days) && Positive(Run(ls, packages, apps).totals.items)
  {
    if ls != [] {
      var init := ls[..|ls| - 1];
      var l := ls[|ls| - 1];
      assert forall x | x in init :: x in ls;
      assert l in ls;
      RunCountsPositive(init, packages, apps);
      StepPositive(Run(init, packages, apps), l, packages, apps);
    }
  }

  // ---------------------------------------------------------------------
  // Days.

  /** The dates of the counted licenses of `ls`. */
  ghost function CountedDates(ls: seq<License>): set<int> {
    set l | l in ls && Counted(l) :: DateOf(l.timeCreated)
  }

  /** A counted license adds its date to the days, at the end when it is new. */
  lemma StepDays(t: Tally, l: License, packages: map<nat, PackageInfo>, apps: map<nat, AppInfo>)
    requires Valid(t.days) && Valid(t.totals) && Resolvable(l, packages, apps)
    ensures var r := Step(t, l, packages, apps);
      && r.days.items.Keys == t.days.items.Keys + (if Counted(l) then {DateOf(l.timeCreated)} else {})
      && r.days.keys == if Counted(l) && DateOf(l.timeCreated) !in t.days.items
                        then t.days.keys + [DateOf(l.timeCreated)] else t.days.keys
  {
  }

  /** A day exists exactly for the date of every counted license, even one
      whose apps were all owned already; no other date gets a day. */
  lemma {:induction false} DaysAreLicenseDates(ls: seq<License>, packages: map<nat, PackageInfo>, apps: map<nat, AppInfo>)
    requires AllResolvable(ls, packages, apps)
    ensures Run(ls, packages, apps).days.items.Keys == CountedDates(ls)
  {
    if ls != [] {
      var init := ls[..|ls| - 1];
      var l := ls[|ls| - 1];
      assert ls == init + [l];
      assert forall x | x in init :: x in ls;
      assert l in ls;
      DaysAreLicenseDates(init, packages, apps);
      StepDays(Run(init, packages, apps), l, packages, apps);
      if Counted(l) {
        assert CountedDates(ls) == CountedDates(init) + {DateOf(l.timeCreated)};
      } else {
        assert CountedDates(ls) == CountedDates(init);
      }
    }
  }

  ghost predicate StrictlyIncreasing(s: seq<int>) {
    forall i, j | 0 <= i < j < |s| :: s[i] < s[j]
  }

  lemma AppendIncreasing(s: seq<int>, x: int)
    requires StrictlyIncreasing(s) && forall i | 0 <= i < |s| :: s[i] < x
    ensures StrictlyIncreasing(s + [x])
  {
    forall i, j | 0 <= i < j < |s + [x]| ensures (s + [x])[i] < (s + [x])[j] {
      assert (s + [x])[i] == s[i];
    }
  }

  lemma DateMonotone(a: nat, b: nat)
    requires a <= b
    ensures DateOf(a) <= DateOf(b)
  {
  }

  /** Every earlier date lies no later than the date of a license created last. */
  lemma EarlierDates(init: seq<License>, l: License)
    requires SortedByTime(init + [l])
    ensures forall x | x in CountedDates(init) :: x <= DateOf(l.timeCreated)
  {
    forall x | x in CountedDates(init) ensures x <= DateOf(l.timeCreated) {
      var l' :| l' in init && Counted(l') && DateOf(l'.timeCreated) == x;
      var j :| 0 <= j < |init| && init[j] == l';
      assert (init + [l])[j] == l' && (init + [l])[|init|] == l;
      DateMonotone(l'.timeCreated, l.timeCreated);
    }
  }

  lemma StepAscending(t: Tally, init: seq<License>, l: License, packages: map<nat, PackageInfo>, apps: map<nat, AppInfo>)
    requires Valid(t.days) && Valid(t.totals) && Resolvable(l, packages, apps)
    requires StrictlyIncreasing(t.days.keys) && t.days.items.Keys == CountedDates(init)
    requires SortedByTime(init + [l])
    ensures StrictlyIncreasing(Step(t, l, packages, apps).days.keys)
  {
    StepDays(t, l, packages, apps);
    var date := DateOf(l.timeCreated);
    if Counted(l) && date !in t.days.items {
      EarlierDates(init, l);
      forall i | 0 <= i < |t.days.keys| ensures t.days.keys[i] < date {
        assert t.days.keys[i] in t.days.items;
      }
      AppendIncreasing(t.days.keys, date);
    }
  }

  /** With the licenses in creation order, days are enumerated in ascending
      date order. */
  lemma {:induction false} DaysAscending(ls: seq<License>, packages: map<nat, PackageInfo>, apps: map<nat, AppInfo>)
    requires AllResolvable(ls, packages, apps) && SortedByTime(ls)
    ensures StrictlyIncreasing(Run(ls, packages, apps).days.keys)
  {
    if ls != [] {
      var init := ls[..|ls| - 1];
      var l := ls[|ls| - 1];
      assert ls == init + [l];
      assert forall x | x in init :: x in ls;
      assert l in ls;
      DaysAscending(init, packages, apps);
      DaysAreLicenseDates(init, packages, apps);
      StepAscending(Run(init, packages, apps), init, l, packages, apps);
    }
  }

  lemma OrderedKeepsLive(licenses: seq<License>, l: License)
    requires l in licenses && NotExpired(l)
    ensures l in Ordered(licenses)
  {
    var live := Filter(licenses, NotExpired);
    FilterMembers(licenses, NotExpired);
    assert l in multiset(live);
    assert l in multiset(SortByTime(live));
  }

  /** The days of the whole aggregation: one per date of a license that is
      neither expired nor family-shared, in ascending order. */
  lemma SummarizedDays(licenses: seq<License>, packages: map<nat, PackageInfo>, apps: map<nat, AppInfo>)
    requires Resolves(licenses, packages, apps)
    ensures var t := Summarize(licenses, packages, apps);
      && t.days.items.Keys == (set l | l in licenses && NotExpired(l) && Counted(l) :: DateOf(l.timeCreated))
      && StrictlyIncreasing(t.days.keys)
  {
    var ordered := Ordered(licenses);
    DaysAreLicenseDates(ordered, packages, apps);
    DaysAscending(ordered, packages, apps);
    forall l | l in licenses && NotExpired(l) ensures l in ordered {
      OrderedKeepsLive(licenses, l);
    }
  }

  // ---------------------------------------------------------------------
  // Dropped licenses.

  lemma {:induction false} FilterConcat(a: seq<License>, b: seq<License>, p: License -> bool)
    ensures Filter(a + b, p) == Filter(a, p) + Filter(b, p)
  {
    if a != [] {
      assert (a + b)[1..] == a[1..] + b;
      FilterConcat(a[1..], b, p);
    } else {
      assert a + b == b;
    }
  }

  lemma {:induction false} FiltersCommute(s: seq<License>, p: License -> bool, q: License -> bool)
    ensures Filter(Filter(s, p), q) == Filter(Filter(s, q), p)
  {
    if s != [] {
      FiltersCommute(s[1..], p, q);
      var head := if p(s[0]) then [s[0]] else [];
      FilterConcat(head, Filter(s[1..], p), q);
      var head' := if q(s[0]) then [s[0]] else [];
      FilterConcat(head', Filter(s[1..], q), p);
    }
  }

  lemma FilterSingleton(x: License, p: License -> bool)
    ensures Filter([x], p) == if p(x) then [x] else []
  {
    assert [x][1..] == [];
  }

  lemma FilterInsertFront(x: License, s: seq<License>, p: License -> bool)
    requires SortedByTime(s) && s != [] && x.timeCreated <= s[0].timeCreated
    ensures Filter([x] + s, p) == if p(x) then Insert(x, Filter(s, p)) else Filter(s, p)
  {
    FilterConcat([x], s, p);
    FilterSingleton(x, p);
    var fs := Filter(s, p);
    if p(x) {
      assert Filter([x] + s, p) == [x] + fs;
      if fs == [] {
        assert Insert(x, fs) == [x];
      } else {
        FilterMembers(s, p);
        assert fs[0] in s;
        var j :| 0 <= j < |s| && s[j] == fs[0];
        assert s[0].timeCreated <= s[j].timeCreated;
        assert Insert(x, fs) == [x] + fs;
      }
    } else {
      assert Filter([x] + s, p) == [] + fs;
      assert [] + fs == fs;
    }
  }

  lemma InsertBehind(x: License, s: seq<License>)
    requires s != [] && x.timeCreated > s[0].timeCreated
    ensures Insert(x, s) == [s[0]] + Insert(x, s[1..])
  {
  }

  lemma FilterInsertBehind(x: License, s: seq<License>, p: License -> bool)
    requires s != [] && x.timeCreated > s[0].timeCreated
    requires Filter(Insert(x, s[1..]), p) == if p(x) then Insert(x, Filter(s[1..], p)) else Filter(s[1..], p)
    ensures Filter(Insert(x, s), p) == if p(x) then Insert(x, Filter(s, p)) else Filter(s, p)
  {
    var rest := s[1..];
    InsertBehind(x, s);
    FilterConcat([s[0]], Insert(x, rest), p);
    FilterSingleton(s[0], p);
    var fr := Filter(rest, p);
    assert Filter(s, p) == (if p(s[0]) then [s[0]] else []) + fr;
    if p(s[0]) {
      var fs := [s[0]] + fr;
      assert Filter(s, p) == fs;
      assert Filter(Insert(x, s), p) == [s[0]] + Filter(Insert(x, rest), p);
      if p(x) {
        assert fs[1..] == fr;
        InsertBehind(x, fs);
      }
    } else {
      assert Filter(s, p) == fr;
      assert Filter(Insert(x, s), p) == Filter(Insert(x, rest), p);
    }
  }

  lemma {:induction false} FilterInsert(x: License, s: seq<License>, p: License -> bool)
    requires SortedByTime(s)
    ensures Filter(Insert(x, s), p) == if p(x) then Insert(x, Filter(s, p)) else Filter(s, p)
  {
    if s == [] {
      FilterSingleton(x, p);
    } else if x.timeCreated <= s[0].timeCreated {
      FilterInsertFront(x, s, p);
    } else {
      assert SortedByTime(s[1..]);
      FilterInsert(x, s[1..], p);
      FilterInsertBehind(x, s, p);
    }
  }

  /** Filtering commutes with the stable sort. */
  lemma {:induction false} FilterSort(s: seq<License>, p: License -> bool)
    ensures Filter(SortByTime(s), p) == SortByTime(Filter(s, p))
  {
    if s != [] {
      FilterSort(s[1..], p);
      FilterInsert(s[0], SortByTime(s[1..]), p);
      if p(s[0]) {
        assert Filter(s, p) == [s[0]] + Filter(s[1..], p);
        assert Filter(s, p)[1..] == Filter(s[1..], p);
      } else {
        assert Filter(s, p) == Filter(s[1..], p);
      }
    }
  }

  /** Licenses created at second `t`. */
  function CreatedAt(t: nat): License -> bool {
    (l: License) => l.timeCreated == t
  }

  /** Sorting licenses that were all created at the same second changes nothing. */
  lemma {:induction false} SortSameTime(s: seq<License>, t: nat)
    requires forall i | 0 <= i < |s| :: s[i].timeCreated == t
    ensures SortByTime(s) == s
  {
    if s != [] {
      SortSameTime(s[1..], t);
      assert s == [s[0]] + s[1..];
    }
  }

  /** The sort is stable: licenses created at the same second keep their
      relative order. */
  lemma SortStable(s: seq<License>, t: nat)
    ensures Filter(SortByTime(s), CreatedAt(t)) == Filter(s, CreatedAt(t))
  {
    FilterSort(s, CreatedAt(t));
    FilterMembers(s, CreatedAt(t));
    var f := Filter(s, CreatedAt(t));
    assert forall i | 0 <= i < |f| :: f[i] in f;
    SortSameTime(f, t);
  }

  lemma FilterResolvable(ls: seq<License>, p: License -> bool, packages: map<nat, PackageInfo>, apps: map<nat, AppInfo>)
    requires AllResolvable(ls, packages, apps)
    ensures AllResolvable(Filter(ls, p), packages, apps)
  {
    FilterMembers(ls, p);
  }

  /** The loop skips family-sharing licenses: running it over the counted
      licenses alone gives the same result. */
  lemma {:induction false} RunSkipsUncounted(ls: seq<License>, packages: map<nat, PackageInfo>, apps: map<nat, AppInfo>)
    requires AllResolvable(ls, packages, apps)
    ensures AllResolvable(Filter(ls, Counted), packages, apps)
    ensures Run(ls, packages, apps) == Run(Filter(ls, Counted), packages, apps)
  {
    FilterResolvable(ls, Counted, packages, apps);
    if ls != [] {
      var init := ls[..|ls| - 1];
      var l := ls[|ls| - 1];
      assert ls == init + [l];
      assert forall x | x in init :: x in ls;
      RunSkipsUncounted(init, packages, apps);
      FilterConcat(init, [l], Counted);
      var fi := Filter(init, Counted);
      if Counted(l) {
        assert Filter(ls, Counted) == fi + [l];
        assert (fi + [l])[..|fi|] == fi;
      } else {
        assert Filter(ls, Counted) == fi;
      }
    }
  }

  /** Summarizing through the counted, live licenses only. */
  lemma SummarizeCounted(licenses: seq<License>, packages: map<nat, PackageInfo>, apps: map<nat, AppInfo>)
    requires Resolves(licenses, packages, apps)
    ensures AllResolvable(SortByTime(Filter(Filter(licenses, Counted), NotExpired)), packages, apps)
    ensures Summarize(licenses, packages, apps) ==
            Run(SortByTime(Filter(Filter(licenses, Counted), NotExpired)), packages, apps)
  {
    var ordered := Ordered(licenses);
    RunSkipsUncounted(ordered, packages, apps);
    FilterSort(Filter(licenses, NotExpired), Counted);
    FiltersCommute(licenses, NotExpired, Counted);
  }

  /** An expired license, or a family-sharing one, wherever it stands in the
      license list, changes neither the days, nor the totals, nor the owned
      lists. */
  lemma DroppedLicenseChangesNothing(xs: seq<License>, l: License, ys: seq<License>,
                                     packages: map<nat, PackageInfo>, apps: map<nat, AppInfo>)
    requires Expired in l.flags || l.paymentMethod == AuthorizedDevice
    requires Resolves(xs + [l] + ys, packages, apps)
    ensures Resolves(xs + ys, packages, apps)
    ensures Summarize(xs + [l] + ys, packages, apps) == Summarize(xs + ys, packages, apps)
  {
    var with := xs + [l] + ys;
    var without := xs + ys;
    assert forall x | x in without :: x in with;
    FilterConcat(xs + [l], ys, Counted);
    FilterConcat(xs, [l], Counted);
    FilterConcat(xs, ys, Counted);
    FilterConcat(xs + [l], ys, NotExpired);
    FilterConcat(xs, [l], NotExpired);
    FilterConcat(xs, ys, NotExpired);
    if Expired in l.flags {
      assert Filter(with, NotExpired) == Filter(without, NotExpired);
    } else {
      assert Filter(with, Counted) == Filter(without, Counted);
      SummarizeCounted(with, packages, apps);
      SummarizeCounted(without, packages, apps);
    }
  }
}
