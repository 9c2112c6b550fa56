/** The license aggregation of `Program.Main`: licenses that are not expired,
    in ascending creation time, each counted once per app and partition into
    the `Entries` of its day and into the run's totals.

    `Run` is the reference definition, a left fold of `Step` over the
    ordered licenses; the method `Aggregate` is the loop of the program and
    is proved to compute it. The lemmas state what the fold guarantees. */
module Aggregation {
  import opened Options
  import opened Dictionaries
  import opened Steam
  import opened PicsInfo

  // ---------------------------------------------------------------------
  // Ordering the license list: `Where(!Expired).OrderBy(TimeCreated)`.

  predicate NotExpired(l: License) {
    Expired !in l.flags
  }

  /** Family-sharing licenses are skipped inside the loop. */
  predicate Counted(l: License) {
    l.paymentMethod != AuthorizedDevice
  }

  /** `Where(p)`: the elements of `s` that satisfy `p`, in order. */
  function Filter(s: seq<License>, p: License -> bool): seq<License> {
    if s == [] then [] else (if p(s[0]) then [s[0]] else []) + Filter(s[1..], p)
  }

  /** The filtered sequence holds exactly the elements that satisfy `p`. */
  lemma {:induction false} FilterMembers(s: seq<License>, p: License -> bool)
    ensures forall x | x in Filter(s, p) :: x in s && p(x)
    ensures forall x | x in s && p(x) :: x in Filter(s, p)
  {
    if s != [] {
      FilterMembers(s[1..], p);
      assert forall x | x in s[1..] :: x in s;
      assert forall x | x in s :: x == s[0] || x in s[1..];
    }
  }

  ghost predicate SortedByTime(s: seq<License>) {
    forall i, j | 0 <= i < j < |s| :: s[i].timeCreated <= s[j].timeCreated
  }

  /** Inserts `x` before the first element created no earlier than it. */
  function Insert(x: License, s: seq<License>): (r: seq<License>)
    ensures |r| == |s| + 1
    ensures multiset(r) == multiset(s) + multiset{x}
    ensures r[0] == x || (s != [] && r[0] == s[0])
    ensures SortedByTime(s) ==> SortedByTime(r)
  {
    if s == [] then [x]
    else if x.timeCreated <= s[0].timeCreated then [x] + s
    else
      var rest := Insert(x, s[1..]);
      assert s == [s[0]] + s[1..];
      InsertBehindHead(x, s[0], s[1..], rest);
      [s[0]] + rest
  }

  /** Keeping the head in front of an insertion keeps the order, when the
      inserted license is created after the head. */
  lemma InsertBehindHead(x: License, head: License, tail: seq<License>, rest: seq<License>)
    requires head.timeCreated < x.timeCreated && multiset(rest) == multiset(tail) + multiset{x}
    ensures SortedByTime([head] + tail) && SortedByTime(rest) ==> SortedByTime([head] + rest)
  {
    if !(SortedByTime([head] + tail) && SortedByTime(rest)) {
      return;
    }
    forall j | 0 <= j < |rest| ensures head.timeCreated <= rest[j].timeCreated {
      assert rest[j] in multiset(rest);
      if rest[j] != x {
        assert rest[j] in multiset(tail);
        var k :| 0 <= k < |tail| && tail[k] == rest[j];
        assert ([head] + tail)[0] == head && ([head] + tail)[k + 1] == tail[k];
      }
    }
    var r := [head] + rest;
    forall i, j | 0 <= i < j < |r| ensures r[i].timeCreated <= r[j].timeCreated {
      if i > 0 {
        assert r[i] == rest[i - 1] && r[j] == rest[j - 1];
      } else {
        assert r[j] == rest[j - 1];
      }
    }
  }

  /** `OrderBy(x => x.TimeCreated)`: a stable sort, here insertion sort. */
  function SortByTime(s: seq<License>): (r: seq<License>)
    ensures SortedByTime(r)
    ensures multiset(r) == multiset(s)
  {
    if s == [] then []
    else
      assert s == [s[0]] + s[1..];
      Insert(s[0], SortByTime(s[1..]))
  }

  /** The licenses the loop of `Main` walks over, in its order. */
  function Ordered(licenses: seq<License>): (r: seq<License>)
    ensures SortedByTime(r)
    ensures forall l | l in r :: l in licenses && NotExpired(l)
  {
    var live := Filter(licenses, NotExpired);
    FilterMembers(licenses, NotExpired);
    var r := SortByTime(live);
    assert forall l | l in r :: l in live by {
      forall l | l in r ensures l in live {
        assert l in multiset(r);
      }
    }
    r
  }

  // ---------------------------------------------------------------------
  // Classification and counter keys.

  /** `TemporaryTypes`: billing types counted as free. */
  const TemporaryTypes: seq<int> := [FreeOnDemand]

  predicate IsFree(p: PackageInfo) {
    p.billingType in TemporaryTypes || p.id == 0
  }

  function PaymentType(isFree: bool): string {
    if isFree then "free" else "paid"
  }

  /** `app?.Type ?? "unknown"` */
  function AppTypeOf(app: AppInfo): string {
    match app.appType
    case Some(t) => t
    case None => "unknown"
  }

  function TypeKey(appType: string, paymentType: string): string {
    appType + "_" + paymentType
  }

  /** The two keys a counted app bumps: `paymentType` and `"{appType}_{paymentType}"`. */
  function TypesFor(app: AppInfo, isFree: bool): seq<string> {
    [PaymentType(isFree), TypeKey(AppTypeOf(app), PaymentType(isFree))]
  }

  // ---------------------------------------------------------------------
  // The state of the loop and one step of it.

  /** DayInfo: the counters of one day. */
  datatype DayInfo = DayInfo(entries: map<string, int>)

  /** The AllInfo of DayInfo.cs, the hand-off to the outputs. */
  datatype DailyReport = DailyReport(totals: Dict<string, int>, days: Dict<int, DayInfo>)

  /** The collections the loop of `Main` updates. */
  datatype Tally = Tally(
    days: Dict<int, DayInfo>,
    totals: Dict<string, int>,
    appsOwned: seq<nat>,
    appsOwnedFree: seq<nat>)

  /** What the app loop of one license updates: that day's `Entries`, the
      totals and the two owned lists. */
  datatype Counters = Counters(
    entries: map<string, int>,
    totals: Dict<string, int>,
    appsOwned: seq<nat>,
    appsOwnedFree: seq<nat>)

  const SecondsPerDay: nat := 86400

  /** `TimeCreated.Date`, as a day number. */
  function DateOf(time: nat): int {
    time / SecondsPerDay
  }

  /** The number of times `k` occurs in `s`. */
  function Occurrences(s: seq<string>, k: string): nat {
    if s == [] then 0
    else Occurrences(s[..|s| - 1], k) + if s[|s| - 1] == k then 1 else 0
  }

  /** The insert-or-increment of one key, in a day's `Entries` and in the totals. */
  function Bump(c: Counters, key: string): (r: Counters)
    requires Valid(c.totals)
    ensures Valid(r.totals)
  {
    var entries := if key !in c.entries then c.entries[key := 1] else c.entries[key := c.entries[key] + 1];
    var totals := if key !in c.totals.items then Put(c.totals, key, 1) else Put(c.totals, key, c.totals.items[key] + 1);
    c.(entries := entries, totals := totals)
  }

  /** `foreach (var type in types)`. */
  function CountTypes(c: Counters, types: seq<string>): (r: Counters)
    requires Valid(c.totals)
    ensures Valid(r.totals)
    ensures r.appsOwned == c.appsOwned && r.appsOwnedFree == c.appsOwnedFree
  {
    if types == [] then c
    else Bump(CountTypes(c, types[..|types| - 1]), types[|types| - 1])
  }

  /** Each key is bumped as often as it is listed, in `Entries` and in the
      totals alike, and no key that is not listed appears. */
  lemma {:induction false} CountTypesCounts(c: Counters, types: seq<string>)
    requires Valid(c.totals)
    ensures var r := CountTypes(c, types);
      && (forall k :: GetOr(r.entries, k, 0) == GetOr(c.entries, k, 0) + Occurrences(types, k))
      && (forall k :: GetOr(r.totals.items, k, 0) == GetOr(c.totals.items, k, 0) + Occurrences(types, k))
      && (forall k | k in r.entries :: k in c.entries || k in types)
      && (forall k | k in r.totals.items :: k in c.totals.items || k in types)
  {
    if types != [] {
      var init := types[..|types| - 1];
      var key := types[|types| - 1];
      CountTypesCounts(c, init);
      var m := CountTypes(c, init);
      var r := Bump(m, key);
      assert r == CountTypes(c, types);
      forall k ensures GetOr(r.entries, k, 0) == GetOr(m.entries, k, 0) + (if k == key then 1 else 0)
        && GetOr(r.totals.items, k, 0) == GetOr(m.totals.items, k, 0) + (if k == key then 1 else 0) {
      }
      assert forall k | k in init :: k in types;
    }
  }

  function Owned(c: Counters, isFree: bool): seq<nat> {
    if isFree then c.appsOwnedFree else c.appsOwned
  }

  /** The body of the app loop for one app of a package. */
  function CountApp(c: Counters, appid: nat, isFree: bool, apps: map<nat, AppInfo>): Counters
    requires Valid(c.totals) && appid in apps
  {
    if appid in Owned(c, isFree) then c
    else
      var c' := if isFree then c.(appsOwnedFree := c.appsOwnedFree + [appid])
                else c.(appsOwned := c.appsOwned + [appid]);
      CountTypes(c', TypesFor(apps[appid], isFree))
  }

  /** The app loop of one license. */
  function CountApps(c: Counters, appIds: seq<nat>, isFree: bool, apps: map<nat, AppInfo>): (r: Counters)
    requires Valid(c.totals) && forall a | a in appIds :: a in apps
    ensures Valid(r.totals)
  {
    if appIds == [] then c
    else CountApp(CountApps(c, appIds[..|appIds| - 1], isFree, apps), appIds[|appIds| - 1], isFree, apps)
  }

  /** The indexers `conn.Packages[...]` and `conn.Apps[...]` throw on a
      missing key; a license the loop reaches must find its package and the
      package's apps. */
  ghost predicate Resolvable(l: License, packages: map<nat, PackageInfo>, apps: map<nat, AppInfo>) {
    Counted(l) ==>
      && l.packageId in packages
      && forall a | a in packages[l.packageId].apps :: a in apps
  }

  ghost predicate AllResolvable(ls: seq<License>, packages: map<nat, PackageInfo>, apps: map<nat, AppInfo>) {
    forall l | l in ls :: Resolvable(l, packages, apps)
  }

  /** Every license that is not expired is resolvable. */
  ghost predicate Resolves(licenses: seq<License>, packages: map<nat, PackageInfo>, apps: map<nat, AppInfo>) {
    forall l | l in licenses && NotExpired(l) :: Resolvable(l, packages, apps)
  }

  /** One iteration of the license loop. */
  function Step(t: Tally, l: License, packages: map<nat, PackageInfo>, apps: map<nat, AppInfo>): (r: Tally)
    requires Valid(t.days) && Valid(t.totals) && Resolvable(l, packages, apps)
    ensures Valid(r.days) && Valid(r.totals)
  {
    if !Counted(l) then t
    else
      var date := DateOf(l.timeCreated);
      var days := if date in t.days.items then t.days else Put(t.days, date, DayInfo(map[]));
      var package := packages[l.packageId];
      var c := CountApps(Counters(days.items[date].entries, t.totals, t.appsOwned, t.appsOwnedFree),
                         package.apps, IsFree(package), apps);
      Tally(Put(days, date, DayInfo(c.entries)), c.totals, c.appsOwned, c.appsOwnedFree)
  }

  function Initial(): (t: Tally)
    ensures Valid(t.days) && Valid(t.totals)
  {
    Tally(Empty(), Empty(), [], [])
  }

  /** The license loop over `ls`, in order. */
  function Run(ls: seq<License>, packages: map<nat, PackageInfo>, apps: map<nat, AppInfo>): (r: Tally)
    requires AllResolvable(ls, packages, apps)
    ensures Valid(r.days) && Valid(r.totals)
  {
    if ls == [] then Initial()
    else Step(Run(ls[..|ls| - 1], packages, apps), ls[|ls| - 1], packages, apps)
  }

  /** The whole aggregation of `Main` over the license list. */
  function Summarize(licenses: seq<License>, packages: map<nat, PackageInfo>, apps: map<nat, AppInfo>): Tally
    requires Resolves(licenses, packages, apps)
  {
    Run(Ordered(licenses), packages, apps)
  }

  // ---------------------------------------------------------------------
  // The loop of `Main`.

  method Aggregate(licenses: seq<License>, packages: map<nat, PackageInfo>, apps: map<nat, AppInfo>)
    returns (data: DailyReport, appsOwned: seq<nat>, appsOwnedFree: seq<nat>)
    requires Resolves(licenses, packages, apps)
    ensures Tally(data.days, data.totals, appsOwned, appsOwnedFree) == Summarize(licenses, packages, apps)
  {
    appsOwned, appsOwnedFree := [], [];
    var days: Dict<int, DayInfo> := Empty();
    var totals: Dict<string, int> := Empty();
    var ordered := Ordered(licenses);
    var i := 0;
    while i < |ordered|
      invariant 0 <= i <= |ordered|
      invariant Valid(days) && Valid(totals)
      invariant Tally(days, totals, appsOwned, appsOwnedFree) == Run(ordered[..i], packages, apps)
    {
      assert ordered[..i + 1][..i] == ordered[..i];
      var license := ordered[i];
      assert license in ordered;
      if license.paymentMethod == AuthorizedDevice {
        i := i + 1;
        continue;
      }
      days, totals, appsOwned, appsOwnedFree := CountLicense(days, totals, appsOwned, appsOwnedFree, license, packages, apps);
      i := i + 1;
    }
    assert ordered[..i] == ordered;
    data := DailyReport(totals, days);
  }

  /** The body of the license loop for a license that is counted. */
  method CountLicense(days0: Dict<int, DayInfo>, totals0: Dict<string, int>, appsOwned0: seq<nat>, appsOwnedFree0: seq<nat>,
                      license: License, packages: map<nat, PackageInfo>, apps: map<nat, AppInfo>)
    returns (days: Dict<int, DayInfo>, totals: Dict<string, int>, appsOwned: seq<nat>, appsOwnedFree: seq<nat>)
    requires Valid(days0) && Valid(totals0) && Resolvable(license, packages, apps) && Counted(license)
    ensures Tally(days, totals, appsOwned, appsOwnedFree)
      == Step(Tally(days0, totals0, appsOwned0, appsOwnedFree0), license, packages, apps)
  {
    days := days0;
    var date := DateOf(license.timeCreated);
    if date !in days.items {
      days := Put(days, date, DayInfo(map[]));
    }
    var di := days.items[date];
    var package := packages[license.packageId];
    var isfree := package.billingType in TemporaryTypes || package.id == 0;
    var c := CountPackageApps(Counters(di.entries, totals0, appsOwned0, appsOwnedFree0), package.apps, isfree, apps);
    days := Put(days, date, DayInfo(c.entries));
    totals, appsOwned, appsOwnedFree := c.totals, c.appsOwned, c.appsOwnedFree;
  }

  /** The app loop of `Main` for one license's package. */
  method CountPackageApps(c: Counters, appIds: seq<nat>, isfree: bool, apps: map<nat, AppInfo>) returns (r: Counters)
    requires Valid(c.totals) && forall a | a in appIds :: a in apps
    ensures r == CountApps(c, appIds, isfree, apps)
  {
    var entries, totals, appsOwned, appsOwnedFree := c.entries, c.totals, c.appsOwned, c.appsOwnedFree;
    var paymentType := if isfree then "free" else "paid";
    var typesPackage := [paymentType];
    var j := 0;
    while j < |appIds|
      invariant 0 <= j <= |appIds|
      invariant Valid(totals)
      invariant Counters(entries, totals, appsOwned, appsOwnedFree) == CountApps(c, appIds[..j], isfree, apps)
    {
      assert appIds[..j + 1][..j] == appIds[..j];
      var counted := CountOneApp(Counters(entries, totals, appsOwned, appsOwnedFree), appIds[j], isfree, typesPackage, apps);
      entries, totals, appsOwned, appsOwnedFree := counted.entries, counted.totals, counted.appsOwned, counted.appsOwnedFree;
      j := j + 1;
    }
    assert appIds[..j] == appIds;
    r := Counters(entries, totals, appsOwned, appsOwnedFree);
  }

  /** The body of the app loop for one app: an app already owned under
      this payment type is skipped, any other is recorded and counted. */
  method CountOneApp(c: Counters, appid: nat, isfree: bool, typesPackage: seq<string>, apps: map<nat, AppInfo>)
    returns (r: Counters)
    requires Valid(c.totals) && appid in apps && typesPackage == [PaymentType(isfree)]
    ensures r == CountApp(c, appid, isfree, apps)
  {
    var appsOwned, appsOwnedFree := c.appsOwned, c.appsOwnedFree;
    if !isfree && appid in appsOwned {
      return c;
    } else if isfree && appid in appsOwnedFree {
      return c;
    }
    if isfree {
      appsOwnedFree := appsOwnedFree + [appid];
    } else {
      appsOwned := appsOwned + [appid];
    }
    var types := typesPackage;
    var app := apps[appid];
    var appType := match app.appType case Some(t) => t case None => "unknown";
    types := types + [appType + "_" + PaymentType(isfree)];
    assert types == TypesFor(app, isfree);
    r := BumpKeys(c.(appsOwned := appsOwned, appsOwnedFree := appsOwnedFree), types);
  }

  /** `foreach (var type in types)`: the insert-or-increment of each key. */
  method BumpKeys(c: Counters, types: seq<string>) returns (r: Counters)
    requires Valid(c.totals)
    ensures r == CountTypes(c, types)
  {
    var entries, totals := c.entries, c.totals;
    var k := 0;
    while k < |types|
      invariant 0 <= k <= |types|
      invariant Valid(totals)
      invariant c.(entries := entries, totals := totals) == CountTypes(c, types[..k])
    {
      assert types[..k + 1][..k] == types[..k];
      var key := types[k];
      if key !in entries {
        entries := entries[key := 1];
      } else {
        entries := entries[key := entries[key] + 1];
      }
      if key !in totals.items {
        totals := Put(totals, key, 1);
      } else {
        totals := Put(totals, key, totals.items[key] + 1);
      }
      k := k + 1;
    }
    assert types[..k] == types;
    r := c.(entries := entries, totals := totals);
  }
}
