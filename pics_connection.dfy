/** The metadata caches of PICSConnection: `Packages`, `Apps` and `Tokens`,
    filled by a chain of rounds (packages, then the apps not yet cached,
    then access tokens for the apps that lack one, then those apps again).

    The SteamKit calls `PICSGetProductInfo` and `PICSGetAccessTokens` are the
    two functions of a `Catalog`; `None` is a call that throws. The rounds
    are first given as functions over the caches (`FetchPackages`,
    `StorePackages`, `FetchApps`, `StoreApps`, `FetchTokens`), which also
    return the requests made in order; the class `Connection` performs them
    on its fields and is proved to compute them. The token round can call back into
    the app round without bound, so every round carries fuel, spent on each
    refetch; `OutOfFuel` stands for a chain that has not finished. */
module PicsConnection {
  import opened Options
  import opened Dictionaries
  import opened KeyValues
  import opened Steam
  import opened PicsInfo

  /** A `PICSRequest` for an app: its id and the access token sent with it. */
  datatype AppRequest = AppRequest(id: nat, accessToken: nat)

  /** A call made to the catalog. */
  datatype Request =
    | ProductInfoRequest(apps: seq<AppRequest>, packages: seq<nat>)
    | AccessTokenRequest(appIds: seq<nat>)

  /** The product-info entries of all result callbacks, apps and packages. */
  datatype ProductInfoResult = ProductInfoResult(apps: seq<ProductInfo>, packages: seq<ProductInfo>)

  /** An entry of `AppTokens`. */
  datatype AppToken = AppToken(appId: nat, token: nat)

  /** The remote catalog; `None` is a request that throws. */
  datatype Catalog = Catalog(
    productInfo: (seq<AppRequest>, seq<nat>) -> Option<ProductInfoResult>,
    accessTokens: seq<nat> -> Option<seq<AppToken>>)

  datatype Caches = Caches(packages: map<nat, PackageInfo>, apps: map<nat, AppInfo>, tokens: map<nat, nat>)

  /** How a chain of rounds ends: it completes, one of its requests throws,
      or it is still refetching when the fuel runs out. */
  datatype Outcome = Done | Failed | OutOfFuel

  datatype Resolution = Resolution(caches: Caches, outcome: Outcome, requests: seq<Request>)

  // ---------------------------------------------------------------------
  // The projections and cache writes the rounds use.

  function PackageId(p: PackageInfo): nat { p.id }

  function AppId(a: AppInfo): nat { a.id }

  /** `foreach (var x in xs) cache[x.ID] = x;` */
  function PutById<V>(m: map<nat, V>, vs: seq<V>, id: V -> nat): map<nat, V> {
    if vs == [] then m
    else
      var last := vs[|vs| - 1];
      PutById(m, vs[..|vs| - 1], id)[id(last) := last]
  }

  /** `Select(x => new PICSPackageInfo(x))` */
  function PackageInfos(infos: seq<ProductInfo>): seq<PackageInfo> {
    seq(|infos|, i requires 0 <= i < |infos| => PackageOf(infos[i]))
  }

  /** `Select(x => new PICSAppInfo(x))` */
  function AppInfos(infos: seq<ProductInfo>): seq<AppInfo> {
    seq(|infos|, i requires 0 <= i < |infos| => AppOf(infos[i]))
  }

  /** `SelectMany(x => x.Apps)` */
  function AppIds(ps: seq<PackageInfo>): seq<nat> {
    if ps == [] then [] else AppIds(ps[..|ps| - 1]) + ps[|ps| - 1].apps
  }

  /** `Distinct()`: the first occurrence of every element, in order. */
  function Dedup(s: seq<nat>): (r: seq<nat>)
    ensures Distinct(r) && Elements(r) == Elements(s)
  {
    if s == [] then []
    else
      var d := Dedup(s[..|s| - 1]);
      var x := s[|s| - 1];
      ElementsOfLast(s);
      if x in d then d
      else
        DistinctAppend(d, x);
        d + [x]
  }

  /** `Where(x => !Apps.ContainsKey(x))` */
  function Uncached(ids: seq<nat>, apps: map<nat, AppInfo>): seq<nat> {
    if ids == [] then []
    else Uncached(ids[..|ids| - 1], apps) + if ids[|ids| - 1] in apps then [] else [ids[|ids| - 1]]
  }

  /** The apps `UpdatePackages` requests for packages `ps`. */
  function MissingApps(ps: seq<PackageInfo>, apps: map<nat, AppInfo>): seq<nat> {
    Uncached(Dedup(AppIds(ps)), apps)
  }

  /** `ID = x, AccessToken = Tokens.ContainsKey(x) ? Tokens[x] : 0` */
  function AppRequests(ids: seq<nat>, tokens: map<nat, nat>): seq<AppRequest> {
    seq(|ids|, i requires 0 <= i < |ids| => AppRequest(ids[i], GetOr(tokens, ids[i], 0)))
  }

  /** `Where(x => x.MissingToken).Select(x => x.ID)` */
  function MissingTokenIds(infos: seq<ProductInfo>): seq<nat> {
    if infos == [] then []
    else
      var last := infos[|infos| - 1];
      MissingTokenIds(infos[..|infos| - 1]) + if last.missingToken then [last.id] else []
  }

  /** `AppTokens.Keys` */
  function TokenKeys(toks: seq<AppToken>): seq<nat> {
    seq(|toks|, i requires 0 <= i < |toks| => toks[i].appId)
  }

  /** The token loop of `GetTokens`: a zero token is skipped. */
  function PutTokens(m: map<nat, nat>, toks: seq<AppToken>): map<nat, nat> {
    if toks == [] then m
    else
      var last := toks[|toks| - 1];
      var r := PutTokens(m, toks[..|toks| - 1]);
      if last.token == 0 then r else r[last.appId := last.token]
  }

  // ---------------------------------------------------------------------
  // The rounds, as functions of the caches.

  /** `UpdatePackages(IEnumerable<uint>)`: every id is requested, cached or not. */
  function FetchPackages(cat: Catalog, s: Caches, ids: seq<nat>, fuel: nat): Resolution
    decreases fuel, 4
  {
    var request := ProductInfoRequest([], ids);
    match cat.productInfo([], ids)
    case None => Resolution(s, Failed, [request])
    case Some(res) =>
      var r := StorePackages(cat, s, PackageInfos(res.packages), fuel);
      r.(requests := [request] + r.requests)
  }

  /** `UpdatePackages(IEnumerable<PICSPackageInfo>)` */
  function StorePackages(cat: Catalog, s: Caches, ps: seq<PackageInfo>, fuel: nat): Resolution
    decreases fuel, 3
  {
    var missing := MissingApps(ps, s.apps);
    var stored := s.(packages := PutById(s.packages, ps, PackageId));
    if missing == [] then Resolution(stored, Done, [])
    else FetchApps(cat, stored, missing, fuel)
  }

  /** `UpdateApps(IEnumerable<uint>)` */
  function FetchApps(cat: Catalog, s: Caches, ids: seq<nat>, fuel: nat): Resolution
    decreases fuel, 2
  {
    var request := ProductInfoRequest(AppRequests(ids, s.tokens), []);
    match cat.productInfo(AppRequests(ids, s.tokens), [])
    case None => Resolution(s, Failed, [request])
    case Some(res) =>
      var r := StoreApps(cat, s, res, fuel);
      r.(requests := [request] + r.requests)
  }

  /** The rest of `UpdateApps(IEnumerable<uint>)` once the answer is in:
      the apps are stored, and the apps answered without a token are
      asked for one. */
  function StoreApps(cat: Catalog, s: Caches, res: ProductInfoResult, fuel: nat): Resolution
    decreases fuel, 1
  {
    var stored := s.(apps := PutById(s.apps, AppInfos(res.apps), AppId));
    var missingTokens := MissingTokenIds(res.apps);
    if missingTokens == [] then Resolution(stored, Done, [])
    else FetchTokens(cat, stored, missingTokens, fuel)
  }

  /** `GetTokens` */
  function FetchTokens(cat: Catalog, s: Caches, ids: seq<nat>, fuel: nat): Resolution
    decreases fuel, 0
  {
    var request := AccessTokenRequest(ids);
    match cat.accessTokens(ids)
    case None => Resolution(s, Failed, [request])
    case Some(toks) =>
      var stored := s.(tokens := PutTokens(s.tokens, toks));
      if toks == [] then Resolution(stored, Done, [request])
      else if fuel == 0 then Resolution(stored, OutOfFuel, [request])
      else
        var r := FetchApps(cat, stored, TokenKeys(toks), fuel - 1);
        r.(requests := [request] + r.requests)
  }

  /** `Select(x => x.PackageID)` over the license list. */
  function PackageIds(licenses: seq<License>): seq<nat> {
    seq(|licenses|, i requires 0 <= i < |licenses| => licenses[i].packageId)
  }

  // ---------------------------------------------------------------------
  // The connection.

  class Connection {
    var packages: map<nat, PackageInfo>
    var apps: map<nat, AppInfo>
    var tokens: map<nat, nat>
    /** The result of the `PICSReady` task; `None` while it is pending. */
    var picsReady: Option<bool>
    /** The calls made to the catalog so far. */
    ghost var requests: seq<Request>
    const catalog: Catalog

    constructor (catalog: Catalog)
      ensures this.catalog == catalog
      ensures packages == map[] && apps == map[] && tokens == map[]
      ensures picsReady == None && requests == []
    {
      this.catalog := catalog;
      packages, apps, tokens := map[], map[], map[];
      picsReady := None;
      requests := [];
    }

    function State(): Caches
      reads this
    {
      Caches(packages, apps, tokens)
    }

    /** `OnLicenseList`: an empty list does nothing. Otherwise the packages
        of all licenses are resolved and `PICSReady` completes with whether
        that succeeded. A second completion makes `SetResult` throw inside the
        handler and again in its catch block, which ends the process: that is
        `crashed`. A chain that never finishes leaves `PICSReady` pending. */
    method OnLicenseList(licenses: seq<License>, fuel: nat) returns (crashed: bool)
      modifies this
      ensures licenses == [] ==> !crashed && State() == old(State()) && picsReady == old(picsReady) && requests == old(requests)
      ensures licenses != [] ==>
        var r := FetchPackages(catalog, old(State()), PackageIds(licenses), fuel);
        && State() == r.caches && requests == old(requests) + r.requests
        && (r.outcome == OutOfFuel ==> !crashed && picsReady == old(picsReady))
        && (r.outcome != OutOfFuel && old(picsReady) == None ==> !crashed && picsReady == Some(r.outcome == Done))
        && (r.outcome != OutOfFuel && old(picsReady) != None ==> crashed && picsReady == old(picsReady))
    {
      crashed := false;
      var newPackages := PackageIds(licenses);
      if newPackages == [] {
        return;
      }
      var outcome := UpdatePackagesById(newPackages, fuel);
      if outcome == OutOfFuel {
        return;
      }
      if picsReady != None {
        crashed := true;
        return;
      }
      picsReady := Some(outcome == Done);
    }

    /** `UpdatePackages(IEnumerable<uint>)` */
    method UpdatePackagesById(ids: seq<nat>, fuel: nat) returns (outcome: Outcome)
      modifies this
      decreases fuel, 4
      ensures var r := FetchPackages(catalog, old(State()), ids, fuel);
        State() == r.caches && outcome == r.outcome && requests == old(requests) + r.requests
      ensures picsReady == old(picsReady)
    {
      var info := catalog.productInfo([], ids);
      requests := requests + [ProductInfoRequest([], ids)];
      if info == None {
        return Failed;
      }
      outcome := StoreProductInfo(info.value, fuel);
    }

    /** The package records built from an answer, stored. */
    method StoreProductInfo(res: ProductInfoResult, fuel: nat) returns (outcome: Outcome)
      modifies this
      decreases fuel, 3
      ensures var r := StorePackages(catalog, old(State()), PackageInfos(res.packages), fuel);
        State() == r.caches && outcome == r.outcome && requests == old(requests) + r.requests
      ensures picsReady == old(picsReady)
    {
      var ps := PackageInfos(res.packages);
      outcome := UpdatePackages(ps, fuel);
    }

    /** `UpdatePackages(IEnumerable<PICSPackageInfo>)` */
    method UpdatePackages(ps: seq<PackageInfo>, fuel: nat) returns (outcome: Outcome)
      modifies this
      decreases fuel, 3
      ensures var r := StorePackages(catalog, old(State()), ps, fuel);
        State() == r.caches && outcome == r.outcome && requests == old(requests) + r.requests
      ensures picsReady == old(picsReady)
    {
      var allapps := Dedup(AppIds(ps));
      var missingapps := Uncached(allapps, apps);
      for i := 0 to |ps|
        invariant packages == PutById(old(packages), ps[..i], PackageId)
        invariant apps == old(apps) && tokens == old(tokens)
        invariant requests == old(requests) && picsReady == old(picsReady)
      {
        assert ps[..i + 1][..i] == ps[..i];
        packages := packages[ps[i].id := ps[i]];
      }
      assert ps[..|ps|] == ps;
      if missingapps == [] {
        return Done;
      }
      outcome := UpdateAppsById(missingapps, fuel);
    }

    /** `UpdateApps(IEnumerable<uint>)` */
    method UpdateAppsById(ids: seq<nat>, fuel: nat) returns (outcome: Outcome)
      modifies this
      decreases fuel, 2
      ensures var r := FetchApps(catalog, old(State()), ids, fuel);
        State() == r.caches && outcome == r.outcome && requests == old(requests) + r.requests
      ensures picsReady == old(picsReady)
    {
      var appRequests := AppRequests(ids, tokens);
      var info := catalog.productInfo(appRequests, []);
      requests := requests + [ProductInfoRequest(appRequests, [])];
      if info == None {
        return Failed;
      }
      outcome := StoreAppAnswer(info.value, fuel);
    }

    /** The apps of an answer stored, then the missing tokens fetched. */
    method StoreAppAnswer(res: ProductInfoResult, fuel: nat) returns (outcome: Outcome)
      modifies this
      decreases fuel, 1
      ensures var r := StoreApps(catalog, old(State()), res, fuel);
        State() == r.caches && outcome == r.outcome && requests == old(requests) + r.requests
      ensures picsReady == old(picsReady)
    {
      UpdateApps(AppInfos(res.apps));
      var missingTokens := MissingTokenIds(res.apps);
      if missingTokens == [] {
        return Done;
      }
      outcome := GetTokens(missingTokens, fuel);
    }

    /** `GetTokens` */
    method GetTokens(ids: seq<nat>, fuel: nat) returns (outcome: Outcome)
      modifies this
      decreases fuel, 0
      ensures var r := FetchTokens(catalog, old(State()), ids, fuel);
        State() == r.caches && outcome == r.outcome && requests == old(requests) + r.requests
      ensures picsReady == old(picsReady)
    {
      var response := catalog.accessTokens(ids);
      requests := requests + [AccessTokenRequest(ids)];
      if response == None {
        return Failed;
      }
      var appTokens := response.value;
      for i := 0 to |appTokens|
        invariant tokens == PutTokens(old(tokens), appTokens[..i])
        invariant packages == old(packages) && apps == old(apps)
        invariant requests == old(requests) + [AccessTokenRequest(ids)] && picsReady == old(picsReady)
      {
        assert appTokens[..i + 1][..i] == appTokens[..i];
        var token := appTokens[i];
        if token.token == 0 {
          continue;
        }
        tokens := tokens[token.appId := token.token];
      }
      assert appTokens[..|appTokens|] == appTokens;
      if appTokens == [] {
        return Done;
      }
      if fuel == 0 {
        return OutOfFuel;
      }
      ghost var s1, log1 := State(), requests;
      outcome := UpdateAppsById(TokenKeys(appTokens), fuel - 1);
      ghost var r := FetchApps(catalog, s1, TokenKeys(appTokens), fuel - 1);
      assert FetchTokens(catalog, old(State()), ids, fuel) == r.(requests := [AccessTokenRequest(ids)] + r.requests);
      assert requests == log1 + r.requests;
    }

    /** `UpdateApps(IEnumerable<PICSAppInfo>)`: each app under its id, and nothing else. */
    method UpdateApps(infos: seq<AppInfo>)
      modifies this
      ensures apps == PutById(old(apps), infos, AppId)
      ensures packages == old(packages) && tokens == old(tokens)
      ensures picsReady == old(picsReady) && requests == old(requests)
    {
      for i := 0 to |infos|
        invariant apps == PutById(old(apps), infos[..i], AppId)
        invariant packages == old(packages) && tokens == old(tokens)
        invariant picsReady == old(picsReady) && requests == old(requests)
      {
        assert infos[..i + 1][..i] == infos[..i];
        apps := apps[infos[i].id := infos[i]];
      }
      assert infos[..|infos|] == infos;
    }
  }
}
