/** What the rounds of PICSConnection guarantee about the caches and the
    requests they make, and what a completed resolution means for the
    license loop of `Main`. */
module PicsConnectionProperties {
  import opened Options
  import opened Dictionaries
  import opened KeyValues
  import opened Steam
  import opened PicsInfo
  import opened PicsConnection
  import Aggregation

  // ---------------------------------------------------------------------
  // Cache writes.

  /** The last value written under a key is the one stored. */
  lemma {:induction false} PutByIdLastWins<V>(m: map<nat, V>, vs: seq<V>, id: V -> nat, j: nat)
    requires j < |vs| && forall k | j < k < |vs| :: id(vs[k]) != id(vs[j])
    ensures id(vs[j]) in PutById(m, vs, id) && PutById(m, vs, id)[id(vs[j])] == vs[j]
  {
    var n := |vs|;
    if j < n - 1 {
      var init := vs[..n - 1];
      assert forall k | j < k < |init| :: init[k] == vs[k];
      PutByIdLastWins(m, init, id, j);
      assert init[j] == vs[j];
    }
  }

  /** A key no written value carries keeps its old state. */
  lemma {:induction false} PutByIdKeepsOthers<V>(m: map<nat, V>, vs: seq<V>, id: V -> nat, key: nat)
    requires forall v | v in vs :: id(v) != key
    ensures (key in PutById(m, vs, id)) == (key in m)
    ensures key in m ==> PutById(m, vs, id)[key] == m[key]
  {
    if vs != [] {
      assert forall v | v in vs[..|vs| - 1] :: v in vs;
      PutByIdKeepsOthers(m, vs[..|vs| - 1], id, key);
      assert vs[|vs| - 1] in vs;
    }
  }

  /** The keys afterwards are the old keys and the keys written; every
      stored value is either old or one of those written. */
  lemma {:induction false} PutByIdKeysAndValues<V>(m: map<nat, V>, vs: seq<V>, id: V -> nat)
    ensures PutById(m, vs, id).Keys == m.Keys + (set v | v in vs :: id(v))
    ensures forall k | k in PutById(m, vs, id) :: PutById(m, vs, id)[k] in vs || (k in m && PutById(m, vs, id)[k] == m[k])
  {
    if vs != [] {
      var init := vs[..|vs| - 1];
      PutByIdKeysAndValues(m, init, id);
      assert vs == init + [vs[|vs| - 1]];
      assert (set v | v in vs :: id(v)) == (set v | v in init :: id(v)) + {id(vs[|vs| - 1])};
    }
  }

  ghost predicate NonZeroTokens(tokens: map<nat, nat>) {
    forall id | id in tokens :: tokens[id] != 0
  }

  /** Only non-zero tokens are stored: an id whose every token in the
      response is zero keeps its old state; the last non-zero token of an id
      is the one stored. */
  lemma {:induction false} PutTokensEffect(m: map<nat, nat>, toks: seq<AppToken>)
    ensures PutTokens(m, toks).Keys == m.Keys + (set t | t in toks && t.token != 0 :: t.appId)
    ensures NonZeroTokens(m) ==> NonZeroTokens(PutTokens(m, toks))
    ensures forall id | (forall t | t in toks && t.appId == id :: t.token == 0) ::
      (id in PutTokens(m, toks)) == (id in m) && (id in m ==> PutTokens(m, toks)[id] == m[id])
  {
    if toks != [] {
      var init := toks[..|toks| - 1];
      PutTokensEffect(m, init);
      assert toks == init + [toks[|toks| - 1]];
      assert forall t | t in init :: t in toks;
    }
  }

  lemma {:induction false} PutTokensLastWins(m: map<nat, nat>, toks: seq<AppToken>, j: nat)
    requires j < |toks| && toks[j].token != 0
    requires forall k | j < k < |toks| :: toks[k].appId != toks[j].appId
    ensures toks[j].appId in PutTokens(m, toks) && PutTokens(m, toks)[toks[j].appId] == toks[j].token
  {
    var n := |toks|;
    if j < n - 1 {
      var init := toks[..n - 1];
      assert forall k | j < k < |init| :: init[k] == toks[k];
      PutTokensLastWins(m, init, j);
      assert init[j] == toks[j];
    }
  }

  // ---------------------------------------------------------------------
  // Which apps are requested.

  lemma {:induction false} AppIdsMembers(ps: seq<PackageInfo>)
    ensures forall a :: a in AppIds(ps) <==> exists p | p in ps :: a in p.apps
  {
    if ps != [] {
      var init := ps[..|ps| - 1];
      AppIdsMembers(init);
      assert ps == init + [ps[|ps| - 1]];
      assert forall p | p in ps :: p in init || p == ps[|ps| - 1];
    }
  }

  lemma {:induction false} UncachedMembers(ids: seq<nat>, apps: map<nat, AppInfo>)
    requires Distinct(ids)
    ensures Distinct(Uncached(ids, apps))
    ensures forall a :: a in Uncached(ids, apps) <==> a in ids && a !in apps
  {
    if ids != [] {
      var init := ids[..|ids| - 1];
      var last := ids[|ids| - 1];
      assert Distinct(init) by {
        forall i, j | 0 <= i < j < |init| ensures init[i] != init[j] {
          assert init[i] == ids[i] && init[j] == ids[j];
        }
      }
      UncachedMembers(init, apps);
      assert ids == init + [last];
      assert last !in init by {
        forall i | 0 <= i < |init| ensures init[i] != last {
          assert init[i] == ids[i];
        }
      }
      if last !in apps {
        DistinctAppend(Uncached(init, apps), last);
      }
    }
  }

  /** The apps requested after storing packages are exactly the distinct app
      ids of those packages that are not yet cached, each once. */
  lemma MissingAppsExactly(ps: seq<PackageInfo>, apps: map<nat, AppInfo>)
    ensures Distinct(MissingApps(ps, apps))
    ensures forall a :: a in MissingApps(ps, apps) <==> (exists p | p in ps :: a in p.apps) && a !in apps
  {
    AppIdsMembers(ps);
    UncachedMembers(Dedup(AppIds(ps)), apps);
    assert forall a :: a in Dedup(AppIds(ps)) <==> a in Elements(AppIds(ps));
  }

  // ---------------------------------------------------------------------
  // The app and token rounds only add to the caches.

  /** What the app and token rounds keep: `Packages` as it is, every cached
      app and token, and non-zero tokens only. */
  ghost predicate Grows(s: Caches, t: Caches) {
    && t.packages == s.packages
    && s.apps.Keys <= t.apps.Keys
    && s.tokens.Keys <= t.tokens.Keys
    && (NonZeroTokens(s.tokens) ==> NonZeroTokens(t.tokens))
  }

  lemma {:induction false} FetchAppsGrows(cat: Catalog, s: Caches, ids: seq<nat>, fuel: nat)
    decreases fuel, 1
    ensures Grows(s, FetchApps(cat, s, ids, fuel).caches)
    ensures |FetchApps(cat, s, ids, fuel).requests| >= 1
  {
    match cat.productInfo(AppRequests(ids, s.tokens), [])
    case None =>
    case Some(res) =>
      var stored := s.(apps := PutById(s.apps, AppInfos(res.apps), AppId));
      PutByIdKeysAndValues(s.apps, AppInfos(res.apps), AppId);
      var missingTokens := MissingTokenIds(res.apps);
      if missingTokens != [] {
        FetchTokensGrows(cat, stored, missingTokens, fuel);
      }
  }

  lemma {:induction false} FetchTokensGrows(cat: Catalog, s: Caches, ids: seq<nat>, fuel: nat)
    decreases fuel, 0
    ensures Grows(s, FetchTokens(cat, s, ids, fuel).caches)
    ensures |FetchTokens(cat, s, ids, fuel).requests| >= 1
  {
    match cat.accessTokens(ids)
    case None =>
    case Some(toks) =>
      var stored := s.(tokens := PutTokens(s.tokens, toks));
      PutTokensEffect(s.tokens, toks);
      if toks != [] && fuel > 0 {
        FetchAppsGrows(cat, stored, TokenKeys(toks), fuel - 1);
      }
  }

  /** The package rounds: packages are written over, and the other caches
      only grow. */
  lemma FetchPackagesGrows(cat: Catalog, s: Caches, ids: seq<nat>, fuel: nat)
    ensures var r := FetchPackages(cat, s, ids, fuel);
      && s.packages.Keys <= r.caches.packages.Keys
      && s.apps.Keys <= r.caches.apps.Keys
      && s.tokens.Keys <= r.caches.tokens.Keys
      && (NonZeroTokens(s.tokens) ==> NonZeroTokens(r.caches.tokens))
  {
    match cat.productInfo([], ids)
    case None =>
    case Some(res) =>
      var ps := PackageInfos(res.packages);
      PutByIdKeysAndValues(s.packages, ps, PackageId);
      var stored := s.(packages := PutById(s.packages, ps, PackageId));
      var missing := MissingApps(ps, s.apps);
      if missing != [] {
        FetchAppsGrows(cat, stored, missing, fuel);
      }
  }

  // ---------------------------------------------------------------------
  // The order of the rounds.

  /** `UpdatePackages(ids)` asks for every id given, cached or not; the
      packages returned are stored under their ids, last write wins, and the
      app rounds afterwards leave `Packages` alone. */
  lemma FetchPackagesStores(cat: Catalog, s: Caches, ids: seq<nat>, fuel: nat)
    ensures FetchPackages(cat, s, ids, fuel).requests[0] == ProductInfoRequest([], ids)
    ensures cat.productInfo([], ids).None? ==> FetchPackages(cat, s, ids, fuel) == Resolution(s, Failed, [ProductInfoRequest([], ids)])
    ensures cat.productInfo([], ids).Some? ==>
      FetchPackages(cat, s, ids, fuel).caches.packages ==
        PutById(s.packages, PackageInfos(cat.productInfo([], ids).value.packages), PackageId)
  {
    match cat.productInfo([], ids)
    case None =>
    case Some(res) =>
      var ps := PackageInfos(res.packages);
      var missing := MissingApps(ps, s.apps);
      if missing != [] {
        FetchAppsGrows(cat, s.(packages := PutById(s.packages, ps, PackageId)), missing, fuel);
      }
  }

  /** No missing app means no request and `Apps` unchanged; otherwise the
      next request asks for exactly the missing apps, each with its stored
      token or 0. */
  lemma StorePackagesRequests(cat: Catalog, s: Caches, ps: seq<PackageInfo>, fuel: nat)
    ensures var r := StorePackages(cat, s, ps, fuel);
      var missing := MissingApps(ps, s.apps);
      && (missing == [] ==> r.requests == [] && r.outcome == Done && r.caches.apps == s.apps && r.caches.tokens == s.tokens)
      && (missing != [] ==>
            |r.requests| >= 1 && r.requests[0] == ProductInfoRequest(AppRequests(missing, s.tokens), []))
      && (missing != [] ==> forall i | 0 <= i < |missing| ::
            r.requests[0].apps[i] == AppRequest(missing[i], if missing[i] in s.tokens then s.tokens[missing[i]] else 0))
      && r.caches.packages == PutById(s.packages, ps, PackageId)
  {
    var missing := MissingApps(ps, s.apps);
    if missing != [] {
      FetchAppsGrows(cat, s.(packages := PutById(s.packages, ps, PackageId)), missing, fuel);
    }
  }

  lemma {:induction false} MissingTokenIdsMembers(infos: seq<ProductInfo>)
    ensures forall a :: a in MissingTokenIds(infos) <==> exists info | info in infos :: info.missingToken && info.id == a
  {
    if infos != [] {
      var init := infos[..|infos| - 1];
      MissingTokenIdsMembers(init);
      assert infos == init + [infos[|infos| - 1]];
      assert forall info | info in infos :: info in init || info == infos[|infos| - 1];
    }
  }

  /** The returned apps are stored before any token request, so they stay
      stored when that request throws. A token request is made exactly when
      some returned app is flagged `MissingToken`, and for exactly those ids. */
  lemma FetchAppsThenTokens(cat: Catalog, s: Caches, ids: seq<nat>, fuel: nat)
    requires cat.productInfo(AppRequests(ids, s.tokens), []).Some?
    ensures var res := cat.productInfo(AppRequests(ids, s.tokens), []).value;
      var r := FetchApps(cat, s, ids, fuel);
      var stored := s.(apps := PutById(s.apps, AppInfos(res.apps), AppId));
      var missingTokens := MissingTokenIds(res.apps);
      && r.requests[0] == ProductInfoRequest(AppRequests(ids, s.tokens), [])
      && (forall a :: a in missingTokens <==> exists info | info in res.apps :: info.missingToken && info.id == a)
      && (missingTokens == [] ==> r == Resolution(stored, Done, r.requests[..1]))
      && (missingTokens != [] ==> |r.requests| >= 2 && r.requests[1] == AccessTokenRequest(missingTokens))
      && (missingTokens != [] && cat.accessTokens(missingTokens).None? ==> r.caches == stored && r.outcome == Failed)
  {
    var res := cat.productInfo(AppRequests(ids, s.tokens), []).value;
    MissingTokenIdsMembers(res.apps);
    var missingTokens := MissingTokenIds(res.apps);
    if missingTokens != [] {
      FetchTokensGrows(cat, s.(apps := PutById(s.apps, AppInfos(res.apps), AppId)), missingTokens, fuel);
    }
  }

  /** After a non-empty token response every id in it is refetched, those
      with a zero token included, and each is sent with the token now stored
      for it. */
  lemma FetchTokensRefetch(cat: Catalog, s: Caches, ids: seq<nat>, fuel: nat)
    requires cat.accessTokens(ids).Some?
    ensures var toks := cat.accessTokens(ids).value;
      var r := FetchTokens(cat, s, ids, fuel);
      var tokens := PutTokens(s.tokens, toks);
      && r.requests[0] == AccessTokenRequest(ids)
      && (toks == [] ==> r == Resolution(s.(tokens := tokens), Done, r.requests[..1]))
      && (toks != [] && fuel > 0 ==>
            && |r.requests| >= 2
            && r.requests[1] == ProductInfoRequest(AppRequests(TokenKeys(toks), tokens), [])
            && (forall t | t in toks :: t.appId in TokenKeys(toks)))
  {
    var toks := cat.accessTokens(ids).value;
    if toks != [] && fuel > 0 {
      FetchAppsGrows(cat, s.(tokens := PutTokens(s.tokens, toks)), TokenKeys(toks), fuel - 1);
      forall t | t in toks ensures t.appId in TokenKeys(toks) {
        var i :| 0 <= i < |toks| && toks[i] == t;
        assert TokenKeys(toks)[i] == t.appId;
      }
    }
  }

  /** With the ids of the response distinct (they are the keys of
      `AppTokens`), a refetch sends every non-zero token just received. */
  lemma RefetchSendsNewTokens(m: map<nat, nat>, toks: seq<AppToken>)
    requires Distinct(TokenKeys(toks))
    ensures forall i | 0 <= i < |toks| && toks[i].token != 0 ::
      AppRequests(TokenKeys(toks), PutTokens(m, toks))[i] == AppRequest(toks[i].appId, toks[i].token)
  {
    forall i | 0 <= i < |toks| && toks[i].token != 0
      ensures AppRequests(TokenKeys(toks), PutTokens(m, toks))[i] == AppRequest(toks[i].appId, toks[i].token)
    {
      forall k | i < k < |toks| ensures toks[k].appId != toks[i].appId {
        assert TokenKeys(toks)[k] == toks[k].appId && TokenKeys(toks)[i] == toks[i].appId;
      }
      PutTokensLastWins(m, toks, i);
    }
  }

  // ---------------------------------------------------------------------
  // Closure.

  /** Every app of every cached package is cached. */
  ghost predicate Closed(s: Caches) {
    forall id | id in s.packages :: forall a | a in s.packages[id].apps :: a in s.apps
  }

  /** A catalog that, whenever it answers, returns an entry for every app
      asked for. */
  ghost predicate AnswersEveryApp(cat: Catalog) {
    forall reqs: seq<AppRequest>, pkgs: seq<nat> | cat.productInfo(reqs, pkgs).Some? ::
      forall q | q in reqs :: exists info | info in cat.productInfo(reqs, pkgs).value.apps :: info.id == q.id
  }

  /** A catalog that, whenever it answers, returns an entry for every package
      asked for. */
  ghost predicate AnswersEveryPackage(cat: Catalog) {
    forall reqs: seq<AppRequest>, pkgs: seq<nat> | cat.productInfo(reqs, pkgs).Some? ::
      forall p | p in pkgs :: exists info | info in cat.productInfo(reqs, pkgs).value.packages :: info.id == p
  }

  lemma AppRequestsIds(ids: seq<nat>, tokens: map<nat, nat>, a: nat)
    requires a in ids
    ensures exists q | q in AppRequests(ids, tokens) :: q.id == a
  {
    var i :| 0 <= i < |ids| && ids[i] == a;
    assert AppRequests(ids, tokens)[i].id == a;
  }

  /** The ids of the entries of `infos` are all stored. */
  lemma StoredIds(m: map<nat, AppInfo>, infos: seq<ProductInfo>, a: nat)
    requires exists info | info in infos :: info.id == a
    ensures a in PutById(m, AppInfos(infos), AppId)
  {
    var info :| info in infos && info.id == a;
    var i :| 0 <= i < |infos| && infos[i] == info;
    PutByIdKeysAndValues(m, AppInfos(infos), AppId);
    assert AppId(AppInfos(infos)[i]) == a;
  }

  /** When the catalog answers the app request, every app asked for is
      cached afterwards. */
  lemma FetchAppsCaches(cat: Catalog, s: Caches, ids: seq<nat>, fuel: nat)
    requires AnswersEveryApp(cat)
    requires FetchApps(cat, s, ids, fuel).outcome != Failed || cat.productInfo(AppRequests(ids, s.tokens), []).Some?
    ensures forall a | a in ids :: a in FetchApps(cat, s, ids, fuel).caches.apps
  {
    var reqs := AppRequests(ids, s.tokens);
    var res := cat.productInfo(reqs, []).value;
    var stored := s.(apps := PutById(s.apps, AppInfos(res.apps), AppId));
    forall a | a in ids ensures a in stored.apps {
      AppRequestsIds(ids, s.tokens, a);
      var q :| q in reqs && q.id == a;
      StoredIds(s.apps, res.apps, a);
    }
    var missingTokens := MissingTokenIds(res.apps);
    if missingTokens != [] {
      FetchTokensGrows(cat, stored, missingTokens, fuel);
    }
  }

  lemma PackageInfoIds(infos: seq<ProductInfo>, i: nat)
    requires i < |infos|
    ensures PackageInfos(infos)[i].id == infos[i].id && PackageInfos(infos)[i] in PackageInfos(infos)
  {
  }

  /** Storing packages keeps the caches closed when the catalog answers
      every app request. */
  lemma StorePackagesCloses(cat: Catalog, s: Caches, ps: seq<PackageInfo>, fuel: nat)
    requires Closed(s) && AnswersEveryApp(cat)
    requires StorePackages(cat, s, ps, fuel).outcome != Failed
    ensures Closed(StorePackages(cat, s, ps, fuel).caches)
  {
    var r := StorePackages(cat, s, ps, fuel);
    var missing := MissingApps(ps, s.apps);
    var stored := s.(packages := PutById(s.packages, ps, PackageId));
    MissingAppsExactly(ps, s.apps);
    PutByIdKeysAndValues(s.packages, ps, PackageId);
    if missing != [] {
      FetchAppsGrows(cat, stored, missing, fuel);
      FetchAppsCaches(cat, stored, missing, fuel);
    }
    forall id, a | id in r.caches.packages && a in r.caches.packages[id].apps ensures a in r.caches.apps {
      var p := r.caches.packages[id];
      if p in ps {
        if a !in s.apps {
          assert a in missing;
        }
      }
    }
  }

  /** A resolution that does not fail leaves the caches closed, with every
      requested package cached. */
  lemma FetchPackagesCloses(cat: Catalog, s: Caches, ids: seq<nat>, fuel: nat)
    requires Closed(s) && AnswersEveryApp(cat) && AnswersEveryPackage(cat)
    requires FetchPackages(cat, s, ids, fuel).outcome != Failed
    ensures Closed(FetchPackages(cat, s, ids, fuel).caches)
    ensures forall id | id in ids :: id in FetchPackages(cat, s, ids, fuel).caches.packages
  {
    var res := cat.productInfo([], ids).value;
    var ps := PackageInfos(res.packages);
    StorePackagesCloses(cat, s, ps, fuel);
    StorePackagesRequests(cat, s, ps, fuel);
    PutByIdKeysAndValues(s.packages, ps, PackageId);
    forall id | id in ids ensures id in PutById(s.packages, ps, PackageId) {
      var info :| info in res.packages && info.id == id;
      var i :| 0 <= i < |res.packages| && res.packages[i] == info;
      PackageInfoIds(res.packages, i);
    }
  }

  /** A completed license-list resolution from empty caches leaves every
      package and app that the license loop of `Main` looks up cached. */
  lemma ResolvedLicensesAreResolvable(cat: Catalog, licenses: seq<License>, fuel: nat)
    requires AnswersEveryApp(cat) && AnswersEveryPackage(cat)
    requires FetchPackages(cat, Caches(map[], map[], map[]), PackageIds(licenses), fuel).outcome == Done
    ensures var c := FetchPackages(cat, Caches(map[], map[], map[]), PackageIds(licenses), fuel).caches;
      Aggregation.AllResolvable(licenses, c.packages, c.apps)
  {
    var ids := PackageIds(licenses);
    FetchPackagesCloses(cat, Caches(map[], map[], map[]), ids, fuel);
    forall l | l in licenses ensures l.packageId in ids {
      var i :| 0 <= i < |licenses| && licenses[i] == l;
      assert ids[i] == l.packageId;
    }
  }

  // ---------------------------------------------------------------------
  // The unbounded token loop.

  /** Every app asked for, flagged as lacking a token. */
  function DeniedInfos(reqs: seq<AppRequest>): seq<ProductInfo> {
    seq(|reqs|, i requires 0 <= i < |reqs| => ProductInfo(reqs[i].id, 0, KeyValue("", None, []), true))
  }

  /** A zero token for every id asked for. */
  function ZeroTokens(ids: seq<nat>): seq<AppToken> {
    seq(|ids|, i requires 0 <= i < |ids| => AppToken(ids[i], 0))
  }

  /** A catalog that flags every app it returns as lacking a token and
      answers every token request with zero tokens. */
  function DenyingCatalog(): Catalog {
    Catalog(
      (reqs: seq<AppRequest>, pkgs: seq<nat>) => Some(ProductInfoResult(DeniedInfos(reqs), [])),
      (ids: seq<nat>) => Some(ZeroTokens(ids)))
  }

  lemma {:induction false} DeniedInfosMissTokens(ids: seq<nat>, tokens: map<nat, nat>)
    ensures MissingTokenIds(DeniedInfos(AppRequests(ids, tokens))) == ids
  {
    if ids != [] {
      var init := ids[..|ids| - 1];
      DeniedInfosMissTokens(init, tokens);
      var infos := DeniedInfos(AppRequests(ids, tokens));
      assert infos[..|infos| - 1] == DeniedInfos(AppRequests(init, tokens));
      assert ids == init + [ids[|ids| - 1]];
    }
  }

  lemma {:induction false} ZeroTokensKeepTokens(m: map<nat, nat>, ids: seq<nat>)
    ensures PutTokens(m, ZeroTokens(ids)) == m
    ensures TokenKeys(ZeroTokens(ids)) == ids
  {
    if ids != [] {
      var init := ids[..|ids| - 1];
      ZeroTokensKeepTokens(m, init);
      assert ZeroTokens(ids)[..|ids| - 1] == ZeroTokens(init);
    }
  }

  /** One app round against the denying catalog: its apps are stored, the
      tokens stay as they were, and the same ids are asked for again. */
  lemma DenialRound(s: Caches, ids: seq<nat>, fuel: nat)
    requires ids != []
    ensures var r := FetchApps(DenyingCatalog(), s, ids, fuel);
      var stored := s.(apps := PutById(s.apps, AppInfos(DeniedInfos(AppRequests(ids, s.tokens))), AppId));
      && (fuel == 0 ==> r.outcome == OutOfFuel && r.caches == stored)
      && (fuel > 0 ==>
            && r.outcome == FetchApps(DenyingCatalog(), stored, ids, fuel - 1).outcome
            && r.caches == FetchApps(DenyingCatalog(), stored, ids, fuel - 1).caches)
  {
    var cat := DenyingCatalog();
    var res := ProductInfoResult(DeniedInfos(AppRequests(ids, s.tokens)), []);
    DeniedInfosMissTokens(ids, s.tokens);
    ZeroTokensKeepTokens(s.tokens, ids);
    assert FetchApps(cat, s, ids, fuel).caches == StoreApps(cat, s, res, fuel).caches;
    assert FetchApps(cat, s, ids, fuel).outcome == StoreApps(cat, s, res, fuel).outcome;
    var stored := s.(apps := PutById(s.apps, AppInfos(res.apps), AppId));
    var t := FetchTokens(cat, stored, ids, fuel);
    assert StoreApps(cat, s, res, fuel) == t;
    if fuel > 0 {
      assert stored.(tokens := PutTokens(stored.tokens, ZeroTokens(ids))) == stored;
      assert t.caches == FetchApps(cat, stored, ids, fuel - 1).caches;
    }
  }

  /** Against a catalog that keeps denying tokens, the app and token rounds
      refetch for as long as there is fuel: no fuel is enough, and no token
      is ever stored. */
  lemma {:induction false} DenialExhaustsFuel(s: Caches, ids: seq<nat>, fuel: nat)
    requires ids != []
    ensures FetchApps(DenyingCatalog(), s, ids, fuel).outcome == OutOfFuel
    ensures FetchApps(DenyingCatalog(), s, ids, fuel).caches.tokens == s.tokens
    decreases fuel
  {
    DenialRound(s, ids, fuel);
    if fuel > 0 {
      var stored := s.(apps := PutById(s.apps, AppInfos(DeniedInfos(AppRequests(ids, s.tokens))), AppId));
      DenialExhaustsFuel(stored, ids, fuel - 1);
    }
  }
}
