/** The package and app records built from PICS product-info entries
    (PICSInfo, PICSPackageInfo and PICSAppInfo), and the trees that write a
    record back, so that the constructors can be checked to lose nothing. */
module PicsInfo {
  import opened Options
  import opened KeyValues
  import opened Steam

  datatype PackageInfo = PackageInfo(
    id: nat,
    changeNumber: nat,
    apps: seq<nat>,
    billingType: int,
    releaseStateOverride: bool)

  datatype AppInfo = AppInfo(
    id: nat,
    changeNumber: nat,
    name: Option<string>,
    appType: Option<string>,   // `Type`; `None` is C# null
    releaseState: string)

  /** `AsUnsignedInteger()` of every child, in order. */
  function AppIdsOf(children: seq<KeyValue>): seq<nat>
  {
    seq(|children|, i requires 0 <= i < |children| => AsUnsignedInteger(Some(children[i])))
  }

  /** The PICSPackageInfo constructor. */
  function PackageOf(info: ProductInfo): PackageInfo {
    var kv := Some(info.keyValues);
    PackageInfo(
      info.id,
      info.changeNumber,
      AppIdsOf(Children(Child(kv, "appids"))),
      AsInteger(Child(kv, "billingtype")),
      Child(Child(kv, "extended"), "releasestateoverride") != None)
  }

  /** `common/releasestate`, else "released" when there is a `common`
      section, else "unavailable". */
  function ReleaseStateOf(common: Option<KeyValue>): string {
    match AsString(Child(common, "releasestate"))
    case Some(s) => s
    case None => if common != None then "released" else "unavailable"
  }

  /** `s?.ToLower()` */
  function LowerOrNull(s: Option<string>): Option<string> {
    match s
    case None => None
    case Some(t) => Some(Lower(t))
  }

  /** The PICSAppInfo constructor. */
  function AppOf(info: ProductInfo): AppInfo {
    var common := Child(Some(info.keyValues), "common");
    AppInfo(
      info.id,
      info.changeNumber,
      AsString(Child(common, "name")),
      LowerOrNull(AsString(Child(common, "type"))),
      ReleaseStateOf(common))
  }

  /** The PICSInfo base constructor copies the identifier and change number. */
  lemma CopiesHeader(info: ProductInfo)
    ensures PackageOf(info).id == info.id && PackageOf(info).changeNumber == info.changeNumber
    ensures AppOf(info).id == info.id && AppOf(info).changeNumber == info.changeNumber
  {
  }

  /** A package's apps are its `appids` children read as numbers, in order;
      no `appids` section gives no apps. */
  lemma PackageAppsAreAppids(info: ProductInfo)
    ensures var appids := Child(Some(info.keyValues), "appids");
      && |PackageOf(info).apps| == |Children(appids)|
      && (forall i | 0 <= i < |Children(appids)| ::
            PackageOf(info).apps[i] == AsUnsignedInteger(Some(Children(appids)[i])))
      && (appids == None ==> PackageOf(info).apps == [])
  {
  }

  /** `ReleaseStateOverride` holds exactly when the key is present. */
  lemma ReleaseStateOverridePresent(info: ProductInfo)
    ensures PackageOf(info).releaseStateOverride <==>
      Child(Child(Some(info.keyValues), "extended"), "releasestateoverride").Some?
  {
  }

  /** The release-state defaulting rule, case by case. */
  lemma ReleaseStateRule(info: ProductInfo)
    ensures var common := Child(Some(info.keyValues), "common");
      var explicit := AsString(Child(common, "releasestate"));
      && (explicit.Some? ==> AppOf(info).releaseState == explicit.value)
      && (explicit.None? && common.Some? ==> AppOf(info).releaseState == "released")
      && (common.None? ==> AppOf(info).releaseState == "unavailable")
  {
  }

  /** `Type` is the lower-cased `common/type`, null exactly when that has no value;
      `Name` is `common/name`. */
  lemma AppNameAndType(info: ProductInfo)
    ensures var common := Child(Some(info.keyValues), "common");
      var t := AsString(Child(common, "type"));
      && AppOf(info).name == AsString(Child(common, "name"))
      && (AppOf(info).appType.None? <==> t.None?)
      && (t.Some? ==> AppOf(info).appType == Some(Lower(t.value)))
  {
  }

  // Writing records back as KeyValue trees.

  function Leaf(name: string, value: string): KeyValue {
    KeyValue(name, Some(value), [])
  }

  function Section(name: string, children: seq<KeyValue>): KeyValue {
    KeyValue(name, None, children)
  }

  function PackageTree(p: PackageInfo): KeyValue {
    var appids := Section("appids", seq(|p.apps|, i requires 0 <= i < |p.apps| => Leaf(NatToDecimal(i), NatToDecimal(p.apps[i]))));
    var billing := Leaf("billingtype", IntToDecimal(p.billingType));
    var extended := Section("extended", [Leaf("releasestateoverride", "1")]);
    Section(NatToDecimal(p.id), [appids, billing] + (if p.releaseStateOverride then [extended] else []))
  }

  function AppTree(a: AppInfo): KeyValue {
    var name := if a.name.Some? then [Leaf("name", a.name.value)] else [];
    var appType := if a.appType.Some? then [Leaf("type", a.appType.value)] else [];
    var common := Section("common", name + appType + [Leaf("releasestate", a.releaseState)]);
    Section(NatToDecimal(a.id), [common])
  }

  /** A record the product info can carry: 32-bit app ids and billing type. */
  ghost predicate Representable(p: PackageInfo) {
    && (forall i | 0 <= i < |p.apps| :: p.apps[i] <= UInt32Max)
    && Int32Min <= p.billingType <= Int32Max
  }

  /** A type that lower-casing leaves alone, as the constructor produces. */
  ghost predicate LowerCaseType(a: AppInfo) {
    a.appType.Some? ==> Lower(a.appType.value) == a.appType.value
  }

  /** The constructor's types are already lower case. */
  lemma AppOfLowerCase(info: ProductInfo)
    ensures LowerCaseType(AppOf(info))
  {
    var t := AsString(Child(Child(Some(info.keyValues), "common"), "type"));
    if t.Some? {
      LowerIdempotent(t.value);
    }
  }

  /** The child at `i` is the first one matching `key`. */
  lemma FirstChildAt(children: seq<KeyValue>, key: string, i: nat)
    requires i < |children| && SameName(children[i].name, key)
    requires forall j | 0 <= j < i :: !SameName(children[j].name, key)
    ensures FirstChild(children, key) == Some(children[i])
  {
    FirstChildSpec(children, key);
    var r := FirstChild(children, key);
    var k :| 0 <= k < |children| && children[k] == r.value && SameName(children[k].name, key)
      && forall j | 0 <= j < k :: !SameName(children[j].name, key);
    assert k == i;
  }

  /** Names of different length never match. */
  lemma DifferentLengths(a: string, b: string)
    requires |a| != |b|
    ensures !SameName(a, b)
  {
    assert |Lower(a)| != |Lower(b)|;
  }

  /** Reading back a written package gives the package. */
  lemma {:induction false} PackageRoundTrip(p: PackageInfo, changeNumber: nat)
    requires Representable(p) && p.changeNumber == changeNumber
    ensures PackageOf(ProductInfo(p.id, changeNumber, PackageTree(p), false)) == p
  {
    var tree := PackageTree(p);
    var cs := tree.children;
    FirstChildAt(cs, "appids", 0);
    DifferentLengths("appids", "billingtype");
    FirstChildAt(cs, "billingtype", 1);
    DifferentLengths("appids", "extended");
    DifferentLengths("billingtype", "extended");
    if p.releaseStateOverride {
      FirstChildAt(cs, "extended", 2);
      FirstChildAt(cs[2].children, "releasestateoverride", 0);
    } else {
      FirstChildSpec(cs, "extended");
    }
    var appids := cs[0].children;
    var read := AppIdsOf(appids);
    forall i | 0 <= i < |p.apps| ensures read[i] == p.apps[i] {
      UInt32RoundTrip(p.apps[i]);
    }
    Int32RoundTrip(p.billingType);
  }

  /** Reading back a written app gives the app. */
  lemma {:induction false} AppRoundTrip(a: AppInfo, changeNumber: nat)
    requires LowerCaseType(a) && a.changeNumber == changeNumber
    ensures AppOf(ProductInfo(a.id, changeNumber, AppTree(a), false)) == a
  {
    var tree := AppTree(a);
    FirstChildAt(tree.children, "common", 0);
    var cs := tree.children[0].children;
    assert !SameName("name", "type") by {
      assert Lower("name")[0] != Lower("type")[0];
    }
    DifferentLengths("name", "releasestate");
    DifferentLengths("type", "releasestate");
    var n := if a.name.Some? then 1 else 0;
    var t := if a.appType.Some? then 1 else 0;
    assert |cs| == n + t + 1;
    assert cs[n + t] == Leaf("releasestate", a.releaseState);
    FirstChildAt(cs, "releasestate", n + t);
    if a.name.Some? {
      FirstChildAt(cs, "name", 0);
    } else {
      FirstChildSpec(cs, "name");
    }
    if a.appType.Some? {
      assert cs[n] == Leaf("type", a.appType.value);
      FirstChildAt(cs, "type", n);
    } else {
      FirstChildSpec(cs, "type");
    }
  }

  /** Every app the constructor builds survives writing it out and reading it back. */
  lemma AppOfRoundTrip(info: ProductInfo)
    ensures AppOf(ProductInfo(info.id, info.changeNumber, AppTree(AppOf(info)), false)) == AppOf(info)
  {
    AppOfLowerCase(info);
    AppRoundTrip(AppOf(info), info.changeNumber);
  }
}
