/**
 * The helpers of src/shared/helpers.ts and dist/shared/helpers.js: the
 * known-error classifier, the retry-wrapped cloud operations and the
 * subscription / resource group / plan resolvers.
 *
 * Every operation takes the world and returns its result with the new world.
 * The source retries by recursion without a bound; here each operation takes
 * `fuel`, a re-invocation costs one unit, and `Diverged` stands for recursion
 * beyond that bound.
 */
module Helpers {
  import opened Wrappers
  import opened Bll
  import opened Remote
  import opened Naming
  import Settings
  import Credentials

  const DefaultGroup := "PostHasteGroup"
  const DefaultLocation := "westus2"
  const DefaultPlan := "PostHastePlan"
  const DefaultSku := Sku("F1", "Free")

  const ExpiredToken := "ExpiredAuthenticationToken"
  const WrongTenant := "InvalidAuthenticationTokenTenant"

  const SubscriptionKey := "subscriptionId"
  const GroupKey := "resourceGroupName"
  const PlanKey := "planName"

  /** The two codes `fixedKnownError` knows how to repair. */
  predicate Fixable(code: Option<string>) {
    code == Some(ExpiredToken) || code == Some(WrongTenant)
  }

  /** What `settings.get(key)` returns in this world. */
  function Setting(w: World, key: string): Option<string> {
    Settings.Lookup(Settings.View(w.settings), key)
  }

  /** The group name `resolveGroupName` settles on: the stored one, else the default. */
  function GroupTarget(w: World): string {
    var v := Setting(w, GroupKey);
    if Truthy(v) then v.value else DefaultGroup
  }

  /** The plan name `resolvePlanName` settles on: the stored one, else the default. */
  function PlanTarget(w: World): string {
    var v := Setting(w, PlanKey);
    if Truthy(v) then v.value else DefaultPlan
  }

  /** A key either keeps its value or, when unset, receives its default. */
  predicate KeyStep(a: Settings.Store, b: Settings.Store, k: string, d: string) {
    Settings.Lookup(b, k) == Settings.Lookup(a, k)
    || (!Truthy(Settings.Lookup(a, k)) && Settings.Lookup(b, k) == Some(d))
  }

  /** The only settings writes the helpers make: persisting the group and plan defaults. */
  predicate SettingsStep(a: Settings.Store, b: Settings.Store) {
    && a - {GroupKey, PlanKey} == b - {GroupKey, PlanKey}
    && KeyStep(a, b, GroupKey, DefaultGroup)
    && KeyStep(a, b, PlanKey, DefaultPlan)
  }

  /** What every helper keeps: the log only grows, the fault oracle only drains, tenants,
      subscriptions, the issued publishing credentials and the disk are untouched. */
  ghost predicate Evolves(w: World, w': World) {
    && w.log <= w'.log
    && w'.cloud.tenants == w.cloud.tenants
    && w'.cloud.subscriptions == w.cloud.subscriptions
    && w'.cloud.profile == w.cloud.profile
    && w'.disk == w.disk
    && (w.faults == [] ==> w'.faults == [])
    && SettingsStep(Settings.View(w.settings), Settings.View(w'.settings))
  }

  /** Which mutating calls an operation may issue: groups, plans and sites it may create,
      sites it may delete, and sites it may upload to. */
  datatype Scope = Scope(groups: set<string>, plans: set<string>, sites: set<string>,
                         deletes: set<string>, uploads: set<string>)

  const ReadOnly := Scope({}, {}, {}, {}, {})

  predicate Permits(sc: Scope, c: Call) {
    match c
    case GroupsCreateOrUpdate(_, n, _) => n in sc.groups
    case ServerFarmsCreateOrUpdate(_, _, n, _, _) => n in sc.plans
    case SitesCreateOrUpdate(_, _, n, _, _) => n in sc.sites
    case SitesDelete(_, _, n) => n in sc.deletes
    case VfsUpload(n, _, _, _, _) => n in sc.uploads
    case _ => true
  }

  /** Every call issued between `w` and `w'` is permitted by `sc`. */
  predicate Within(w: World, w': World, sc: Scope) {
    forall i | |w.log| <= i < |w'.log| :: Permits(sc, w'.log[i])
  }

  lemma EvolvesTrans(a: World, b: World, c: World)
    requires Evolves(a, b) && Evolves(b, c)
    ensures Evolves(a, c)
  {
  }

  lemma WithinTrans(a: World, b: World, c: World, sc: Scope)
    requires a.log <= b.log <= c.log
    requires Within(a, b, sc) && Within(b, c, sc)
    ensures Within(a, c, sc)
  {
    forall i | |a.log| <= i < |c.log|
      ensures Permits(sc, c.log[i])
    {
      if i < |b.log| {
        assert c.log[i] == b.log[i];
      }
    }
  }

  /** A read-only stretch of calls fits within any scope. */
  lemma WithinReadOnly(a: World, b: World, sc: Scope)
    requires Within(a, b, ReadOnly)
    ensures Within(a, b, sc)
  {
    forall i | |a.log| <= i < |b.log|
      ensures Permits(sc, b.log[i])
    {
      assert Permits(ReadOnly, b.log[i]);
    }
  }

  /** One cloud call: the world evolves by exactly that logged call. */
  lemma InvokeStep(w: World, c: Call, sc: Scope)
    requires Permits(sc, c)
    ensures Evolves(w, Invoke(w, c).1) && Within(w, Invoke(w, c).1, sc)
  {
    var w' := Invoke(w, c).1;
    assert w'.log == w.log + [c];
    assert w'.log[|w.log|] == c;
  }

  /** A read-only stretch: calls that change nothing but the log, the fault oracle and the
      credentials, and leave the settings view as it was. */
  ghost predicate Quiet(w: World, w': World) {
    && w.log <= w'.log
    && (w.faults == [] ==> w'.faults == [])
    && w'.cloud == w.cloud
    && w'.disk == w.disk
    && Settings.View(w'.settings) == Settings.View(w.settings)
    && Within(w, w', ReadOnly)
  }

  lemma QuietTrans(a: World, b: World, c: World)
    requires Quiet(a, b) && Quiet(b, c)
    ensures Quiet(a, c)
  {
    WithinTrans(a, b, c, ReadOnly);
  }

  lemma QuietEvolves(a: World, b: World)
    requires Quiet(a, b)
    ensures Evolves(a, b)
  {
  }

  /** One read-only cloud call is a quiet step. */
  lemma InvokeQuiet(w: World, c: Call)
    requires Permits(ReadOnly, c)
    ensures Quiet(w, Invoke(w, c).1)
  {
    InvokeStep(w, c, ReadOnly);
  }

  /** A login is a quiet step. */
  lemma LoginQuiet(w: World, ignoreCache: bool, tenantId: Option<string>)
    ensures Quiet(w, LoginWorld(w, ignoreCache, tenantId))
    ensures LoginWorld(w, ignoreCache, tenantId).settings == w.settings
  {
    var w' := LoginWorld(w, ignoreCache, tenantId);
    if w'.log != w.log {
      assert w'.log[|w.log|] == InteractiveLogin(tenantId);
    }
  }

  /** The groups either stay as they were or gain the group `name`. */
  predicate GroupsStep(w: World, w': World, name: string) {
    w'.cloud.groups == w.cloud.groups
    || w'.cloud.groups == AddGroup(w.cloud.groups, ResourceGroup(name, DefaultLocation))
  }

  /**
   * The read-default-persist sequence both resolvers share: the stored name
   * when it is truthy, else the fallback, which is then written back.
   */
  function StoredOrDefault(s: Settings.SettingsState, key: string, fallback: string): (r: (string, Settings.SettingsState))
    ensures var stored := Settings.Lookup(Settings.View(s), key);
            && (Truthy(stored) ==> stored == Some(r.0) && Settings.View(r.1) == Settings.View(s))
            && (!Truthy(stored) ==> r.0 == fallback && Settings.View(r.1) == Settings.View(s)[key := fallback])
    ensures Settings.Lookup(Settings.View(r.1), key) == Some(r.0)
    ensures Settings.View(r.1) - {key} == Settings.View(s) - {key}
    ensures KeyStep(Settings.View(s), Settings.View(r.1), key, fallback)
    ensures Settings.Valid(s) ==> Settings.Valid(r.1)
  {
    var (stored, s1) := Settings.Get(s, key);
    if Truthy(stored) then (stored.value, s1)
    else (fallback, Settings.Set(s1, key, fallback))
  }

  /** Two stores that agree away from `key` agree on every other key. */
  lemma LookupElsewhere(a: Settings.Store, b: Settings.Store, key: string, other: string)
    requires b - {key} == a - {key} && other != key
    ensures Settings.Lookup(b, other) == Settings.Lookup(a, other)
  {
    assert other in b <==> other in b - {key};
    assert other in a <==> other in a - {key};
    if other in b {
      assert b[other] == (b - {key})[other];
    }
    if other in a {
      assert a[other] == (a - {key})[other];
    }
  }

  /** Persisting one resolver default is a settings step of the helpers. */
  lemma DefaultIsSettingsStep(a: Settings.Store, b: Settings.Store, key: string, fallback: string)
    requires (key, fallback) == (GroupKey, DefaultGroup) || (key, fallback) == (PlanKey, DefaultPlan)
    requires b - {key} == a - {key} && KeyStep(a, b, key, fallback)
    ensures SettingsStep(a, b)
  {
    var other := if key == GroupKey then PlanKey else GroupKey;
    LookupElsewhere(a, b, key, other);
    assert a - {GroupKey, PlanKey} == b - {GroupKey, PlanKey} by {
      assert a - {GroupKey, PlanKey} == (a - {key}) - {other};
      assert b - {GroupKey, PlanKey} == (b - {key}) - {other};
    }
  }

  /** The plans either stay as they were or gain the plan `name` in `group`. */
  predicate PlansStep(w: World, w': World, name: string, group: string) {
    w'.cloud.plans == w.cloud.plans
    || w'.cloud.plans == AddPlan(w.cloud.plans, Plan(name, group, DefaultLocation, DefaultSku))
  }

  lemma GroupsStepTrans(a: World, b: World, c: World, name: string)
    requires GroupsStep(a, b, name) && GroupsStep(b, c, name)
    ensures GroupsStep(a, c, name)
    ensures c.cloud.groups == AddGroup(b.cloud.groups, ResourceGroup(name, DefaultLocation)) ==>
              c.cloud.groups == AddGroup(a.cloud.groups, ResourceGroup(name, DefaultLocation))
  {
  }

  lemma PlansStepTrans(a: World, b: World, c: World, name: string, group: string)
    requires PlansStep(a, b, name, group) && PlansStep(b, c, name, group)
    ensures PlansStep(a, c, name, group)
    ensures c.cloud.plans == AddPlan(b.cloud.plans, Plan(name, group, DefaultLocation, DefaultSku)) ==>
              c.cloud.plans == AddPlan(a.cloud.plans, Plan(name, group, DefaultLocation, DefaultSku))
  {
  }

  /** What the resolvers may provision: the target group and, in it, the target plan. */
  predicate Provisioned(w: World, w': World) {
    GroupsStep(w, w', GroupTarget(w)) && PlansStep(w, w', PlanTarget(w), GroupTarget(w))
  }

  /** Helper calls never move the resolvers' targets: a stored name stays, and an unset
      one can only become its default. */
  lemma TargetsStable(a: World, b: World)
    requires SettingsStep(Settings.View(a.settings), Settings.View(b.settings))
    ensures GroupTarget(b) == GroupTarget(a) && PlanTarget(b) == PlanTarget(a)
  {
  }

  lemma ProvisionedTrans(a: World, b: World, c: World)
    requires Evolves(a, b) && Provisioned(a, b) && Provisioned(b, c)
    ensures Provisioned(a, c)
  {
    TargetsStable(a, b);
  }

  /** What a helper that resolves the group may do: evolve the world, create only the
      target group (nothing when it is listed already), and touch no other cloud state
      and no setting but the group name. */
  ghost predicate GroupEffects(w: World, w': World) {
    && Evolves(w, w')
    && Within(w, w', Scope({GroupTarget(w)}, {}, {}, {}, {}))
    && (HasGroup(w.cloud.groups, GroupTarget(w)) ==> Within(w, w', ReadOnly))
    && w'.cloud == w.cloud.(groups := w'.cloud.groups)
    && GroupsStep(w, w', GroupTarget(w))
    && Settings.View(w'.settings) - {GroupKey} == Settings.View(w.settings) - {GroupKey}
  }

  /** The group resolved from `w` is in place in `w'`. */
  predicate GroupResolved(w: World, w': World) {
    && Setting(w', GroupKey) == Some(GroupTarget(w))
    && w'.cloud.groups == AddGroup(w.cloud.groups, ResourceGroup(GroupTarget(w), DefaultLocation))
  }

  lemma GroupEffectsTrans(a: World, b: World, c: World)
    requires GroupEffects(a, b) && GroupEffects(b, c)
    ensures GroupEffects(a, c)
    ensures GroupResolved(b, c) ==> GroupResolved(a, c)
  {
    TargetsStable(a, b);
    EvolvesTrans(a, b, c);
    WithinTrans(a, b, c, Scope({GroupTarget(a)}, {}, {}, {}, {}));
    GroupsStepTrans(a, b, c, GroupTarget(a));
    if HasGroup(a.cloud.groups, GroupTarget(a)) {
      assert b.cloud.groups == a.cloud.groups;
      WithinTrans(a, b, c, ReadOnly);
    }
  }

  /** A read-only stretch that leaves the cloud and the settings view alone. */
  lemma QuietIsGroupEffect(a: World, b: World)
    requires Quiet(a, b)
    ensures GroupEffects(a, b)
  {
    QuietEvolves(a, b);
    WithinReadOnly(a, b, Scope({GroupTarget(a)}, {}, {}, {}, {}));
  }

  lemma WithinWiden(a: World, b: World, sc: Scope, sc2: Scope)
    requires Within(a, b, sc)
    requires sc.groups <= sc2.groups && sc.plans <= sc2.plans && sc.sites <= sc2.sites
    requires sc.deletes <= sc2.deletes && sc.uploads <= sc2.uploads
    ensures Within(a, b, sc2)
  {
    forall i | |a.log| <= i < |b.log|
      ensures Permits(sc2, b.log[i])
    {
      assert Permits(sc, b.log[i]);
    }
  }

  /** What a helper that resolves the group and may create the plan `name` in it may do. */
  ghost predicate PlanEffects(w: World, w': World, name: string) {
    && Evolves(w, w')
    && Within(w, w', Scope({GroupTarget(w)}, {name}, {}, {}, {}))
    && w'.cloud == w.cloud.(groups := w'.cloud.groups, plans := w'.cloud.plans)
    && GroupsStep(w, w', GroupTarget(w))
    && PlansStep(w, w', name, GroupTarget(w))
  }

  /** The group resolved from `w`, and the plan `name` in it, are in place in `w'`. */
  predicate PlanResolved(w: World, w': World, name: string) {
    && GroupResolved(w, w')
    && w'.cloud.plans == AddPlan(w.cloud.plans, Plan(name, GroupTarget(w), DefaultLocation, DefaultSku))
  }

  lemma GroupIsPlanEffect(a: World, b: World, name: string)
    requires GroupEffects(a, b)
    ensures PlanEffects(a, b, name)
  {
    WithinWiden(a, b, Scope({GroupTarget(a)}, {}, {}, {}, {}), Scope({GroupTarget(a)}, {name}, {}, {}, {}));
  }

  lemma PlanEffectsTrans(a: World, b: World, c: World, name: string)
    requires PlanEffects(a, b, name) && PlanEffects(b, c, name)
    ensures PlanEffects(a, c, name)
    ensures GroupResolved(b, c) ==> GroupResolved(a, c)
    ensures PlanResolved(b, c, name) ==> PlanResolved(a, c, name)
  {
    TargetsStable(a, b);
    EvolvesTrans(a, b, c);
    WithinTrans(a, b, c, Scope({GroupTarget(a)}, {name}, {}, {}, {}));
    GroupsStepTrans(a, b, c, GroupTarget(a));
    PlansStepTrans(a, b, c, name, GroupTarget(a));
  }

  /** What `createWebsite(name)` may do: provision the target group and plan, and create
      or update the site `name` bound to the target plan. */
  ghost predicate SiteEffects(w: World, w': World, name: string) {
    && Evolves(w, w')
    && Within(w, w', Scope({GroupTarget(w)}, {PlanTarget(w)}, {name}, {}, {}))
    && w'.cloud == w.cloud.(groups := w'.cloud.groups, plans := w'.cloud.plans, sites := w'.cloud.sites)
    && Provisioned(w, w')
    && (w'.cloud.sites == w.cloud.sites || w'.cloud.sites == UpsertSite(w.cloud.sites, SiteFor(w, name)))
  }

  /** The envelope `createWebsite(name)` sends: the target group and plan, the default location. */
  function SiteFor(w: World, name: string): Website {
    Website(name, GroupTarget(w), DefaultLocation, PlanTarget(w))
  }

  lemma PlanIsSiteEffect(a: World, b: World, name: string)
    requires PlanEffects(a, b, PlanTarget(a))
    ensures SiteEffects(a, b, name)
  {
    WithinWiden(a, b, Scope({GroupTarget(a)}, {PlanTarget(a)}, {}, {}, {}),
                Scope({GroupTarget(a)}, {PlanTarget(a)}, {name}, {}, {}));
  }

  /** A quiet stretch is within what `createWebsite(name)` may do. */
  lemma QuietIsSiteEffect(a: World, b: World, name: string)
    requires Quiet(a, b)
    ensures SiteEffects(a, b, name)
  {
    QuietEvolves(a, b);
    WithinReadOnly(a, b, Scope({GroupTarget(a)}, {PlanTarget(a)}, {name}, {}, {}));
  }

  /** A single stretch that only logs calls within scope and at most writes the target site. */
  lemma SiteStep(a: World, b: World, name: string)
    requires Evolves(a, b) && Within(a, b, Scope({GroupTarget(a)}, {PlanTarget(a)}, {name}, {}, {}))
    requires b.cloud == a.cloud.(sites := b.cloud.sites)
    requires b.cloud.sites == a.cloud.sites || b.cloud.sites == UpsertSite(a.cloud.sites, SiteFor(a, name))
    ensures SiteEffects(a, b, name)
  {
  }

  /** The site `site` created from `w` is in place in `w'`: it is the envelope `createWebsite(name)`
      sends, its group and plan are in place and persisted, and it is upserted into the sites. */
  predicate SiteCreated(w: World, w': World, name: string, site: Website) {
    && site == SiteFor(w, name)
    && PlanResolved(w, w', PlanTarget(w))
    && Setting(w', PlanKey) == Some(PlanTarget(w))
    && w'.cloud.sites == UpsertSite(w.cloud.sites, site)
  }

  lemma SiteEffectsTrans(a: World, b: World, c: World, name: string)
    requires SiteEffects(a, b, name) && SiteEffects(b, c, name)
    ensures SiteEffects(a, c, name)
    ensures SiteFor(b, name) == SiteFor(a, name)
    ensures SiteCreated(b, c, name, SiteFor(b, name)) ==> SiteCreated(a, c, name, SiteFor(a, name))
    ensures PlanResolved(b, c, PlanTarget(b)) ==> PlanResolved(a, c, PlanTarget(a))
    ensures c.cloud.sites == UpsertSite(b.cloud.sites, SiteFor(b, name)) ==>
              c.cloud.sites == UpsertSite(a.cloud.sites, SiteFor(a, name))
  {
    TargetsStable(a, b);
    EvolvesTrans(a, b, c);
    WithinTrans(a, b, c, Scope({GroupTarget(a)}, {PlanTarget(a)}, {name}, {}, {}));
    ProvisionedTrans(a, b, c);
    GroupsStepTrans(a, b, c, GroupTarget(a));
    PlansStepTrans(a, b, c, PlanTarget(a), GroupTarget(a));
    UpsertSiteIdempotent(a.cloud.sites, SiteFor(a, name));
  }

  /** What `deleteWebsite(name)` may do: provision the target group and delete the site
      `name` from it. */
  ghost predicate DeleteEffects(w: World, w': World, name: string) {
    && Evolves(w, w')
    && Within(w, w', Scope({GroupTarget(w)}, {}, {}, {name}, {}))
    && w'.cloud == w.cloud.(groups := w'.cloud.groups, sites := w'.cloud.sites)
    && GroupsStep(w, w', GroupTarget(w))
    && Settings.View(w'.settings) - {GroupKey} == Settings.View(w.settings) - {GroupKey}
    && (w'.cloud.sites == w.cloud.sites || w'.cloud.sites == RemoveSite(w.cloud.sites, GroupTarget(w), name))
  }

  lemma GroupIsDeleteEffect(a: World, b: World, name: string)
    requires GroupEffects(a, b)
    ensures DeleteEffects(a, b, name)
  {
    WithinWiden(a, b, Scope({GroupTarget(a)}, {}, {}, {}, {}), Scope({GroupTarget(a)}, {}, {}, {name}, {}));
  }

  lemma DeleteEffectsTrans(a: World, b: World, c: World, name: string)
    requires DeleteEffects(a, b, name) && DeleteEffects(b, c, name)
    ensures DeleteEffects(a, c, name)
    ensures GroupResolved(b, c) ==> GroupResolved(a, c)
    ensures c.cloud.sites == RemoveSite(b.cloud.sites, GroupTarget(b), name) ==>
              c.cloud.sites == RemoveSite(a.cloud.sites, GroupTarget(a), name)
  {
    TargetsStable(a, b);
    EvolvesTrans(a, b, c);
    WithinTrans(a, b, c, Scope({GroupTarget(a)}, {}, {}, {name}, {}));
    GroupsStepTrans(a, b, c, GroupTarget(a));
    RemoveSiteIdempotent(a.cloud.sites, GroupTarget(a), name);
  }

  /** `plans.some(p => p.name === planName)` */
  predicate HasPlanNamed(ps: seq<Plan>, name: string) {
    exists p | p in ps :: p.name == name
  }

  /** `login(ignoreCache, tenantId)` on the world; an interactive login is logged. */
  function LoginWorld(w: World, ignoreCache: bool, tenantId: Option<string>): (r: World)
    ensures r.cred == Credentials.Login(w.cred, ignoreCache, tenantId)
    ensures r == w.(cred := r.cred, log := r.log)
    ensures r.log == if Credentials.NeedsInteractive(w.cred, ignoreCache)
                     then w.log + [InteractiveLogin(tenantId)] else w.log
  {
    var c := Credentials.Login(w.cred, ignoreCache, tenantId);
    w.(cred := c, log := if Credentials.NeedsInteractive(w.cred, ignoreCache)
                         then w.log + [InteractiveLogin(tenantId)] else w.log)
  }

  /** The outcome of a catch block whose `fixedKnownError` reported no fix: rethrow. */
  function Settle<T>(fix: Outcome<bool>, e: Error): (r: Outcome<T>)
    requires fix != Ok(true)
    ensures fix == Ok(false) ==> r == Thrown(e)
    ensures fix.Thrown? ==> r == Thrown(fix.error)
    ensures fix.Diverged? ==> r.Diverged?
  {
    match fix
    case Ok(_) => Thrown(e)
    case Thrown(e2) => Thrown(e2)
    case Diverged => Diverged
  }

  /**
   * `fixedKnownError(errCode)`: an expired token is repaired by a forced login,
   * a wrong tenant by a forced login scoped to the first listed tenant; any
   * other code is left alone and reported as not fixed.
   */
  function FixedKnownError(w: World, code: Option<string>, fuel: nat): (res: Step<bool>)
    decreases fuel, 0
    ensures Quiet(w, res.world) && res.world.settings == w.settings
    ensures res.out.Ok? ==> res.out.value == Fixable(code)
    ensures !Fixable(code) ==> res == Step(Ok(false), w)
    ensures code == Some(ExpiredToken) ==> res == Step(Ok(true), LoginWorld(w, true, None))
    ensures code == Some(WrongTenant) && res.out.Ok? ==>
              && w.cloud.tenants != []
              && res.world.cred.current.Some?
              && res.world.cred.current.value.domain == Some(w.cloud.tenants[0].tenantId)
              && |res.world.log| > 0
              && res.world.log[|res.world.log| - 1] == InteractiveLogin(Some(w.cloud.tenants[0].tenantId))
    ensures res.out.Thrown? ==> !Fixable(Code(res.out.error))
  {
    if code == Some(ExpiredToken) then
      LoginQuiet(w, true, None);
      Step(Ok(true), LoginWorld(w, true, None))
    else if code == Some(WrongTenant) then
      if fuel == 0 then Step(Diverged, w)
      else
        var tenants := GetTenants(w, fuel - 1);
        if !tenants.out.Ok? then Step(Forward(tenants.out), tenants.world)
        else if tenants.out.value == [] then Step(Thrown(MissingTenant), tenants.world)
        else
          var tenantId := Some(tenants.out.value[0].tenantId);
          LoginQuiet(tenants.world, true, tenantId);
          QuietTrans(w, tenants.world, LoginWorld(tenants.world, true, tenantId));
          Step(Ok(true), LoginWorld(tenants.world, true, tenantId))
    else
      Step(Ok(false), w)
  }

  /** `getTenants()`: the tenants the account can see. */
  function GetTenants(w: World, fuel: nat): (res: Step<seq<Tenant>>)
    decreases fuel, 1
    ensures Quiet(w, res.world) && res.world.settings == w.settings
    ensures res.out.Ok? ==> res.out.value == w.cloud.tenants
    ensures w.faults == [] ==> res.out == Ok(w.cloud.tenants)
    ensures res.out.Thrown? ==> !Fixable(Code(res.out.error))
  {
    var w1 := LoginWorld(w, false, None);
    var (failure, w2) := Invoke(w1, TenantsList);
    LoginQuiet(w, false, None);
    InvokeQuiet(w1, TenantsList);
    QuietTrans(w, w1, w2);
    if failure.None? then Step(Ok(w2.cloud.tenants), w2)
    else
      var e := ApiError(failure.value);
      var fix := FixedKnownError(w2, Code(e), fuel);
      QuietTrans(w, w2, fix.world);
      if fix.out != Ok(true) then Step(Settle(fix.out, e), fix.world)
      else if fuel == 0 then Step(Diverged, fix.world)
      else
        var again := GetTenants(fix.world, fuel - 1);
        QuietTrans(w, fix.world, again.world);
        again
  }

  /**
   * `getSubscriptions()`: the subscriptions the current token can see. An empty
   * list is taken as a wrong-tenant token: repair and list again.
   */
  function GetSubscriptions(w: World, fuel: nat): (res: Step<seq<Subscription>>)
    decreases fuel, 2
    ensures Quiet(w, res.world) && res.world.settings == w.settings
    ensures res.out.Ok? ==> res.out.value == Visible(res.world) && res.out.value != []
    ensures var home := Visible(LoginWorld(w, false, None));
            w.faults == [] && home != [] ==> res.out == Ok(home)
    ensures var listed := Invoke(LoginWorld(w, false, None), SubscriptionsList);
            var fix := FixedKnownError(listed.1, Some(WrongTenant), fuel);
            listed.0.None? && Visible(listed.1) == [] && fix.out == Ok(true) && fuel > 0
            && !GetSubscriptions(fix.world, fuel - 1).out.Thrown? ==>
              res == GetSubscriptions(fix.world, fuel - 1)
    ensures res.out.Thrown? ==> !Fixable(Code(res.out.error))
  {
    var w1 := LoginWorld(w, false, None);
    var (failure, w2) := Invoke(w1, SubscriptionsList);
    LoginQuiet(w, false, None);
    InvokeQuiet(w1, SubscriptionsList);
    QuietTrans(w, w1, w2);
    var attempt: Step<seq<Subscription>> := (
      if failure.Some? then Step(Thrown(ApiError(failure.value)), w2)
      else if |Visible(w2)| != 0 then Step(Ok(Visible(w2)), w2)
      else
        var fix := FixedKnownError(w2, Some(WrongTenant), fuel);
        QuietTrans(w, w2, fix.world);
        if fix.out == Ok(true) then
          if fuel == 0 then Step(Diverged, fix.world)
          else
            var again := GetSubscriptions(fix.world, fuel - 1);
            QuietTrans(w, fix.world, again.world);
            again
        else if fix.out.Ok? then Step(Ok(Visible(w2)), fix.world)
        else Step(Forward(fix.out), fix.world));
    if !attempt.out.Thrown? then attempt
    else
      var e := attempt.out.error;
      var fix := FixedKnownError(attempt.world, Code(e), fuel);
      QuietTrans(w, attempt.world, fix.world);
      if fix.out != Ok(true) then Step(Settle(fix.out, e), fix.world)
      else if fuel == 0 then Step(Diverged, fix.world)
      else
        var again := GetSubscriptions(fix.world, fuel - 1);
        QuietTrans(w, fix.world, again.world);
        again
  }

  /**
   * `resolveSubscriptionId()`: the stored subscription id. Without one it lists
   * the subscriptions for the operator and throws; it never picks or stores one.
   */
  function ResolveSubscriptionId(w: World, fuel: nat): (res: Step<string>)
    decreases fuel, 3
    ensures Quiet(w, res.world)
    ensures res.out.Ok? <==> Truthy(Setting(w, SubscriptionKey))
    ensures res.out.Ok? ==> Setting(w, SubscriptionKey) == Some(res.out.value)
    ensures !Truthy(Setting(w, SubscriptionKey)) && w.faults == [] && Visible(LoginWorld(w, false, None)) != [] ==>
              res.out == Thrown(NoDefaultSubscription)
    ensures res.out.Thrown? ==> !Fixable(Code(res.out.error))
  {
    var w1 := LoginWorld(w, false, None);
    var (stored, s1) := Settings.Get(w1.settings, SubscriptionKey);
    var w2 := w1.(settings := s1);
    LoginQuiet(w, false, None);
    assert Quiet(w1, w2);
    QuietTrans(w, w1, w2);
    if Truthy(stored) then Step(Ok(stored.value), w2)
    else
      var subscriptions := GetSubscriptions(w2, fuel);
      QuietTrans(w, w2, subscriptions.world);
      if subscriptions.out.Ok? then Step(Thrown(NoDefaultSubscription), subscriptions.world)
      else Step(Forward(subscriptions.out), subscriptions.world)
  }

  /** `getResourceGroups()`: the groups of the selected subscription. */
  function GetResourceGroups(w: World, fuel: nat): (res: Step<seq<ResourceGroup>>)
    decreases fuel, 4
    ensures Quiet(w, res.world)
    ensures res.out.Ok? ==> res.out.value == w.cloud.groups && Truthy(Setting(w, SubscriptionKey))
    ensures res.out.Thrown? ==> !Fixable(Code(res.out.error))
  {
    var sub := ResolveSubscriptionId(w, fuel);
    if !sub.out.Ok? then Step(Forward(sub.out), sub.world)
    else
      var (failure, w2) := Invoke(sub.world, GroupsList(sub.out.value));
      InvokeQuiet(sub.world, GroupsList(sub.out.value));
      QuietTrans(w, sub.world, w2);
      if failure.None? then Step(Ok(w2.cloud.groups), w2)
      else
        var e := ApiError(failure.value);
        var fix := FixedKnownError(w2, Code(e), fuel);
        QuietTrans(w, w2, fix.world);
        if fix.out != Ok(true) then Step(Settle(fix.out, e), fix.world)
        else if fuel == 0 then Step(Diverged, fix.world)
        else
          var again := GetResourceGroups(fix.world, fuel - 1);
          QuietTrans(w, fix.world, again.world);
          again
  }

  /** `createResourceGroup(name)`: create (or update) the group in the default location. */
  function CreateResourceGroup(w: World, name: string, fuel: nat): (res: Step<ResourceGroup>)
    decreases fuel, 4
    ensures Evolves(w, res.world) && Within(w, res.world, Scope({name}, {}, {}, {}, {}))
    ensures Settings.View(res.world.settings) == Settings.View(w.settings)
    ensures res.world.cloud == w.cloud.(groups := res.world.cloud.groups) && GroupsStep(w, res.world, name)
    ensures res.out.Ok? ==>
              && res.out.value == ResourceGroup(name, DefaultLocation)
              && res.world.cloud.groups == AddGroup(w.cloud.groups, res.out.value)
    ensures res.out.Thrown? ==> !Fixable(Code(res.out.error))
  {
    var sub := ResolveSubscriptionId(w, fuel);
    if !sub.out.Ok? then Step(Forward(sub.out), sub.world)
    else
      var sc := Scope({name}, {}, {}, {}, {});
      var call := GroupsCreateOrUpdate(sub.out.value, name, DefaultLocation);
      var (failure, w2) := Invoke(sub.world, call);
      InvokeStep(sub.world, call, sc);
      QuietEvolves(w, sub.world);
      WithinReadOnly(w, sub.world, sc);
      EvolvesTrans(w, sub.world, w2);
      WithinTrans(w, sub.world, w2, sc);
      if failure.None? then
        var g := ResourceGroup(name, DefaultLocation);
        Step(Ok(g), w2.(cloud := w2.cloud.(groups := AddGroup(w2.cloud.groups, g))))
      else
        var e := ApiError(failure.value);
        var fix := FixedKnownError(w2, Code(e), fuel);
        QuietEvolves(w2, fix.world);
        WithinReadOnly(w2, fix.world, sc);
        EvolvesTrans(w, w2, fix.world);
        WithinTrans(w, w2, fix.world, sc);
        if fix.out != Ok(true) then Step(Settle(fix.out, e), fix.world)
        else if fuel == 0 then Step(Diverged, fix.world)
        else
          var again := CreateResourceGroup(fix.world, name, fuel - 1);
          EvolvesTrans(w, fix.world, again.world);
          WithinTrans(w, fix.world, again.world, sc);
          again
  }

  /**
   * `resolveGroupName()`: list the groups, take the stored name or persist the
   * default, and create the group only when no listed group has that name.
   */
  function ResolveGroupName(w: World, fuel: nat): (res: Step<string>)
    decreases fuel, 5
    ensures GroupEffects(w, res.world)
    ensures res.out.Ok? ==> res.out.value == GroupTarget(w) && GroupResolved(w, res.world)
    ensures res.out.Thrown? ==> !Fixable(Code(res.out.error))
  {
    var sc := Scope({GroupTarget(w)}, {}, {}, {}, {});
    var groups := GetResourceGroups(w, fuel);
    if !groups.out.Ok? then
      WithinReadOnly(w, groups.world, sc);
      Step(Forward(groups.out), groups.world)
    else
      var (name, s1) := StoredOrDefault(groups.world.settings, GroupKey, DefaultGroup);
      var w1 := groups.world.(settings := s1);
      DefaultIsSettingsStep(Settings.View(groups.world.settings), Settings.View(s1), GroupKey, DefaultGroup);
      QuietEvolves(w, groups.world);
      EvolvesTrans(w, groups.world, w1);
      WithinReadOnly(w, groups.world, sc);
      if HasGroup(groups.out.value, name) then Step(Ok(name), w1)
      else
        var created := CreateResourceGroup(w1, name, fuel);
        EvolvesTrans(w, w1, created.world);
        WithinTrans(w, w1, created.world, sc);
        if !created.out.Ok? then Step(Forward(created.out), created.world)
        else Step(Ok(name), created.world)
  }

  /** The `try` body of `getPlans()`: resolve the group, then list its plans. */
  function ListPlans(w: World, subscriptionId: string, fuel: nat): (res: Step<seq<Plan>>)
    decreases fuel, 6
    ensures GroupEffects(w, res.world)
    ensures res.out.Ok? ==> res.out.value == PlansIn(w.cloud.plans, GroupTarget(w)) && GroupResolved(w, res.world)
  {
    var group := ResolveGroupName(w, fuel);
    if !group.out.Ok? then Step(Forward(group.out), group.world)
    else
      var call := ServerFarmsList(subscriptionId, group.out.value);
      var (failure, w2) := Invoke(group.world, call);
      InvokeQuiet(group.world, call);
      QuietIsGroupEffect(group.world, w2);
      GroupEffectsTrans(w, group.world, w2);
      if failure.None? then Step(Ok(PlansIn(w2.cloud.plans, group.out.value)), w2)
      else Step(Thrown(ApiError(failure.value)), w2)
  }

  /** `getPlans()`: the plans of the resolved group. */
  function GetPlans(w: World, fuel: nat): (res: Step<seq<Plan>>)
    decreases fuel, 7
    ensures GroupEffects(w, res.world)
    ensures res.out.Ok? ==> res.out.value == PlansIn(w.cloud.plans, GroupTarget(w)) && GroupResolved(w, res.world)
    ensures res.out.Thrown? ==> !Fixable(Code(res.out.error))
  {
    var sub := ResolveSubscriptionId(w, fuel);
    QuietIsGroupEffect(w, sub.world);
    if !sub.out.Ok? then Step(Forward(sub.out), sub.world)
    else
      var attempt := ListPlans(sub.world, sub.out.value, fuel);
      GroupEffectsTrans(w, sub.world, attempt.world);
      if !attempt.out.Thrown? then attempt
      else
        var e := attempt.out.error;
        var fix := FixedKnownError(attempt.world, Code(e), fuel);
        QuietIsGroupEffect(attempt.world, fix.world);
        GroupEffectsTrans(w, attempt.world, fix.world);
        if fix.out != Ok(true) then Step(Settle(fix.out, e), fix.world)
        else if fuel == 0 then Step(Diverged, fix.world)
        else
          var again := GetPlans(fix.world, fuel - 1);
          GroupEffectsTrans(w, fix.world, again.world);
          again
  }

  /** The `try` body of `createPlan(name)`: resolve the group, then create the plan in it. */
  function MakePlan(w: World, subscriptionId: string, name: string, fuel: nat): (res: Step<Plan>)
    decreases fuel, 6
    ensures PlanEffects(w, res.world, name)
    ensures Settings.View(res.world.settings) - {GroupKey} == Settings.View(w.settings) - {GroupKey}
    ensures res.out.Ok? ==> res.out.value == Plan(name, GroupTarget(w), DefaultLocation, DefaultSku)
                            && PlanResolved(w, res.world, name)
    ensures res.out.Thrown? && !Fixable(Code(res.out.error)) ==> res.world.cloud.plans == w.cloud.plans
  {
    var group := ResolveGroupName(w, fuel);
    GroupIsPlanEffect(w, group.world, name);
    if !group.out.Ok? then Step(Forward(group.out), group.world)
    else
      var call := ServerFarmsCreateOrUpdate(subscriptionId, group.out.value, name, DefaultLocation, DefaultSku);
      var (failure, w2) := Invoke(group.world, call);
      InvokeStep(group.world, call, Scope({GroupTarget(group.world)}, {name}, {}, {}, {}));
      if failure.None? then
        var p := Plan(name, group.out.value, DefaultLocation, DefaultSku);
        var w3 := w2.(cloud := w2.cloud.(plans := AddPlan(w2.cloud.plans, p)));
        PlanEffectsTrans(w, group.world, w3, name);
        Step(Ok(p), w3)
      else
        PlanEffectsTrans(w, group.world, w2, name);
        Step(Thrown(ApiError(failure.value)), w2)
  }

  /** `createPlan(name)`: create (or update) the plan in the resolved group. */
  function CreatePlan(w: World, name: string, fuel: nat): (res: Step<Plan>)
    decreases fuel, 7
    ensures PlanEffects(w, res.world, name)
    ensures Settings.View(res.world.settings) - {GroupKey} == Settings.View(w.settings) - {GroupKey}
    ensures res.out.Ok? ==> res.out.value == Plan(name, GroupTarget(w), DefaultLocation, DefaultSku)
                            && PlanResolved(w, res.world, name)
    ensures res.out.Thrown? ==> !Fixable(Code(res.out.error))
  {
    var sub := ResolveSubscriptionId(w, fuel);
    QuietIsGroupEffect(w, sub.world);
    GroupIsPlanEffect(w, sub.world, name);
    if !sub.out.Ok? then Step(Forward(sub.out), sub.world)
    else
      var attempt := MakePlan(sub.world, sub.out.value, name, fuel);
      PlanEffectsTrans(w, sub.world, attempt.world, name);
      if !attempt.out.Thrown? then attempt
      else
        var e := attempt.out.error;
        var fix := FixedKnownError(attempt.world, Code(e), fuel);
        QuietIsGroupEffect(attempt.world, fix.world);
        GroupIsPlanEffect(attempt.world, fix.world, name);
        PlanEffectsTrans(w, attempt.world, fix.world, name);
        if fix.out != Ok(true) then Step(Settle(fix.out, e), fix.world)
        else if fuel == 0 then Step(Diverged, fix.world)
        else
          var again := CreatePlan(fix.world, name, fuel - 1);
          PlanEffectsTrans(w, fix.world, again.world, name);
          again
  }

  /**
   * `resolvePlanName()`: list the plans of the resolved group, take the stored
   * name or persist the default, and create the plan only when no listed plan
   * has that name.
   */
  function ResolvePlanName(w: World, fuel: nat): (res: Step<string>)
    decreases fuel, 8
    ensures PlanEffects(w, res.world, PlanTarget(w))
    ensures HasGroup(w.cloud.groups, GroupTarget(w)) && HasPlan(w.cloud.plans, GroupTarget(w), PlanTarget(w)) ==>
              Within(w, res.world, ReadOnly)
    ensures res.out.Ok? ==>
              && res.out.value == PlanTarget(w)
              && Setting(res.world, PlanKey) == Some(res.out.value)
              && PlanResolved(w, res.world, res.out.value)
    ensures res.out.Thrown? ==> !Fixable(Code(res.out.error))
  {
    var plans := GetPlans(w, fuel);
    GroupIsPlanEffect(w, plans.world, PlanTarget(w));
    if !plans.out.Ok? then Step(Forward(plans.out), plans.world)
    else
      var (name, s1) := StoredOrDefault(plans.world.settings, PlanKey, DefaultPlan);
      var w1 := plans.world.(settings := s1);
      DefaultIsSettingsStep(Settings.View(plans.world.settings), Settings.View(s1), PlanKey, DefaultPlan);
      LookupElsewhere(Settings.View(w.settings), Settings.View(plans.world.settings), GroupKey, PlanKey);
      EvolvesTrans(w, plans.world, w1);
      if HasPlanNamed(plans.out.value, name) then
        assert HasPlan(w.cloud.plans, GroupTarget(w), name) by {
          var p :| p in plans.out.value && p.name == name;
        }
        Step(Ok(name), w1)
      else
        var created := CreatePlan(w1, name, fuel);
        PlanEffectsTrans(w, w1, created.world, name);
        if !created.out.Ok? then Step(Forward(created.out), created.world)
        else Step(Ok(name), created.world)
  }

  /** The `try` body of `getWebsites()`: resolve the group, then list its sites. */
  function ListSites(w: World, subscriptionId: string, fuel: nat): (res: Step<seq<Website>>)
    decreases fuel, 6
    ensures GroupEffects(w, res.world)
    ensures res.out.Ok? ==> res.out.value == SitesIn(w.cloud.sites, GroupTarget(w)) && GroupResolved(w, res.world)
  {
    var group := ResolveGroupName(w, fuel);
    if !group.out.Ok? then Step(Forward(group.out), group.world)
    else
      var call := SitesList(subscriptionId, group.out.value);
      var (failure, w2) := Invoke(group.world, call);
      InvokeQuiet(group.world, call);
      QuietIsGroupEffect(group.world, w2);
      GroupEffectsTrans(w, group.world, w2);
      if failure.None? then Step(Ok(SitesIn(w2.cloud.sites, group.out.value)), w2)
      else Step(Thrown(ApiError(failure.value)), w2)
  }

  /** `getWebsites()`: the sites of the resolved group. */
  function GetWebsites(w: World, fuel: nat): (res: Step<seq<Website>>)
    decreases fuel, 7
    ensures GroupEffects(w, res.world)
    ensures res.out.Ok? ==> res.out.value == SitesIn(w.cloud.sites, GroupTarget(w)) && GroupResolved(w, res.world)
    ensures res.out.Thrown? ==> !Fixable(Code(res.out.error))
  {
    var sub := ResolveSubscriptionId(w, fuel);
    QuietIsGroupEffect(w, sub.world);
    if !sub.out.Ok? then Step(Forward(sub.out), sub.world)
    else
      var attempt := ListSites(sub.world, sub.out.value, fuel);
      GroupEffectsTrans(w, sub.world, attempt.world);
      if !attempt.out.Thrown? then attempt
      else
        var e := attempt.out.error;
        var fix := FixedKnownError(attempt.world, Code(e), fuel);
        QuietIsGroupEffect(attempt.world, fix.world);
        GroupEffectsTrans(w, attempt.world, fix.world);
        if fix.out != Ok(true) then Step(Settle(fix.out, e), fix.world)
        else if fuel == 0 then Step(Diverged, fix.world)
        else
          var again := GetWebsites(fix.world, fuel - 1);
          GroupEffectsTrans(w, fix.world, again.world);
          again
  }

  /** The code the cloud answers with when the site does not exist in the group. */
  const NotFound := "ResourceNotFound"

  /** The `try` body of `getWebsiteCredentials(name)`: resolve the group, then fetch
      the site's publishing credentials. */
  function FetchCredentials(w: World, subscriptionId: string, name: string, fuel: nat): (res: Step<PublishingCredentials>)
    decreases fuel, 6
    ensures GroupEffects(w, res.world)
    ensures res.out.Ok? ==> HasSite(w.cloud.sites, GroupTarget(w), name) && res.out.value == w.cloud.profile(name)
                            && GroupResolved(w, res.world)
  {
    var group := ResolveGroupName(w, fuel);
    if !group.out.Ok? then Step(Forward(group.out), group.world)
    else
      var call := SitesListPublishingCredentials(subscriptionId, group.out.value, name);
      var (failure, w2) := Invoke(group.world, call);
      InvokeQuiet(group.world, call);
      QuietIsGroupEffect(group.world, w2);
      GroupEffectsTrans(w, group.world, w2);
      if failure.Some? then Step(Thrown(ApiError(failure.value)), w2)
      else if !HasSite(w2.cloud.sites, group.out.value, name) then Step(Thrown(ApiError(NotFound)), w2)
      else Step(Ok(w2.cloud.profile(name)), w2)
  }

  /** `getWebsiteCredentials(name)`: the publishing credentials of a site. */
  function GetWebsiteCredentials(w: World, name: string, fuel: nat): (res: Step<PublishingCredentials>)
    decreases fuel, 7
    ensures GroupEffects(w, res.world)
    ensures res.out.Ok? ==> HasSite(w.cloud.sites, GroupTarget(w), name) && res.out.value == w.cloud.profile(name)
                            && GroupResolved(w, res.world)
    ensures res.out.Thrown? ==> !Fixable(Code(res.out.error))
  {
    var sub := ResolveSubscriptionId(w, fuel);
    QuietIsGroupEffect(w, sub.world);
    if !sub.out.Ok? then Step(Forward(sub.out), sub.world)
    else
      var attempt := FetchCredentials(sub.world, sub.out.value, name, fuel);
      GroupEffectsTrans(w, sub.world, attempt.world);
      if !attempt.out.Thrown? then attempt
      else
        var e := attempt.out.error;
        var fix := FixedKnownError(attempt.world, Code(e), fuel);
        QuietIsGroupEffect(attempt.world, fix.world);
        GroupEffectsTrans(w, attempt.world, fix.world);
        if fix.out != Ok(true) then Step(Settle(fix.out, e), fix.world)
        else if fuel == 0 then Step(Diverged, fix.world)
        else
          var again := GetWebsiteCredentials(fix.world, name, fuel - 1);
          GroupEffectsTrans(w, fix.world, again.world);
          again
  }

  /** The `try` body of `deleteWebsite(name)`: resolve the group, then delete the site from it. */
  function DropSite(w: World, subscriptionId: string, name: string, fuel: nat): (res: Step<()>)
    decreases fuel, 6
    ensures DeleteEffects(w, res.world, name)
    ensures res.out.Ok? ==> res.world.cloud.sites == RemoveSite(w.cloud.sites, GroupTarget(w), name)
                            && GroupResolved(w, res.world)
    ensures w.faults == [] && res.out.Thrown? ==> !Fixable(Code(res.out.error))
  {
    var group := ResolveGroupName(w, fuel);
    GroupIsDeleteEffect(w, group.world, name);
    if !group.out.Ok? then Step(Forward(group.out), group.world)
    else
      var call := SitesDelete(subscriptionId, group.out.value, name);
      var (failure, w2) := Invoke(group.world, call);
      InvokeStep(group.world, call, Scope({GroupTarget(group.world)}, {}, {}, {name}, {}));
      if failure.None? then
        var w3 := w2.(cloud := w2.cloud.(sites := RemoveSite(w2.cloud.sites, group.out.value, name)));
        DeleteEffectsTrans(w, group.world, w3, name);
        Step(Ok(()), w3)
      else
        DeleteEffectsTrans(w, group.world, w2, name);
        Step(Thrown(ApiError(failure.value)), w2)
  }

  /** `deleteWebsite(name)`: delete the site from the resolved group. */
  function DeleteWebsite(w: World, name: string, fuel: nat): (res: Step<()>)
    decreases fuel, 7
    ensures DeleteEffects(w, res.world, name)
    ensures res.out.Ok? ==> res.world.cloud.sites == RemoveSite(w.cloud.sites, GroupTarget(w), name)
                            && GroupResolved(w, res.world)
    ensures res.out.Thrown? ==> !Fixable(Code(res.out.error))
  {
    var sub := ResolveSubscriptionId(w, fuel);
    QuietIsGroupEffect(w, sub.world);
    GroupIsDeleteEffect(w, sub.world, name);
    if !sub.out.Ok? then Step(Forward(sub.out), sub.world)
    else
      var attempt := DropSite(sub.world, sub.out.value, name, fuel);
      DeleteEffectsTrans(w, sub.world, attempt.world, name);
      if !attempt.out.Thrown? then attempt
      else
        var e := attempt.out.error;
        var fix := FixedKnownError(attempt.world, Code(e), fuel);
        QuietIsGroupEffect(attempt.world, fix.world);
        GroupIsDeleteEffect(attempt.world, fix.world, name);
        DeleteEffectsTrans(w, attempt.world, fix.world, name);
        if fix.out != Ok(true) then Step(Settle(fix.out, e), fix.world)
        else if fuel == 0 then Step(Diverged, fix.world)
        else
          var again := DeleteWebsite(fix.world, name, fuel - 1);
          DeleteEffectsTrans(w, fix.world, again.world, name);
          again
  }

  /** The `try` body of `createWebsite(name)`: resolve the group, then the plan, then
      create or update the site bound to that plan. */
  function MakeSite(w: World, subscriptionId: string, name: string, fuel: nat): (res: Step<Website>)
    decreases fuel, 9
    ensures SiteEffects(w, res.world, name)
    ensures res.out.Ok? ==> SiteCreated(w, res.world, name, res.out.value)
    ensures res.out.Thrown? ==> res.world.cloud.sites == w.cloud.sites
  {
    var group := ResolveGroupName(w, fuel);
    GroupIsPlanEffect(w, group.world, PlanTarget(w));
    PlanIsSiteEffect(w, group.world, name);
    if !group.out.Ok? then Step(Forward(group.out), group.world)
    else
      var plan := ResolvePlanName(group.world, fuel);
      TargetsStable(w, group.world);
      PlanIsSiteEffect(group.world, plan.world, name);
      SiteEffectsTrans(w, group.world, plan.world, name);
      if !plan.out.Ok? then Step(Forward(plan.out), plan.world)
      else
        var site := Website(name, group.out.value, DefaultLocation, plan.out.value);
        var call := SitesCreateOrUpdate(subscriptionId, group.out.value, name, DefaultLocation, plan.out.value);
        var (failure, w2) := Invoke(plan.world, call);
        TargetsStable(w, plan.world);
        TargetsStable(group.world, plan.world);
        assert site == SiteFor(plan.world, name);
        InvokeStep(plan.world, call, Scope({GroupTarget(plan.world)}, {PlanTarget(plan.world)}, {name}, {}, {}));
        if failure.None? then
          var w3 := w2.(cloud := w2.cloud.(sites := UpsertSite(w2.cloud.sites, site)));
          SiteStep(plan.world, w3, name);
          SiteEffectsTrans(w, plan.world, w3, name);
          Step(Ok(site), w3)
        else
          SiteStep(plan.world, w2, name);
          SiteEffectsTrans(w, plan.world, w2, name);
          Step(Thrown(ApiError(failure.value)), w2)
  }

  /** `createWebsite(name)`: create or update the site in the resolved group, on the resolved plan. */
  function CreateWebsite(w: World, name: string, fuel: nat): (res: Step<Website>)
    decreases fuel, 10
    ensures SiteEffects(w, res.world, name)
    ensures res.out.Ok? ==> SiteCreated(w, res.world, name, res.out.value)
    ensures res.out.Thrown? ==> !Fixable(Code(res.out.error))
  {
    var sub := ResolveSubscriptionId(w, fuel);
    QuietIsSiteEffect(w, sub.world, name);
    if !sub.out.Ok? then Step(Forward(sub.out), sub.world)
    else
      var attempt := MakeSite(sub.world, sub.out.value, name, fuel);
      SiteEffectsTrans(w, sub.world, attempt.world, name);
      if !attempt.out.Thrown? then attempt
      else
        var e := attempt.out.error;
        var fix := FixedKnownError(attempt.world, Code(e), fuel);
        QuietIsSiteEffect(attempt.world, fix.world, name);
        SiteEffectsTrans(w, attempt.world, fix.world, name);
        if fix.out != Ok(true) then Step(Settle(fix.out, e), fix.world)
        else if fuel == 0 then Step(Diverged, fix.world)
        else
          var again := CreateWebsite(fix.world, name, fuel - 1);
          SiteEffectsTrans(w, fix.world, again.world, name);
          again
  }

  /** The Kudu uploads of `deployToWebsite`: each listed file goes to `site/wwwroot/`
      followed by its path relative to the deploy root, signed with the publishing
      user name and password. */
  function Uploads(site: string, kc: PublishingCredentials, root: string, files: seq<string>): (r: seq<Call>)
    ensures |r| == |files|
    ensures forall i | 0 <= i < |files| ::
              r[i] == VfsUpload(site, kc.publishingUserName, kc.publishingPassword,
                                files[i], "site/wwwroot/" + Relative(root, files[i]))
  {
    if files == [] then []
    else [VfsUpload(site, kc.publishingUserName, kc.publishingPassword, files[0],
                    "site/wwwroot/" + Relative(root, files[0]))]
         + Uploads(site, kc, root, files[1..])
  }

  /**
   * The `try` block of `deployToWebsite`: list the files under the deploy root
   * and upload each of them. A missing listing is caught and only logged, so
   * nothing is uploaded and the deploy still succeeds.
   */
  function Transfer(w: World, name: string, kc: PublishingCredentials, deployPath: string): (r: World)
    ensures Evolves(w, r) && r.cloud == w.cloud && r.settings == w.settings
    ensures Within(w, r, Scope({}, {}, {}, {}, {name}))
    ensures deployPath !in w.disk.listing ==> r == w
    ensures deployPath in w.disk.listing ==>
              r.log == w.log + Uploads(name, kc, deployPath, w.disk.listing[deployPath])
  {
    if deployPath !in w.disk.listing then w
    else
      var uploads := Uploads(name, kc, deployPath, w.disk.listing[deployPath]);
      var r := w.(log := w.log + uploads);
      assert Within(w, r, Scope({}, {}, {}, {}, {name})) by {
        forall i | |w.log| <= i < |r.log|
          ensures Permits(Scope({}, {}, {}, {}, {name}), r.log[i])
        {
          assert r.log[i] == uploads[i - |w.log|];
        }
      }
      r
  }

  /**
   * `deployToWebsite(name, deployPath)`: fetch the site's publishing credentials
   * (failures propagate), then list and upload the files under the deploy root.
   */
  function DeployToWebsite(w: World, name: string, deployPath: string, fuel: nat): (res: Step<()>)
    decreases fuel, 8
    ensures Evolves(w, res.world)
    ensures Within(w, res.world, Scope({GroupTarget(w)}, {}, {}, {}, {name}))
    ensures res.world.cloud == w.cloud.(groups := res.world.cloud.groups)
    ensures GroupsStep(w, res.world, GroupTarget(w))
    ensures res.out.Ok? ==> HasSite(w.cloud.sites, GroupTarget(w), name)
    ensures res.out.Ok? && deployPath in w.disk.listing ==>
              var files := w.disk.listing[deployPath];
              && |res.world.log| >= |files|
              && res.world.log[|res.world.log| - |files|..]
                   == Uploads(name, w.cloud.profile(name), deployPath, files)
    ensures deployPath !in w.disk.listing ==> Within(w, res.world, Scope({GroupTarget(w)}, {}, {}, {}, {}))
    ensures res.out.Thrown? ==> !Fixable(Code(res.out.error))
  {
    var creds := GetWebsiteCredentials(w, name, fuel);
    var sc := Scope({GroupTarget(w)}, {}, {}, {}, {name});
    WithinWiden(w, creds.world, Scope({GroupTarget(w)}, {}, {}, {}, {}), sc);
    if !creds.out.Ok? then Step(Forward(creds.out), creds.world)
    else
      var w2 := Transfer(creds.world, name, creds.out.value, deployPath);
      WithinWiden(creds.world, w2, Scope({}, {}, {}, {}, {name}), sc);
      WithinTrans(w, creds.world, w2, sc);
      EvolvesTrans(w, creds.world, w2);
      if deployPath in w.disk.listing then
        var files := w.disk.listing[deployPath];
        assert w2.log[|w2.log| - |files|..] == Uploads(name, creds.out.value, deployPath, files);
        Step(Ok(()), w2)
      else
        Step(Ok(()), w2)
  }
}
