/**
 * The order of the resolution chain on the call log: the subscription is
 * resolved before anything else, the group before any plan or site call, and
 * the plan before the site is created. Without a stored subscription no group,
 * plan or site call is ever issued.
 */
module Ordering {
  import opened Wrappers
  import opened Bll
  import opened Remote
  import opened Helpers
  import opened Naming
  import Settings

  /** `getPlans`' `try` body: the group is resolved first, and the plan listing is the one
      call after it, in the group that is then in place. */
  lemma ListPlansOrder(w: World, subscriptionId: string, fuel: nat)
    ensures var group := ResolveGroupName(w, fuel);
            var res := ListPlans(w, subscriptionId, fuel);
            && (!group.out.Ok? ==> !res.out.Ok? && res.world == group.world)
            && (group.out.Ok? ==>
                  && GroupResolved(w, group.world)
                  && res.world.log == group.world.log + [ServerFarmsList(subscriptionId, GroupTarget(w))])
  {
  }

  /** `createPlan`'s `try` body: the group is resolved first, then the plan is created in it. */
  lemma MakePlanOrder(w: World, subscriptionId: string, name: string, fuel: nat)
    ensures var group := ResolveGroupName(w, fuel);
            var res := MakePlan(w, subscriptionId, name, fuel);
            && (!group.out.Ok? ==> !res.out.Ok? && res.world == group.world)
            && (group.out.Ok? ==>
                  && GroupResolved(w, group.world)
                  && res.world.log == group.world.log
                       + [ServerFarmsCreateOrUpdate(subscriptionId, GroupTarget(w), name, DefaultLocation, DefaultSku)])
  {
  }

  /** `resolvePlanName()`: the plans are listed (after the group is resolved, by `ListPlansOrder`)
      before the plan name is settled; a plan is created only after that. */
  lemma ResolvePlanNameOrder(w: World, fuel: nat)
    ensures var plans := GetPlans(w, fuel);
            var res := ResolvePlanName(w, fuel);
            && (!plans.out.Ok? ==> !res.out.Ok? && res.world == plans.world)
            && (plans.out.Ok? ==> GroupResolved(w, plans.world) && plans.world.log <= res.world.log)
  {
    var plans := GetPlans(w, fuel);
    if plans.out.Ok? {
      var (name, s1) := StoredOrDefault(plans.world.settings, PlanKey, DefaultPlan);
      var w1 := plans.world.(settings := s1);
      if !HasPlanNamed(plans.out.value, name) {
        assert w1.log <= CreatePlan(w1, name, fuel).world.log;
      }
    }
  }

  /** `getWebsites`' `try` body: the group is resolved first, then its sites are listed. */
  lemma ListSitesOrder(w: World, subscriptionId: string, fuel: nat)
    ensures var group := ResolveGroupName(w, fuel);
            var res := ListSites(w, subscriptionId, fuel);
            && (!group.out.Ok? ==> !res.out.Ok? && res.world == group.world)
            && (group.out.Ok? ==>
                  && GroupResolved(w, group.world)
                  && res.world.log == group.world.log + [SitesList(subscriptionId, GroupTarget(w))])
  {
  }

  /** `getWebsiteCredentials`' `try` body: the group is resolved first, then the publishing
      credentials of the site in it are fetched. */
  lemma FetchCredentialsOrder(w: World, subscriptionId: string, name: string, fuel: nat)
    ensures var group := ResolveGroupName(w, fuel);
            var res := FetchCredentials(w, subscriptionId, name, fuel);
            && (!group.out.Ok? ==> !res.out.Ok? && res.world == group.world)
            && (group.out.Ok? ==>
                  && GroupResolved(w, group.world)
                  && res.world.log == group.world.log
                       + [SitesListPublishingCredentials(subscriptionId, GroupTarget(w), name)])
  {
  }

  /** `deleteWebsite`'s `try` body: the group is resolved first, then the site is deleted from it. */
  lemma DropSiteOrder(w: World, subscriptionId: string, name: string, fuel: nat)
    ensures var group := ResolveGroupName(w, fuel);
            var res := DropSite(w, subscriptionId, name, fuel);
            && (!group.out.Ok? ==> !res.out.Ok? && res.world == group.world)
            && (group.out.Ok? ==>
                  && GroupResolved(w, group.world)
                  && res.world.log == group.world.log + [SitesDelete(subscriptionId, GroupTarget(w), name)])
  {
  }

  /** `createWebsite`'s `try` body: the group is resolved, then the plan, and only then is the
      site created, bound to that plan. */
  lemma MakeSiteOrder(w: World, subscriptionId: string, name: string, fuel: nat)
    ensures var group := ResolveGroupName(w, fuel);
            var res := MakeSite(w, subscriptionId, name, fuel);
            && (!group.out.Ok? ==> !res.out.Ok? && res.world == group.world)
            && (group.out.Ok? ==>
                  var plan := ResolvePlanName(group.world, fuel);
                  && GroupResolved(w, group.world)
                  && (!plan.out.Ok? ==> !res.out.Ok? && res.world == plan.world)
                  && (plan.out.Ok? ==>
                        && PlanResolved(group.world, plan.world, PlanTarget(w))
                        && res.world.log == plan.world.log
                             + [SitesCreateOrUpdate(subscriptionId, GroupTarget(w), name, DefaultLocation, PlanTarget(w))]))
  {
    var group := ResolveGroupName(w, fuel);
    if group.out.Ok? {
      TargetsStable(w, group.world);
    }
  }

  /** The calls that concern only the account: logins and the tenant and subscription listings. */
  predicate AccountCall(c: Call) {
    c.InteractiveLogin? || c.TenantsList? || c.SubscriptionsList?
  }

  /** Between `w` and `w'` only account calls were issued. */
  predicate AccountOnly(w: World, w': World) {
    && w.log <= w'.log
    && forall i | |w.log| <= i < |w'.log| :: AccountCall(w'.log[i])
  }

  lemma AccountTrans(a: World, b: World, c: World)
    requires AccountOnly(a, b) && AccountOnly(b, c)
    ensures AccountOnly(a, c)
  {
    forall i | |a.log| <= i < |c.log|
      ensures AccountCall(c.log[i])
    {
      if i < |b.log| {
        assert c.log[i] == b.log[i];
      }
    }
  }

  lemma AccountLogin(w: World, ignoreCache: bool, tenantId: Option<string>)
    ensures AccountOnly(w, LoginWorld(w, ignoreCache, tenantId))
  {
    var w' := LoginWorld(w, ignoreCache, tenantId);
    if w'.log != w.log {
      assert w'.log[|w.log|] == InteractiveLogin(tenantId);
    }
  }

  lemma AccountInvoke(w: World, c: Call)
    requires AccountCall(c)
    ensures AccountOnly(w, Invoke(w, c).1)
  {
    assert Invoke(w, c).1.log[|w.log|] == c;
  }

  /** `fixedKnownError` only logs in and lists tenants. */
  lemma {:induction false} FixedKnownErrorAccount(w: World, code: Option<string>, fuel: nat)
    ensures AccountOnly(w, FixedKnownError(w, code, fuel).world)
    decreases fuel, 0
  {
    if code == Some(ExpiredToken) {
      AccountLogin(w, true, None);
    } else if code == Some(WrongTenant) && fuel > 0 {
      GetTenantsAccount(w, fuel - 1);
      var tenants := GetTenants(w, fuel - 1);
      if tenants.out.Ok? && tenants.out.value != [] {
        var tenantId := Some(tenants.out.value[0].tenantId);
        AccountLogin(tenants.world, true, tenantId);
        AccountTrans(w, tenants.world, LoginWorld(tenants.world, true, tenantId));
      }
    }
  }

  lemma {:induction false} GetTenantsAccount(w: World, fuel: nat)
    ensures AccountOnly(w, GetTenants(w, fuel).world)
    decreases fuel, 1
  {
    var w1 := LoginWorld(w, false, None);
    var (failure, w2) := Invoke(w1, TenantsList);
    AccountLogin(w, false, None);
    AccountInvoke(w1, TenantsList);
    AccountTrans(w, w1, w2);
    if failure.Some? {
      var fix := FixedKnownError(w2, failure, fuel);
      FixedKnownErrorAccount(w2, failure, fuel);
      AccountTrans(w, w2, fix.world);
      if fix.out == Ok(true) && fuel > 0 {
        GetTenantsAccount(fix.world, fuel - 1);
        AccountTrans(w, fix.world, GetTenants(fix.world, fuel - 1).world);
      }
    }
  }

  lemma {:induction false} GetSubscriptionsAccount(w: World, fuel: nat)
    ensures AccountOnly(w, GetSubscriptions(w, fuel).world)
    decreases fuel, 2
  {
    var w1 := LoginWorld(w, false, None);
    var (failure, w2) := Invoke(w1, SubscriptionsList);
    AccountLogin(w, false, None);
    AccountInvoke(w1, SubscriptionsList);
    AccountTrans(w, w1, w2);
    var attempt: Step<seq<Subscription>> := (
      if failure.Some? then Step(Thrown(ApiError(failure.value)), w2)
      else if |Visible(w2)| != 0 then Step(Ok(Visible(w2)), w2)
      else
        var fix := FixedKnownError(w2, Some(WrongTenant), fuel);
        if fix.out == Ok(true) then
          if fuel == 0 then Step(Diverged, fix.world)
          else GetSubscriptions(fix.world, fuel - 1)
        else if fix.out.Ok? then Step(Ok(Visible(w2)), fix.world)
        else Step(Forward(fix.out), fix.world));
    if failure.None? && |Visible(w2)| == 0 {
      var fix := FixedKnownError(w2, Some(WrongTenant), fuel);
      FixedKnownErrorAccount(w2, Some(WrongTenant), fuel);
      AccountTrans(w, w2, fix.world);
      if fix.out == Ok(true) && fuel > 0 {
        GetSubscriptionsAccount(fix.world, fuel - 1);
        AccountTrans(w, fix.world, attempt.world);
      }
    }
    assert AccountOnly(w, attempt.world);
    if attempt.out.Thrown? {
      var fix := FixedKnownError(attempt.world, Code(attempt.out.error), fuel);
      FixedKnownErrorAccount(attempt.world, Code(attempt.out.error), fuel);
      AccountTrans(w, attempt.world, fix.world);
      if fix.out == Ok(true) && fuel > 0 {
        GetSubscriptionsAccount(fix.world, fuel - 1);
        AccountTrans(w, fix.world, GetSubscriptions(fix.world, fuel - 1).world);
      }
    }
  }

  lemma ResolveSubscriptionIdAccount(w: World, fuel: nat)
    ensures AccountOnly(w, ResolveSubscriptionId(w, fuel).world)
  {
    var w1 := LoginWorld(w, false, None);
    AccountLogin(w, false, None);
    var (stored, s1) := Settings.Get(w1.settings, SubscriptionKey);
    var w2 := w1.(settings := s1);
    if !Truthy(stored) {
      GetSubscriptionsAccount(w2, fuel);
      AccountTrans(w, w2, GetSubscriptions(w2, fuel).world);
    }
  }

  /** Without a stored subscription every group, plan and site helper fails, and the only
      calls it issues are the account calls of `resolveSubscriptionId`. */
  lemma NoSubscriptionNoCalls(w: World, name: string, fuel: nat)
    requires !Truthy(Setting(w, SubscriptionKey))
    ensures var r := GetResourceGroups(w, fuel); !r.out.Ok? && AccountOnly(w, r.world)
    ensures var r := CreateResourceGroup(w, name, fuel); !r.out.Ok? && AccountOnly(w, r.world)
    ensures var r := ResolveGroupName(w, fuel); !r.out.Ok? && AccountOnly(w, r.world)
    ensures var r := GetPlans(w, fuel); !r.out.Ok? && AccountOnly(w, r.world)
    ensures var r := CreatePlan(w, name, fuel); !r.out.Ok? && AccountOnly(w, r.world)
    ensures var r := ResolvePlanName(w, fuel); !r.out.Ok? && AccountOnly(w, r.world)
  {
    ResolveSubscriptionIdAccount(w, fuel);
  }

  /** The same for the site helpers and the upload. */
  lemma NoSubscriptionNoSiteCalls(w: World, name: string, deployPath: string, fuel: nat)
    requires !Truthy(Setting(w, SubscriptionKey))
    ensures var r := GetWebsites(w, fuel); !r.out.Ok? && AccountOnly(w, r.world)
    ensures var r := GetWebsiteCredentials(w, name, fuel); !r.out.Ok? && AccountOnly(w, r.world)
    ensures var r := DeleteWebsite(w, name, fuel); !r.out.Ok? && AccountOnly(w, r.world)
    ensures var r := CreateWebsite(w, name, fuel); !r.out.Ok? && AccountOnly(w, r.world)
    ensures var r := DeployToWebsite(w, name, deployPath, fuel); !r.out.Ok? && AccountOnly(w, r.world)
  {
    ResolveSubscriptionIdAccount(w, fuel);
  }
}
