/**
 * Properties of the helpers over several calls: the cost of one repaired
 * error, the unbounded recursion on an empty subscription list, and the
 * idempotence of the group and plan resolvers.
 */
module Properties {
  import opened Wrappers
  import opened Bll
  import opened Remote
  import opened Naming
  import opened Helpers

  /** One expired token while listing tenants costs one forced login and one more listing;
      with no fuel left the retry is cut off. */
  lemma ExpiredTokenRetriesOnce(w: World, fuel: nat)
    requires w.cred.current.Some? && w.faults == [Some(ExpiredToken)]
    ensures fuel > 0 ==> GetTenants(w, fuel).out == Ok(w.cloud.tenants)
    ensures fuel > 0 ==> GetTenants(w, fuel).world.log == w.log + [TenantsList, InteractiveLogin(None), TenantsList]
    ensures fuel == 0 ==> GetTenants(w, fuel).out.Diverged?
  {
    var w2 := Invoke(w, TenantsList).1;
    assert w2.log == w.log + [TenantsList] && w2.faults == [];
    var fixed := LoginWorld(w2, true, None);
    assert fixed.cred.current.Some?;
    if fuel > 0 {
      assert LoginWorld(fixed, false, None) == fixed;
      assert GetTenants(fixed, fuel - 1).world.log == fixed.log + [TenantsList];
    }
  }

  /** The first tenant the account lists: the one the wrong-tenant repair signs in to. */
  function FirstTenant(w: World): Option<string>
    requires w.cloud.tenants != []
  {
    Some(w.cloud.tenants[0].tenantId)
  }

  /** Neither the home directory nor the first tenant shows a subscription: `getSubscriptions`
      repairs the tenant and lists again forever, and every fuel bound is exceeded. */
  lemma {:induction false} EmptySubscriptionsDiverge(w: World, fuel: nat)
    requires w.faults == [] && w.cloud.tenants != []
    requires Visible(LoginWorld(w, false, None)) == [] && SubscriptionsIn(w.cloud, FirstTenant(w)) == []
    ensures GetSubscriptions(w, fuel).out.Diverged?
    decreases fuel
  {
    RepairKeepsCloud(w, fuel);
    if fuel > 0 {
      var next, fuel' := Repaired(w, fuel), fuel - 1;
      EmptySubscriptionsDiverge(next, fuel');
      RepairThenList(w, fuel, next, fuel');
    }
  }

  /** An empty home directory and a first tenant with subscriptions: one repair signs in to
      that tenant, and the relisting returns its subscriptions. */
  lemma RepairFindsSubscriptions(w: World, fuel: nat)
    requires w.faults == [] && w.cloud.tenants != [] && fuel > 0
    requires Visible(LoginWorld(w, false, None)) == [] && SubscriptionsIn(w.cloud, FirstTenant(w)) != []
    ensures GetSubscriptions(w, fuel).out == Ok(SubscriptionsIn(w.cloud, FirstTenant(w)))
  {
    RepairKeepsCloud(w, fuel);
    RepairSucceeds(w, fuel);
    var next := Repaired(w, fuel);
    assert Visible(LoginWorld(next, false, None)) == SubscriptionsIn(w.cloud, FirstTenant(w));
    assert GetSubscriptions(next, fuel - 1).out == Ok(SubscriptionsIn(w.cloud, FirstTenant(w)));
  }

  /** The world after `getSubscriptions` signs in and lists. */
  function Listed(w: World): World {
    Invoke(LoginWorld(w, false, None), SubscriptionsList).1
  }

  /** The world after the empty-list repair of `getSubscriptions`. */
  function Repaired(w: World, fuel: nat): World {
    FixedKnownError(Listed(w), Some(WrongTenant), fuel).world
  }

  /** The repair after an empty listing touches neither the cloud nor the fault oracle, and
      leaves a credential for the first tenant; with no fuel left it is cut off. */
  lemma RepairKeepsCloud(w: World, fuel: nat)
    requires w.faults == [] && w.cloud.tenants != [] && Visible(LoginWorld(w, false, None)) == []
    ensures Repaired(w, fuel).faults == [] && Repaired(w, fuel).cloud == w.cloud
    ensures fuel > 0 ==> Visible(LoginWorld(Repaired(w, fuel), false, None)) == SubscriptionsIn(w.cloud, FirstTenant(w))
    ensures fuel == 0 ==> GetSubscriptions(w, fuel).out.Diverged?
  {
    assert Listed(w).faults == [] && Listed(w).cloud == w.cloud;
    if fuel > 0 {
      RepairSucceeds(w, fuel);
    }
  }

  /** With fuel and a tenant to pick, the repair succeeds. */
  lemma RepairSucceeds(w: World, fuel: nat)
    requires w.faults == [] && w.cloud.tenants != [] && fuel > 0
    ensures Invoke(LoginWorld(w, false, None), SubscriptionsList).0 == None
    ensures FixedKnownError(Listed(w), Some(WrongTenant), fuel).out == Ok(true)
  {
    var w2 := Listed(w);
    assert w2.faults == [] && w2.cloud == w.cloud;
    assert GetTenants(w2, fuel - 1).out == Ok(w.cloud.tenants);
  }

  /** With fuel, an empty listing is repaired and listed again; a diverging relisting
      makes the whole call diverge. */
  lemma RepairThenList(w: World, fuel: nat, next: World, fuel': nat)
    requires w.faults == [] && w.cloud.tenants != [] && Visible(LoginWorld(w, false, None)) == []
    requires fuel == fuel' + 1 && next == Repaired(w, fuel)
    requires GetSubscriptions(next, fuel').out.Diverged?
    ensures GetSubscriptions(w, fuel).out.Diverged?
  {
    RepairSucceeds(w, fuel);
  }

  /** A second `resolveGroupName` after a successful one creates nothing and resolves the same name. */
  lemma ResolveGroupNameIdempotent(w: World, fuel: nat, fuel': nat)
    requires ResolveGroupName(w, fuel).out.Ok?
    ensures var first := ResolveGroupName(w, fuel);
            var second := ResolveGroupName(first.world, fuel');
            && Within(first.world, second.world, ReadOnly)
            && second.world.cloud == first.world.cloud
            && (second.out.Ok? ==> second.out == first.out)
  {
    var first := ResolveGroupName(w, fuel);
    TargetsStable(w, first.world);
    assert HasGroup(first.world.cloud.groups, GroupTarget(w));
  }

  /** A second `resolvePlanName` after a successful one creates nothing and resolves the same name. */
  lemma ResolvePlanNameIdempotent(w: World, fuel: nat, fuel': nat)
    requires ResolvePlanName(w, fuel).out.Ok?
    ensures var first := ResolvePlanName(w, fuel);
            var second := ResolvePlanName(first.world, fuel');
            && Within(first.world, second.world, ReadOnly)
            && second.world.cloud == first.world.cloud
            && (second.out.Ok? ==> second.out == first.out)
  {
    var first := ResolvePlanName(w, fuel);
    TargetsStable(w, first.world);
    assert HasGroup(first.world.cloud.groups, GroupTarget(w));
    assert HasPlan(first.world.cloud.plans, GroupTarget(w), PlanTarget(w));
  }
}
