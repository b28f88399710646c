/**
 * When nothing fails: with an empty fault oracle and a subscription stored,
 * every helper reaches its value, and the resolvers settle on their targets.
 */
module Success {
  import opened Wrappers
  import opened Bll
  import opened Remote
  import opened Naming
  import opened Helpers
  import Commands
  import Settings

  /** The helpers' precondition for getting anywhere: no fault left and a subscription stored. */
  predicate Ready(w: World) {
    w.faults == [] && Truthy(Setting(w, SubscriptionKey))
  }

  /** A helper step never loses readiness: the fault oracle stays empty and the subscription
      key is not among the keys the helpers write. */
  lemma ReadyKept(a: World, b: World)
    requires Evolves(a, b) && Ready(a)
    ensures Ready(b)
  {
    var va, vb := Settings.View(a.settings), Settings.View(b.settings);
    assert SubscriptionKey in va <==> SubscriptionKey in va - {GroupKey, PlanKey};
    assert SubscriptionKey in vb <==> SubscriptionKey in vb - {GroupKey, PlanKey};
    if SubscriptionKey in va {
      assert va[SubscriptionKey] == (va - {GroupKey, PlanKey})[SubscriptionKey];
      assert vb[SubscriptionKey] == (vb - {GroupKey, PlanKey})[SubscriptionKey];
    }
  }

  lemma GetResourceGroupsSucceeds(w: World, fuel: nat)
    requires Ready(w)
    ensures GetResourceGroups(w, fuel).out == Ok(w.cloud.groups)
  {
  }

  lemma CreateResourceGroupSucceeds(w: World, name: string, fuel: nat)
    requires Ready(w)
    ensures CreateResourceGroup(w, name, fuel).out == Ok(ResourceGroup(name, DefaultLocation))
  {
  }

  /** `resolveGroupName()` settles on the stored name or the default. */
  lemma ResolveGroupNameSucceeds(w: World, fuel: nat)
    requires Ready(w)
    ensures ResolveGroupName(w, fuel).out == Ok(GroupTarget(w))
  {
    GetResourceGroupsSucceeds(w, fuel);
    var groups := GetResourceGroups(w, fuel);
    var (name, s1) := StoredOrDefault(groups.world.settings, GroupKey, DefaultGroup);
    var w1 := groups.world.(settings := s1);
    DefaultIsSettingsStep(Settings.View(groups.world.settings), Settings.View(s1), GroupKey, DefaultGroup);
    QuietEvolves(w, groups.world);
    EvolvesTrans(w, groups.world, w1);
    ReadyKept(w, w1);
    CreateResourceGroupSucceeds(w1, name, fuel);
  }

  lemma GetPlansSucceeds(w: World, fuel: nat)
    requires Ready(w)
    ensures GetPlans(w, fuel).out == Ok(PlansIn(w.cloud.plans, GroupTarget(w)))
  {
    var sub := ResolveSubscriptionId(w, fuel);
    QuietEvolves(w, sub.world);
    ReadyKept(w, sub.world);
    ResolveGroupNameSucceeds(sub.world, fuel);
    var group := ResolveGroupName(sub.world, fuel);
    assert group.world.faults == [];
  }

  lemma CreatePlanSucceeds(w: World, name: string, fuel: nat)
    requires Ready(w)
    ensures CreatePlan(w, name, fuel).out == Ok(Plan(name, GroupTarget(w), DefaultLocation, DefaultSku))
  {
    var sub := ResolveSubscriptionId(w, fuel);
    QuietEvolves(w, sub.world);
    ReadyKept(w, sub.world);
    ResolveGroupNameSucceeds(sub.world, fuel);
    var group := ResolveGroupName(sub.world, fuel);
    assert group.world.faults == [];
  }

  /** `resolvePlanName()` settles on the stored name or the default. */
  lemma ResolvePlanNameSucceeds(w: World, fuel: nat)
    requires Ready(w)
    ensures ResolvePlanName(w, fuel).out == Ok(PlanTarget(w))
  {
    GetPlansSucceeds(w, fuel);
    var plans := GetPlans(w, fuel);
    var (name, s1) := StoredOrDefault(plans.world.settings, PlanKey, DefaultPlan);
    var w1 := plans.world.(settings := s1);
    DefaultIsSettingsStep(Settings.View(plans.world.settings), Settings.View(s1), PlanKey, DefaultPlan);
    EvolvesTrans(w, plans.world, w1);
    ReadyKept(w, w1);
    CreatePlanSucceeds(w1, name, fuel);
  }

  lemma GetWebsitesSucceeds(w: World, fuel: nat)
    requires Ready(w)
    ensures GetWebsites(w, fuel).out == Ok(SitesIn(w.cloud.sites, GroupTarget(w)))
  {
    var sub := ResolveSubscriptionId(w, fuel);
    QuietEvolves(w, sub.world);
    ReadyKept(w, sub.world);
    ResolveGroupNameSucceeds(sub.world, fuel);
    var group := ResolveGroupName(sub.world, fuel);
    assert group.world.faults == [];
  }

  /** A site that exists in the target group gets its publishing credentials; any other
      name is `ResourceNotFound`. */
  lemma GetWebsiteCredentialsSucceeds(w: World, name: string, fuel: nat)
    requires Ready(w)
    ensures HasSite(w.cloud.sites, GroupTarget(w), name) ==> GetWebsiteCredentials(w, name, fuel).out == Ok(w.cloud.profile(name))
    ensures !HasSite(w.cloud.sites, GroupTarget(w), name) ==> GetWebsiteCredentials(w, name, fuel).out == Thrown(ApiError(NotFound))
  {
    var sub := ResolveSubscriptionId(w, fuel);
    QuietEvolves(w, sub.world);
    ReadyKept(w, sub.world);
    ResolveGroupNameSucceeds(sub.world, fuel);
    var group := ResolveGroupName(sub.world, fuel);
    assert group.world.faults == [] && group.world.cloud.sites == w.cloud.sites;
  }

  lemma DeleteWebsiteSucceeds(w: World, name: string, fuel: nat)
    requires Ready(w)
    ensures DeleteWebsite(w, name, fuel).out == Ok(())
  {
    var sub := ResolveSubscriptionId(w, fuel);
    QuietEvolves(w, sub.world);
    ReadyKept(w, sub.world);
    ResolveGroupNameSucceeds(sub.world, fuel);
    var group := ResolveGroupName(sub.world, fuel);
    assert group.world.faults == [];
  }

  lemma CreateWebsiteSucceeds(w: World, name: string, fuel: nat)
    requires Ready(w)
    ensures CreateWebsite(w, name, fuel).out == Ok(SiteFor(w, name))
  {
    var sub := ResolveSubscriptionId(w, fuel);
    QuietEvolves(w, sub.world);
    ReadyKept(w, sub.world);
    ResolveGroupNameSucceeds(sub.world, fuel);
    var group := ResolveGroupName(sub.world, fuel);
    ReadyKept(sub.world, group.world);
    ResolvePlanNameSucceeds(group.world, fuel);
    var plan := ResolvePlanName(group.world, fuel);
    assert plan.world.faults == [];
    TargetsStable(w, sub.world);
  }

  /** `deployToWebsite` fails only when fetching the publishing credentials does: a failed
      file listing is swallowed. */
  lemma DeployToWebsiteFailsOnlyOnCredentials(w: World, name: string, deployPath: string, fuel: nat)
    ensures DeployToWebsite(w, name, deployPath, fuel).out.Ok? <==> GetWebsiteCredentials(w, name, fuel).out.Ok?
    ensures !GetWebsiteCredentials(w, name, fuel).out.Ok? ==>
              DeployToWebsite(w, name, deployPath, fuel).world == GetWebsiteCredentials(w, name, fuel).world
  {
  }

  lemma DeployToWebsiteSucceeds(w: World, name: string, deployPath: string, fuel: nat)
    requires Ready(w) && HasSite(w.cloud.sites, GroupTarget(w), name)
    ensures DeployToWebsite(w, name, deployPath, fuel).out == Ok(())
  {
    GetWebsiteCredentialsSucceeds(w, name, fuel);
  }

  /** `deploy` of an existing path reaches the URI when nothing fails: the site it creates
      is the one whose credentials the upload fetches. */
  lemma DeploySucceeds(w: World, fullPath: string, deployName: Option<string>, suffix: string, fuel: nat)
    requires IsSuffix(suffix) && Ready(w) && fullPath in w.disk.existing
    ensures var name := SiteName(ProjName(fullPath, deployName), suffix);
            Commands.Deploy(w, fullPath, deployName, suffix, fuel).out == Ok(Some(WebsiteUri(name)))
  {
    var name := SiteName(ProjName(fullPath, deployName), suffix);
    CreateWebsiteSucceeds(w, name, fuel);
    var site := CreateWebsite(w, name, fuel);
    ReadyKept(w, site.world);
    TargetsStable(w, site.world);
    assert SiteFor(w, name) in site.world.cloud.sites;
    assert HasSite(site.world.cloud.sites, GroupTarget(site.world), name);
    DeployToWebsiteSucceeds(site.world, name, fullPath, fuel);
  }
}
