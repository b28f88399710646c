/**
 * The settings commands and the deploy command of src/shared/commands.ts and
 * dist/shared/commands.js, on the same world as the helpers.
 */
module Commands {
  import opened Wrappers
  import opened Bll
  import opened Remote
  import opened Naming
  import opened Helpers
  import Settings

  /** `_(subscriptions).filter(s => s.displayName === name).first()` */
  function SelectSubscription(subs: seq<Subscription>, name: string): (r: Option<Subscription>)
    ensures r.Some? <==> exists s | s in subs :: s.displayName == name
    ensures r.Some? ==> r.value in subs && r.value.displayName == name
    ensures r.Some? ==> exists k | 0 <= k < |subs| :: subs[k] == r.value
                          && forall j | 0 <= j < k :: subs[j].displayName != name
  {
    if subs == [] then None
    else if subs[0].displayName == name then Some(subs[0])
    else
      var r := SelectSubscription(subs[1..], name);
      assert forall s | s in subs[1..] :: s in subs;
      assert forall s | s in subs :: s == subs[0] || s in subs[1..];
      if r.Some? then
        var k :| 0 <= k < |subs[1..]| && subs[1..][k] == r.value
                 && forall j | 0 <= j < k :: subs[1..][j].displayName != name;
        assert subs[k + 1] == r.value;
        assert forall j | 0 <= j < k + 1 :: subs[j].displayName != name by {
          forall j | 0 <= j < k + 1 ensures subs[j].displayName != name {
            if j > 0 { assert subs[j] == subs[1..][j - 1]; }
          }
        }
        r
      else r
  }

  /**
   * `setSubscription(name)`: list the subscriptions (failures propagate); with no
   * exact display-name match nothing is written, otherwise only `subscriptionId`
   * is set, to the id of the first match.
   */
  function SetSubscription(w: World, name: string, fuel: nat): (res: Step<()>)
    ensures res.world.cloud == w.cloud && res.world.disk == w.disk && w.log <= res.world.log
    ensures Within(w, res.world, ReadOnly)
    ensures !res.out.Ok? ==> res.world.settings == w.settings
    ensures res.out.Ok? ==>
              match SelectSubscription(Visible(res.world), name)
              case None => res.world.settings == w.settings
              case Some(s) => Settings.View(res.world.settings)
                                == Settings.View(w.settings)[SubscriptionKey := s.subscriptionId]
    ensures res.out.Ok? ==> Visible(res.world) != []
  {
    var subs := GetSubscriptions(w, fuel);
    if !subs.out.Ok? then Step(Forward(subs.out), subs.world)
    else
      match SelectSubscription(subs.out.value, name)
      case None => Step(Ok(()), subs.world)
      case Some(s) =>
        Step(Ok(()), subs.world.(settings := Settings.Set(subs.world.settings, SubscriptionKey, s.subscriptionId)))
  }

  /** Once a subscription is selected by name, resolution yields its id. */
  lemma SetSubscriptionSelects(w: World, name: string, fuel: nat, fuel': nat)
    requires SetSubscription(w, name, fuel).out.Ok?
    requires var w' := SetSubscription(w, name, fuel).world;
             SelectSubscription(Visible(w'), name).Some? && SelectSubscription(Visible(w'), name).value.subscriptionId != ""
    ensures var w' := SetSubscription(w, name, fuel).world;
            ResolveSubscriptionId(w', fuel').out == Ok(SelectSubscription(Visible(w'), name).value.subscriptionId)
  {
    var w' := SetSubscription(w, name, fuel).world;
    assert Setting(w', SubscriptionKey) == Some(SelectSubscription(Visible(w'), name).value.subscriptionId);
  }

  /** `setResourceGroup(name)`: `resourceGroupName` is set to `name`. */
  function SetResourceGroup(w: World, name: string): (w': World)
    ensures Settings.View(w'.settings) == Settings.View(w.settings)[GroupKey := name]
    ensures w' == w.(settings := w'.settings)
  {
    w.(settings := Settings.Set(w.settings, GroupKey, name))
  }

  /** A non-empty group name set by the command is the one every helper resolves. */
  lemma SetResourceGroupSteers(w: World, name: string)
    requires name != ""
    ensures GroupTarget(SetResourceGroup(w, name)) == name
    ensures PlanTarget(SetResourceGroup(w, name)) == PlanTarget(w)
  {
    LookupElsewhere(Settings.View(w.settings), Settings.View(SetResourceGroup(w, name).settings), GroupKey, PlanKey);
  }

  /** `setPlan(name)` as written: it sets `resourceGroupName`, not `planName`. */
  function SetPlan(w: World, name: string): (w': World)
    ensures Settings.View(w'.settings) == Settings.View(w.settings)[GroupKey := name]
    ensures w' == w.(settings := w'.settings)
  {
    w.(settings := Settings.Set(w.settings, GroupKey, name))
  }

  /** As written, `plan set` steers the group and leaves the plan where it was. */
  lemma SetPlanMissesPlan(w: World, name: string)
    requires name != "" && name != PlanTarget(w)
    ensures PlanTarget(SetPlan(w, name)) != name
    ensures GroupTarget(SetPlan(w, name)) == name
  {
    LookupElsewhere(Settings.View(w.settings), Settings.View(SetPlan(w, name).settings), GroupKey, PlanKey);
  }

  /** `setPlan(name)` as evidently intended: `planName` is set to `name`. */
  function SetPlanIntended(w: World, name: string): (w': World)
    ensures Settings.View(w'.settings) == Settings.View(w.settings)[PlanKey := name]
    ensures w' == w.(settings := w'.settings)
  {
    w.(settings := Settings.Set(w.settings, PlanKey, name))
  }

  /** A non-empty plan name set by the corrected command is the one `resolvePlanName` resolves,
      and the group is left alone. */
  lemma SetPlanIntendedSteers(w: World, name: string)
    requires name != ""
    ensures PlanTarget(SetPlanIntended(w, name)) == name
    ensures GroupTarget(SetPlanIntended(w, name)) == GroupTarget(w)
  {
    LookupElsewhere(Settings.View(w.settings), Settings.View(SetPlanIntended(w, name).settings), PlanKey, GroupKey);
  }

  /**
   * `deploy(deployPath, deployName)` of dist/shared/commands.js, from the resolved
   * `fullPath` and the generated `suffix`: stop when the path does not exist,
   * otherwise create the site `<projName>-<suffix>`, upload the files, and yield
   * the URI the command copies to the clipboard.
   */
  function Deploy(w: World, fullPath: string, deployName: Option<string>, suffix: string, fuel: nat): (res: Step<Option<string>>)
    requires IsSuffix(suffix)
    ensures fullPath !in w.disk.existing ==> res == Step(Ok(None), w)
    ensures res.out.Ok? && fullPath in w.disk.existing ==>
              var name := SiteName(ProjName(fullPath, deployName), suffix);
              && res.out.value == Some(WebsiteUri(name))
              && SiteFor(w, name) in res.world.cloud.sites
    ensures res.out.Ok? && fullPath in w.disk.existing && fullPath in w.disk.listing ==>
              var name := SiteName(ProjName(fullPath, deployName), suffix);
              var files := w.disk.listing[fullPath];
              && |res.world.log| >= |files|
              && res.world.log[|res.world.log| - |files|..]
                   == Uploads(name, w.cloud.profile(name), fullPath, files)
    ensures fullPath in w.disk.existing && !CreateWebsite(w, SiteName(ProjName(fullPath, deployName), suffix), fuel).out.Ok? ==>
              && !res.out.Ok?
              && Within(w, res.world, Scope({GroupTarget(w)}, {PlanTarget(w)},
                                            {SiteName(ProjName(fullPath, deployName), suffix)}, {}, {}))
    ensures Evolves(w, res.world)
    ensures Within(w, res.world, Scope({GroupTarget(w)}, {PlanTarget(w)},
                                       {SiteName(ProjName(fullPath, deployName), suffix)}, {},
                                       {SiteName(ProjName(fullPath, deployName), suffix)}))
  {
    if fullPath !in w.disk.existing then Step(Ok(None), w)
    else
      var name := SiteName(ProjName(fullPath, deployName), suffix);
      var sc := Scope({GroupTarget(w)}, {PlanTarget(w)}, {name}, {}, {name});
      var site := CreateWebsite(w, name, fuel);
      WithinWiden(w, site.world, Scope({GroupTarget(w)}, {PlanTarget(w)}, {name}, {}, {}), sc);
      if !site.out.Ok? then Step(Forward(site.out), site.world)
      else
        var uploaded := DeployToWebsite(site.world, name, fullPath, fuel);
        TargetsStable(w, site.world);
        WithinWiden(site.world, uploaded.world, Scope({GroupTarget(site.world)}, {}, {}, {}, {name}), sc);
        EvolvesTrans(w, site.world, uploaded.world);
        WithinTrans(w, site.world, uploaded.world, sc);
        if !uploaded.out.Ok? then Step(Forward(uploaded.out), uploaded.world)
        else
          assert SiteFor(w, name) in uploaded.world.cloud.sites;
          Step(Ok(Some(WebsiteUri(name))), uploaded.world)
  }

  /** `deploy(deployPath)` of src/shared/commands.ts: no path check and no upload; only the
      site `<last path segment>-<suffix>` is created. */
  function DeploySource(w: World, fullPath: string, suffix: string, fuel: nat): (res: Step<()>)
    requires IsSuffix(suffix)
    ensures SiteEffects(w, res.world, SiteName(LastSegment(fullPath), suffix))
    ensures res.out.Ok? <==> CreateWebsite(w, SiteName(LastSegment(fullPath), suffix), fuel).out.Ok?
    ensures res.out.Ok? ==> SiteFor(w, SiteName(LastSegment(fullPath), suffix)) in res.world.cloud.sites
  {
    var site := CreateWebsite(w, SiteName(ProjName(fullPath, None), suffix), fuel);
    if site.out.Ok? then Step(Ok(()), site.world) else Step(Forward(site.out), site.world)
  }
}
