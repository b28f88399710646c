/**
 * The `try { ... } catch (err) { if (await fixedKnownError(err.code)) return
 * await op(...); throw err; }` pattern every wrapped helper shares, stated per
 * helper: a result of the `try` body is returned as it is; an error
 * `fixedKnownError` does not recognise is rethrown unchanged; after a repair the
 * same operation runs again with the same arguments on the repaired world.
 */
module Retry {
  import opened Wrappers
  import opened Bll
  import opened Remote
  import opened Helpers

  /** The `catch` block when it does not re-invoke: an unrecognised error is rethrown as
      it is, an error of the repair itself propagates, and a repair with no fuel left for
      the re-invocation is cut off. */
  ghost predicate Rethrown<T>(e: Error, fix: Step<bool>, fuel: nat, res: Step<T>) {
    && (fix.out == Ok(false) ==> res == Step(Thrown(e), fix.world))
    && (fix.out.Thrown? ==> res == Step(Thrown(fix.out.error), fix.world))
    && (fix.out == Ok(true) && fuel == 0 ==> res == Step(Diverged, fix.world))
  }

  /** `getTenants()`: the listing is returned unchanged; a failed listing goes to the catch. */
  lemma GetTenantsRetries(w: World, fuel: nat)
    ensures var (failure, w2) := Invoke(LoginWorld(w, false, None), TenantsList);
            var res := GetTenants(w, fuel);
            && (failure.None? ==> res == Step(Ok(w.cloud.tenants), w2))
            && (failure.Some? ==>
                  var fix := FixedKnownError(w2, failure, fuel);
                  && (!Fixable(failure) ==> res == Step(Thrown(ApiError(failure.value)), w2))
                  && (fix.out == Ok(true) && fuel > 0 ==> res == GetTenants(fix.world, fuel - 1))
                  && Rethrown(ApiError(failure.value), fix, fuel, res))
  {
  }

  /** The catch of `getSubscriptions()`: a failed listing is repaired and listed again, or
      rethrown. (The empty-list repair is part of `GetSubscriptions`' own contract.) */
  lemma GetSubscriptionsRetries(w: World, fuel: nat)
    ensures var (failure, w2) := Invoke(LoginWorld(w, false, None), SubscriptionsList);
            var res := GetSubscriptions(w, fuel);
            && (failure.None? && Visible(w2) != [] ==> res == Step(Ok(Visible(w2)), w2))
            && (failure.Some? ==>
                  var fix := FixedKnownError(w2, failure, fuel);
                  && (!Fixable(failure) ==> res == Step(Thrown(ApiError(failure.value)), w2))
                  && (fix.out == Ok(true) && fuel > 0 ==> res == GetSubscriptions(fix.world, fuel - 1))
                  && Rethrown(ApiError(failure.value), fix, fuel, res))
  {
  }

  /** `getResourceGroups()`: the subscription is resolved outside the `try`, so its failure
      propagates; the listing is returned unchanged or goes to the catch. */
  lemma GetResourceGroupsRetries(w: World, fuel: nat)
    ensures var sub := ResolveSubscriptionId(w, fuel);
            var res := GetResourceGroups(w, fuel);
            && (!sub.out.Ok? ==> res == Step(Forward(sub.out), sub.world))
            && (sub.out.Ok? ==>
                  var (failure, w2) := Invoke(sub.world, GroupsList(sub.out.value));
                  && (failure.None? ==> res == Step(Ok(w.cloud.groups), w2))
                  && (failure.Some? ==>
                        var fix := FixedKnownError(w2, failure, fuel);
                        && (!Fixable(failure) ==> res == Step(Thrown(ApiError(failure.value)), w2))
                        && (fix.out == Ok(true) && fuel > 0 ==> res == GetResourceGroups(fix.world, fuel - 1))
                        && Rethrown(ApiError(failure.value), fix, fuel, res)))
  {
  }

  /** `createResourceGroup(name)`: the created group is returned; a failure goes to the catch. */
  lemma CreateResourceGroupRetries(w: World, name: string, fuel: nat)
    ensures var sub := ResolveSubscriptionId(w, fuel);
            var res := CreateResourceGroup(w, name, fuel);
            && (!sub.out.Ok? ==> res == Step(Forward(sub.out), sub.world))
            && (sub.out.Ok? ==>
                  var (failure, w2) := Invoke(sub.world, GroupsCreateOrUpdate(sub.out.value, name, DefaultLocation));
                  && (failure.None? ==> res.out == Ok(ResourceGroup(name, DefaultLocation)))
                  && (failure.Some? ==>
                        var fix := FixedKnownError(w2, failure, fuel);
                        && (!Fixable(failure) ==> res == Step(Thrown(ApiError(failure.value)), w2))
                        && (fix.out == Ok(true) && fuel > 0 ==> res == CreateResourceGroup(fix.world, name, fuel - 1))
                        && Rethrown(ApiError(failure.value), fix, fuel, res)))
  {
  }

  /** `getPlans()`: the `try` body (resolve the group, list its plans) is returned as it is,
      and what it throws goes to the catch. */
  lemma GetPlansRetries(w: World, fuel: nat)
    ensures var sub := ResolveSubscriptionId(w, fuel);
            var res := GetPlans(w, fuel);
            && (!sub.out.Ok? ==> res == Step(Forward(sub.out), sub.world))
            && (sub.out.Ok? ==>
                  var attempt := ListPlans(sub.world, sub.out.value, fuel);
                  && (!attempt.out.Thrown? ==> res == attempt)
                  && (attempt.out.Thrown? ==>
                        var e := attempt.out.error;
                        var fix := FixedKnownError(attempt.world, Code(e), fuel);
                        && (!Fixable(Code(e)) ==> res == Step(Thrown(e), attempt.world))
                        && (fix.out == Ok(true) && fuel > 0 ==> res == GetPlans(fix.world, fuel - 1))
                        && Rethrown(e, fix, fuel, res)))
  {
  }

  /** `createPlan(name)`: the same rule around resolving the group and creating the plan. */
  lemma CreatePlanRetries(w: World, name: string, fuel: nat)
    ensures var sub := ResolveSubscriptionId(w, fuel);
            var res := CreatePlan(w, name, fuel);
            && (!sub.out.Ok? ==> res == Step(Forward(sub.out), sub.world))
            && (sub.out.Ok? ==>
                  var attempt := MakePlan(sub.world, sub.out.value, name, fuel);
                  && (!attempt.out.Thrown? ==> res == attempt)
                  && (attempt.out.Thrown? ==>
                        var e := attempt.out.error;
                        var fix := FixedKnownError(attempt.world, Code(e), fuel);
                        && (!Fixable(Code(e)) ==> res == Step(Thrown(e), attempt.world))
                        && (fix.out == Ok(true) && fuel > 0 ==> res == CreatePlan(fix.world, name, fuel - 1))
                        && Rethrown(e, fix, fuel, res)))
  {
  }

  /** `getWebsites()`: the same rule around resolving the group and listing its sites. */
  lemma GetWebsitesRetries(w: World, fuel: nat)
    ensures var sub := ResolveSubscriptionId(w, fuel);
            var res := GetWebsites(w, fuel);
            && (!sub.out.Ok? ==> res == Step(Forward(sub.out), sub.world))
            && (sub.out.Ok? ==>
                  var attempt := ListSites(sub.world, sub.out.value, fuel);
                  && (!attempt.out.Thrown? ==> res == attempt)
                  && (attempt.out.Thrown? ==>
                        var e := attempt.out.error;
                        var fix := FixedKnownError(attempt.world, Code(e), fuel);
                        && (!Fixable(Code(e)) ==> res == Step(Thrown(e), attempt.world))
                        && (fix.out == Ok(true) && fuel > 0 ==> res == GetWebsites(fix.world, fuel - 1))
                        && Rethrown(e, fix, fuel, res)))
  {
  }

  /** `getWebsiteCredentials(name)`: the same rule around fetching the publishing credentials. */
  lemma GetWebsiteCredentialsRetries(w: World, name: string, fuel: nat)
    ensures var sub := ResolveSubscriptionId(w, fuel);
            var res := GetWebsiteCredentials(w, name, fuel);
            && (!sub.out.Ok? ==> res == Step(Forward(sub.out), sub.world))
            && (sub.out.Ok? ==>
                  var attempt := FetchCredentials(sub.world, sub.out.value, name, fuel);
                  && (!attempt.out.Thrown? ==> res == attempt)
                  && (attempt.out.Thrown? ==>
                        var e := attempt.out.error;
                        var fix := FixedKnownError(attempt.world, Code(e), fuel);
                        && (!Fixable(Code(e)) ==> res == Step(Thrown(e), attempt.world))
                        && (fix.out == Ok(true) && fuel > 0 ==> res == GetWebsiteCredentials(fix.world, name, fuel - 1))
                        && Rethrown(e, fix, fuel, res)))
  {
  }

  /** `deleteWebsite(name)`: the same rule around resolving the group and deleting the site. */
  lemma DeleteWebsiteRetries(w: World, name: string, fuel: nat)
    ensures var sub := ResolveSubscriptionId(w, fuel);
            var res := DeleteWebsite(w, name, fuel);
            && (!sub.out.Ok? ==> res == Step(Forward(sub.out), sub.world))
            && (sub.out.Ok? ==>
                  var attempt := DropSite(sub.world, sub.out.value, name, fuel);
                  && (!attempt.out.Thrown? ==> res == attempt)
                  && (attempt.out.Thrown? ==>
                        var e := attempt.out.error;
                        var fix := FixedKnownError(attempt.world, Code(e), fuel);
                        && (!Fixable(Code(e)) ==> res == Step(Thrown(e), attempt.world))
                        && (fix.out == Ok(true) && fuel > 0 ==> res == DeleteWebsite(fix.world, name, fuel - 1))
                        && Rethrown(e, fix, fuel, res)))
  {
  }

  /** `createWebsite(name)`: the same rule around resolving the group and the plan and
      creating the site. */
  lemma CreateWebsiteRetries(w: World, name: string, fuel: nat)
    ensures var sub := ResolveSubscriptionId(w, fuel);
            var res := CreateWebsite(w, name, fuel);
            && (!sub.out.Ok? ==> res == Step(Forward(sub.out), sub.world))
            && (sub.out.Ok? ==>
                  var attempt := MakeSite(sub.world, sub.out.value, name, fuel);
                  && (!attempt.out.Thrown? ==> res == attempt)
                  && (attempt.out.Thrown? ==>
                        var e := attempt.out.error;
                        var fix := FixedKnownError(attempt.world, Code(e), fuel);
                        && (!Fixable(Code(e)) ==> res == Step(Thrown(e), attempt.world))
                        && (fix.out == Ok(true) && fuel > 0 ==> res == CreateWebsite(fix.world, name, fuel - 1))
                        && Rethrown(e, fix, fuel, res)))
  {
  }
}
