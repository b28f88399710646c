# posthaste — the decision core, modelled in Dafny

posthaste is a small command-line tool that deploys a folder to an Azure web
site. Most of it is plumbing around the Azure SDK, the device login and the Kudu
file API. Inside that plumbing sits a decision core, and this project models and
proves that core:

- **The settings store** (`settings.json`, loaded lazily). It is a pure state
  function on `Settings.SettingsState`, plus `SettingsStore.Store`, a class whose
  methods update that state in place.
- **The cached login** (`login(ignoreCache, tenantId)`). `Credentials.Login` is
  the state function; `CredentialStore.Store` is its class twin.
- **The remote world.** `Remote.World` holds:
  - the credentials and the settings;
  - the cloud: tenants, subscriptions, resource groups, app service plans,
    sites, and the publishing credentials the service issues to a site of each
    name, which a site has exactly while it exists;
  - the local disk: which paths exist and which files each folder lists;
  - a fault oracle, which gives the error code (or none) that each successive
    SDK call returns;
  - a log of every SDK call and every interactive login issued.
- **The helpers** (`Helpers`):
  - `fixedKnownError`, the classifier that repairs exactly two error codes;
  - the retry-wrapped `get*` and `create*` operations and `deleteWebsite`;
  - `getWebsiteCredentials` and `deployToWebsite`;
  - the resolvers for the subscription, the resource group and the plan.
- **The commands** (`Commands`, `Removal`):
  - selecting a subscription by display name;
  - setting the default group and plan;
  - the removal candidates, the order they are shown in, the `Y` confirmation,
    and the sequential deletes;
  - the site-name and URI construction of `deploy`.

Every helper is a function from a world to a `Step`: an outcome plus the new
world. The source retries by unbounded recursion: after a fixable error it
re-logs in and calls itself again. The model gives each operation a `fuel`
argument. Each re-invocation after a repair costs one unit. So does the
wrong-tenant repair, which calls `getTenants` inside `fixedKnownError`. With
no fuel left, a repair that succeeded ends in `Diverged` instead of
re-invoking. `Diverged` stands for recursion past the bound.

The subscriptions of the cloud are kept per directory. A credential from the
cached or home login sees the home directory's subscriptions; a credential from
the wrong-tenant repair sees those of the tenant it signed in to.

An operation whose source wraps a `try` around a resolver and an SDK call is
split in two: the `try` body (`ListPlans`, `MakePlan`, `ListSites`,
`FetchCredentials`, `DropSite`, `MakeSite`) and the operation with its `catch`
(`GetPlans`, `CreatePlan`, `GetWebsites`, `GetWebsiteCredentials`,
`DeleteWebsite`, `CreateWebsite`). The split follows the source: an error thrown
by the inner resolver goes through the outer `catch` and `fixedKnownError`, just
like an SDK error.

The effects of the helpers are stated as predicates between two worlds, each with
a transitivity lemma:

| predicate | what it says |
|---|---|
| `Quiet` | read-only calls only |
| `GroupEffects` | may create only the target group |
| `PlanEffects` | may also create the target plan |
| `SiteEffects` | may also upsert the site |
| `DeleteEffects` | may delete only the named site |

Two of them cover every helper:

- `Evolves`: the log only grows, the fault oracle only drains, and tenants,
  subscriptions, the issued publishing credentials and the disk are untouched.
- `Within(w, w', scope)`: every call logged between the two worlds is permitted
  by the scope.

## Model

| member | source | states |
|---|---|---|
| Settings.EnsureFile | dist/shared/settings.js:21-28 | the first use loads the file once (an absent file becomes `{}`) and later uses change nothing; the visible map is unchanged |
| Settings.Get | dist/shared/settings.js:10-13 | returns the stored value of the key, and changes nothing beyond the one-time load |
| Settings.Set | dist/shared/settings.js:15-19 | the map gains `key := value`, every other key is unchanged, and the persisted file equals the in-memory map |
| Settings.GetAfterSet | dist/shared/settings.js:10-19 | after `set(k, v)`, `get(k)` is `v` and `get` of any other key is what it was |
| Settings.ReadAtMostOnce | dist/shared/settings.js:21-28 | over any sequence of gets and sets the file is read at most once, and after any use the file equals the cache |
| Settings.FirstUseWithoutFile | dist/shared/settings.js:21-27 | with no file, every key first reads as absent and the file is created as `{}` |
| SettingsStore.Store.constructor | dist/shared/settings.js:9 | a fresh, not-yet-loaded store over the persisted file |
| SettingsStore.Store.EnsureFile | dist/shared/settings.js:21-28 | the object's new state is `Settings.EnsureFile` of the old state |
| SettingsStore.Store.Get | dist/shared/settings.js:10-13 | returns the stored value; the new state is `Settings.Get` of the old state |
| SettingsStore.Store.Set | dist/shared/settings.js:15-19 | the view gains `key := value`, the file equals the cache, and the new state is `Settings.Set` of the old state |
| Credentials.Login | src/shared/helpers.ts:31-47 | an unforced login with a credential in memory returns it unchanged; otherwise an unforced login uses the file when present; else an interactive login runs and its result is written to the file. An interactive login happens iff neither cache applies |
| Credentials.UnforcedLoginIsStable | src/shared/helpers.ts:32-33 | after any login, an unforced login changes nothing |
| CredentialStore.Store.constructor | dist/shared/helpers.js:22 | no credential in memory; the file as persisted |
| CredentialStore.Store.Login | dist/shared/helpers.js:24-36 | the new state is `Credentials.Login` of the old state; returns the in-memory credential, which is the old one on an unforced login with one cached |
| Remote.AddGroup | src/shared/helpers.ts:103-116 | after a create-or-update the group exists, no group is lost, and an existing group leaves the list as it was |
| Remote.PlansIn | src/shared/helpers.ts:120-133 | exactly the plans of the given group |
| Remote.AddPlan | src/shared/helpers.ts:135-148 | after a create-or-update the plan exists in its group, no plan is lost, and an existing plan leaves the list as it was |
| Remote.SitesIn | src/shared/helpers.ts:152-165 | exactly the sites of the given group |
| Remote.UpsertSite | src/shared/helpers.ts:167-180 | the site is present, any other entry with the same group and name is gone, everything else stays, and a new site is appended |
| Remote.UpsertSiteIdempotent | src/shared/helpers.ts:167-180 | creating the same site twice is the same as once |
| Remote.RemoveSite | src/shared/helpers.ts:182-195 | no site with that group and name remains; every other site stays |
| Remote.RemoveSiteIdempotent | src/shared/helpers.ts:182-195 | deleting the same site twice is the same as once |
| Helpers.FixedKnownError | src/shared/helpers.ts:199-224 | reports true exactly for `ExpiredAuthenticationToken` and `InvalidAuthenticationTokenTenant`. Any other code returns false with the world untouched and no login. An expired token is fixed by a forced login with no tenant. A wrong tenant is fixed by a forced interactive login scoped to the first listed tenant. The cloud and the settings are never changed |
| Helpers.GetTenants | src/shared/helpers.ts:51-57 | on success returns the tenants unchanged, and with no faults always succeeds. A thrown error is never a fixable one, since fixable errors are retried. Read-only |
| Retry.GetTenantsRetries | src/shared/helpers.ts:51-64 | a listing that does not fail is returned. A failed listing goes to `fixedKnownError`: an unrecognised code is rethrown unchanged, a repair reruns `getTenants` on the repaired world, and an error of the repair itself propagates |
| Helpers.GetSubscriptions | src/shared/helpers.ts:66-77 | a success is the non-empty subscription list the credential's directory shows. With no faults, a non-empty home listing is returned as-is. An empty listing runs the wrong-tenant repair and returns the relisting. A thrown error is never fixable. Read-only |
| Retry.GetSubscriptionsRetries | src/shared/helpers.ts:66-84 | a non-empty listing is returned. A failed listing goes to `fixedKnownError`: an unrecognised code is rethrown unchanged, a repair reruns `getSubscriptions`, and an error of the repair itself propagates |
| Helpers.ResolveSubscriptionId | src/shared/helpers.ts:228-244 | succeeds iff a subscription id is stored, and returns it. Otherwise, with no faults and a home directory with some subscription, it throws "no default subscription". It never writes settings and never creates anything |
| Helpers.GetResourceGroups | src/shared/helpers.ts:88-95 | on success returns the groups unchanged, and only when a subscription is stored. A thrown error is never fixable. Read-only |
| Retry.GetResourceGroupsRetries | src/shared/helpers.ts:88-101 | a failure to resolve the subscription propagates. A listing that does not fail is returned. A failed listing goes to `fixedKnownError`: an unrecognised code is rethrown, a repair reruns `getResourceGroups`, and an error of the repair propagates |
| Helpers.CreateResourceGroup | src/shared/helpers.ts:103-109 | issues only the create of this group. On success the group in `westus2` is returned and added. A thrown error is never fixable |
| Retry.CreateResourceGroupRetries | src/shared/helpers.ts:103-116 | a failure to resolve the subscription propagates. A create that does not fail returns the group. A failed create goes to `fixedKnownError`: an unrecognised code is rethrown, a repair reruns `createResourceGroup(name)`, and an error of the repair propagates |
| Helpers.StoredOrDefault | src/shared/helpers.ts:250-254 | the stored name when truthy, settings unchanged; otherwise the default, which is then persisted under the key |
| Helpers.ResolveGroupName | src/shared/helpers.ts:246-262 | resolves to the stored group name or `PostHasteGroup`, and persists it. The group is created iff no listed group has that name, and nothing is created when it is listed. No other setting or cloud state changes |
| Helpers.ListPlans | src/shared/helpers.ts:123-126 | resolves the group first, then lists the plans of exactly that group |
| Helpers.GetPlans | src/shared/helpers.ts:120-126 | returns the plans of the resolved group, with the group in place and persisted. A thrown error is never fixable |
| Retry.GetPlansRetries | src/shared/helpers.ts:120-133 | a failure to resolve the subscription propagates. The `try` body's result is returned as it is. What it throws, from the group resolver or the listing, goes to `fixedKnownError`: an unrecognised code is rethrown, a repair reruns `getPlans`, and an error of the repair propagates |
| Helpers.MakePlan | src/shared/helpers.ts:138-141 | resolves the group first, then creates the named plan in it with sku F1/Free in `westus2` |
| Helpers.CreatePlan | src/shared/helpers.ts:135-141 | creates only the named plan, in the resolved group; on success it is added with sku F1/Free in `westus2`. A thrown error is never fixable |
| Retry.CreatePlanRetries | src/shared/helpers.ts:135-148 | the same rule for `createPlan(name)`: a subscription failure propagates, the `try` body's result is returned, and its errors are rethrown or repaired and retried with the same name |
| Helpers.ResolvePlanName | src/shared/helpers.ts:264-280 | resolves to the stored plan name or `PostHastePlan`, and persists it. The plan is created iff it is absent; a plan already in place, in a group already in place, leaves the cloud unchanged and issues only reads |
| Helpers.ListSites | src/shared/helpers.ts:155-158 | resolves the group first, then lists the sites of exactly that group |
| Helpers.GetWebsites | src/shared/helpers.ts:152-158 | returns the sites of the resolved group. A thrown error is never fixable |
| Retry.GetWebsitesRetries | src/shared/helpers.ts:152-165 | the same rule for `getWebsites`: a subscription failure propagates, the `try` body's result is returned, and its errors are rethrown or repaired and retried |
| Helpers.FetchCredentials | dist/shared/helpers.js:152-154 | after resolving the group, the publishing credentials of the named site, which must exist in that group; any other name is `ResourceNotFound` |
| Helpers.GetWebsiteCredentials | dist/shared/helpers.js:149-154 | returns the publishing credentials of a site that exists in the resolved group. A thrown error is never fixable |
| Retry.GetWebsiteCredentialsRetries | dist/shared/helpers.js:149-160 | the same rule for `getWebsiteCredentials(name)`: a subscription failure propagates, the fetch's result is returned, and its errors are rethrown or repaired and retried with the same name |
| Helpers.DropSite | src/shared/helpers.ts:185-188 | resolves the group, then deletes the named site from it. With no faults, a thrown error is never fixable |
| Helpers.DeleteWebsite | src/shared/helpers.ts:182-188 | deletes only the named site, from the resolved group, which is in place afterwards. A thrown error is never fixable |
| Retry.DeleteWebsiteRetries | src/shared/helpers.ts:182-195 | the same rule for `deleteWebsite(name)`: a subscription failure propagates, the delete's result is returned, and its errors are rethrown or repaired and retried with the same name |
| Helpers.MakeSite | src/shared/helpers.ts:170-173 | resolves the group, then the plan, then upserts the site bound to that plan in `westus2`. A failure leaves the sites untouched |
| Helpers.CreateWebsite | src/shared/helpers.ts:167-173 | on success the site `{name, group, westus2, plan}` is upserted, and its group and plan are in place and persisted. Only the target group, plan and site are ever written. A thrown error is never fixable |
| Retry.CreateWebsiteRetries | src/shared/helpers.ts:167-180 | the same rule for `createWebsite(name)`: a subscription failure propagates, the create's result is returned, and its errors are rethrown or repaired and retried with the same name |
| Helpers.Uploads | dist/shared/helpers.js:183-188 | one upload per listed file, in listing order. Each goes to `site/wwwroot/` plus the file's path relative to the deploy root, signed with exactly the publishing user name and password |
| Helpers.Transfer | dist/shared/helpers.js:182-192 | with a listing, the uploads are appended to the log; a failed listing is swallowed and nothing is uploaded |
| Helpers.DeployToWebsite | dist/shared/helpers.js:175-193 | fetches the publishing credentials (failures propagate, so success needs the site to exist in the target group), then uploads every listed file, signed with those credentials, as the last calls logged. A missing listing still succeeds, with no uploads. Only uploads to this site are issued |
| Naming.Split | src/shared/commands.ts:117 | at least one piece, and no piece contains `/` or `\` |
| Naming.JoinSplit | src/shared/commands.ts:117 | splitting loses only which separator was used |
| Naming.SplitJoin | src/shared/commands.ts:117 | separator-free pieces come back unchanged from a split of their join |
| Naming.LastSegment | src/shared/commands.ts:117 | the text after the last separator (all of it when there is none) |
| Naming.LastOfSplit | src/shared/commands.ts:117 | the last piece of the split is exactly that text |
| Naming.ProjName | dist/shared/commands.js:115 | a truthy `deployName` wins; otherwise the last piece of the path split on `/` or `\` |
| Naming.SiteName | dist/shared/commands.js:121 | the project name, then `-`, then the suffix, and nothing else |
| Naming.ParseSiteName | dist/shared/commands.js:116-121 | any name it parses is `<project>-<8 lowercase letters>` |
| Naming.ParseSiteNameInverts | dist/shared/commands.js:121 | a generated site name determines its project name and suffix |
| Naming.WebsiteUri | dist/shared/commands.js:122 | `http://`, then the site name, then `.azurewebsites.net/` |
| Naming.WebsiteUriInjective | dist/shared/commands.js:122 | distinct sites get distinct URIs |
| Naming.Relative | dist/shared/helpers.js:185 | the relative path is never longer than the file path |
| Naming.RelativeJoinPath | dist/shared/helpers.js:185 | a file joined under the root is uploaded under its own relative path |
| Naming.JoinPathRelative | dist/shared/helpers.js:185-187 | every file under the root is its relative path joined back under the root |
| Commands.SelectSubscription | src/shared/commands.ts:34 | a match exists iff some subscription has exactly that display name, and the result is the first such one |
| Commands.SetSubscription | src/shared/commands.ts:31-44 | with no exact match among the subscriptions the credential sees, the settings are unchanged. With a match only `subscriptionId` is set, to the first match's id. Failures of the listing propagate with settings unchanged. Nothing is created |
| Commands.SetSubscriptionSelects | dist/shared/commands.js:24-33 | after a successful selection, resolving the subscription yields the selected id |
| Commands.SetResourceGroup | src/shared/commands.ts:55-58 | only `resourceGroupName` changes, to `name` |
| Commands.SetResourceGroupSteers | dist/shared/commands.js:44-47 | a non-empty name set this way is the group every helper resolves; the plan target is unchanged |
| Commands.SetPlan | src/shared/commands.ts:69-72 | as written: only `resourceGroupName` changes, to `name` |
| Commands.SetPlanMissesPlan | dist/shared/commands.js:58-61 | as written, setting a plan steers the group and leaves the resolved plan where it was |
| Commands.SetPlanIntended | src/shared/commands.ts:69-72 | corrected: only `planName` changes, to `name` |
| Commands.SetPlanIntendedSteers | src/shared/commands.ts:69-72 | corrected: the name becomes the resolved plan, and the group is unchanged |
| Commands.Deploy | dist/shared/commands.js:108-133 | a missing path returns with nothing done. Otherwise the site `<projName>-<suffix>` is created before the upload; on success it is in the cloud, the listed files are the last calls logged and the URI is returned. A failed creation fails the deploy with nothing uploaded. Only that site and the target group and plan are ever written |
| Commands.DeploySource | src/shared/commands.ts:113-131 | succeeds iff creating the site `<last path segment>-<suffix>` does, and then that site is in the cloud. Besides it, only the target group and plan may be created, and nothing is uploaded or deleted |
| Removal.WithPrefix | src/shared/commands.ts:91 | exactly the sites whose name starts with the prefix |
| Removal.WithPrefixKeepsOrder | dist/shared/commands.js:85 | the filtered sites keep their listing order |
| Removal.Candidates | dist/shared/commands.js:81-86 | with no name every site is a candidate; with a name exactly the prefix matches are |
| Removal.SourceCandidates | src/shared/commands.ts:91 | the name is used as a prefix even when missing, in which case the prefix is the string `undefined` |
| Removal.SourceCandidatesWithoutName | src/shared/commands.ts:91 | without a name the source selects no site from a listing that the dist version selects in full |
| Removal.CandidatesAgreeWithName | src/shared/commands.ts:91 | with a non-empty name both versions select the same sites |
| Removal.NameLeTotal | dist/shared/commands.js:89 | any two names are ordered one way or the other |
| Removal.NameLeTrans | dist/shared/commands.js:89 | the name order is transitive |
| Removal.Insert | dist/shared/commands.js:89 | inserting into a sorted list keeps it sorted and adds exactly that site |
| Removal.InsertNamed | dist/shared/commands.js:89 | the inserted site goes in front of every site of the same name, and those keep their order |
| Removal.OrderByName | dist/shared/commands.js:89 | the sites shown are sorted by name and are a permutation of the candidates |
| Removal.OrderByNameStable | dist/shared/commands.js:89 | the sort is stable: the sites of any one name keep their listing order |
| Removal.DeleteInTurnRemovesAll | dist/shared/commands.js:100-102 | the deletes touch only the candidates' names. On success none of them remains in the target group, and no site is added |
| Removal.RemoveWebsites | dist/shared/commands.js:80-105 | a failed listing propagates and shows nothing. Otherwise the candidates are shown sorted by name. Any answer but exactly `Y` changes nothing. `Y` deletes the candidates one by one in listing order, stopping at the first failure |
| Removal.RemovalRemovesCandidates | dist/shared/commands.js:95-103 | after a confirmed, successful removal, no candidate remains in the target group, and no site was added |
| Removal.DeleteWebsiteDeletesOnce | src/shared/helpers.ts:182-195 | with no faults, a successful `deleteWebsite(name)` issues exactly one delete, and it is of `name` |
| Removal.DeleteInTurnInOrder | dist/shared/commands.js:100-102 | with no faults, a successful removal deletes each candidate exactly once, in list order |
| Removal.SourceDeletes | src/shared/commands.ts:100-106 | nothing is deleted unless the answer is exactly `Y`; then the deleted names are exactly those of the source's candidates |
| Properties.ExpiredTokenRetriesOnce | src/shared/helpers.ts:51-64 | one expired token costs exactly one forced login and one more listing; with no fuel left, the retry is cut off |
| Properties.EmptySubscriptionsDiverge | src/shared/helpers.ts:72-77 | when neither the home directory nor the first tenant shows a subscription, `getSubscriptions` repairs and relists forever: every fuel bound is exceeded |
| Properties.RepairFindsSubscriptions | src/shared/helpers.ts:72-77 | when the home directory shows no subscription but the first tenant does, one repair signs in to that tenant and the relisting returns its subscriptions |
| Properties.RepairThenList | src/shared/helpers.ts:74-75 | after an empty listing, a diverging relisting makes the whole call diverge |
| Properties.ResolveGroupNameIdempotent | src/shared/helpers.ts:246-262 | a second resolution after a successful one creates nothing, and on success returns the same name |
| Properties.ResolvePlanNameIdempotent | src/shared/helpers.ts:264-280 | a second resolution after a successful one creates nothing, and on success returns the same name |
| Success.GetResourceGroupsSucceeds | src/shared/helpers.ts:88-95 | with no faults and a subscription stored, the groups are listed |
| Success.CreateResourceGroupSucceeds | src/shared/helpers.ts:103-109 | with no faults and a subscription stored, the group is created in `westus2` |
| Success.ResolveGroupNameSucceeds | src/shared/helpers.ts:246-262 | with no faults and a subscription stored, the resolver settles on the stored group name or the default |
| Success.GetPlansSucceeds | src/shared/helpers.ts:120-126 | with no faults and a subscription stored, the plans of the target group are listed |
| Success.CreatePlanSucceeds | src/shared/helpers.ts:135-141 | with no faults and a subscription stored, the plan is created in the target group with sku F1/Free |
| Success.ResolvePlanNameSucceeds | src/shared/helpers.ts:264-280 | with no faults and a subscription stored, the resolver settles on the stored plan name or the default |
| Success.GetWebsitesSucceeds | src/shared/helpers.ts:152-158 | with no faults and a subscription stored, the sites of the target group are listed |
| Success.GetWebsiteCredentialsSucceeds | dist/shared/helpers.js:149-154 | with no faults and a subscription stored, a site in the target group gets its issued credentials, and any other name is `ResourceNotFound` |
| Success.DeleteWebsiteSucceeds | src/shared/helpers.ts:182-188 | with no faults and a subscription stored, the delete succeeds |
| Success.CreateWebsiteSucceeds | src/shared/helpers.ts:167-173 | with no faults and a subscription stored, the site bound to the target group and plan is returned |
| Success.DeployToWebsiteFailsOnlyOnCredentials | dist/shared/helpers.js:175-193 | `deployToWebsite` succeeds iff fetching the credentials does; a failed fetch is its whole effect |
| Success.DeployToWebsiteSucceeds | dist/shared/helpers.js:175-193 | with no faults, a subscription stored and the site in the target group, the upload succeeds |
| Success.DeploySucceeds | dist/shared/commands.js:108-133 | with no faults, a subscription stored and an existing path, `deploy` returns the site's URI: the site it creates is the one whose credentials the upload fetches |
| Ordering.ListPlansOrder | src/shared/helpers.ts:125-126 | the group is resolved first; a failure there ends the attempt. Otherwise the plan listing of the target group is the one call after it |
| Ordering.MakePlanOrder | src/shared/helpers.ts:140-141 | the group is resolved first; a failure there ends the attempt. Otherwise the plan create in the target group is the one call after it |
| Ordering.ResolvePlanNameOrder | src/shared/helpers.ts:264-280 | `getPlans` runs first; when it fails the resolution fails with nothing further issued. Otherwise the group was resolved by then, and every later call only extends that log |
| Ordering.ListSitesOrder | src/shared/helpers.ts:157-158 | the group is resolved first; a failure there ends the attempt. Otherwise the site listing of the target group is the one call after it |
| Ordering.FetchCredentialsOrder | dist/shared/helpers.js:152-154 | the group is resolved first; a failure there ends the attempt. Otherwise the credentials fetch in the target group is the one call after it |
| Ordering.DropSiteOrder | src/shared/helpers.ts:187-188 | the group is resolved first; a failure there ends the attempt. Otherwise the delete in the target group is the one call after it |
| Ordering.MakeSiteOrder | src/shared/helpers.ts:172-173 | the group is resolved, then the plan, and each failure ends the attempt there. Otherwise the site create, bound to the target plan, is the one call after them |
| Ordering.FixedKnownErrorAccount | src/shared/helpers.ts:199-224 | the repair issues only logins and tenant listings |
| Ordering.GetTenantsAccount | src/shared/helpers.ts:51-64 | `getTenants` issues only logins and tenant listings |
| Ordering.GetSubscriptionsAccount | src/shared/helpers.ts:66-84 | `getSubscriptions` issues only logins, tenant and subscription listings |
| Ordering.ResolveSubscriptionIdAccount | src/shared/helpers.ts:228-244 | resolving the subscription issues only account calls |
| Ordering.NoSubscriptionNoCalls | src/shared/helpers.ts:228-244 | without a stored subscription, listing or creating a group or plan and resolving either one all fail, having issued only account calls |
| Ordering.NoSubscriptionNoSiteCalls | src/shared/helpers.ts:228-244 | without a stored subscription, listing, creating or deleting a site, fetching its credentials and uploading all fail, having issued only account calls |

## Left out

- Calls into the Azure SDK, adal and Kudu are not modelled. The cloud state and a
  fault oracle stand in for them: each SDK call consumes the next code from the
  oracle, and its effect on the cloud is the documented one. Logins consume no
  code.
- Credentials.Login: the interactive login never fails and consumes no fault
  code, so a rejected device code or a failed credential write is not modelled.
- Group and plan creation are not modelled as full upserts. `Remote.AddGroup` and
  `Remote.AddPlan` keep an existing entry as it is, and do not model updates of
  its location or sku.
- Credential and settings file I/O, JSON parsing and the token cache are not
  modelled. Each is an optional value or a map, and a credential is only its
  tenant domain and a session number.
- The unbounded retry recursion is cut by `fuel`; `Diverged` marks the calls
  that would recurse further.
- Helpers.GetWebsiteCredentials: the issued credentials are a fixed function of
  the site name. A reset of a site's publishing password is not modelled.
- Commands.SetSubscription: resource groups, plans and sites form one pool that
  every subscription shares. The helpers put the resolved subscription id into
  each logged call, but what they list, create and delete does not depend on it.
  So after `subscription set` the model's later commands see the same resources,
  where the service would show the new subscription's.
- Helpers.DeployToWebsite: the uploads are fired by an unawaited `Promise.all`,
  so their order and completion are not observed. They are logged in listing
  order, and an upload failure is not modelled.
- Helpers.Transfer: directory listing failures are modelled only as the folder
  being absent from the listing.
- Naming.Relative: `path.relative` is modelled for files under the deploy root
  only. Any other file keeps its path. Normalisation of `.`, `..` and repeated
  separators is not modelled.
- Removal.SourceDeletes: the deletes of src/shared/commands.ts run concurrently
  under `Promise.all`. Only the set of names handed to `deleteWebsite` is
  modelled.
- Removal.NameLeTotal: names are compared by `char`, not by UTF-16 code unit.
  This differs only for characters outside the Basic Multilingual Plane.
- `path.resolve`, `fs.existsSync`, `randomstring` and the `readline` prompt are
  parameters: the resolved `fullPath`, the disk's existing paths, the 8-letter
  `suffix` (with `IsSuffix` as its precondition) and the operator's `answer`.
- The clipboard copy (`ncp.copy`) is not modelled; the URI is returned instead.
- Console output is not modelled: colours, the `helpers._tab` indent (undefined
  in dist/shared/helpers.js, so it prints as `undefined`), and the subscription
  list printed before "No default subscription selected".
- The list commands (tenants, subscriptions, groups, plans, sites) only print a
  helper's result, so they are not modelled separately.
- `clearCredentials` and `clearSettings` are not modelled; they only delete
  files.
- Commands.Deploy, Removal.RemoveWebsites: dist/shared/commands.js calls
  `helpers.tab()` and `helpers.untab()` (lines 88, 90, 124, 126, 128 and 130),
  which dist/shared/helpers.js does not define. As shipped, the dist
  `removeWebsites` throws a `TypeError` at line 88, before the prompt, and the
  dist `deploy` throws at line 124, before `createWebsite`. Both members model a
  helpers build that defines these two calls as output-only indentation.
- src/utility/utility.ts is not part of this model, apart from the optional
  `[likeName]` of the remove command, which makes the name of `removeWebsites`
  optional. Its argument parsing is left out.
- src/debug/go.ts is not part of this model.
- src/shared/bll.ts contributes only the shapes of the `Bll` datatypes.

## Findings

| source | as written | input that shows it | evidently intended | confidence | as-written member | corrected member |
|---|---|---|---|---|---|---|
| src/shared/commands.ts:69-72 (also dist/shared/commands.js:58-61) | `setPlan(name)` writes the key `resourceGroupName` | `plan set MyPlan` with no plan stored: the next deploy still resolves `PostHastePlan`, and groups are now resolved as `MyPlan` | write the key `planName`, which `resolvePlanName` reads | high (not executed) | Commands.SetPlanMissesPlan | Commands.SetPlanIntendedSteers |
| src/shared/commands.ts:91 (with src/utility/utility.ts:161-170, where `[likeName]` is optional) | without a name, `s.name.startsWith(name)` compares against the string `"undefined"` | a listing with the single site `app-abcdefgh` and no name: nothing is selected | with no name every site is a candidate, as dist/shared/commands.js:81-83 does | medium (not executed) | Removal.SourceCandidatesWithoutName | Removal.Candidates |
