/**
 * The world the helpers act on: the credential cache, the settings store, the
 * cloud's resources, the local disk, an oracle of injected API failures, and
 * a log of every remote call and interactive login in the order they happen.
 * The cloud SDK clients are foreign code; this module is their abstract model.
 */
module Remote {
  import opened Wrappers
  import opened Bll
  import Settings
  import Credentials

  /** What an operation may throw: a coded cloud error, the resolver's own error, or the
      TypeError of reading `tenantId` from the first element of an empty tenant list. */
  datatype Error = ApiError(code: string) | NoDefaultSubscription | MissingTenant

  /** `err.code`: only cloud errors carry a code. */
  function Code(e: Error): Option<string> {
    if e.ApiError? then Some(e.code) else None
  }

  /** An operation's result: a value, a thrown error, or recursion beyond the fuel bound. */
  datatype Outcome<+T> = Ok(value: T) | Thrown(error: Error) | Diverged

  /** Passes a failure on under another result type. */
  function Forward<T, U>(o: Outcome<T>): (r: Outcome<U>)
    requires !o.Ok?
    ensures r.Thrown? <==> o.Thrown?
    ensures r.Thrown? ==> r.error == o.error
  {
    if o.Thrown? then Thrown(o.error) else Diverged
  }

  /** The calls that leave the process, as they are issued. */
  datatype Call =
    | InteractiveLogin(domain: Option<string>)
    | TenantsList
    | SubscriptionsList
    | GroupsList(subscriptionId: string)
    | GroupsCreateOrUpdate(subscriptionId: string, name: string, location: string)
    | ServerFarmsList(subscriptionId: string, group: string)
    | ServerFarmsCreateOrUpdate(subscriptionId: string, group: string, name: string, location: string, sku: Sku)
    | SitesList(subscriptionId: string, group: string)
    | SitesCreateOrUpdate(subscriptionId: string, group: string, name: string, location: string, serverFarmId: string)
    | SitesListPublishingCredentials(subscriptionId: string, group: string, name: string)
    | SitesDelete(subscriptionId: string, group: string, name: string)
    | VfsUpload(site: string, userName: string, password: string, localFile: string, target: string)

  /** The cloud's resources as the listing calls return them. Which subscriptions a
      listing shows depends on the directory the token was issued for: `None` is the
      account's home directory, `Some(t)` the tenant `t`. `profile` gives the publishing
      credentials the service issues to a site of each name: a site's host name
      `<name>.azurewebsites.net` is global, so its name alone decides them, and a site has
      them exactly while it exists. */
  datatype Cloud = Cloud(
    tenants: seq<Tenant>,
    subscriptions: map<Option<string>, seq<Subscription>>,
    groups: seq<ResourceGroup>,
    plans: seq<Plan>,
    sites: seq<Website>,
    profile: string -> PublishingCredentials)

  /** The local file system: which paths exist and what a recursive listing of a directory yields. */
  datatype Disk = Disk(existing: set<string>, listing: map<string, seq<string>>)

  datatype World = World(
    cred: Credentials.CredState,
    settings: Settings.SettingsState,
    cloud: Cloud,
    disk: Disk,
    faults: seq<Option<string>>,
    log: seq<Call>)

  /** The subscriptions a token for `domain` can see; a directory not in the map shows none. */
  function SubscriptionsIn(c: Cloud, domain: Option<string>): seq<Subscription> {
    if domain in c.subscriptions then c.subscriptions[domain] else []
  }

  /** What `subscriptions.list` shows under the in-memory credential. */
  function Visible(w: World): seq<Subscription> {
    if w.cred.current.Some? then SubscriptionsIn(w.cloud, w.cred.current.value.domain) else []
  }

  /** A result together with the world after the operation. */
  datatype Step<+T> = Step(out: Outcome<T>, world: World)

  /**
   * Issues one cloud API call: it is logged, and the next entry of the fault
   * oracle (if any) decides whether it fails and with which code.
   */
  function Invoke(w: World, c: Call): (r: (Option<string>, World))
    ensures r.1 == w.(log := w.log + [c], faults := r.1.faults)
    ensures w.faults == [] ==> r.0 == None && r.1.faults == []
  {
    var w1 := w.(log := w.log + [c]);
    if w.faults == [] then (None, w1) else (w.faults[0], w1.(faults := w.faults[1..]))
  }

  predicate HasGroup(gs: seq<ResourceGroup>, name: string) {
    exists g | g in gs :: g.name == name
  }

  /** `createOrUpdate` of a resource group: a new name is appended to the listing. */
  function AddGroup(gs: seq<ResourceGroup>, g: ResourceGroup): (r: seq<ResourceGroup>)
    ensures HasGroup(r, g.name)
    ensures forall n :: HasGroup(gs, n) ==> HasGroup(r, n)
    ensures HasGroup(gs, g.name) ==> r == gs
  {
    if HasGroup(gs, g.name) then gs
    else
      assert (gs + [g])[|gs|].name == g.name;
      assert forall i | 0 <= i < |gs| :: (gs + [g])[i] == gs[i];
      gs + [g]
  }

  /** The plans `getServerFarms(group)` lists. */
  function PlansIn(ps: seq<Plan>, group: string): (r: seq<Plan>)
    ensures forall p :: p in r <==> p in ps && p.resourceGroup == group
  {
    if ps == [] then []
    else (if ps[0].resourceGroup == group then [ps[0]] else []) + PlansIn(ps[1..], group)
  }

  predicate HasPlan(ps: seq<Plan>, group: string, name: string) {
    exists p | p in ps :: p.resourceGroup == group && p.name == name
  }

  /** `createOrUpdateServerFarm`: a new (group, name) pair is appended. */
  function AddPlan(ps: seq<Plan>, p: Plan): (r: seq<Plan>)
    ensures HasPlan(r, p.resourceGroup, p.name)
    ensures forall g, n :: HasPlan(ps, g, n) ==> HasPlan(r, g, n)
    ensures HasPlan(ps, p.resourceGroup, p.name) ==> r == ps
  {
    if HasPlan(ps, p.resourceGroup, p.name) then ps
    else
      assert (ps + [p])[|ps|] == p;
      assert forall i | 0 <= i < |ps| :: (ps + [p])[i] == ps[i];
      ps + [p]
  }

  /** The sites `getSites(group)` lists, in the cloud's order. */
  function SitesIn(ss: seq<Website>, group: string): (r: seq<Website>)
    ensures forall s :: s in r <==> s in ss && s.resourceGroup == group
  {
    if ss == [] then []
    else (if ss[0].resourceGroup == group then [ss[0]] else []) + SitesIn(ss[1..], group)
  }

  predicate HasSite(ss: seq<Website>, group: string, name: string) {
    exists s | s in ss :: s.resourceGroup == group && s.name == name
  }

  /** `createOrUpdateSite`: the site with the same (group, name) is replaced by the new
      envelope where it stands; a new pair is appended. */
  function UpsertSite(ss: seq<Website>, s: Website): (r: seq<Website>)
    ensures s in r
    ensures forall x :: x in r <==> x == s || (x in ss && !(x.resourceGroup == s.resourceGroup && x.name == s.name))
    ensures !HasSite(ss, s.resourceGroup, s.name) ==> r == ss + [s]
  {
    if ss == [] then [s]
    else if ss[0].resourceGroup == s.resourceGroup && ss[0].name == s.name then
      [s] + RemoveSite(ss[1..], s.resourceGroup, s.name)
    else [ss[0]] + UpsertSite(ss[1..], s)
  }

  /** `deleteSite(group, name)`: the site is gone and nothing else is. */
  function RemoveSite(ss: seq<Website>, group: string, name: string): (r: seq<Website>)
    ensures !HasSite(r, group, name)
    ensures forall x :: x in r <==> x in ss && !(x.resourceGroup == group && x.name == name)
  {
    if ss == [] then []
    else
      var rest := RemoveSite(ss[1..], group, name);
      var r := (if ss[0].resourceGroup == group && ss[0].name == name then [] else [ss[0]]) + rest;
      assert forall i | 0 <= i < |r| :: r[i] in r;
      r
  }

  /** Deleting a site a second time changes nothing more. */
  lemma {:induction false} RemoveSiteIdempotent(ss: seq<Website>, group: string, name: string)
    ensures RemoveSite(RemoveSite(ss, group, name), group, name) == RemoveSite(ss, group, name)
  {
    if ss != [] {
      RemoveSiteIdempotent(ss[1..], group, name);
      var r := RemoveSite(ss, group, name);
      if !(ss[0].resourceGroup == group && ss[0].name == name) {
        assert r[0] == ss[0] && r[1..] == RemoveSite(ss[1..], group, name);
        assert RemoveSite(r, group, name) == [r[0]] + RemoveSite(r[1..], group, name);
      } else {
        assert r == RemoveSite(ss[1..], group, name);
      }
    }
  }

  /** Writing the same site envelope a second time changes nothing more. */
  lemma {:induction false} UpsertSiteIdempotent(ss: seq<Website>, s: Website)
    ensures UpsertSite(UpsertSite(ss, s), s) == UpsertSite(ss, s)
  {
    if ss == [] {
      assert UpsertSite([s], s) == [s] + RemoveSite([], s.resourceGroup, s.name);
    } else if ss[0].resourceGroup == s.resourceGroup && ss[0].name == s.name {
      var r := UpsertSite(ss, s);
      assert r[0] == s && r[1..] == RemoveSite(ss[1..], s.resourceGroup, s.name);
      RemoveSiteIdempotent(ss[1..], s.resourceGroup, s.name);
    } else {
      var r := UpsertSite(ss, s);
      assert r[0] == ss[0] && r[1..] == UpsertSite(ss[1..], s);
      UpsertSiteIdempotent(ss[1..], s);
    }
  }
}
