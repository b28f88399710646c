/**
 * `removeWebsites(name)` of dist/shared/commands.js and src/shared/commands.ts:
 * the removal candidates, the order they are shown in, the confirmation gate
 * and the deletes.
 */
module Removal {
  import opened Wrappers
  import opened Bll
  import opened Remote
  import opened Naming
  import opened Helpers

  /** `s.startsWith(prefix)` */
  predicate StartsWith(s: string, prefix: string) {
    prefix <= s
  }

  /** The sites whose name starts with `prefix`, in listing order. */
  function WithPrefix(sites: seq<Website>, prefix: string): (r: seq<Website>)
    ensures forall s :: s in r <==> s in sites && StartsWith(s.name, prefix)
    ensures |r| <= |sites|
  {
    if sites == [] then []
    else (if StartsWith(sites[0].name, prefix) then [sites[0]] else []) + WithPrefix(sites[1..], prefix)
  }

  /** Filtering keeps the listing order: the candidates are a subsequence of the listing. */
  lemma {:induction false} WithPrefixKeepsOrder(sites: seq<Website>, prefix: string)
    ensures IsSubsequence(WithPrefix(sites, prefix), sites)
  {
    if sites != [] {
      WithPrefixKeepsOrder(sites[1..], prefix);
      var r := WithPrefix(sites, prefix);
      var rest := WithPrefix(sites[1..], prefix);
      if StartsWith(sites[0].name, prefix) {
        assert r[0] == sites[0] && r[1..] == rest;
      } else {
        assert r == rest;
        if r != [] {
          assert r[0] in r;
        }
      }
    }
  }

  predicate IsSubsequence<T(==)>(a: seq<T>, b: seq<T>)
    decreases |b|
  {
    a == [] || (b != [] && (if a[0] == b[0] then IsSubsequence(a[1..], b[1..]) else IsSubsequence(a, b[1..])))
  }

  /** The candidates of dist/shared/commands.js: every site when no name is given
      (`!name`), else the sites whose name starts with it. */
  function Candidates(sites: seq<Website>, name: Option<string>): (r: seq<Website>)
    ensures !Truthy(name) ==> r == sites
    ensures Truthy(name) ==> forall s :: s in r <==> s in sites && StartsWith(s.name, name.value)
  {
    if !Truthy(name) then sites else WithPrefix(sites, name.value)
  }

  /** What `startsWith` receives when the name is `undefined`: the string `"undefined"`. */
  function JsString(v: Option<string>): string {
    if v.Some? then v.value else "undefined"
  }

  /** The candidates of src/shared/commands.ts: the name is used as a prefix even when
      it is missing, so a call without a name matches only names starting with "undefined". */
  function SourceCandidates(sites: seq<Website>, name: Option<string>): (r: seq<Website>)
    ensures forall s :: s in r <==> s in sites && StartsWith(s.name, JsString(name))
  {
    WithPrefix(sites, JsString(name))
  }

  /** Without a name, the source version selects nothing from a listing with no
      "undefined..." site, where the command's description promises every site. */
  lemma SourceCandidatesWithoutName()
    ensures var sites := [Website("app-abcdefgh", DefaultGroup, DefaultLocation, DefaultPlan)];
            SourceCandidates(sites, None) == [] && Candidates(sites, None) == sites
  {
    var sites := [Website("app-abcdefgh", DefaultGroup, DefaultLocation, DefaultPlan)];
    assert !StartsWith(sites[0].name, "undefined") by {
      assert sites[0].name[0] != "undefined"[0];
    }
    assert WithPrefix(sites, "undefined") == [] + WithPrefix([], "undefined");
  }

  /** With a name, both versions select the same sites. */
  lemma CandidatesAgreeWithName(sites: seq<Website>, name: string)
    requires name != ""
    ensures SourceCandidates(sites, Some(name)) == Candidates(sites, Some(name))
  {
  }

  /** JavaScript `<=` on strings: lexicographic by character. */
  predicate NameLe(a: string, b: string)
    decreases |a|
  {
    a == [] || (b != [] && (a[0] < b[0] || (a[0] == b[0] && NameLe(a[1..], b[1..]))))
  }

  lemma {:induction false} NameLeTotal(a: string, b: string)
    ensures NameLe(a, b) || NameLe(b, a)
    decreases |a|
  {
    if a != [] && b != [] && a[0] == b[0] {
      NameLeTotal(a[1..], b[1..]);
    }
  }

  lemma {:induction false} NameLeTrans(a: string, b: string, c: string)
    requires NameLe(a, b) && NameLe(b, c)
    ensures NameLe(a, c)
    decreases |a|
  {
    if a != [] && b != [] && c != [] && a[0] == b[0] && b[0] == c[0] {
      NameLeTrans(a[1..], b[1..], c[1..]);
    }
  }

  predicate SortedByName(ss: seq<Website>) {
    forall i, j | 0 <= i < j < |ss| :: NameLe(ss[i].name, ss[j].name)
  }

  /** Place a site before the first site whose name is not smaller, so that it precedes
      the sites of equal name. */
  function Insert(s: Website, ss: seq<Website>): (r: seq<Website>)
    requires SortedByName(ss)
    ensures SortedByName(r)
    ensures multiset(r) == multiset(ss) + multiset{s}
  {
    if ss == [] then [s]
    else if NameLe(s.name, ss[0].name) then
      InsertFrontSorted(s, ss);
      [s] + ss
    else
      var rest := Insert(s, ss[1..]);
      assert multiset(ss) == multiset{ss[0]} + multiset(ss[1..]) by {
        assert ss == [ss[0]] + ss[1..];
      }
      InsertedAfterHead(s, ss, rest);
      PrependSorted(ss[0], rest);
      [ss[0]] + rest
  }

  /** What `Insert` places after the head of `ss` is never smaller than that head. */
  lemma InsertedAfterHead(s: Website, ss: seq<Website>, rest: seq<Website>)
    requires SortedByName(ss) && ss != []
    requires !NameLe(s.name, ss[0].name)
    requires multiset(rest) == multiset(ss[1..]) + multiset{s}
    ensures forall x | x in rest :: NameLe(ss[0].name, x.name)
  {
    NameLeTotal(s.name, ss[0].name);
    forall x | x in rest ensures NameLe(ss[0].name, x.name) {
      assert x in multiset(rest);
      if x != s {
        assert x in multiset(ss[1..]);
        var k :| 1 <= k < |ss| && ss[k] == x by {
          assert x in ss[1..];
        }
      }
    }
  }

  lemma PrependSorted(h: Website, rest: seq<Website>)
    requires SortedByName(rest) && forall x | x in rest :: NameLe(h.name, x.name)
    ensures SortedByName([h] + rest)
  {
    forall i, j | 0 <= i < j < |rest| + 1
      ensures NameLe(([h] + rest)[i].name, ([h] + rest)[j].name)
    {
      assert ([h] + rest)[j] == rest[j - 1];
      if i > 0 {
        assert ([h] + rest)[i] == rest[i - 1];
      }
    }
  }

  lemma InsertFrontSorted(s: Website, ss: seq<Website>)
    requires SortedByName(ss) && ss != [] && NameLe(s.name, ss[0].name)
    ensures SortedByName([s] + ss)
  {
    forall j | 1 <= j < |ss| + 1
      ensures NameLe(s.name, ([s] + ss)[j].name)
    {
      if j > 1 {
        NameLeTrans(s.name, ss[0].name, ss[j - 1].name);
      }
    }
  }

  lemma {:induction false} NameLeRefl(a: string)
    ensures NameLe(a, a)
    decreases |a|
  {
    if a != [] {
      NameLeRefl(a[1..]);
    }
  }

  /** The sites named `n`, in their order. */
  function Named(ss: seq<Website>, n: string): (r: seq<Website>)
    ensures forall x :: x in r <==> x in ss && x.name == n
  {
    if ss == [] then []
    else (if ss[0].name == n then [ss[0]] else []) + Named(ss[1..], n)
  }

  /** Inserting a site puts it in front of every site of the same name. */
  lemma {:induction false} InsertNamed(s: Website, ss: seq<Website>, n: string)
    requires SortedByName(ss)
    ensures Named(Insert(s, ss), n) == (if s.name == n then [s] else []) + Named(ss, n)
    decreases |ss|
  {
    if ss != [] && !NameLe(s.name, ss[0].name) {
      assert SortedByName(ss[1..]);
      var rest := Insert(s, ss[1..]);
      var r := [ss[0]] + rest;
      assert Insert(s, ss) == r;
      assert r[1..] == rest;
      InsertNamed(s, ss[1..], n);
      NameLeRefl(s.name);
      assert !(s.name == n && ss[0].name == n);
    }
  }

  /** `orderBy` is stable: the sites of any one name keep their listing order. */
  lemma {:induction false} OrderByNameStable(ss: seq<Website>, n: string)
    ensures Named(OrderByName(ss), n) == Named(ss, n)
  {
    if ss != [] {
      OrderByNameStable(ss[1..], n);
      InsertNamed(ss[0], OrderByName(ss[1..]), n);
    }
  }

  /** `_(sites).orderBy(s => s.name)`: the sites in ascending name order. */
  function OrderByName(ss: seq<Website>): (r: seq<Website>)
    ensures SortedByName(r)
    ensures multiset(r) == multiset(ss)
  {
    if ss == [] then []
    else
      assert ss == [ss[0]] + ss[1..];
      Insert(ss[0], OrderByName(ss[1..]))
  }

  /** `result !== 'Y'` takes no action: only the exact answer `Y` confirms. */
  predicate Confirmed(answer: string) {
    answer == "Y"
  }

  function Names(ss: seq<Website>): (r: seq<string>)
    ensures |r| == |ss| && forall i | 0 <= i < |ss| :: r[i] == ss[i].name
  {
    if ss == [] then [] else [ss[0].name] + Names(ss[1..])
  }

  /** The sequential deletes of `for (let s of sites) await helpers.deleteWebsite(s.name)`:
      each name in turn, stopping at the first failure. */
  function DeleteInTurn(w: World, names: seq<string>, fuel: nat): (res: Step<()>)
    decreases |names|
  {
    if names == [] then Step(Ok(()), w)
    else
      var first := DeleteWebsite(w, names[0], fuel);
      if !first.out.Ok? then first
      else DeleteInTurn(first.world, names[1..], fuel)
  }

  /** Deleting in turn only deletes the listed names, provisions at most the target group,
      and on success leaves none of them in the target group. */
  lemma {:induction false} DeleteInTurnRemovesAll(w: World, names: seq<string>, fuel: nat)
    ensures var res := DeleteInTurn(w, names, fuel);
            && Evolves(w, res.world)
            && Within(w, res.world, Scope({GroupTarget(w)}, {}, {}, set n | n in names, {}))
            && GroupsStep(w, res.world, GroupTarget(w))
            && res.world.cloud == w.cloud.(groups := res.world.cloud.groups, sites := res.world.cloud.sites)
            && (forall x | x in res.world.cloud.sites :: x in w.cloud.sites)
            && (res.out.Ok? ==> forall n | n in names :: !HasSite(res.world.cloud.sites, GroupTarget(w), n))
    decreases |names|
  {
    var sc := Scope({GroupTarget(w)}, {}, {}, set n | n in names, {});
    if names != [] {
      var first := DeleteWebsite(w, names[0], fuel);
      WithinWiden(w, first.world, Scope({GroupTarget(w)}, {}, {}, {names[0]}, {}), sc);
      if first.out.Ok? {
        DeleteInTurnRemovesAll(first.world, names[1..], fuel);
        var res := DeleteInTurn(first.world, names[1..], fuel);
        TargetsStable(w, first.world);
        WithinWiden(first.world, res.world, Scope({GroupTarget(first.world)}, {}, {}, set n | n in names[1..], {}), sc);
        EvolvesTrans(w, first.world, res.world);
        WithinTrans(w, first.world, res.world, sc);
        GroupsStepTrans(w, first.world, res.world, GroupTarget(w));
        assert forall n | n in names :: n == names[0] || n in names[1..];
      }
    }
  }

  /**
   * `removeWebsites(name)` of dist/shared/commands.js, with the operator's
   * `answer` given: list the sites (failures propagate), select the candidates,
   * and, only when the answer is exactly `Y`, delete them one after another in
   * listing order.
   */
  method RemoveWebsites(w0: World, name: Option<string>, answer: string, fuel: nat)
    returns (res: Step<()>, shown: seq<Website>)
    ensures var listed := GetWebsites(w0, fuel);
            && (!listed.out.Ok? ==> res == Step(Forward(listed.out), listed.world) && shown == [])
            && (listed.out.Ok? ==>
                  var candidates := Candidates(listed.out.value, name);
                  && shown == OrderByName(candidates)
                  && (!Confirmed(answer) ==> res == Step(Ok(()), listed.world))
                  && (Confirmed(answer) ==> res == DeleteInTurn(listed.world, Names(candidates), fuel)))
  {
    var listed := GetWebsites(w0, fuel);
    if !listed.out.Ok? {
      return Step(Forward(listed.out), listed.world), [];
    }
    var sites := Candidates(listed.out.value, name);
    shown := OrderByName(sites);
    if !Confirmed(answer) {
      return Step(Ok(()), listed.world), shown;
    }
    var names := Names(sites);
    var w := listed.world;
    var i := 0;
    while i < |names|
      invariant 0 <= i <= |names|
      invariant DeleteInTurn(listed.world, names, fuel) == DeleteInTurn(w, names[i..], fuel)
    {
      var step := DeleteWebsite(w, names[i], fuel);
      assert names[i..][1..] == names[i + 1..];
      if !step.out.Ok? {
        return step, shown;
      }
      w := step.world;
      i := i + 1;
    }
    res := Step(Ok(()), w);
  }

  /** Confirmed removal leaves no candidate in the target group and touches no other site. */
  lemma RemovalRemovesCandidates(w0: World, name: Option<string>, fuel: nat)
    requires GetWebsites(w0, fuel).out.Ok?
    ensures var listed := GetWebsites(w0, fuel);
            var candidates := Candidates(listed.out.value, name);
            var res := DeleteInTurn(listed.world, Names(candidates), fuel);
            && (forall x | x in res.world.cloud.sites :: x in w0.cloud.sites)
            && (res.out.Ok? ==> forall s | s in candidates :: !HasSite(res.world.cloud.sites, GroupTarget(w0), s.name))
  {
    var listed := GetWebsites(w0, fuel);
    var candidates := Candidates(listed.out.value, name);
    DeleteInTurnRemovesAll(listed.world, Names(candidates), fuel);
    TargetsStable(w0, listed.world);
    forall s | s in candidates ensures s.name in Names(candidates) {
      var k :| 0 <= k < |candidates| && candidates[k] == s;
      assert Names(candidates)[k] == s.name;
    }
  }

  /** The names of the sites deleted by a stretch of calls, in call order. */
  function DeletedNames(log: seq<Call>): seq<string> {
    if log == [] then []
    else (if log[0].SitesDelete? then [log[0].name] else []) + DeletedNames(log[1..])
  }

  lemma {:induction false} DeletedNamesAppend(a: seq<Call>, b: seq<Call>)
    ensures DeletedNames(a + b) == DeletedNames(a) + DeletedNames(b)
  {
    if a != [] {
      DeletedNamesAppend(a[1..], b);
      var head := if a[0].SitesDelete? then [a[0].name] else [];
      assert (a + b)[0] == a[0] && (a + b)[1..] == a[1..] + b;
      assert DeletedNames(a + b) == head + DeletedNames(a[1..] + b);
      assert DeletedNames(a) == head + DeletedNames(a[1..]);
    } else {
      assert a + b == b;
    }
  }

  /** A stretch whose scope allows no delete issues none. */
  lemma {:induction false} NoDeletesOutsideScope(log: seq<Call>, sc: Scope)
    requires sc.deletes == {}
    requires forall i | 0 <= i < |log| :: Permits(sc, log[i])
    ensures DeletedNames(log) == []
  {
    if log != [] {
      assert Permits(sc, log[0]);
      NoDeletesOutsideScope(log[1..], sc);
    }
  }

  /** The calls issued between two worlds. */
  function Issued(w: World, w': World): seq<Call>
    requires w.log <= w'.log
  {
    w'.log[|w.log|..]
  }

  lemma NoDeletesIssued(w: World, w': World, sc: Scope)
    requires w.log <= w'.log && sc.deletes == {} && Within(w, w', sc)
    ensures DeletedNames(Issued(w, w')) == []
  {
    var log := Issued(w, w');
    forall i | 0 <= i < |log| ensures Permits(sc, log[i]) {
      assert log[i] == w'.log[|w.log| + i];
    }
    NoDeletesOutsideScope(log, sc);
  }

  lemma IssuedTrans(a: World, b: World, c: World)
    requires a.log <= b.log <= c.log
    ensures Issued(a, c) == Issued(a, b) + Issued(b, c)
  {
  }

  /** With no faults, a successful `deleteWebsite(name)` issues exactly one delete, of `name`. */
  lemma DeleteWebsiteDeletesOnce(w: World, name: string, fuel: nat)
    requires w.faults == [] && DeleteWebsite(w, name, fuel).out.Ok?
    ensures DeletedNames(Issued(w, DeleteWebsite(w, name, fuel).world)) == [name]
  {
    var sub := ResolveSubscriptionId(w, fuel);
    var attempt := DropSite(sub.world, sub.out.value, name, fuel);
    var group := ResolveGroupName(sub.world, fuel);
    var call := SitesDelete(sub.out.value, group.out.value, name);
    var w2 := Invoke(group.world, call).1;
    assert w2.log == group.world.log + [call];
    NoDeletesIssued(w, sub.world, ReadOnly);
    NoDeletesIssued(sub.world, group.world, Scope({GroupTarget(sub.world)}, {}, {}, {}, {}));
    IssuedTrans(w, sub.world, group.world);
    assert Issued(group.world, w2) == [call];
    IssuedTrans(w, group.world, w2);
    DeletedNamesAppend(Issued(w, sub.world), Issued(sub.world, group.world));
    DeletedNamesAppend(Issued(w, group.world), [call]);
    assert DeletedNames([call]) == [name];
  }

  /** A successful sequential removal is a successful first delete followed by the rest. */
  lemma DeleteInTurnUnfold(w: World, names: seq<string>, fuel: nat)
    requires names != [] && w.faults == [] && DeleteInTurn(w, names, fuel).out.Ok?
    ensures var first := DeleteWebsite(w, names[0], fuel);
            && first.out.Ok? && first.world.faults == [] && w.log <= first.world.log
            && DeleteInTurn(first.world, names[1..], fuel) == DeleteInTurn(w, names, fuel)
  {
  }

  /** With no faults, a successful sequential removal deletes each name once, in order. */
  lemma {:induction false} DeleteInTurnInOrder(w: World, names: seq<string>, fuel: nat)
    requires w.faults == [] && DeleteInTurn(w, names, fuel).out.Ok?
    ensures var last := DeleteInTurn(w, names, fuel).world;
            w.log <= last.log && DeletedNames(Issued(w, last)) == names
    decreases |names|
  {
    if names != [] {
      var mid := DeleteWebsite(w, names[0], fuel).world;
      DeleteInTurnUnfold(w, names, fuel);
      var last := DeleteInTurn(mid, names[1..], fuel).world;
      assert last == DeleteInTurn(w, names, fuel).world;
      DeleteWebsiteDeletesOnce(w, names[0], fuel);
      DeleteInTurnInOrder(mid, names[1..], fuel);
      IssuedTrans(w, mid, last);
      DeletedNamesAppend(Issued(w, mid), Issued(mid, last));
      assert names == [names[0]] + names[1..];
    }
  }

  /** The deletes of src/shared/commands.ts run concurrently (`Promise.all`); only the set of
      names handed to `deleteWebsite` is modelled. */
  function SourceDeletes(sites: seq<Website>, name: Option<string>, answer: string): (r: set<string>)
    ensures !Confirmed(answer) ==> r == {}
    ensures Confirmed(answer) ==> forall n :: n in r <==> exists s | s in sites :: s.name == n && StartsWith(n, JsString(name))
  {
    if Confirmed(answer) then set s | s in SourceCandidates(sites, name) :: s.name else {}
  }
}
