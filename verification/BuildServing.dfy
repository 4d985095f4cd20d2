/**
 The core entries of a build that is being served.
 */
module BuildServing {
  import opened BuildCache
  import opened BuildInstall

  // ----- the core of a served build is frozen -----

  /** The precached assets, the root document included, and the marker. */
  predicate CoreEntry(u: Url) { Precached(u) || u == MARKER }

  ghost predicate SameCore(e: Entries, f: Entries) {
    forall u | CoreEntry(u) :: (u in e <==> u in f) && (u in e ==> e[u] == f[u])
  }

  /** Build ids with caches and staging caches of their own, apart from the dev cache as well. */
  ghost predicate Apart(builds: set<BuildId>, b: BuildId) {
    && b in builds && CacheName(b) != CacheName(DEV_BUILD)
    && forall other | other in builds && other != b :: CacheName(b) !in OwnNames(other)
  }

  ghost predicate InstallsOther(p: Proc, b: BuildId) { Installing(p) ==> p.b != b }

  lemma CoreIsNotStatic(u: Url)
    requires RuntimeStatic(u) && !CoreKey(u)
    ensures !CoreEntry(u)
  {
    MarkerIsNoAsset();
    StaticIsNotRoot(u);
  }

  lemma CoreIsAllowed(u: Url)
    requires CoreEntry(u)
    ensures Allowed(u)
  {
  }

  ghost predicate Frozen(store: Store, b: BuildId, c: nat, went: Outcome) {
    && went.Went?
    && c in store.objs && Holds(went.store, c, CacheName(b))
    && SameCore(store.objs[c].entries, went.store.objs[c].entries)
    && InstallsOther(went.proc, b) && NamesLinked(went.store)
  }

  lemma InstallFreezesCore(builds: set<BuildId>, store: Store, p: Proc, ch: Choice, b: BuildId, c: nat)
    requires Apart(builds, b) && NamesLinked(store) && ProcInv(builds, store, p)
    requires Installing(p) && p.b != b && Holds(store, c, CacheName(b)) && Advance(store, p, ch).Went?
    ensures Frozen(store, b, c, Advance(store, p, ch))
  {
    InstallStepIsolated(store, p, p.b, ch);
  }

  lemma SameCorePut(e: Entries, u: Url, r: Resp)
    requires !CoreEntry(u)
    ensures SameCore(e, e[u := r])
  {
  }

  lemma SameCoreItself(e: Entries)
    ensures SameCore(e, e)
  {
  }

  lemma StoringFreezesCore(store: Store, p: Proc, ch: Choice, b: BuildId, c: nat)
    requires NamesLinked(store) && Holds(store, c, CacheName(b))
    requires p.Storing? && RuntimeStatic(p.url) && !CoreKey(p.url) && ServingStep(store, p, ch).Went?
    ensures Frozen(store, b, c, ServingStep(store, p, ch))
  {
    CoreIsNotStatic(p.url);
    SameCorePut(store.objs[c].entries, p.url, ch.resp);
    SameCoreItself(store.objs[c].entries);
  }

  lemma DevFillFreezesCore(store: Store, p: Proc, ch: Choice, b: BuildId, c: nat)
    requires NamesLinked(store) && Holds(store, c, CacheName(b)) && CacheName(b) != CacheName(DEV_BUILD)
    requires p.DevFill? && Holds(store, p.cache, CacheName(DEV_BUILD)) && ServingStep(store, p, ch).Went?
    ensures Frozen(store, b, c, ServingStep(store, p, ch))
  {
    SameCoreItself(store.objs[c].entries);
  }

  lemma OpenLinks(store: Store, n: Name, id: nat)
    requires NamesLinked(store) && id !in store.objs
    ensures var t := Open(store, n, id);
            && NamesLinked(t) && n in t.names && Holds(t, t.names[n], n)
            && forall d | d in store.objs :: d in t.objs && t.objs[d] == store.objs[d]
  {
  }

  lemma DevOpenFreezesCore(store: Store, p: Proc, ch: Choice, b: BuildId, c: nat)
    requires NamesLinked(store) && Holds(store, c, CacheName(b))
    requires p.DevOpen? && ServingStep(store, p, ch).Went?
    ensures Frozen(store, b, c, ServingStep(store, p, ch))
  {
    OpenLinks(store, CacheName(DEV_BUILD), ch.id);
    SameCoreItself(store.objs[c].entries);
  }

  lemma OpeningFreezesCore(store: Store, p: Proc, ch: Choice, b: BuildId, c: nat)
    requires NamesLinked(store) && Holds(store, c, CacheName(b))
    requires p.Serving? && ServingStep(store, p, ch).Went?
    ensures Frozen(store, b, c, ServingStep(store, p, ch))
  {
    OpenLinks(store, CacheName(p.b), ch.id);
    SameCoreItself(store.objs[c].entries);
  }

  lemma OwnedFreezesCore(store: Store, p: Proc, ch: Choice, b: BuildId, c: nat)
    requires NamesLinked(store) && Holds(store, c, CacheName(b))
    requires p.Owned? && ServingStep(store, p, ch).Went?
    ensures Frozen(store, b, c, ServingStep(store, p, ch))
  {
    SameCoreItself(store.objs[c].entries);
  }

  lemma SearchingFreezesCore(store: Store, p: Proc, ch: Choice, b: BuildId, c: nat)
    requires NamesLinked(store) && Holds(store, c, CacheName(b))
    requires p.Searching? && ServingStep(store, p, ch).Went?
    ensures Frozen(store, b, c, ServingStep(store, p, ch))
  {
    OpenLinks(store, ch.name, ch.id);
    SameCoreItself(store.objs[c].entries);
  }

  lemma ServingFreezesCore(builds: set<BuildId>, store: Store, p: Proc, ch: Choice, b: BuildId, c: nat)
    requires Apart(builds, b) && NamesLinked(store) && ProcInv(builds, store, p)
    requires Holds(store, c, CacheName(b)) && ServingStep(store, p, ch).Went?
    ensures Frozen(store, b, c, ServingStep(store, p, ch))
  {
    if p.Storing? {
      StoringFreezesCore(store, p, ch, b, c);
    } else if p.DevFill? {
      DevFillFreezesCore(store, p, ch, b, c);
    } else if p.DevOpen? {
      DevOpenFreezesCore(store, p, ch, b, c);
    } else if p.Owned? {
      OwnedFreezesCore(store, p, ch, b, c);
    } else if p.Searching? {
      SearchingFreezesCore(store, p, ch, b, c);
    } else {
      OpeningFreezesCore(store, p, ch, b, c);
    }
  }

  lemma ActivationFreezesCore(builds: set<BuildId>, store: Store, p: Proc, ch: Choice, b: BuildId, c: nat)
    requires NamesLinked(store) && ProcInv(builds, store, p)
    requires ActivationPhase(p) && Holds(store, c, CacheName(b)) && ActivationStep(store, p, ch).Went?
    ensures Frozen(store, b, c, ActivationStep(store, p, ch))
  {
    if p.Scrub? && p.todo != {} && CoreEntry(ch.url) {
      CoreIsAllowed(ch.url);
    }
  }

  lemma StepFreezesCore(builds: set<BuildId>, store: Store, p: Proc, ch: Choice, b: BuildId, c: nat)
    requires Apart(builds, b) && NamesLinked(store) && ProcInv(builds, store, p)
    requires InstallsOther(p, b) && Holds(store, c, CacheName(b)) && Advance(store, p, ch).Went?
    ensures Frozen(store, b, c, Advance(store, p, ch))
  {
    if Installing(p) {
      InstallFreezesCore(builds, store, p, ch, b, c);
    } else if ActivationPhase(p) {
      ActivationFreezesCore(builds, store, p, ch, b, c);
    } else {
      ServingFreezesCore(builds, store, p, ch, b, c);
    }
  }

  ghost predicate NotReinstalling(s: Sys, b: BuildId) {
    forall pid | pid in s.procs :: InstallsOther(s.procs[pid], b)
  }

  lemma DoFreezesCore(builds: set<BuildId>, s: Sys, e: Event, b: BuildId, c: nat)
    requires NoAlias(builds) && Apart(builds, b) && Inv(builds, s) && NotReinstalling(s, b)
    requires Holds(s.store, c, CacheName(b)) && Can(builds, s, e)
    requires e.Start? ==> InstallsOther(e.proc, b)
    ensures var t := Do(builds, s, e);
            && Inv(builds, t) && NotReinstalling(t, b) && Holds(t.store, c, CacheName(b))
            && SameCore(s.store.objs[c].entries, t.store.objs[c].entries)
  {
    DoKeeps(builds, s, e);
    if e.Step? {
      StepFreezesCore(builds, s.store, s.procs[e.pid], e.choice, b, c);
      StepKeeps(builds, s.store, s.procs[e.pid], e.choice);
    }
  }

  lemma {:induction false} RunFreezesCore(builds: set<BuildId>, s: Sys, events: seq<Event>, t: Sys, b: BuildId, c: nat)
    requires NoAlias(builds) && Apart(builds, b) && Inv(builds, s) && NotReinstalling(s, b)
    requires Holds(s.store, c, CacheName(b)) && Run(builds, s, events, t)
    requires forall e | e in events && e.Start? :: InstallsOther(e.proc, b)
    ensures Holds(t.store, c, CacheName(b)) && SameCore(s.store.objs[c].entries, t.store.objs[c].entries)
    decreases |events|
  {
    if events != [] {
      DoFreezesCore(builds, s, events[0], b, c);
      RunFreezesCore(builds, Do(builds, s, events[0]), events[1..], t, b, c);
    }
  }

  /** From every state that can be reached: as long as the build is not installed again, no run of other
      installs, activations and fetches changes, adds or removes a core entry of its cache. */
  lemma CoreFrozen(builds: set<BuildId>, s: Sys, events: seq<Event>, t: Sys, b: BuildId, c: nat)
    requires NoAlias(builds) && Apart(builds, b) && Reachable(builds, s) && NotReinstalling(s, b)
    requires Holds(s.store, c, CacheName(b)) && Run(builds, s, events, t)
    requires forall e | e in events && e.Start? :: InstallsOther(e.proc, b)
    ensures Holds(t.store, c, CacheName(b)) && SameCore(s.store.objs[c].entries, t.store.objs[c].entries)
  {
    ReachableInv(builds, s);
    RunFreezesCore(builds, s, events, t, b, c);
  }

  /** Plain ids other than "dev" meet every condition above. */
  lemma PlainBuildsApart(builds: set<BuildId>)
    requires forall b | b in builds :: PlainId(b) && b != DEV_BUILD
    ensures NoAlias(builds) && forall b | b in builds :: Apart(builds, b)
  {
    assert PlainId(DEV_BUILD) by {
      assert Sanitize(DEV_BUILD) == DEV_BUILD;
    }
    forall b, other | b in builds && other in builds + {DEV_BUILD} && other != b
      ensures CacheName(b) !in OwnNames(other)
    {
      PlainIdsApart(other, b);
    }
    forall b | b in builds
      ensures CacheName(b) != StagingName(b)
    {
      assert |StagingName(b)| == |CacheName(b)| + |STAGING|;
    }
    forall b | b in builds
      ensures Apart(builds, b)
    {
      assert CacheName(DEV_BUILD) in OwnNames(DEV_BUILD);
    }
  }
}
