/**
 Activation of an installed build, with fetches going on beside it.
 */
module BuildActivation {
  import opened BuildCache
  import opened BuildInstall

  // ----- what a fetch does to the store -----

  predicate Fetch(p: Proc) { p.Serving? || p.Owned? || p.Searching? || p.Storing? || p.Served? }

  ghost predicate FetchOk(store: Store, p: Proc) {
    && Fetch(p)
    && (p.Served? || (RuntimeStatic(p.url) && !CoreKey(p.url)))
    && (p.Owned? || p.Storing? ==> AppCache(store, p.cache))
    && (p.Searching? ==> forall n | n in p.keys :: Selectable(n))
  }

  /** Entries are only added, and only such as may stay; the marker is left alone. */
  ghost predicate EntriesGrow(e: Entries, f: Entries) {
    && (forall u | u in e :: u in f)
    && (forall u | u in f && u !in e :: Allowed(u))
    && (MARKER in f <==> MARKER in e) && (MARKER in e ==> f[MARKER] == e[MARKER])
  }

  ghost predicate FetchGrows(s: Store, t: Store) {
    && (forall d | d in s.objs ::
          && d in t.objs && t.objs[d].birth == s.objs[d].birth
          && EntriesGrow(s.objs[d].entries, t.objs[d].entries)
          && (!AppName(s.objs[d].birth) ==> t.objs[d] == s.objs[d]))
    && (forall n | n in s.names :: n in t.names && t.names[n] == s.names[n])
  }

  ghost predicate BirthsKept(s: Store, t: Store) {
    forall d | d in s.objs :: d in t.objs && t.objs[d].birth == s.objs[d].birth
  }

  lemma AppNames(b: BuildId)
    ensures AppName(CacheName(b))
  {
  }

  lemma SelectableIsApp(n: Name)
    requires Selectable(n)
    ensures AppName(n)
  {
  }

  lemma OpenGrows(store: Store, n: Name, id: nat)
    requires NamesLinked(store) && id !in store.objs
    ensures var t := Open(store, n, id);
            && NamesLinked(t) && FetchGrows(store, t) && n in t.names && Holds(t, t.names[n], n)
            && forall m | m in t.names && m !in store.names :: m == n
  {
  }

  lemma OpeningGrows(store: Store, p: Proc, ch: Choice)
    requires NamesLinked(store) && FetchOk(store, p) && p.Serving? && ServingStep(store, p, ch).Went?
    ensures var went := ServingStep(store, p, ch);
            NamesLinked(went.store) && FetchOk(went.store, went.proc) && FetchGrows(store, went.store)
  {
    AppNames(p.b);
    OpenGrows(store, CacheName(p.b), ch.id);
  }

  lemma SearchingGrows(store: Store, p: Proc, ch: Choice)
    requires NamesLinked(store) && FetchOk(store, p) && p.Searching? && ServingStep(store, p, ch).Went?
    ensures var went := ServingStep(store, p, ch);
            NamesLinked(went.store) && FetchOk(went.store, went.proc) && FetchGrows(store, went.store)
  {
    SelectableIsApp(ch.name);
    OpenGrows(store, ch.name, ch.id);
  }

  lemma PutGrows(e: Entries, u: Url, r: Resp)
    requires RuntimeStatic(u)
    ensures EntriesGrow(e, e[u := r])
  {
    MarkerIsNoAsset();
  }

  lemma GrowItself(e: Entries)
    ensures EntriesGrow(e, e)
  {
  }

  lemma StoringGrows(store: Store, p: Proc, ch: Choice)
    requires NamesLinked(store) && FetchOk(store, p) && p.Storing? && ServingStep(store, p, ch).Went?
    ensures var went := ServingStep(store, p, ch);
            && NamesLinked(went.store) && FetchOk(went.store, went.proc) && FetchGrows(store, went.store)
            && went.store.names == store.names
  {
    PutGrows(store.objs[p.cache].entries, p.url, ch.resp);
    forall d | d in store.objs
      ensures EntriesGrow(store.objs[d].entries, store.objs[d].entries)
    {
      GrowItself(store.objs[d].entries);
    }
  }

  lemma SettlingGrows(store: Store, p: Proc, ch: Choice)
    requires NamesLinked(store) && FetchOk(store, p) && p.Owned? && ServingStep(store, p, ch).Went?
    ensures var went := ServingStep(store, p, ch);
            FetchOk(went.store, went.proc) && FetchGrows(store, went.store) && went.store == store
  {
    forall d | d in store.objs
      ensures EntriesGrow(store.objs[d].entries, store.objs[d].entries)
    {
      GrowItself(store.objs[d].entries);
    }
  }

  /** A fetch only ever adds to the store. */
  lemma FetchStepGrows(store: Store, p: Proc, ch: Choice)
    requires NamesLinked(store) && FetchOk(store, p) && ServingStep(store, p, ch).Went?
    ensures var went := ServingStep(store, p, ch);
            NamesLinked(went.store) && FetchOk(went.store, went.proc) && FetchGrows(store, went.store)
  {
    if p.Serving? {
      OpeningGrows(store, p, ch);
    } else if p.Owned? {
      SettlingGrows(store, p, ch);
    } else if p.Searching? {
      SearchingGrows(store, p, ch);
    } else {
      StoringGrows(store, p, ch);
    }
  }

  lemma CompleteGrows(s: Store, t: Store, n: Name, b: BuildId)
    requires CompleteUnder(s, n, b) && FetchGrows(s, t)
    ensures CompleteUnder(t, n, b)
  {
  }

  lemma FetchOkStable(s: Store, t: Store, p: Proc)
    requires FetchOk(s, p) && BirthsKept(s, t)
    ensures FetchOk(t, p)
  {
  }

  // ----- the activation itself -----

  ghost predicate OnlyApp(store: Store, b: BuildId) {
    forall n | n in store.names && AppName(n) :: n == CacheName(b)
  }

  /** The caches of other apps are as they were. */
  ghost predicate OthersAlone(start: Store, store: Store) {
    && (forall n | !AppName(n) :: n in start.names <==> n in store.names)
    && (forall n | !AppName(n) && n in start.names :: start.names[n] == store.names[n])
    && (forall d | d in start.objs && !AppName(start.objs[d].birth) ::
          d in store.objs && store.objs[d] == start.objs[d])
  }

  /** The build is complete in cache `c`. */
  ghost predicate BuildOk(start: Store, store: Store, b: BuildId, c: nat) {
    && NamesLinked(store) && OthersAlone(start, store)
    && CompleteUnder(store, CacheName(b), b) && store.names[CacheName(b)] == c
  }

  /** How far the activation of `b` has come. */
  ghost predicate ActivationInv(start: Store, store: Store, p: Proc, b: BuildId, c: nat) {
    && BuildOk(start, store, b, c) && ActivationPhase(p) && p.b == b
    && match p
       case Activating(_) => true
       case Evict(_, gone) =>
         && (forall n | n in store.names && AppName(n) :: n in gone || n == CacheName(b))
         && (forall n | n in gone :: AppName(n) && n != CacheName(b))
       case ListKept(_, d) => d == c && OnlyApp(store, b)
       case Scrub(_, d, todo) =>
         && d == c && OnlyApp(store, b)
         && (forall u | u in store.objs[c].entries && !Allowed(u) :: u in todo)
         && (forall u | u in todo :: !Allowed(u))
       case Activated(_) =>
         && OnlyApp(store, b)
         && forall u | u in store.objs[c].entries :: Allowed(u)
       case _ => true
  }

  lemma DropKeepsComplete(store: Store, c: nat, u: Url, b: BuildId)
    requires c in store.objs && Complete(store.objs[c].entries, b) && !Allowed(u)
    ensures Complete(Drop(store, c, u).objs[c].entries, b)
  {
    var e, e' := store.objs[c].entries, Drop(store, c, u).objs[c].entries;
    forall v | Vital(v) && v in e
      ensures v in e'
    {
      VitalIsAllowed(v);
    }
  }

  lemma EvictStep(start: Store, store: Store, p: Proc, b: BuildId, c: nat, ch: Choice)
    requires ActivationInv(start, store, p, b, c) && p.Evict? && ActivationStep(store, p, ch).Went?
    ensures var went := ActivationStep(store, p, ch);
            ActivationInv(start, went.store, went.proc, b, c) && BirthsKept(store, went.store)
  {
    if p.gone != {} {
      var t := ActivationStep(store, p, ch).store;
      assert t.objs == store.objs && CacheName(b) in t.names;
    }
  }

  lemma ScrubStep(start: Store, store: Store, p: Proc, b: BuildId, c: nat, ch: Choice)
    requires ActivationInv(start, store, p, b, c) && p.Scrub? && ActivationStep(store, p, ch).Went?
    ensures var went := ActivationStep(store, p, ch);
            ActivationInv(start, went.store, went.proc, b, c) && BirthsKept(store, went.store)
  {
    AppNames(b);
    if p.todo != {} {
      DropKeepsComplete(store, c, ch.url, b);
    }
  }

  lemma ActivationAdvances(start: Store, store: Store, p: Proc, b: BuildId, c: nat, ch: Choice)
    requires ActivationInv(start, store, p, b, c) && ActivationStep(store, p, ch).Went?
    ensures var went := ActivationStep(store, p, ch);
            ActivationInv(start, went.store, went.proc, b, c) && BirthsKept(store, went.store)
  {
    if p.Scrub? {
      ScrubStep(start, store, p, b, c, ch);
    } else if p.Evict? {
      EvictStep(start, store, p, b, c, ch);
    }
  }

  /** Growth by fetches disturbs no phase, as long as no name is linked. */
  lemma PhaseGrows(start: Store, s: Store, t: Store, p: Proc, b: BuildId, c: nat)
    requires ActivationInv(start, s, p, b, c) && FetchGrows(s, t) && NamesLinked(t) && t.names == s.names
    ensures ActivationInv(start, t, p, b, c)
  {
    CompleteGrows(s, t, CacheName(b), b);
  }

  // ----- the activation among fetches -----

  predicate Over(p: Proc) { p.Installed? || p.Activated? }

  /** A fetch of one of the given builds that, if it has opened its cache already, holds the one of that name
      now; or one that has found its cache. */
  predicate Welcome(store: Store, p: Proc, fetchers: set<BuildId>) {
    || p.Storing? || p.Served?
    || (p.Serving? && p.b in fetchers)
    || (p.Owned? && p.b in fetchers && CacheName(p.b) in store.names && p.cache == store.names[CacheName(p.b)])
  }

  /** Beside process `a` there are only such fetches, and what is over. */
  ghost predicate Calm(s: Sys, a: nat, fetchers: set<BuildId>) {
    forall pid | pid in s.procs && pid != a ::
      Over(s.procs[pid]) || (FetchOk(s.store, s.procs[pid]) && Welcome(s.store, s.procs[pid], fetchers))
  }

  ghost predicate OnlyFetches(events: seq<Event>, fetchers: set<BuildId>) {
    forall e | e in events && e.Start? :: e.proc.Serving? && e.proc.b in fetchers
  }

  /** Process `a` is the activation, or, once it was cut off, no longer there or a fetch like the others. */
  ghost predicate AmongFetches(start: Store, s: Sys, a: nat, b: BuildId, c: nat) {
    && BuildOk(start, s.store, b, c) && Calm(s, a, {b})
    && (a in s.procs ==> OwnOk(start, s.store, s.procs[a], b, c))
  }

  ghost predicate OwnOk(start: Store, store: Store, p: Proc, b: BuildId, c: nat) {
    ActivationInv(start, store, p, b, c) || (FetchOk(store, p) && Welcome(store, p, {b}))
  }

  /** A fetch of the complete build settles on the build's cache, and links no name. */
  lemma FetchBeside(start: Store, store: Store, p: Proc, ch: Choice, b: BuildId, c: nat)
    requires BuildOk(start, store, b, c) && FetchOk(store, p) && Welcome(store, p, {b})
    requires ServingStep(store, p, ch).Went?
    ensures var went := ServingStep(store, p, ch);
            && BuildOk(start, went.store, b, c) && FetchOk(went.store, went.proc) && Welcome(went.store, went.proc, {b})
            && FetchGrows(store, went.store) && went.store.names == store.names
  {
    FetchStepGrows(store, p, ch);
    CompleteGrows(store, ServingStep(store, p, ch).store, CacheName(b), b);
  }

  /** A fetch in hand stays one as long as caches keep their identity and the build its cache. */
  lemma WelcomeStable(s: Store, t: Store, p: Proc, b: BuildId)
    requires FetchOk(s, p) && Welcome(s, p, {b}) && BirthsKept(s, t)
    requires CacheName(b) in s.names && CacheName(b) in t.names && s.names[CacheName(b)] == t.names[CacheName(b)]
    ensures FetchOk(t, p) && Welcome(t, p, {b})
  {
    FetchOkStable(s, t, p);
  }

  lemma CalmStable(s: Sys, t: Store, a: nat, b: BuildId)
    requires Calm(s, a, {b}) && BirthsKept(s.store, t)
    requires CacheName(b) in s.store.names && CacheName(b) in t.names
    requires s.store.names[CacheName(b)] == t.names[CacheName(b)]
    ensures Calm(Sys(t, s.procs), a, {b})
  {
    forall pid | pid in s.procs && pid != a && !Over(s.procs[pid])
      ensures FetchOk(t, s.procs[pid]) && Welcome(t, s.procs[pid], {b})
    {
      WelcomeStable(s.store, t, s.procs[pid], b);
    }
  }

  lemma CalmUpdate(s: Sys, a: nat, pid: nat, q: Proc, fetchers: set<BuildId>)
    requires Calm(s, a, fetchers) && (pid == a || (FetchOk(s.store, q) && Welcome(s.store, q, fetchers)))
    ensures Calm(Sys(s.store, s.procs[pid := q]), a, fetchers)
  {
  }

  lemma ActivationMoves(start: Store, s: Sys, a: nat, ch: Choice, b: BuildId, c: nat)
    requires Calm(s, a, {b}) && a in s.procs && ActivationInv(start, s.store, s.procs[a], b, c)
    requires ActivationStep(s.store, s.procs[a], ch).Went?
    ensures var went := ActivationStep(s.store, s.procs[a], ch);
            AmongFetches(start, Sys(went.store, s.procs[a := went.proc]), a, b, c)
  {
    var went := ActivationStep(s.store, s.procs[a], ch);
    ActivationAdvances(start, s.store, s.procs[a], b, c, ch);
    CalmStable(s, went.store, a, b);
    CalmUpdate(Sys(went.store, s.procs), a, a, went.proc, {b});
  }

  lemma OverIsStuck(store: Store, p: Proc, ch: Choice)
    requires Over(p)
    ensures Advance(store, p, ch).Stuck?
  {
  }

  lemma FetchAdvances(store: Store, p: Proc, ch: Choice)
    requires Fetch(p)
    ensures Advance(store, p, ch) == ServingStep(store, p, ch)
  {
  }

  lemma PhaseAdvances(store: Store, p: Proc, ch: Choice)
    requires ActivationPhase(p)
    ensures Advance(store, p, ch) == ActivationStep(store, p, ch)
  {
  }

  /** Process `a` does not notice a store that fetches have added to. */
  lemma OwnUnmoved(start: Store, s: Store, t: Store, p: Proc, b: BuildId, c: nat)
    requires BuildOk(start, s, b, c) && FetchGrows(s, t) && NamesLinked(t) && t.names == s.names
    requires OwnOk(start, s, p, b, c)
    ensures OwnOk(start, t, p, b, c)
  {
    if ActivationInv(start, s, p, b, c) {
      PhaseGrows(start, s, t, p, b, c);
    } else {
      WelcomeStable(s, t, p, b);
    }
  }

  /** What a fetch leaves of the other processes. */
  lemma FetchLeavesCalm(start: Store, s: Sys, a: nat, pid: nat, ch: Choice, b: BuildId, c: nat)
    requires BuildOk(start, s.store, b, c) && Calm(s, a, {b}) && pid in s.procs
    requires FetchOk(s.store, s.procs[pid]) && Welcome(s.store, s.procs[pid], {b})
    requires ServingStep(s.store, s.procs[pid], ch).Went?
    ensures var went := ServingStep(s.store, s.procs[pid], ch);
            && BuildOk(start, went.store, b, c) && FetchOk(went.store, went.proc) && Welcome(went.store, went.proc, {b})
            && FetchGrows(s.store, went.store) && went.store.names == s.store.names
            && Calm(Sys(went.store, s.procs[pid := went.proc]), a, {b})
  {
    var went := ServingStep(s.store, s.procs[pid], ch);
    FetchBeside(start, s.store, s.procs[pid], ch, b, c);
    CalmStable(s, went.store, a, b);
    CalmUpdate(Sys(went.store, s.procs), a, pid, went.proc, {b});
  }

  lemma FetchMoves(start: Store, s: Sys, a: nat, pid: nat, ch: Choice, b: BuildId, c: nat)
    requires AmongFetches(start, s, a, b, c) && pid in s.procs
    requires FetchOk(s.store, s.procs[pid]) && Welcome(s.store, s.procs[pid], {b})
    requires ServingStep(s.store, s.procs[pid], ch).Went?
    ensures var went := ServingStep(s.store, s.procs[pid], ch);
            AmongFetches(start, Sys(went.store, s.procs[pid := went.proc]), a, b, c)
  {
    FetchLeavesCalm(start, s, a, pid, ch, b, c);
    if a in s.procs && a != pid {
      OwnUnmoved(start, s.store, ServingStep(s.store, s.procs[pid], ch).store, s.procs[a], b, c);
    }
  }

  lemma EventAmongFetches(builds: set<BuildId>, start: Store, s: Sys, e: Event, a: nat, b: BuildId, c: nat)
    requires AmongFetches(start, s, a, b, c) && Can(builds, s, e)
    requires e.Start? ==> e.proc.Serving? && e.proc.b == b
    ensures AmongFetches(start, Do(builds, s, e), a, b, c)
  {
    if e.Step? {
      var p := s.procs[e.pid];
      if e.pid == a && ActivationPhase(p) {
        PhaseAdvances(s.store, p, e.choice);
        ActivationMoves(start, s, a, e.choice, b, c);
      } else if Over(p) {
        OverIsStuck(s.store, p, e.choice);
      } else {
        FetchAdvances(s.store, p, e.choice);
        FetchMoves(start, s, a, e.pid, e.choice, b, c);
      }
    }
  }

  /** Wherever the activation of a complete build stands, with fetches of that build beside it: the build is
      complete, the phase is as far as it says, and other apps' caches are as they were. */
  lemma {:induction false} ActivationCleans(builds: set<BuildId>, start: Store, s: Sys, events: seq<Event>, t: Sys,
                                            a: nat, b: BuildId, c: nat)
    requires AmongFetches(start, s, a, b, c) && Run(builds, s, events, t) && OnlyFetches(events, {b})
    ensures AmongFetches(start, t, a, b, c)
    decreases |events|
  {
    if events != [] {
      EventAmongFetches(builds, start, s, events[0], a, b, c);
      ActivationCleans(builds, start, Do(builds, s, events[0]), events[1..], t, a, b, c);
    }
  }

  /** The activation of a complete build begins. */
  ghost predicate Begins(s: Sys, a: nat, b: BuildId, fetchers: set<BuildId>) {
    && NamesLinked(s.store) && CompleteUnder(s.store, CacheName(b), b)
    && a in s.procs && s.procs[a] == Activating(b) && Calm(s, a, fetchers)
  }

  /** The build's cache is complete, the only app cache, and holds allowed entries only; other apps' caches
      are as they were. */
  ghost predicate Cleaned(start: Store, store: Store, b: BuildId) {
    && CompleteUnder(store, CacheName(b), b) && OnlyApp(store, b) && OthersAlone(start, store)
    && forall u | u in store.objs[store.names[CacheName(b)]].entries :: Allowed(u)
  }

  lemma ActivatedIsCleaned(start: Store, store: Store, b: BuildId, c: nat)
    requires ActivationInv(start, store, Activated(b), b, c)
    ensures Cleaned(start, store, b)
  {
  }

  lemma ActivationResult(builds: set<BuildId>, s: Sys, events: seq<Event>, t: Sys, a: nat, b: BuildId)
    requires Begins(s, a, b, {b}) && Run(builds, s, events, t) && OnlyFetches(events, {b})
    requires a in t.procs && t.procs[a] == Activated(b)
    ensures Cleaned(s.store, t.store, b)
  {
    var c := s.store.names[CacheName(b)];
    ActivationCleans(builds, s.store, s, events, t, a, b, c);
    ActivatedIsCleaned(s.store, t.store, b, c);
  }

  lemma FetchInvOk(builds: set<BuildId>, store: Store, p: Proc)
    requires Fetch(p) && ProcInv(builds, store, p)
    ensures FetchOk(store, p)
  {
  }

  /** In a state that any run can reach, it is enough to look at which processes there are. */
  lemma ReachableBegins(builds: set<BuildId>, s: Sys, a: nat, b: BuildId, fetchers: set<BuildId>)
    requires NoAlias(builds) && Reachable(builds, s) && CompleteUnder(s.store, CacheName(b), b)
    requires a in s.procs && s.procs[a] == Activating(b)
    requires forall pid | pid in s.procs && pid != a :: Over(s.procs[pid]) || Welcome(s.store, s.procs[pid], fetchers)
    ensures Begins(s, a, b, fetchers)
  {
    ReachableInv(builds, s);
    forall pid | pid in s.procs && Fetch(s.procs[pid])
      ensures FetchOk(s.store, s.procs[pid])
    {
      FetchInvOk(builds, s.store, s.procs[pid]);
    }
  }
}
