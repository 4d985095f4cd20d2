/**
 Installing and then activating a build while pages go on fetching: when exactly its cache is
 left as the only one.
 */
module BuildHandover {
  import opened BuildCache
  import opened BuildInstall
  import opened BuildActivation

  // ----- a fetch of another build -----

  /** A song, which is no core asset. */
  const SONG := Local("audio/x.mp3", "")

  predicate Au(path: string) { |path| > 1 && path[0] == 'a' && path[1] == 'u' }

  lemma RequiredNotAu(path: string)
    requires path in REQUIRED_PATHS + WASM_PATHS
    ensures !Au(path)
  {
  }

  lemma OptionalNotAu(path: string)
    requires path in OPTIONAL_PATHS
    ensures !Au(path)
  {
  }

  lemma SongIsStatic()
    ensures RuntimeStatic(SONG)
  {
    var p := SONG.path;
    assert p[..6] == "audio/" && p[6..] == "x.mp3";
    assert p[|p| - 4..] == ".mp3";
  }

  lemma SongIsNoCore()
    ensures !CoreKey(SONG)
  {
    assert Au(SONG.path);
    if SONG.path in REQUIRED_PATHS + WASM_PATHS {
      RequiredNotAu(SONG.path);
    } else if SONG.path in OPTIONAL_PATHS {
      OptionalNotAu(SONG.path);
    }
  }

  function PhasesLeft(p: Proc): nat {
    if p.Activating? then 3 else if p.Evict? then 2 else if p.ListKept? then 1 else 0
  }

  function Left(p: Proc): nat { if p.Evict? then |p.gone| else if p.Scrub? then |p.todo| else 0 }

  lemma ActivationGoesOn(store: Store, p: Proc, b: BuildId, c: nat) returns (ch: Choice)
    requires ActivationPhase(p) && p.b == b && !p.Activated? && p != Scrub(b, c, {}) && c in store.objs
    requires p.ListKept? || p.Scrub? ==> p.cache == c
    ensures var went := ActivationStep(store, p, ch);
            && went.Went?
            && (PhasesLeft(went.proc) < PhasesLeft(p)
                || (PhasesLeft(went.proc) == PhasesLeft(p) && Left(went.proc) < Left(p)))
            && !went.proc.Activated?
  {
    var id := FreshId(store.objs.Keys);
    ch := Choice(MARKER, Asset(""), true, id, "");
    if p.Evict? && p.gone != {} {
      var n :| n in p.gone;
      ch := ch.(name := n);
    } else if p.Scrub? {
      var u :| u in p.todo;
      ch := ch.(url := u);
    }
  }

  /** Left alone, an activation comes to where nothing is left to scrub. */
  lemma {:induction false} ScrubsAll(start: Store, store: Store, p: Proc, b: BuildId, c: nat)
    returns (choices: seq<Choice>, t: Store)
    requires ActivationInv(start, store, p, b, c) && !p.Activated?
    ensures Solo(store, p, choices, t, Scrub(b, c, {})) && ActivationInv(start, t, Scrub(b, c, {}), b, c)
    decreases PhasesLeft(p), Left(p)
  {
    if p == Scrub(b, c, {}) {
      return [], store;
    }
    var ch := ActivationGoesOn(store, p, b, c);
    var went := ActivationStep(store, p, ch);
    ActivationAdvances(start, store, p, b, c, ch);
    choices, t := ScrubsAll(start, went.store, went.proc, b, c);
    PhaseAdvances(store, p, ch);
    SoloStep(store, p, ch, choices, t, Scrub(b, c, {}));
    choices := [ch] + choices;
  }

  // ----- the state to begin from -----

  lemma SanitizesToDev(b: BuildId)
    ensures Sanitize(b) == DEV_BUILD <==> b == DEV_BUILD
  {
    assert Sanitize(DEV_BUILD) == DEV_BUILD;
    if Sanitize(b) == DEV_BUILD {
      assert |b| == 3 && forall i | 0 <= i < 3 :: b[i] == Sanitize(b)[i];
    }
  }

  lemma DevApart(builds: set<BuildId>, b: BuildId)
    requires Installable(builds, b)
    ensures CacheName(b) != CacheName(DEV_BUILD)
  {
    SanitizesToDev(b);
    SanitizesToDev(DEV_BUILD);
    assert CacheName(b)[|CACHE_PREFIX|..] == Sanitize(b);
    assert CacheName(DEV_BUILD)[|CACHE_PREFIX|..] == DEV_BUILD;
  }

  function Pages(store: Store, b: BuildId, o: BuildId): Sys {
    Sys(store, map[0 := Installed(b), 1 := Activating(b), 2 := Serving(o, SONG)])
  }

  /** A dev install leaves its cache behind. */
  lemma DevLeftBehind(builds: set<BuildId>, store: Store, b: BuildId, id: nat) returns (events: seq<Event>)
    requires id !in store.objs
    ensures Run(builds, Sys(store, map[0 := Installed(b)]), events,
                Sys(Open(store, CacheName(DEV_BUILD), id), map[0 := Installed(b)]))
  {
    var s0 := Sys(store, map[0 := Installed(b)]);
    var e1, e2, e3 := Start(3, DevOpen), Step(3, Choice(MARKER, Asset(""), true, id, "")), Cut(3);
    var s1 := Do(builds, s0, e1);
    var s2 := Do(builds, s1, e2);
    var s3 := Do(builds, s2, e3);
    assert s3.procs == map[0 := Installed(b)];
    events := [e1, e2, e3];
    assert events[1..] == [e2, e3] && [e2, e3][1..] == [e3] && [e3][1..] == [];
    assert Run(builds, s2, [e3], s3);
    assert Run(builds, s1, [e2, e3], s3);
  }

  lemma PagesStart(builds: set<BuildId>, store: Store, b: BuildId, o: BuildId) returns (events: seq<Event>)
    ensures Run(builds, Sys(store, map[0 := Installed(b)]), events, Pages(store, b, o))
  {
    SongIsStatic();
    SongIsNoCore();
    var s0 := Sys(store, map[0 := Installed(b)]);
    var e1, e2 := Start(1, Activating(b)), Start(2, Serving(o, SONG));
    var s1 := Do(builds, s0, e1);
    var s2 := Do(builds, s1, e2);
    assert s2 == Pages(store, b, o);
    events := [e1, e2];
    assert events[1..] == [e2] && [e2][1..] == [];
    assert Run(builds, s1, [e2], s2);
  }

  lemma PagesBegin(store: Store, b: BuildId, o: BuildId)
    requires NamesLinked(store) && CompleteUnder(store, CacheName(b), b)
    ensures Begins(Pages(store, b, o), 1, b, {o})
  {
    SongIsStatic();
    SongIsNoCore();
  }

  /** Build `b` is installed, beside a dev cache. */
  lemma InstalledBesideDev(builds: set<BuildId>, b: BuildId) returns (events: seq<Event>, store: Store)
    requires Installable(builds, b)
    ensures Run(builds, NOTHING_YET, events, Sys(store, map[0 := Installed(b)]))
    ensures NamesLinked(store) && CompleteUnder(store, CacheName(b), b) && CacheName(DEV_BUILD) in store.names
  {
    var e1, installed := VictimInstalled(builds, b);
    var id := FreshId(installed.objs.Keys);
    store := Open(installed, CacheName(DEV_BUILD), id);
    OpenGrows(installed, CacheName(DEV_BUILD), id);
    CompleteGrows(installed, store, CacheName(b), b);
    var e2 := DevLeftBehind(builds, installed, b, id);
    RunCat(builds, NOTHING_YET, e1, Sys(installed, map[0 := Installed(b)]), e2, Sys(store, map[0 := Installed(b)]));
    events := e1 + e2;
  }

  /** It is about to be activated while a page of build `o` fetches. */
  lemma PagesReached(builds: set<BuildId>, b: BuildId, o: BuildId) returns (store: Store)
    requires Installable(builds, b)
    ensures Reachable(builds, Pages(store, b, o)) && Begins(Pages(store, b, o), 1, b, {o})
    ensures CacheName(DEV_BUILD) in store.names
  {
    var e1;
    e1, store := InstalledBesideDev(builds, b);
    PagesBegin(store, b, o);
    var e2 := PagesStart(builds, store, b, o);
    RunCat(builds, NOTHING_YET, e1, Sys(store, map[0 := Installed(b)]), e2, Pages(store, b, o));
    assert Initial(NOTHING_YET);
  }

  // ----- two ways for an evicted cache to come back -----

  /** The activation runs until all is evicted and scrubbed. */
  lemma RunsToScrubbed(builds: set<BuildId>, s: Sys, b: BuildId) returns (events: seq<Event>, m: Sys, c: nat)
    requires NamesLinked(s.store) && CompleteUnder(s.store, CacheName(b), b)
    requires 1 in s.procs && s.procs[1] == Activating(b)
    ensures Run(builds, s, events, m) && forall e | e in events :: e.Step?
    ensures OnlyApp(m.store, b) && m.procs == s.procs[1 := Scrub(b, c, {})]
  {
    c := s.store.names[CacheName(b)];
    var choices, clean := ScrubsAll(s.store, s.store, Activating(b), b, c);
    events := SoloIsRun(builds, s, 1, choices, clean, Scrub(b, c, {}));
    m := Sys(clean, s.procs[1 := Scrub(b, c, {})]);
  }

  /** A fetch links a name once more, and then the activation ends. */
  lemma LinkedLast(builds: set<BuildId>, m: Sys, b: BuildId, c: nat, ch: Choice, n: Name)
    returns (events: seq<Event>, t: Sys)
    requires 1 in m.procs && m.procs[1] == Scrub(b, c, {}) && 2 in m.procs && Fetch(m.procs[2])
    requires ServingStep(m.store, m.procs[2], ch).Went?
    requires n in ServingStep(m.store, m.procs[2], ch).store.names && AppName(n) && n != CacheName(b)
    ensures Run(builds, m, events, t) && forall e | e in events :: e.Step?
    ensures 1 in t.procs && t.procs[1] == Activated(b) && !OnlyApp(t.store, b)
  {
    var f1, f2 := Step(2, ch), Step(1, ch);
    FetchAdvances(m.store, m.procs[2], ch);
    var m1 := Do(builds, m, f1);
    PhaseAdvances(m1.store, m1.procs[1], ch);
    t := Do(builds, m1, f2);
    events := [f1, f2];
    assert events[1..] == [f2] && [f2][1..] == [];
    assert Run(builds, m1, [f2], t);
  }

  /** A page of a build with another cache name opens that cache again after its eviction. */
  lemma FetchReopens(builds: set<BuildId>, store: Store, b: BuildId, o: BuildId) returns (events: seq<Event>, t: Sys)
    requires NamesLinked(store) && CompleteUnder(store, CacheName(b), b) && CacheName(o) != CacheName(b)
    ensures Run(builds, Pages(store, b, o), events, t) && forall e | e in events :: e.Step?
    ensures 1 in t.procs && t.procs[1] == Activated(b) && !OnlyApp(t.store, b)
  {
    var s := Pages(store, b, o);
    var e1, m, c := RunsToScrubbed(builds, s, b);
    var id := FreshId(m.store.objs.Keys);
    AppNames(o);
    var e2;
    e2, t := LinkedLast(builds, m, b, c, Choice(MARKER, Asset(""), true, id, ""), CacheName(o));
    RunCat(builds, s, e1, m, e2, t);
    events := e1 + e2;
  }

  /** Another build with the same cache name does not count this cache as its own; it has listed the dev cache
      by the time that is evicted. */
  lemma BeginsToSearch(builds: set<BuildId>, store: Store, b: BuildId, o: BuildId) returns (events: seq<Event>, m: Sys)
    requires CompleteUnder(store, CacheName(b), b) && CacheName(o) == CacheName(b) && o != b && o != DEV_BUILD
    ensures Run(builds, Pages(store, b, o), events, m) && forall e | e in events :: e.Step?
    ensures m == Sys(store, Pages(store, b, o).procs[2 := Searching(SONG, set n | n in store.names && Selectable(n))])
  {
    var s := Pages(store, b, o);
    var id := FreshId(store.objs.Keys);
    var e := Step(2, Choice(MARKER, Asset(""), true, id, ""));
    FetchAdvances(store, s.procs[2], e.choice);
    var m1 := Do(builds, s, e);
    FetchAdvances(store, m1.procs[2], e.choice);
    m := Do(builds, m1, e);
    events := [e, e];
    assert events[1..] == [e] && [e][1..] == [];
    assert Run(builds, m1, [e], m);
  }

  lemma DevSelectable()
    ensures Selectable(CacheName(DEV_BUILD))
  {
    SelectableExactly(DEV_BUILD);
    assert Sanitize(DEV_BUILD) == DEV_BUILD;
  }

  lemma SearchLinks(store: Store, url: Url, keys: set<Name>, n: Name, id: nat)
    requires n in keys && Selectable(n) && id !in store.objs
    ensures var went := ServingStep(store, Searching(url, keys), Choice(MARKER, Asset(""), true, id, n));
            went.Went? && n in went.store.names
  {
  }

  lemma SearchReopens(builds: set<BuildId>, store: Store, b: BuildId, o: BuildId) returns (events: seq<Event>, t: Sys)
    requires Installable(builds, b) && NamesLinked(store) && CompleteUnder(store, CacheName(b), b)
    requires CacheName(o) == CacheName(b) && o != b && CacheName(DEV_BUILD) in store.names
    ensures Run(builds, Pages(store, b, o), events, t) && forall e | e in events :: e.Step?
    ensures 1 in t.procs && t.procs[1] == Activated(b) && !OnlyApp(t.store, b)
  {
    DevApart(builds, b);
    DevSelectable();
    AppNames(DEV_BUILD);
    var e1, m1 := BeginsToSearch(builds, store, b, o);
    var e2, m2, c := RunsToScrubbed(builds, m1, b);
    var id := FreshId(m2.store.objs.Keys);
    var ch := Choice(MARKER, Asset(""), true, id, CacheName(DEV_BUILD));
    SearchLinks(m2.store, SONG, m2.procs[2].keys, CacheName(DEV_BUILD), id);
    var e3;
    e3, t := LinkedLast(builds, m2, b, c, ch, CacheName(DEV_BUILD));
    RunCat(builds, m1, e2, m2, e3, t);
    RunCat(builds, Pages(store, b, o), e1, m1, e2 + e3, t);
    events := e1 + (e2 + e3);
  }

  /** Whichever other build a page fetches for while `b`, just installed, is activated: there is a run after
      which the build's cache is not the only one. */
  lemma OthersReopen(builds: set<BuildId>, b: BuildId, o: BuildId) returns (s: Sys, events: seq<Event>, t: Sys)
    requires Installable(builds, b) && o != b
    ensures Reachable(builds, s) && Begins(s, 1, b, {o})
    ensures Run(builds, s, events, t) && OnlyFetches(events, {o})
    ensures 1 in t.procs && t.procs[1] == Activated(b) && !OnlyApp(t.store, b)
  {
    var store := PagesReached(builds, b, o);
    s := Pages(store, b, o);
    if CacheName(o) == CacheName(b) {
      events, t := SearchReopens(builds, store, b, o);
    } else {
      events, t := FetchReopens(builds, store, b, o);
    }
  }

  /** Whatever fetches of the given builds go on meanwhile, an activation that ends has cleaned up. */
  ghost predicate AlwaysCleans(builds: set<BuildId>, b: BuildId, fetchers: set<BuildId>) {
    forall s, events, t, a |
      && Begins(s, a, b, fetchers) && Run(builds, s, events, t) && OnlyFetches(events, fetchers)
      && a in t.procs && t.procs[a] == Activated(b) ::
      Cleaned(s.store, t.store, b)
  }

  lemma CalmMore(s: Sys, a: nat, few: set<BuildId>, more: set<BuildId>)
    requires Calm(s, a, few) && few <= more
    ensures Calm(s, a, more)
  {
  }

  lemma CleansBesideItself(builds: set<BuildId>, b: BuildId, fetchers: set<BuildId>)
    requires fetchers <= {b}
    ensures AlwaysCleans(builds, b, fetchers)
  {
    forall s, events, t, a |
      && Begins(s, a, b, fetchers) && Run(builds, s, events, t) && OnlyFetches(events, fetchers)
      && a in t.procs && t.procs[a] == Activated(b)
      ensures Cleaned(s.store, t.store, b)
    {
      CalmMore(s, a, fetchers, {b});
      ActivationResult(builds, s, events, t, a, b);
    }
  }

  lemma FailsBesideOthers(builds: set<BuildId>, b: BuildId, fetchers: set<BuildId>)
    requires Installable(builds, b) && !(fetchers <= {b})
    ensures !AlwaysCleans(builds, b, fetchers)
  {
    var o :| o in fetchers && o != b;
    var s, events, t := OthersReopen(builds, b, o);
    CalmMore(s, 1, {o}, fetchers);
    assert OnlyFetches(events, fetchers);
    assert !Cleaned(s.store, t.store, b);
  }

  /** An activation cleans up for certain exactly if no other build fetches meanwhile. */
  lemma ActivationExactly(builds: set<BuildId>, b: BuildId, fetchers: set<BuildId>)
    requires Installable(builds, b)
    ensures AlwaysCleans(builds, b, fetchers) <==> fetchers <= {b}
  {
    if fetchers <= {b} {
      CleansBesideItself(builds, b, fetchers);
    } else {
      FailsBesideOthers(builds, b, fetchers);
    }
  }

  // ----- install among fetches, then activation -----

  /** Beside process `i` there are only fetches, of whatever builds, and what is over. */
  ghost predicate FetchesBeside(s: Sys, i: nat) {
    forall pid | pid in s.procs && pid != i :: Over(s.procs[pid]) || FetchOk(s.store, s.procs[pid])
  }

  /** Process `i` is the install of `b`, or, once it was cut off, no longer there or a fetch like the others. */
  ghost predicate InstallAmongFetches(s: Sys, i: nat, b: BuildId) {
    && NamesLinked(s.store) && FetchesBeside(s, i)
    && (i in s.procs ==> Completing(s.store, s.procs[i], b) || FetchOk(s.store, s.procs[i]))
  }

  lemma CompletingGrows(s: Store, t: Store, p: Proc, b: BuildId)
    requires Completing(s, p, b) && FetchGrows(s, t) && NamesLinked(t)
    ensures Completing(t, p, b)
  {
    if p.Installed? {
      CompleteGrows(s, t, CacheName(b), b);
    }
  }

  lemma FetchesStable(s: Sys, t: Store, i: nat)
    requires FetchesBeside(s, i) && BirthsKept(s.store, t)
    ensures FetchesBeside(Sys(t, s.procs), i)
  {
    forall pid | pid in s.procs && pid != i && !Over(s.procs[pid])
      ensures FetchOk(t, s.procs[pid])
    {
      FetchOkStable(s.store, t, s.procs[pid]);
    }
  }

  lemma InstallMoves(s: Sys, i: nat, ch: Choice, b: BuildId)
    requires InstallAmongFetches(s, i, b) && i in s.procs && Installing(s.procs[i])
    requires Advance(s.store, s.procs[i], ch).Went?
    ensures var went := Advance(s.store, s.procs[i], ch);
            InstallAmongFetches(Sys(went.store, s.procs[i := went.proc]), i, b)
  {
    var went := Advance(s.store, s.procs[i], ch);
    StepCompletes(s.store, s.procs[i], b, ch);
    InstallStepIsolated(s.store, s.procs[i], b, ch);
    FetchesStable(s, went.store, i);
  }

  lemma FetchMovesBesideInstall(s: Sys, i: nat, pid: nat, ch: Choice, b: BuildId)
    requires InstallAmongFetches(s, i, b) && pid in s.procs && FetchOk(s.store, s.procs[pid])
    requires ServingStep(s.store, s.procs[pid], ch).Went?
    ensures var went := ServingStep(s.store, s.procs[pid], ch);
            InstallAmongFetches(Sys(went.store, s.procs[pid := went.proc]), i, b)
  {
    var went := ServingStep(s.store, s.procs[pid], ch);
    FetchStepGrows(s.store, s.procs[pid], ch);
    FetchesStable(s, went.store, i);
    if i in s.procs && i != pid {
      if Completing(s.store, s.procs[i], b) {
        CompletingGrows(s.store, went.store, s.procs[i], b);
      } else {
        FetchOkStable(s.store, went.store, s.procs[i]);
      }
    }
  }

  ghost predicate FetchesOnly(events: seq<Event>) { forall e | e in events && e.Start? :: e.proc.Serving? }

  lemma EventBesideInstall(builds: set<BuildId>, s: Sys, e: Event, i: nat, b: BuildId)
    requires InstallAmongFetches(s, i, b) && Can(builds, s, e) && (e.Start? ==> e.proc.Serving?)
    ensures InstallAmongFetches(Do(builds, s, e), i, b)
  {
    if e.Step? {
      var p := s.procs[e.pid];
      if Over(p) {
        OverIsStuck(s.store, p, e.choice);
      } else if Fetch(p) {
        FetchAdvances(s.store, p, e.choice);
        FetchMovesBesideInstall(s, i, e.pid, e.choice, b);
      } else {
        InstallMoves(s, i, e.choice, b);
      }
    }
  }

  lemma {:induction false} InstallRun(builds: set<BuildId>, s: Sys, events: seq<Event>, t: Sys, i: nat, b: BuildId)
    requires InstallAmongFetches(s, i, b) && Run(builds, s, events, t) && FetchesOnly(events)
    ensures InstallAmongFetches(t, i, b)
    decreases |events|
  {
    if events != [] {
      EventBesideInstall(builds, s, events[0], i, b);
      InstallRun(builds, Do(builds, s, events[0]), events[1..], t, i, b);
    }
  }

  /** Whatever fetches of whatever builds go on meanwhile, an install that finishes leaves its build complete. */
  lemma InstallAmongFetchesCompletes(builds: set<BuildId>, s: Sys, events: seq<Event>, t: Sys, i: nat, b: BuildId)
    requires NamesLinked(s.store) && FetchesBeside(s, i) && i in s.procs && s.procs[i] == Fetching(b)
    requires Run(builds, s, events, t) && FetchesOnly(events)
    requires i in t.procs && t.procs[i] == Installed(b)
    ensures NamesLinked(t.store) && CompleteUnder(t.store, CacheName(b), b)
  {
    InstallRun(builds, s, events, t, i, b);
  }

  /** Install with fetches of any builds beside it, then activate with fetches of the build beside it. */
  lemma InstallThenActivate(builds: set<BuildId>, s: Sys, installing: seq<Event>, mid: Sys, i: nat,
                            activating: seq<Event>, t: Sys, a: nat, b: BuildId)
    requires NamesLinked(s.store) && FetchesBeside(s, i) && i in s.procs && s.procs[i] == Fetching(b)
    requires Run(builds, s, installing, mid) && FetchesOnly(installing)
    requires i in mid.procs && mid.procs[i] == Installed(b) && a !in mid.procs
    requires Calm(mid, a, {b}) && OnlyFetches(activating, {b})
    requires Run(builds, mid.(procs := mid.procs[a := Activating(b)]), activating, t)
    requires a in t.procs && t.procs[a] == Activated(b)
    ensures Cleaned(mid.store, t.store, b)
  {
    InstallAmongFetchesCompletes(builds, s, installing, mid, i, b);
    var m := mid.(procs := mid.procs[a := Activating(b)]);
    CalmUpdate(mid, a, a, Activating(b), {b});
    ActivationResult(builds, m, activating, t, a, b);
  }
}
