/**
 One install of the build cache on its own: what it touches, which caches a worker then
 finds, that it completes its build, and when exactly the marker comes last.
 */
module BuildInstall {
  import opened Wrappers
  import opened BuildCache

  // ----- a process on its own -----

  /** Left alone, `p` takes `store` to `t` and ends up as `q`. */
  ghost predicate Solo(store: Store, p: Proc, choices: seq<Choice>, t: Store, q: Proc)
    decreases |choices|
  {
    if choices == [] then store == t && p == q
    else
      var went := Advance(store, p, choices[0]);
      went.Went? && Solo(went.store, went.proc, choices[1..], t, q)
  }

  // ----- install isolation -----

  /** Outside the caches created under `own`, `t` is `s`. */
  ghost predicate OnlyTouches(own: set<Name>, s: Store, t: Store) {
    && (forall c | c in s.objs ::
          && c in t.objs && t.objs[c].birth == s.objs[c].birth
          && (s.objs[c].birth !in own ==> t.objs[c] == s.objs[c]))
    && (forall n | n !in own :: n in s.names <==> n in t.names)
    && (forall n | n in s.names :: n in t.names && t.names[n] == s.names[n])
  }

  predicate InstallOf(store: Store, p: Proc, b: BuildId) {
    && (Installing(p) || p.Installed?) && p.b == b
    && (p.Fetching? || p.CheckBuilt? || p.Installed? || Holds(store, p.staging, StagingName(b)))
    && ((p.DropMarker? || p.ListNew? || p.Promote? || p.Copy? || p.CheckBuilt?) ==>
          Holds(store, p.cache, CacheName(b)))
  }

  function OwnNames(b: BuildId): set<Name> { {CacheName(b), StagingName(b)} }

  ghost predicate Isolated(store: Store, b: BuildId, went: Outcome) {
    && went.Went?
    && NamesLinked(went.store) && InstallOf(went.store, went.proc, b)
    && OnlyTouches(OwnNames(b), store, went.store)
  }

  lemma OpeningStepIsolated(store: Store, p: Proc, b: BuildId, ch: Choice)
    requires NamesLinked(store) && InstallOf(store, p, b) && StagingStep(store, p, ch).Went?
    requires p.Fetching? || p.ListOld? || p.CheckStaged?
    ensures Isolated(store, b, StagingStep(store, p, ch))
  {
  }

  lemma StagingStepIsolated(store: Store, p: Proc, b: BuildId, ch: Choice)
    requires NamesLinked(store) && InstallOf(store, p, b) && StagingStep(store, p, ch).Went?
    requires p.Clear? || p.Fill? || p.Extras?
    ensures Isolated(store, b, StagingStep(store, p, ch))
  {
  }

  lemma PromotionStepIsolated(store: Store, p: Proc, b: BuildId, ch: Choice)
    requires NamesLinked(store) && InstallOf(store, p, b) && PromotionStep(store, p, ch).Went?
    requires p.DropMarker? || p.ListNew? || p.Promote? || p.Copy? || p.CheckBuilt?
    ensures Isolated(store, b, PromotionStep(store, p, ch))
  {
  }

  lemma InstallStepIsolated(store: Store, p: Proc, b: BuildId, ch: Choice)
    requires NamesLinked(store) && InstallOf(store, p, b) && Advance(store, p, ch).Went?
    ensures Isolated(store, b, Advance(store, p, ch))
  {
    if p.Fetching? || p.ListOld? || p.CheckStaged? {
      OpeningStepIsolated(store, p, b, ch);
    } else if p.Clear? || p.Fill? || p.Extras? {
      StagingStepIsolated(store, p, b, ch);
    } else {
      PromotionStepIsolated(store, p, b, ch);
    }
  }

  /** An install that finishes, throws or is cut off anywhere touches only its own two caches. */
  lemma {:induction false} InstallIsolated(store: Store, p: Proc, b: BuildId, choices: seq<Choice>, t: Store, q: Proc)
    requires NamesLinked(store) && InstallOf(store, p, b) && Solo(store, p, choices, t, q)
    ensures NamesLinked(t) && OnlyTouches(OwnNames(b), store, t)
    decreases |choices|
  {
    if choices != [] {
      InstallStepIsolated(store, p, b, choices[0]);
      var went := Advance(store, p, choices[0]);
      InstallIsolated(went.store, went.proc, b, choices[1..], t, q);
    }
  }

  /** Ids that `sanitize` leaves unchanged and that do not end in "-staging". */
  predicate PlainId(b: BuildId) { b != "" && Sanitize(b) == b && !EndsWith(b, STAGING) }

  lemma PlainIdsApart(b: BuildId, other: BuildId)
    requires PlainId(b) && PlainId(other) && b != other
    ensures CacheName(other) !in OwnNames(b)
  {
    assert CacheName(b)[|CACHE_PREFIX|..] == b;
    assert CacheName(other)[|CACHE_PREFIX|..] == other;
    assert StagingName(b)[|CACHE_PREFIX|..] == b + STAGING;
    assert (b + STAGING)[|b + STAGING| - |STAGING|..] == STAGING;
  }

  /** What a build's cache name holds after the prefix. */
  function Stem(b: BuildId): string { if Sanitize(b) == "" then DEV_BUILD else Sanitize(b) }

  /** It passes over the caches of ids whose sanitized form ends in "-staging" or is "staging" itself. */
  lemma SelectableExactly(b: BuildId)
    ensures Selectable(CacheName(b)) <==> !EndsWith(Stem(b), STAGING) && Stem(b) != "staging"
  {
    var n, stem := CacheName(b), Stem(b);
    assert n == CACHE_PREFIX + stem;
    var tail := n[|n| - |STAGING|..];
    if |stem| >= |STAGING| {
      assert tail == stem[|stem| - |STAGING|..];
    } else if |stem| == 7 {
      assert tail == "-" + stem;
      assert STAGING == "-" + "staging";
      assert tail[1..] == stem && STAGING[1..] == "staging";
    } else {
      assert tail[0] == CACHE_PREFIX[6 + |stem|] && tail[1] == n[7 + |stem|];
    }
  }

  /** findCompleteCache, over the names in the order caches.keys() lists them. */
  ghost function FindCompleteCache(store: Store, keys: seq<Name>): (r: Option<nat>)
    ensures r.None? <==> forall n | n in keys && Selectable(n) :: !CompleteUnder(store, n, n[|CACHE_PREFIX|..])
    ensures r.Some? ==> r.value in store.objs && Whole(store.objs[r.value].entries)
  {
    if keys == [] then None
    else
      assert keys == [keys[0]] + keys[1..];
      if Selectable(keys[0]) && CompleteUnder(store, keys[0], keys[0][|CACHE_PREFIX|..]) then
        Some(store.names[keys[0]])
      else FindCompleteCache(store, keys[1..])
  }

  /** ownCache of a stamped build */
  ghost function OwnCache(store: Store, keys: seq<Name>, b: BuildId): Option<nat> {
    if CompleteUnder(store, CacheName(b), b) then Some(store.names[CacheName(b)])
    else FindCompleteCache(store, keys)
  }

  /** A complete build stays complete, and its worker goes on choosing the same cache, through any other
      build's install. */
  lemma OtherBuildSurvives(store: Store, b: BuildId, choices: seq<Choice>, t: Store, q: Proc,
                           other: BuildId, keys: seq<Name>, keys': seq<Name>)
    requires NamesLinked(store) && PlainId(b) && PlainId(other) && b != other
    requires CompleteUnder(store, CacheName(other), other)
    requires Solo(store, Fetching(b), choices, t, q)
    ensures var c := store.names[CacheName(other)]; c in t.objs && t.objs[c] == store.objs[c]
    ensures CompleteUnder(t, CacheName(other), other)
    ensures OwnCache(t, keys', other) == OwnCache(store, keys, other)
  {
    InstallIsolated(store, Fetching(b), b, choices, t, q);
    PlainIdsApart(b, other);
  }

  /** The ids whose complete caches the search finds: not empty, unchanged by `sanitize`, and neither
      "staging" nor ending in "-staging". */
  predicate Findable(b: BuildId) { PlainId(b) && b != "staging" }

  /** Among the caches listed, none but that of `b` is one the search could return. */
  ghost predicate NoOtherFound(store: Store, keys: seq<Name>, b: BuildId) {
    forall n | n in keys && n != CacheName(b) && Selectable(n) :: !CompleteUnder(store, n, n[|CACHE_PREFIX|..])
  }

  /** A complete build is found exactly if its id is findable; otherwise its name is passed over, or the
      id in its marker is not the one its name spells. */
  lemma FoundExactly(store: Store, b: BuildId, keys: seq<Name>)
    requires CompleteUnder(store, CacheName(b), b) && CacheName(b) in keys && NoOtherFound(store, keys, b)
    ensures FindCompleteCache(store, keys).Some? <==> Findable(b)
  {
    SelectableExactly(b);
    assert CacheName(b)[|CACHE_PREFIX|..] == Stem(b);
    assert Sanitize(b) == "" <==> b == "";
    if b != "" && Sanitize(b) == b {
      assert Stem(b) == b;
    } else {
      assert Stem(b) != b;
      assert !CompleteUnder(store, CacheName(b), Stem(b));
    }
  }

  /** Whatever else is listed, a worker of another build can fall back on a complete build with such an id. */
  lemma CompleteIsSelectable(store: Store, b: BuildId, keys: seq<Name>)
    requires Findable(b) && CompleteUnder(store, CacheName(b), b) && CacheName(b) in keys
    ensures FindCompleteCache(store, keys).Some?
  {
    SelectableExactly(b);
    assert CacheName(b)[|CACHE_PREFIX|..] == b;
  }

  /** The two kinds of ids that are never found: "staging", and one that `sanitize` changes. */
  lemma NeverFound(store: Store, b: BuildId)
    requires b == "staging" || b == "a b"
    requires CompleteUnder(store, CacheName(b), b) && store.names.Keys == {CacheName(b)}
    ensures FindCompleteCache(store, [CacheName(b)]).None?
  {
    FoundExactly(store, b, [CacheName(b)]);
    assert Sanitize("a b")[1] == '-';
  }

  // ----- every undisturbed install that finishes is complete -----

  /** How far an undisturbed install of `b` has come towards a complete cache under the build's name. */
  ghost predicate Completing(store: Store, p: Proc, b: BuildId) {
    && NamesLinked(store) && InstallOf(store, p, b)
    && (p.Fetching? || p.Installed? || Wasm(p.wasm))
    && (p.DropMarker? || p.ListNew? || p.Promote? || p.Copy? || p.CheckBuilt? ==>
          CacheName(b) in store.names && store.names[CacheName(b)] == p.cache)
    && (p.CheckBuilt? ==> forall u | u in Wanted(p.wasm) && u !in p.todo :: u in store.objs[p.cache].entries)
    && (p.Installed? ==> CompleteUnder(store, CacheName(b), b))
  }

  lemma MarkedIsComplete(e: Entries, b: BuildId, wasm: Url)
    requires Wasm(wasm) && Wanted(wasm) <= e.Keys
    ensures Complete(e[MARKER := Manifest(b)], b)
  {
    WantedMakesWhole(e, wasm);
    assert e.Keys <= e[MARKER := Manifest(b)].Keys;
  }

  lemma PutMarker(store: Store, b: BuildId, wasm: Url, c: nat) returns (t: Store)
    requires NamesLinked(store) && Wasm(wasm) && Holds(store, c, CacheName(b))
    requires CacheName(b) in store.names && store.names[CacheName(b)] == c
    requires Wanted(wasm) <= store.objs[c].entries.Keys
    ensures t == Put(store, c, MARKER, Manifest(b)) && NamesLinked(t) && CompleteUnder(t, CacheName(b), b)
  {
    MarkedIsComplete(store.objs[c].entries, b, wasm);
    t := Put(store, c, MARKER, Manifest(b));
  }

  lemma CommitCompletes(store: Store, p: Proc, b: BuildId, ch: Choice)
    requires Completing(store, p, b) && p.CheckBuilt? && PromotionStep(store, p, ch).Went?
    ensures var went := PromotionStep(store, p, ch); Completing(went.store, went.proc, b)
  {
    if p.todo == {} {
      var t := PutMarker(store, b, p.wasm, p.cache);
    } else {
      PromotionStepIsolated(store, p, b, ch);
    }
  }

  lemma StagingCompletes(store: Store, p: Proc, b: BuildId, ch: Choice)
    requires Completing(store, p, b) && Staging(p) && StagingStep(store, p, ch).Went?
    ensures var went := StagingStep(store, p, ch); Completing(went.store, went.proc, b)
  {
    if p.Clear? || p.Fill? || p.Extras? {
      StagingStepIsolated(store, p, b, ch);
    } else {
      OpeningStepIsolated(store, p, b, ch);
    }
  }

  lemma PromotionCompletes(store: Store, p: Proc, b: BuildId, ch: Choice)
    requires Completing(store, p, b) && Promoting(p) && !p.CheckBuilt? && PromotionStep(store, p, ch).Went?
    ensures var went := PromotionStep(store, p, ch); Completing(went.store, went.proc, b)
  {
    PromotionStepIsolated(store, p, b, ch);
  }

  lemma StepCompletes(store: Store, p: Proc, b: BuildId, ch: Choice)
    requires Completing(store, p, b) && Advance(store, p, ch).Went?
    ensures var went := Advance(store, p, ch); Completing(went.store, went.proc, b)
  {
    if p.CheckBuilt? {
      CommitCompletes(store, p, b, ch);
    } else if Promoting(p) {
      PromotionCompletes(store, p, b, ch);
    } else {
      StagingCompletes(store, p, b, ch);
    }
  }

  lemma {:induction false} InstallProgress(store: Store, p: Proc, b: BuildId, choices: seq<Choice>, t: Store, q: Proc)
    requires Completing(store, p, b) && Solo(store, p, choices, t, q)
    ensures Completing(t, q, b)
    decreases |choices|
  {
    if choices != [] {
      StepCompletes(store, p, b, choices[0]);
      var went := Advance(store, p, choices[0]);
      InstallProgress(went.store, went.proc, b, choices[1..], t, q);
    }
  }

  /** Whatever the store held, whichever wasm spelling, optional assets and responses came: an install that
      nobody disturbs and that finishes leaves its build complete under its name. */
  lemma InstalledIsComplete(store: Store, b: BuildId, choices: seq<Choice>, t: Store)
    requires NamesLinked(store) && Solo(store, Fetching(b), choices, t, Installed(b))
    ensures NamesLinked(t) && CompleteUnder(t, CacheName(b), b)
  {
    InstallProgress(store, Fetching(b), b, choices, t, Installed(b));
  }

  // ----- an undisturbed install can always finish -----

  function Picking(u: Url): Choice { Choice(u, Asset(""), false, 0, "") }

  lemma FreshId(used: set<nat>) returns (id: nat)
    ensures id !in used
  {
    id := 0;
    var left := used;
    while left != {}
      invariant left <= used
      invariant forall n | n in used && n !in left :: n < id
      decreases left
    {
      var n :| n in left;
      left := left - {n};
      if n >= id {
        id := n + 1;
      }
    }
  }

  lemma SoloStep(store: Store, p: Proc, ch: Choice, choices: seq<Choice>, t: Store, q: Proc)
    requires Advance(store, p, ch).Went?
    requires var went := Advance(store, p, ch); Solo(went.store, went.proc, choices, t, q)
    ensures Solo(store, p, [ch] + choices, t, q)
  {
    assert ([ch] + choices)[1..] == choices;
  }

  /** Nothing that the rest of the install relies on is missing. */
  ghost predicate Ready(store: Store, p: Proc, b: BuildId) {
    && Completing(store, p, b)
    && match p
       case Fill(_, wasm, st, todo) => todo <= Wanted(wasm) <= store.objs[st].entries.Keys + todo
       case Extras(_, wasm, st, _) => Wanted(wasm) <= store.objs[st].entries.Keys
       case CheckStaged(_, wasm, st, todo) => todo <= Wanted(wasm) <= store.objs[st].entries.Keys
       case DropMarker(_, wasm, st, _) => Wanted(wasm) <= store.objs[st].entries.Keys
       case ListNew(_, wasm, st, _) => Wanted(wasm) <= store.objs[st].entries.Keys
       case Promote(_, wasm, st, c, todo) =>
         todo <= store.objs[st].entries.Keys && Wanted(wasm) <= store.objs[c].entries.Keys + todo
       case Copy(_, wasm, st, c, todo, url, _) =>
         todo <= store.objs[st].entries.Keys && Wanted(wasm) <= store.objs[c].entries.Keys + todo + {url}
       case CheckBuilt(_, wasm, c, todo) => todo <= Wanted(wasm) <= store.objs[c].entries.Keys
       case _ => true
  }

  /** How many phases lie ahead. */
  function Ahead(p: Proc): nat {
    match p
    case Fetching(_) => 10
    case ListOld(_, _, _) => 9
    case Clear(_, _, _, _) => 8
    case Fill(_, _, _, _) => 7
    case Extras(_, _, _, _) => 6
    case CheckStaged(_, _, _, _) => 5
    case DropMarker(_, _, _, _) => 4
    case ListNew(_, _, _, _) => 3
    case Promote(_, _, _, _, _) => 2
    case Copy(_, _, _, _, _, _, _) => 2
    case CheckBuilt(_, _, _, _) => 1
    case _ => 0
  }

  /** What is left to do in this phase. */
  function Todo(p: Proc): set<Url> {
    if p.Clear? || p.Fill? || p.Extras? || p.CheckStaged? || p.Promote? || p.Copy? || p.CheckBuilt? then p.todo else {}
  }

  predicate Nearer(p: Proc, q: Proc) {
    || Ahead(q) < Ahead(p)
    || (Ahead(q) == Ahead(p) && (Todo(q) < Todo(p) || (p.Copy? && q.Promote? && Todo(q) == Todo(p))))
  }

  /** The choice that brings a phase with something left to do one further. */
  lemma Pick(p: Proc, id: nat) returns (ch: Choice)
    ensures Todo(p) != {} ==> ch.url in Todo(p)
    ensures Todo(p) == {} ==> Wasm(ch.url)
    ensures ch.resp.Asset? && ch.id == id
  {
    var url := Local("bin/main.wasm", "");
    if Todo(p) != {} {
      url :| url in Todo(p);
    }
    ch := Choice(url, Asset(""), true, id, "");
  }

  /** Every step of a ready install leaves it ready and nearer its end, and a suitable choice makes one. */
  lemma StagingGoesOn(store: Store, p: Proc, b: BuildId, ch: Choice)
    requires Ready(store, p, b) && Staging(p)
    ensures ch.id !in store.objs && ch.resp.Asset? && (if Todo(p) == {} then Wasm(ch.url) else ch.url in Todo(p)) ==>
              StagingStep(store, p, ch).Went?
    ensures var went := StagingStep(store, p, ch);
            went.Went? ==> Ready(went.store, went.proc, b) && Nearer(p, went.proc)
  {
    if StagingStep(store, p, ch).Went? {
      StagingCompletes(store, p, b, ch);
    }
  }

  lemma PromotionGoesOn(store: Store, p: Proc, b: BuildId, ch: Choice)
    requires Ready(store, p, b) && Promoting(p)
    ensures (Todo(p) != {} ==> ch.url in Todo(p)) ==> PromotionStep(store, p, ch).Went?
    ensures var went := PromotionStep(store, p, ch);
            went.Went? ==> Ready(went.store, went.proc, b) && Nearer(p, went.proc)
  {
    if PromotionStep(store, p, ch).Went? {
      if p.CheckBuilt? {
        CommitCompletes(store, p, b, ch);
      } else {
        PromotionCompletes(store, p, b, ch);
      }
    }
  }

  lemma {:induction false} InstallCanFinish(store: Store, p: Proc, b: BuildId) returns (choices: seq<Choice>, t: Store)
    requires Ready(store, p, b)
    ensures Solo(store, p, choices, t, Installed(b))
    decreases Ahead(p), Todo(p), p.Copy?
  {
    if p.Installed? {
      return [], store;
    }
    var id := FreshId(store.objs.Keys);
    var ch := Pick(p, id);
    if Staging(p) {
      StagingGoesOn(store, p, b, ch);
    } else {
      PromotionGoesOn(store, p, b, ch);
    }
    var went := Advance(store, p, ch);
    choices, t := InstallCanFinish(went.store, went.proc, b);
    SoloStep(store, p, ch, choices, t, Installed(b));
    choices := [ch] + choices;
  }

  lemma {:induction false} StaysReady(store: Store, p: Proc, b: BuildId, choices: seq<Choice>, t: Store, q: Proc)
    requires Ready(store, p, b) && Solo(store, p, choices, t, q)
    ensures Ready(t, q, b)
    decreases |choices|
  {
    if choices != [] {
      if Staging(p) {
        StagingGoesOn(store, p, b, choices[0]);
      } else {
        PromotionGoesOn(store, p, b, choices[0]);
      }
      var went := Advance(store, p, choices[0]);
      StaysReady(went.store, went.proc, b, choices[1..], t, q);
    }
  }

  /** Whatever earlier installs left behind, and wherever an undisturbed install stands, it can go on to its
      end: no choice made so far leads into a dead end. */
  lemma NoDeadEnd(store: Store, b: BuildId, choices: seq<Choice>, mid: Store, q: Proc)
    returns (more: seq<Choice>, t: Store)
    requires NamesLinked(store) && Solo(store, Fetching(b), choices, mid, q)
    ensures Solo(mid, q, more, t, Installed(b))
  {
    StaysReady(store, Fetching(b), b, choices, mid, q);
    more, t := InstallCanFinish(mid, q, b);
  }

  // ----- exactly when the marker is last -----

  lemma {:induction false} SoloIsRun(builds: set<BuildId>, s: Sys, pid: nat, choices: seq<Choice>, t: Store, q: Proc)
    returns (events: seq<Event>)
    requires pid in s.procs && Solo(s.store, s.procs[pid], choices, t, q)
    ensures Run(builds, s, events, Sys(t, s.procs[pid := q])) && forall e | e in events :: e.Step?
    decreases |choices|
  {
    if choices == [] {
      assert s.procs[pid := q] == s.procs;
      return [];
    }
    var went := Advance(s.store, s.procs[pid], choices[0]);
    var e := Step(pid, choices[0]);
    var s' := Do(builds, s, e);
    events := SoloIsRun(builds, s', pid, choices[1..], t, q);
    assert s'.procs[pid := q] == s.procs[pid := q];
    assert ([e] + events)[1..] == events;
    events := [e] + events;
  }

  lemma {:induction false} RunCat(builds: set<BuildId>, s: Sys, a: seq<Event>, t: Sys, b: seq<Event>, u: Sys)
    requires Run(builds, s, a, t) && Run(builds, t, b, u)
    ensures Run(builds, s, a + b, u)
    decreases |a|
  {
    if a == [] {
      assert a + b == b;
    } else {
      RunCat(builds, Do(builds, s, a[0]), a[1..], t, b, u);
      assert (a + b)[1..] == a[1..] + b;
    }
  }

  /** Start a process and let it run alone. */
  lemma Launch(builds: set<BuildId>, s: Sys, pid: nat, p: Proc, choices: seq<Choice>, t: Store, q: Proc)
    returns (events: seq<Event>)
    requires pid !in s.procs && Startable(builds, p) && Solo(s.store, p, choices, t, q)
    ensures Run(builds, s, events, Sys(t, s.procs[pid := q]))
  {
    var e := Start(pid, p);
    var s' := Do(builds, s, e);
    var tail := SoloIsRun(builds, s', pid, choices, t, q);
    assert s'.procs[pid := q] == s.procs[pid := q];
    assert ([e] + tail)[1..] == tail;
    events := [e] + tail;
  }

  const NOTHING_YET := Sys(Store(map[], map[]), map[])

  lemma VictimInstalled(builds: set<BuildId>, victim: BuildId) returns (events: seq<Event>, t: Store)
    requires Installable(builds, victim)
    ensures Run(builds, NOTHING_YET, events, Sys(t, map[0 := Installed(victim)]))
    ensures NamesLinked(t) && CompleteUnder(t, CacheName(victim), victim)
  {
    var empty := NOTHING_YET.store;
    var choices;
    choices, t := InstallCanFinish(empty, Fetching(victim), victim);
    InstalledIsComplete(empty, victim, choices, t);
    events := Launch(builds, NOTHING_YET, 0, Fetching(victim), choices, t, Installed(victim));
    assert NOTHING_YET.procs[0 := Installed(victim)] == map[0 := Installed(victim)];
  }

  /** If one build's cache is another's staging cache, clearing the staging cache takes a complete
      build apart under its marker. */
  lemma AliasBreaks(builds: set<BuildId>, b: BuildId, victim: BuildId)
    requires Installable(builds, b) && Installable(builds, victim) && CacheName(victim) == StagingName(b)
    ensures exists t :: Reachable(builds, t) && !MarkerLast(t.store)
  {
    var e1, s1 := VictimInstalled(builds, victim);
    var mid := Sys(s1, map[0 := Installed(victim)]);
    var choices, s2, q := ClearingTakesApart(s1, b, victim);
    var e2 := Launch(builds, mid, 1, Fetching(b), choices, s2, q);
    var t := Sys(s2, mid.procs[1 := q]);
    RunCat(builds, NOTHING_YET, e1, mid, e2, t);
    assert Initial(NOTHING_YET);
    assert Reachable(builds, t);
  }

  /** The ids "x" and "x-staging" are such a pair. */
  lemma AliasExample()
    ensures !NoAlias({"x", "x-staging"})
    ensures exists t :: Reachable({"x", "x-staging"}, t) && !MarkerLast(t.store)
  {
    var builds := {"x", "x-staging"};
    assert Sanitize("x") == "x" && Sanitize("x-staging") == "x-staging";
    assert "x" + STAGING == "x-staging";
    assert CacheName("x-staging") == CACHE_PREFIX + ("x" + STAGING) == StagingName("x");
    assert Installable(builds, "x") && Installable(builds, "x-staging");
    assert IsStaging(builds, CacheName("x-staging"));
    AliasBreaks(builds, "x", "x-staging");
  }

  /** The dev build is never staged, so "dev" and "dev-staging" are no such pair. */
  lemma DevIsNoAlias()
    ensures NoAlias({DEV_BUILD, "dev-staging"})
  {
    var builds := {DEV_BUILD, "dev-staging"};
    forall b, other | Installable(builds, b) && Installable(builds, other)
      ensures CacheName(b) != StagingName(other)
    {
      assert b == other;
      assert |StagingName(b)| == |CacheName(b)| + |STAGING|;
    }
  }

  /** The first entry cleared away is the root document. */
  lemma ClearingTakesApart(store: Store, b: BuildId, victim: BuildId) returns (choices: seq<Choice>, t: Store, q: Proc)
    requires NamesLinked(store) && CompleteUnder(store, CacheName(victim), victim)
    requires CacheName(victim) == StagingName(b)
    ensures Solo(store, Fetching(b), choices, t, q) && !MarkerLast(t)
  {
    var root := Local("", "");
    var id := FreshId(store.objs.Keys);
    var open := Choice(Local("bin/main.wasm", ""), Asset(""), true, id, "");
    var st := store.names[StagingName(b)];
    var keys := store.objs[st].entries.Keys;
    assert Required(root);
    var listOld := ListOld(b, open.url, st);
    var clear := Clear(b, open.url, st, keys);
    t, q := Drop(store, st, root), Clear(b, open.url, st, keys - {root});
    SoloStep(store, clear, Picking(root), [], t, q);
    SoloStep(store, listOld, open, [Picking(root)] + [], t, q);
    SoloStep(store, Fetching(b), open, [open] + ([Picking(root)] + []), t, q);
    choices := [open] + ([open] + ([Picking(root)] + []));
    var e := t.objs[st].entries;
    assert MARKER in e && root !in e;
  }

  /** Marker last: through any run of installs, re-installs, cuts, fetches and activations of the given
      builds, a cache with the marker is whole, exactly when no build's cache is another's staging cache. */
  lemma MarkerLastExactly(builds: set<BuildId>)
    ensures NoAlias(builds) <==> forall t | Reachable(builds, t) :: MarkerLast(t.store)
  {
    if NoAlias(builds) {
      forall t | Reachable(builds, t)
        ensures MarkerLast(t.store)
      {
        var s, events :| Initial(s) && Run(builds, s, events, t);
        RunKeeps(builds, s, events, t);
      }
    } else {
      var victim :| Installable(builds, victim) && IsStaging(builds, CacheName(victim));
      var b :| Installable(builds, b) && CacheName(victim) == StagingName(b);
      AliasBreaks(builds, b, victim);
    }
  }
}
