/**
 What an install stores: the responses it was given.
 */
module BuildContents {
  import opened BuildCache
  import opened BuildInstall
  import opened BuildServing
  import opened BuildActivation
  import opened BuildHandover

  /** The responses that an install has been given so far: one for every required asset and for the wasm binary,
      and one for every optional asset whose fetch succeeded. */
  function Noted(p: Proc, ch: Choice, got: Entries): Entries {
    if p.Fill? && p.todo != {} then got[ch.url := ch.resp]
    else if p.Extras? && p.todo != {} && ch.ok then got[ch.url := ch.resp]
    else got
  }

  /** The responses that process `i` is given during a run. */
  ghost function Received(builds: set<BuildId>, s: Sys, events: seq<Event>, i: nat, got: Entries): Entries
    decreases |events|
  {
    if events == [] || !Can(builds, s, events[0]) then got
    else
      var e := events[0];
      var more := if e.Step? && e.pid == i then Noted(s.procs[i], e.choice, got) else got;
      Received(builds, Do(builds, s, e), events[1..], i, more)
  }

  /** What is stored under a name. */
  function Content(store: Store, n: Name): Entries {
    if n in store.names && store.names[n] in store.objs then store.objs[store.names[n]].entries else map[]
  }

  // ----- core entries -----

  lemma StagingApart(b: BuildId)
    ensures StagingName(b) != CacheName(b)
  {
    assert |StagingName(b)| == |CacheName(b)| + |STAGING|;
  }

  lemma PutBoth(e: Entries, f: Entries, u: Url, r: Resp)
    requires SameCore(e, f)
    ensures SameCore(e[u := r], f[u := r])
  {
  }

  lemma DropBoth(e: Entries, f: Entries, u: Url)
    requires SameCore(e, f)
    ensures SameCore(e - {u}, f - {u})
  {
  }

  lemma SameCoreTrans(e: Entries, f: Entries, g: Entries)
    requires SameCore(e, f) && SameCore(f, g)
    ensures SameCore(e, g)
  {
  }

  ghost predicate AllPrecached(got: Entries) { forall u | u in got :: Precached(u) }

  lemma CopiedOne(e: Entries, base: Entries, got: Entries, todo: set<Url>, u: Url, r: Resp)
    requires SameCore(e, base + (got - (todo + {u}))) && AllPrecached(got) && u !in todo
    requires CoreEntry(u) ==> u in got && got[u] == r
    ensures SameCore(e[u := r], base + (got - todo))
  {
  }

  // ----- one step of the install -----

  /** The given responses are those in the staging cache, and cover what is wanted. */
  ghost predicate Staged(store: Store, st: nat, wasm: Url, got: Entries) {
    && st in store.objs && SameCore(store.objs[st].entries, got)
    && Wanted(wasm) <= got.Keys <= Wanted(wasm) + Urls(OPTIONAL_PATHS)
  }

  /** All but `left` has been copied into the build's cache. */
  ghost predicate Copied(store: Store, c: nat, base: Entries, got: Entries, left: set<Url>) {
    c in store.objs && SameCore(store.objs[c].entries, base - {MARKER} + (got - left))
  }

  /** `base` is what the build's cache held before; `got` is what the install has been given. */
  ghost predicate Gathering(store: Store, p: Proc, b: BuildId, base: Entries, got: Entries) {
    && AllPrecached(got)
    && (Staging(p) || p.DropMarker? ==> SameCore(Content(store, CacheName(b)), base))
    && match p
       case Clear(_, _, st, todo) =>
         got == map[] && st in store.objs && forall u | u in store.objs[st].entries && CoreEntry(u) :: u in todo
       case Fill(_, wasm, st, todo) =>
         st in store.objs && SameCore(store.objs[st].entries, got) && got.Keys + todo == Wanted(wasm)
       case Extras(_, wasm, st, todo) => Staged(store, st, wasm, got) && todo <= Urls(OPTIONAL_PATHS)
       case CheckStaged(_, wasm, st, _) => Staged(store, st, wasm, got)
       case DropMarker(_, wasm, st, _) => Staged(store, st, wasm, got)
       case ListNew(_, wasm, st, c) =>
         Staged(store, st, wasm, got) && c in store.objs && SameCore(store.objs[c].entries, base - {MARKER})
       case Promote(_, wasm, st, c, todo) => Staged(store, st, wasm, got) && Copied(store, c, base, got, todo)
       case Copy(_, wasm, st, c, todo, url, resp) =>
         && Staged(store, st, wasm, got) && Copied(store, c, base, got, todo + {url}) && url !in todo
         && (CoreEntry(url) ==> url in got && got[url] == resp)
       case CheckBuilt(_, wasm, c, _) =>
         && Wanted(wasm) <= got.Keys <= Wanted(wasm) + Urls(OPTIONAL_PATHS)
         && c in store.objs && SameCore(store.objs[c].entries, base - {MARKER} + got)
       case Installed(_) => Result(store, b, base, got)
       case _ => got == map[]
  }

  /** The build's cache holds what the install was given, the marker, and what the install did not replace. */
  ghost predicate Result(store: Store, b: BuildId, base: Entries, got: Entries) {
    && AllPrecached(got)
    && SameCore(Content(store, CacheName(b)), (base - {MARKER} + got)[MARKER := Manifest(b)])
    && exists wasm :: Wasm(wasm) && Wanted(wasm) <= got.Keys <= Wanted(wasm) + Urls(OPTIONAL_PATHS)
  }

  /** Everywhere else the store may change as it likes. */
  lemma ContentKept(s: Store, t: Store, n: Name)
    requires (n in s.names <==> n in t.names) && (n in s.names ==> s.names[n] == t.names[n])
    requires n in s.names ==> s.names[n] in s.objs && s.names[n] in t.objs && s.objs[s.names[n]] == t.objs[s.names[n]]
    ensures Content(t, n) == Content(s, n)
  {
  }

  lemma OpensGather(store: Store, p: Proc, b: BuildId, base: Entries, got: Entries, ch: Choice)
    requires Completing(store, p, b) && Gathering(store, p, b, base, got) && (p.Fetching? || p.ListOld?)
    requires StagingStep(store, p, ch).Went?
    ensures var went := StagingStep(store, p, ch); Gathering(went.store, went.proc, b, base, got)
  {
    StagingApart(b);
    if p.Fetching? {
      ContentKept(store, Open(store, StagingName(b), ch.id), CacheName(b));
    }
  }

  lemma StagedKeepsContent(store: Store, b: BuildId, st: nat, e: Entries)
    requires NamesLinked(store) && Holds(store, st, StagingName(b))
    ensures Content(store.(objs := store.objs[st := Cache(store.objs[st].birth, e)]), CacheName(b))
            == Content(store, CacheName(b))
  {
    StagingApart(b);
  }

  lemma ClearGathers(store: Store, p: Proc, b: BuildId, base: Entries, got: Entries, ch: Choice)
    requires Completing(store, p, b) && Gathering(store, p, b, base, got) && p.Clear?
    requires StagingStep(store, p, ch).Went?
    ensures var went := StagingStep(store, p, ch); Gathering(went.store, went.proc, b, base, got)
  {
    if p.todo != {} {
      StagedKeepsContent(store, b, p.staging, store.objs[p.staging].entries - {ch.url});
    }
  }

  lemma WantedPrecached(wasm: Url)
    requires Wasm(wasm)
    ensures forall u | u in Wanted(wasm) + Urls(OPTIONAL_PATHS) :: Precached(u)
  {
  }

  lemma FillGathers(store: Store, p: Proc, b: BuildId, base: Entries, got: Entries, ch: Choice)
    requires Completing(store, p, b) && Gathering(store, p, b, base, got) && p.Fill?
    requires StagingStep(store, p, ch).Went?
    ensures var went := StagingStep(store, p, ch); Gathering(went.store, went.proc, b, base, Noted(p, ch, got))
  {
    if p.todo != {} {
      WantedPrecached(p.wasm);
      var e := store.objs[p.staging].entries;
      StagedKeepsContent(store, b, p.staging, e[ch.url := ch.resp]);
      PutBoth(e, got, ch.url, ch.resp);
    }
  }

  lemma ExtrasGather(store: Store, p: Proc, b: BuildId, base: Entries, got: Entries, ch: Choice)
    requires Completing(store, p, b) && Gathering(store, p, b, base, got) && p.Extras?
    requires StagingStep(store, p, ch).Went?
    ensures var went := StagingStep(store, p, ch); Gathering(went.store, went.proc, b, base, Noted(p, ch, got))
  {
    if p.todo != {} && ch.ok {
      WantedPrecached(p.wasm);
      var e := store.objs[p.staging].entries;
      StagedKeepsContent(store, b, p.staging, e[ch.url := ch.resp]);
      PutBoth(e, got, ch.url, ch.resp);
    }
  }

  lemma CheckGathers(store: Store, p: Proc, b: BuildId, base: Entries, got: Entries, ch: Choice)
    requires Completing(store, p, b) && Gathering(store, p, b, base, got) && p.CheckStaged?
    requires StagingStep(store, p, ch).Went?
    ensures var went := StagingStep(store, p, ch); Gathering(went.store, went.proc, b, base, got)
  {
  }

  lemma DropMarkerGathers(store: Store, p: Proc, b: BuildId, base: Entries, got: Entries, ch: Choice)
    requires Completing(store, p, b) && Gathering(store, p, b, base, got) && p.DropMarker?
    requires PromotionStep(store, p, ch).Went?
    ensures var went := PromotionStep(store, p, ch); Gathering(went.store, went.proc, b, base, got)
  {
    StagingApart(b);
    DropBoth(store.objs[p.cache].entries, base, MARKER);
  }

  lemma NothingCopied(base: Entries, got: Entries, todo: set<Url>)
    requires got.Keys <= todo
    ensures base + (got - todo) == base
  {
  }

  lemma StagedKeys(e: Entries, got: Entries)
    requires SameCore(e, got) && AllPrecached(got)
    ensures got.Keys <= e.Keys
  {
    assert forall u | u in got :: CoreEntry(u);
  }

  lemma StagedEntry(e: Entries, got: Entries, u: Url)
    requires SameCore(e, got) && u in e && CoreEntry(u)
    ensures u in got && got[u] == e[u]
  {
  }

  lemma ListGathers(store: Store, p: Proc, b: BuildId, base: Entries, got: Entries, ch: Choice)
    requires Gathering(store, p, b, base, got) && p.ListNew?
    requires PromotionStep(store, p, ch).Went?
    ensures var went := PromotionStep(store, p, ch); Gathering(went.store, went.proc, b, base, got)
  {
    var e := store.objs[p.staging].entries;
    StagedKeys(e, got);
    NothingCopied(base - {MARKER}, got, e.Keys);
  }

  lemma PromoteGathers(store: Store, p: Proc, b: BuildId, base: Entries, got: Entries, ch: Choice)
    requires Gathering(store, p, b, base, got) && p.Promote? && p.todo != {}
    requires PromotionStep(store, p, ch).Went?
    ensures var went := PromotionStep(store, p, ch); Gathering(went.store, went.proc, b, base, got)
  {
    CopyBegins(store, p, b, base, got, ch.url);
  }

  lemma OneLess(todo: set<Url>, u: Url)
    requires u in todo
    ensures (todo - {u}) + {u} == todo && u !in todo - {u}
  {
  }

  lemma CopyBegins(store: Store, p: Proc, b: BuildId, base: Entries, got: Entries, u: Url)
    requires Gathering(store, p, b, base, got) && p.Promote? && u in p.todo
    requires u in store.objs[p.staging].entries
    ensures Gathering(store, Copy(p.b, p.wasm, p.staging, p.cache, p.todo - {u}, u, store.objs[p.staging].entries[u]),
                      b, base, got)
  {
    var e := store.objs[p.staging].entries;
    OneLess(p.todo, u);
    if CoreEntry(u) {
      StagedEntry(e, got, u);
    }
    var rest := p.todo - {u};
    assert Copied(store, p.cache, base, got, rest + {u});
    GatheringCopy(store, Copy(p.b, p.wasm, p.staging, p.cache, rest, u, e[u]), b, base, got);
  }

  lemma GatheringCopy(store: Store, p: Proc, b: BuildId, base: Entries, got: Entries)
    requires p.Copy? && AllPrecached(got) && Staged(store, p.staging, p.wasm, got) && p.url !in p.todo
    requires Copied(store, p.cache, base, got, p.todo + {p.url})
    requires CoreEntry(p.url) ==> p.url in got && got[p.url] == p.resp
    ensures Gathering(store, p, b, base, got)
  {
  }

  lemma PromotedGathers(store: Store, p: Proc, b: BuildId, base: Entries, got: Entries, ch: Choice)
    requires Gathering(store, p, b, base, got) && p.Promote? && p.todo == {}
    requires PromotionStep(store, p, ch).Went?
    ensures var went := PromotionStep(store, p, ch); Gathering(went.store, went.proc, b, base, got)
  {
    assert got - p.todo == got;
  }

  lemma CopyGathers(store: Store, p: Proc, b: BuildId, base: Entries, got: Entries, ch: Choice)
    requires Gathering(store, p, b, base, got) && p.Copy? && p.staging != p.cache
    requires PromotionStep(store, p, ch).Went?
    ensures var went := PromotionStep(store, p, ch); Gathering(went.store, went.proc, b, base, got)
  {
    CopiedOne(store.objs[p.cache].entries, base - {MARKER}, got, p.todo, p.url, p.resp);
  }

  lemma CommitGathers(store: Store, p: Proc, b: BuildId, base: Entries, got: Entries, ch: Choice)
    requires Gathering(store, p, b, base, got) && p.CheckBuilt? && p.b == b && Wasm(p.wasm)
    requires CacheName(b) in store.names && store.names[CacheName(b)] == p.cache
    requires PromotionStep(store, p, ch).Went?
    ensures var went := PromotionStep(store, p, ch); Gathering(went.store, went.proc, b, base, got)
  {
    PutBoth(store.objs[p.cache].entries, base - {MARKER} + got, MARKER, Manifest(b));
  }

  lemma InstallGathers(store: Store, p: Proc, b: BuildId, base: Entries, got: Entries, ch: Choice)
    requires Completing(store, p, b) && Gathering(store, p, b, base, got) && Advance(store, p, ch).Went?
    ensures var went := Advance(store, p, ch); Gathering(went.store, went.proc, b, base, Noted(p, ch, got))
  {
    if p.Fetching? || p.ListOld? {
      OpensGather(store, p, b, base, got, ch);
    } else if p.Clear? {
      ClearGathers(store, p, b, base, got, ch);
    } else if p.Fill? {
      FillGathers(store, p, b, base, got, ch);
    } else if p.Extras? {
      ExtrasGather(store, p, b, base, got, ch);
    } else if p.CheckStaged? {
      CheckGathers(store, p, b, base, got, ch);
    } else if p.DropMarker? {
      DropMarkerGathers(store, p, b, base, got, ch);
    } else if p.ListNew? {
      ListGathers(store, p, b, base, got, ch);
    } else if p.Promote? {
      if p.todo == {} {
        PromotedGathers(store, p, b, base, got, ch);
      } else {
        PromoteGathers(store, p, b, base, got, ch);
      }
    } else if p.Copy? {
      StagingApart(b);
      CopyGathers(store, p, b, base, got, ch);
    } else {
      CommitGathers(store, p, b, base, got, ch);
    }
  }

  // ----- fetches beside it -----

  /** A fetch that stores its response stores it under the URL that was asked for, and nothing else. */
  lemma FetchStores(store: Store, p: Proc, ch: Choice)
    requires p.Storing? && ServingStep(store, p, ch).Went?
    ensures var t := ServingStep(store, p, ch).store;
            && t.names == store.names && t.objs.Keys == store.objs.Keys
            && t.objs[p.cache].birth == store.objs[p.cache].birth
            && p.url in t.objs[p.cache].entries && t.objs[p.cache].entries[p.url] == ch.resp
            && (forall u | u != p.url :: u in t.objs[p.cache].entries <==> u in store.objs[p.cache].entries)
            && (forall u | u != p.url && u in store.objs[p.cache].entries ::
                  t.objs[p.cache].entries[u] == store.objs[p.cache].entries[u])
            && forall c | c in store.objs && c != p.cache :: t.objs[c] == store.objs[c]
  {
  }

  /** So does a dev install, asset by asset; one that cannot be fetched leaves everything as it was. */
  lemma DevStores(store: Store, p: Proc, ch: Choice)
    requires p.DevFill? && ServingStep(store, p, ch).Went?
    ensures var t := ServingStep(store, p, ch).store;
            && (!ch.ok ==> t == store) && t.names == store.names
            && (forall c | c in store.objs && c != p.cache :: c in t.objs && t.objs[c] == store.objs[c])
            && (ch.ok ==> Holds(t, p.cache, store.objs[p.cache].birth)
                          && t.objs[p.cache].entries == store.objs[p.cache].entries + map[ch.url := ch.resp])
  {
  }

  /** Core entries are as they were, in every cache and under every name. */
  ghost predicate CoreKept(s: Store, t: Store) {
    && (forall c | c in s.objs :: c in t.objs && SameCore(t.objs[c].entries, s.objs[c].entries))
    && forall n :: SameCore(Content(t, n), Content(s, n))
  }

  lemma OpenKeepsCore(store: Store, n: Name, id: nat)
    requires NamesLinked(store) && id !in store.objs
    ensures CoreKept(store, Open(store, n, id))
  {
    var t := Open(store, n, id);
    forall c | c in store.objs
      ensures c in t.objs && SameCore(t.objs[c].entries, store.objs[c].entries)
    {
      SameCoreItself(store.objs[c].entries);
    }
    forall m
      ensures SameCore(Content(t, m), Content(store, m))
    {
      SameCoreItself(Content(store, m));
      assert Content(t, m) == Content(store, m);
    }
  }

  lemma FetchKeepsCore(store: Store, p: Proc, ch: Choice)
    requires NamesLinked(store) && FetchOk(store, p) && ServingStep(store, p, ch).Went?
    ensures CoreKept(store, ServingStep(store, p, ch).store)
  {
    if p.Serving? {
      OpenKeepsCore(store, CacheName(p.b), ch.id);
    } else if p.Searching? {
      OpenKeepsCore(store, ch.name, ch.id);
    } else if p.Storing? {
      CoreIsNotStatic(p.url);
      FetchStores(store, p, ch);
    }
  }

  lemma GatheringStable(s: Store, t: Store, p: Proc, b: BuildId, base: Entries, got: Entries)
    requires Gathering(s, p, b, base, got) && CoreKept(s, t)
    ensures Gathering(t, p, b, base, got)
  {
    var n := CacheName(b);
    assert SameCore(Content(t, n), Content(s, n));
  }

  // ----- whole runs -----

  ghost predicate GathersAmongFetches(s: Sys, i: nat, b: BuildId, base: Entries, got: Entries) {
    && InstallAmongFetches(s, i, b)
    && (i in s.procs && !FetchOk(s.store, s.procs[i]) ==> Gathering(s.store, s.procs[i], b, base, got))
  }

  lemma EventGathers(builds: set<BuildId>, s: Sys, e: Event, i: nat, b: BuildId, base: Entries, got: Entries)
    requires GathersAmongFetches(s, i, b, base, got) && Can(builds, s, e) && (e.Start? ==> e.proc.Serving?)
    ensures GathersAmongFetches(Do(builds, s, e), i, b, base,
                                if e.Step? && e.pid == i then Noted(s.procs[i], e.choice, got) else got)
  {
    EventBesideInstall(builds, s, e, i, b);
    if e.Step? {
      var p := s.procs[e.pid];
      if Over(p) {
        OverIsStuck(s.store, p, e.choice);
      } else if Fetch(p) {
        FetchAdvances(s.store, p, e.choice);
        FetchKeepsCore(s.store, p, e.choice);
        FetchStepGrows(s.store, p, e.choice);
        if i in s.procs && i != e.pid && !FetchOk(s.store, s.procs[i]) {
          GatheringStable(s.store, Do(builds, s, e).store, s.procs[i], b, base, got);
        }
      } else {
        InstallGathers(s.store, p, b, base, got, e.choice);
      }
    }
  }

  lemma {:induction false} RunGathers(builds: set<BuildId>, s: Sys, events: seq<Event>, t: Sys, i: nat, b: BuildId,
                                      base: Entries, got: Entries)
    requires GathersAmongFetches(s, i, b, base, got) && Run(builds, s, events, t) && FetchesOnly(events)
    ensures GathersAmongFetches(t, i, b, base, Received(builds, s, events, i, got))
    decreases |events|
  {
    if events != [] {
      var e := events[0];
      EventGathers(builds, s, e, i, b, base, got);
      var more := if e.Step? && e.pid == i then Noted(s.procs[i], e.choice, got) else got;
      RunGathers(builds, Do(builds, s, e), events[1..], t, i, b, base, more);
    }
  }

  /** Whatever fetches of whatever builds go on meanwhile: the core entries of a build that has been installed are
      the responses that this install was given, the marker, and, where an optional asset could not be fetched,
      what the cache held before. */
  lemma InstallStores(builds: set<BuildId>, s: Sys, events: seq<Event>, t: Sys, i: nat, b: BuildId)
    requires NamesLinked(s.store) && FetchesBeside(s, i) && i in s.procs && s.procs[i] == Fetching(b)
    requires Run(builds, s, events, t) && FetchesOnly(events)
    requires i in t.procs && t.procs[i] == Installed(b)
    ensures Result(t.store, b, Content(s.store, CacheName(b)), Received(builds, s, events, i, map[]))
  {
    var base := Content(s.store, CacheName(b));
    SameCoreItself(base);
    RunGathers(builds, s, events, t, i, b, base, map[]);
  }

  /** So every asset that a boot needs is the one that was fetched for it, as is every optional one that was fetched. */
  lemma InstalledAssets(store: Store, b: BuildId, base: Entries, got: Entries, u: Url)
    requires Result(store, b, base, got)
    ensures u in got ==> u in Content(store, CacheName(b)) && Content(store, CacheName(b))[u] == got[u]
    ensures Required(u) ==> u in got
    ensures exists wasm :: Wasm(wasm) && wasm in got
  {
    MarkerIsNoAsset();
    var wasm :| Wasm(wasm) && Wanted(wasm) <= got.Keys;
    assert wasm in Wanted(wasm);
    assert Required(u) ==> u in Wanted(wasm);
    assert u in got ==> CoreEntry(u);
  }
}
