/**
 The per-build asset cache of the service worker, web/sw.js.

 CacheStorage has no transactions.  Installs, activations and runtime fetches
 run as processes; each cache operation is one step, processes interleave
 freely, and any process may be cut off between two steps.  `caches.open` hands
 out a cache object; `caches.delete` only unlinks the name, and a process that
 still holds the object goes on using it, so objects and names are kept apart.
 */
module BuildCache {
  import opened Wrappers

  // ----- names -----

  type BuildId = string
  type Name = string

  const CACHE_PREFIX := "cashflux-fav1-"
  const LEGACY_CACHE_PREFIX := "cashflux-"
  const DEV_BUILD := "dev"
  const STAGING := "-staging"

  predicate SafeChar(c: char) {
    'A' <= c <= 'Z' || 'a' <= c <= 'z' || '0' <= c <= '9' || c == '.' || c == '_' || c == '-'
  }

  function Sanitize(s: string): (r: string) {
    seq(|s|, i requires 0 <= i < |s| => if SafeChar(s[i]) then s[i] else '-')
  }

  function CacheName(b: BuildId): Name {
    CACHE_PREFIX + (if Sanitize(b) == "" then DEV_BUILD else Sanitize(b))
  }

  function StagingName(b: BuildId): Name { CacheName(b) + STAGING }

  predicate EndsWith(s: string, suffix: string) {
    |suffix| <= |s| && s[|s| - |suffix|..] == suffix
  }

  /** The names findCompleteCache looks at. */
  predicate Selectable(n: Name) { CACHE_PREFIX <= n && !EndsWith(n, STAGING) }

  predicate AppName(n: Name) { CACHE_PREFIX <= n || LEGACY_CACHE_PREFIX <= n }

  // ----- keys -----

  /** A request URL: outside the worker's scope, or a path below it with its query. */
  datatype Url = Foreign(href: string) | Local(path: string, search: string)

  const MARKER := Local("__cashflux_complete__.json", "")

  const REQUIRED_PATHS: set<string> := {
    "", "index.html", "wasm_exec.js", "manifest.webmanifest", "favicon.ico", "favicon.svg",
    "favicon-32.png", "fonts.css", "erase-device.html", "device-erase.js"}
  const WASM_PATHS: set<string> := {"bin/main.wasm", "bin/main.wasm.gz"}
  const OPTIONAL_PATHS: set<string> := {
    "services-worker.js", "bin/services.wasm.gz", "bin/services.wasm", "icon-192.png", "icon-512.png",
    "icon-maskable-192.png", "icon-maskable-512.png", "apple-touch-icon.png", "favicon-16.png", "chart.js",
    "muzak.js", "wonder.js", "countup.js", "mermaid.min.js", "mermaid.js", "marked.min.js", "purify.min.js",
    "d3.min.js"}

  function Urls(paths: set<string>): (r: set<Url>)
    ensures forall u :: u in r <==> u.Local? && u.search == "" && u.path in paths
  {
    set p | p in paths :: Local(p, "")
  }

  /** coreKeyFor: compares paths only, and never answers for the scope root. */
  predicate CoreKey(u: Url) {
    u.Local? && u.path != "" && u.path in REQUIRED_PATHS + WASM_PATHS + OPTIONAL_PATHS
  }

  predicate FileIn(path: string, dir: string, extension: string) {
    && dir <= path && '/' !in path[|dir|..]
    && |dir| + |extension| < |path| && EndsWith(path, extension)
  }

  /** isRuntimeStaticAsset */
  predicate RuntimeStatic(u: Url) {
    && u.Local?
    && (|| FileIn(u.path, "fonts/", ".woff2")
        || FileIn(u.path, "audio/", ".mp3")
        || FileIn(u.path, "admin/img/", ".png") || FileIn(u.path, "admin/img/", ".jpg")
        || FileIn(u.path, "admin/img/", ".jpeg") || FileIn(u.path, "admin/img/", ".webp")
        || FileIn(u.path, "admin/img/", ".svg"))
  }

  /** isAllowedCacheEntry */
  predicate Allowed(u: Url) {
    u == MARKER || u == Local("", "") || CoreKey(u) || RuntimeStatic(u)
  }

  /** What a boot needs: every required asset, and the two spellings of the wasm binary. */
  predicate Required(u: Url) { u.Local? && u.search == "" && u.path in REQUIRED_PATHS }
  predicate Wasm(u: Url) { u.Local? && u.search == "" && u.path in WASM_PATHS }
  predicate Precached(u: Url) {
    u.Local? && u.search == "" && u.path in REQUIRED_PATHS + WASM_PATHS + OPTIONAL_PATHS
  }

  predicate Underscored(path: string) { path != "" && path[0] == '_' }

  lemma MarkerUnderscored()
    ensures Underscored(MARKER.path)
  {
  }

  lemma RequiredNotUnderscored(path: string)
    requires path in REQUIRED_PATHS
    ensures !Underscored(path)
  {
  }

  lemma WasmNotUnderscored(path: string)
    requires path in WASM_PATHS
    ensures !Underscored(path)
  {
  }

  lemma OptionalNotUnderscored(path: string)
    requires path in OPTIONAL_PATHS
    ensures !Underscored(path)
  {
  }

  lemma StaticNotUnderscored(u: Url)
    requires RuntimeStatic(u)
    ensures !Underscored(u.path)
  {
    assert u.path[0] in {'f', 'a'};
  }

  lemma MarkerIsNoAsset()
    ensures !Precached(MARKER) && !RuntimeStatic(MARKER)
  {
    var p := MARKER.path;
    MarkerUnderscored();
    if RuntimeStatic(MARKER) {
      StaticNotUnderscored(MARKER);
    }
    if p in REQUIRED_PATHS {
      RequiredNotUnderscored(p);
    } else if p in WASM_PATHS {
      WasmNotUnderscored(p);
    } else if p in OPTIONAL_PATHS {
      OptionalNotUnderscored(p);
    }
  }

  lemma StaticIsNotRoot(u: Url)
    requires RuntimeStatic(u)
    ensures u.path != ""
  {
  }

  // ----- the store -----

  datatype Resp = Asset(body: string) | Manifest(buildId: BuildId)

  type Entries = map<Url, Resp>

  /** A cache object remembers the name it was created under. */
  datatype Cache = Cache(birth: Name, entries: Entries)

  datatype Store = Store(objs: map<nat, Cache>, names: map<Name, nat>)

  ghost predicate Whole(e: Entries) {
    (forall u | Required(u) :: u in e) && exists u :: Wasm(u) && u in e
  }

  /** cacheIsComplete */
  ghost predicate Complete(e: Entries, b: BuildId) {
    MARKER in e && e[MARKER] == Manifest(b) && Whole(e)
  }

  ghost predicate CompleteUnder(store: Store, n: Name, b: BuildId) {
    n in store.names && store.names[n] in store.objs && Complete(store.objs[store.names[n]].entries, b)
  }

  function Open(store: Store, n: Name, id: nat): Store {
    if n in store.names then store
    else Store(store.objs[id := Cache(n, map[])], store.names[n := id])
  }

  function Put(store: Store, c: nat, u: Url, r: Resp): Store
    requires c in store.objs
  {
    store.(objs := store.objs[c := Cache(store.objs[c].birth, store.objs[c].entries[u := r])])
  }

  function Drop(store: Store, c: nat, u: Url): Store
    requires c in store.objs
  {
    store.(objs := store.objs[c := Cache(store.objs[c].birth, store.objs[c].entries - {u})])
  }

  // ----- the processes -----

  datatype Proc =
    // install of a stamped build: precacheStamped
    | Fetching(b: BuildId)
    | ListOld(b: BuildId, wasm: Url, staging: nat)
    | Clear(b: BuildId, wasm: Url, staging: nat, todo: set<Url>)
    | Fill(b: BuildId, wasm: Url, staging: nat, todo: set<Url>)
    | Extras(b: BuildId, wasm: Url, staging: nat, todo: set<Url>)
    | CheckStaged(b: BuildId, wasm: Url, staging: nat, todo: set<Url>)
    | DropMarker(b: BuildId, wasm: Url, staging: nat, cache: nat)
    | ListNew(b: BuildId, wasm: Url, staging: nat, cache: nat)
    | Promote(b: BuildId, wasm: Url, staging: nat, cache: nat, todo: set<Url>)
    | Copy(b: BuildId, wasm: Url, staging: nat, cache: nat, todo: set<Url>, url: Url, resp: Resp)
    | CheckBuilt(b: BuildId, wasm: Url, cache: nat, todo: set<Url>)
    | Installed(b: BuildId)
    // install of an unstamped build: precacheDev
    | DevOpen
    | DevFill(cache: nat, tried: set<Url>)
    // a handled fetch that stores its response: handleAsset
    | Serving(b: BuildId, url: Url)
    | Owned(b: BuildId, url: Url, cache: nat)
    | Searching(url: Url, keys: set<Name>)
    | Storing(url: Url, cache: nat)
    | Served
    // activation
    | Activating(b: BuildId)
    | Evict(b: BuildId, gone: set<Name>)
    | ListKept(b: BuildId, cache: nat)
    | Scrub(b: BuildId, cache: nat, todo: set<Url>)
    | Activated(b: BuildId)

  predicate Staging(p: Proc) {
    p.Fetching? || p.ListOld? || p.Clear? || p.Fill? || p.Extras? || p.CheckStaged?
  }

  predicate Promoting(p: Proc) { p.DropMarker? || p.ListNew? || p.Promote? || p.Copy? || p.CheckBuilt? }

  predicate Installing(p: Proc) { Staging(p) || Promoting(p) }

  predicate ActivationPhase(p: Proc) {
    p.Activating? || p.Evict? || p.ListKept? || p.Scrub? || p.Activated?
  }

  /** What the environment decides in a step: the key handled next, the response fetched for it, whether
      an optional fetch succeeded, the identity of a newly created cache, and the cache a fetch settles on. */
  datatype Choice = Choice(url: Url, resp: Resp, ok: bool, id: nat, name: Name)

  datatype Outcome = Stuck | Went(store: Store, proc: Proc)

  function Wanted(wasm: Url): set<Url> { Urls(REQUIRED_PATHS) + {wasm} }

  /** An install gathers its assets in the staging cache. */
  ghost function StagingStep(store: Store, p: Proc, ch: Choice): Outcome {
    match p
    case Fetching(b) =>
      if Wasm(ch.url) && ch.id !in store.objs then
        var linked := Open(store, StagingName(b), ch.id);
        Went(linked, ListOld(b, ch.url, linked.names[StagingName(b)]))
      else Stuck
    case ListOld(b, wasm, st) =>
      if st in store.objs then Went(store, Clear(b, wasm, st, store.objs[st].entries.Keys)) else Stuck
    case Clear(b, wasm, st, todo) =>
      if todo == {} then Went(store, Fill(b, wasm, st, Wanted(wasm)))
      else if ch.url in todo && st in store.objs then
        Went(Drop(store, st, ch.url), Clear(b, wasm, st, todo - {ch.url}))
      else Stuck
    case Fill(b, wasm, st, todo) =>
      if todo == {} then Went(store, Extras(b, wasm, st, Urls(OPTIONAL_PATHS)))
      else if ch.url in todo && st in store.objs && ch.resp.Asset? then
        Went(Put(store, st, ch.url, ch.resp), Fill(b, wasm, st, todo - {ch.url}))
      else Stuck
    case Extras(b, wasm, st, todo) =>
      if todo == {} then Went(store, CheckStaged(b, wasm, st, Wanted(wasm)))
      else if ch.url in todo && st in store.objs && ch.resp.Asset? then
        Went(if ch.ok then Put(store, st, ch.url, ch.resp) else store, Extras(b, wasm, st, todo - {ch.url}))
      else Stuck
    case CheckStaged(b, wasm, st, todo) =>
      if todo == {} then
        if ch.id !in store.objs then
          var linked := Open(store, CacheName(b), ch.id);
          Went(linked, DropMarker(b, wasm, st, linked.names[CacheName(b)]))
        else Stuck
      else if ch.url in todo && st in store.objs && ch.url in store.objs[st].entries then
        Went(store, CheckStaged(b, wasm, st, todo - {ch.url}))
      else Stuck
    case _ => Stuck
  }

  /** It copies them into the build's cache and commits with the marker. */
  ghost function PromotionStep(store: Store, p: Proc, ch: Choice): Outcome {
    match p
    case DropMarker(b, wasm, st, c) =>
      if c in store.objs then Went(Drop(store, c, MARKER), ListNew(b, wasm, st, c)) else Stuck
    case ListNew(b, wasm, st, c) =>
      if st in store.objs then Went(store, Promote(b, wasm, st, c, store.objs[st].entries.Keys)) else Stuck
    case Promote(b, wasm, st, c, todo) =>
      if todo == {} then Went(store, CheckBuilt(b, wasm, c, Wanted(wasm)))
      else if ch.url in todo && st in store.objs && ch.url in store.objs[st].entries then
        Went(store, Copy(b, wasm, st, c, todo - {ch.url}, ch.url, store.objs[st].entries[ch.url]))
      else Stuck
    case Copy(b, wasm, st, c, todo, url, resp) =>
      if c in store.objs then Went(Put(store, c, url, resp), Promote(b, wasm, st, c, todo)) else Stuck
    case CheckBuilt(b, wasm, c, todo) =>
      if c !in store.objs then Stuck
      else if todo == {} then Went(Put(store, c, MARKER, Manifest(b)), Installed(b))
      else if ch.url in todo && ch.url in store.objs[c].entries then
        Went(store, CheckBuilt(b, wasm, c, todo - {ch.url}))
      else Stuck
    case _ => Stuck
  }

  /** A dev install, and a fetch whose response is stored. */
  ghost function ServingStep(store: Store, p: Proc, ch: Choice): Outcome {
    match p
    case DevOpen =>
      if ch.id !in store.objs then
        var linked := Open(store, CacheName(DEV_BUILD), ch.id);
        Went(linked, DevFill(linked.names[CacheName(DEV_BUILD)], {}))
      else Stuck
    case DevFill(c, tried) =>
      if Precached(ch.url) && ch.url !in tried && c in store.objs && ch.resp.Asset? then
        Went(if ch.ok then Put(store, c, ch.url, ch.resp) else store, DevFill(c, tried + {ch.url}))
      else Stuck
    case Serving(b, url) =>
      if ch.id !in store.objs then
        var linked := Open(store, CacheName(b), ch.id);
        Went(linked, Owned(b, url, linked.names[CacheName(b)]))
      else Stuck
    case Owned(b, url, c) =>
      // ownCache: its own cache if that is complete, otherwise findCompleteCache
      if c !in store.objs then Stuck
      else if b == DEV_BUILD || Complete(store.objs[c].entries, b) then Went(store, Storing(url, c))
      else Went(store, Searching(url, set n | n in store.names && Selectable(n)))
    case Searching(url, keys) =>
      // findCompleteCache opens what it has listed, one after the other
      if ch.name in keys && CACHE_PREFIX <= ch.name && ch.id !in store.objs then
        var linked := Open(store, ch.name, ch.id);
        var c := linked.names[ch.name];
        if c in linked.objs && Complete(linked.objs[c].entries, ch.name[|CACHE_PREFIX|..]) then
          Went(linked, Storing(url, c))
        else Went(linked, Searching(url, keys - {ch.name}))
      else Stuck
    case Storing(url, c) =>
      if c in store.objs && ch.resp.Asset? then Went(Put(store, c, url, ch.resp), Served) else Stuck
    case _ => Stuck
  }

  /** Activation evicts the other caches and scrubs the build's own. */
  ghost function ActivationStep(store: Store, p: Proc, ch: Choice): Outcome {
    match p
    case Activating(b) =>
      Went(store, Evict(b, set n | n in store.names && AppName(n) && n != CacheName(b)))
    case Evict(b, gone) =>
      if gone == {} then
        if ch.id !in store.objs then
          var linked := Open(store, CacheName(b), ch.id);
          Went(linked, ListKept(b, linked.names[CacheName(b)]))
        else Stuck
      else if ch.name in gone then
        Went(store.(names := store.names - {ch.name}), Evict(b, gone - {ch.name}))
      else Stuck
    case ListKept(b, c) =>
      if c in store.objs then
        Went(store, Scrub(b, c, set u | u in store.objs[c].entries && !Allowed(u)))
      else Stuck
    case Scrub(b, c, todo) =>
      if todo == {} then Went(store, Activated(b))
      else if ch.url in todo && c in store.objs then
        Went(Drop(store, c, ch.url), Scrub(b, c, todo - {ch.url}))
      else Stuck
    case _ => Stuck
  }

  /** One step of one process.  `Stuck` is the end of the process: it has finished, or it throws. */
  ghost function Advance(store: Store, p: Proc, ch: Choice): Outcome {
    if Staging(p) then StagingStep(store, p, ch)
    else if Promoting(p) then PromotionStep(store, p, ch)
    else if ActivationPhase(p) then ActivationStep(store, p, ch)
    else ServingStep(store, p, ch)
  }

  // ----- runs -----

  datatype Sys = Sys(store: Store, procs: map<nat, Proc>)

  datatype Event = Start(pid: nat, proc: Proc) | Cut(pid: nat) | Step(pid: nat, choice: Choice)

  /** The builds among the given ones that are installed by staging; the dev build is not. */
  predicate Installable(builds: set<BuildId>, b: BuildId) { b in builds && b != "" && b != DEV_BUILD }

  /** The processes that may begin: installs of the given builds or of the dev build, activations, and
      fetches of a runtime static asset that is not a core one. */
  predicate Startable(builds: set<BuildId>, p: Proc) {
    || (p.Fetching? && Installable(builds, p.b))
    || p.DevOpen?
    || (p.Serving? && RuntimeStatic(p.url) && !CoreKey(p.url))
    || p.Activating?
  }

  ghost predicate Can(builds: set<BuildId>, s: Sys, e: Event) {
    match e
    case Start(pid, p) => pid !in s.procs && Startable(builds, p)
    case Cut(pid) => true
    case Step(pid, ch) => pid in s.procs && Advance(s.store, s.procs[pid], ch).Went?
  }

  ghost function Do(builds: set<BuildId>, s: Sys, e: Event): Sys
    requires Can(builds, s, e)
  {
    match e
    case Start(pid, p) => s.(procs := s.procs[pid := p])
    case Cut(pid) => s.(procs := s.procs - {pid})
    case Step(pid, ch) =>
      var went := Advance(s.store, s.procs[pid], ch);
      Sys(went.store, s.procs[pid := went.proc])
  }

  /** `events` lead from `s` to `t`. */
  ghost predicate Run(builds: set<BuildId>, s: Sys, events: seq<Event>, t: Sys)
    decreases |events|
  {
    if events == [] then s == t
    else Can(builds, s, events[0]) && Run(builds, Do(builds, s, events[0]), events[1..], t)
  }

  /** The start: nothing running, and whatever earlier versions stored, none of it has the marker. */
  ghost predicate Initial(s: Sys) {
    && s.procs == map[]
    && NamesLinked(s.store)
    && forall c | c in s.store.objs :: MARKER !in s.store.objs[c].entries
  }

  ghost predicate NamesLinked(store: Store) {
    forall n | n in store.names :: store.names[n] in store.objs && store.objs[store.names[n]].birth == n
  }

  ghost predicate Reachable(builds: set<BuildId>, t: Sys) {
    exists s, events :: Initial(s) && Run(builds, s, events, t)
  }

  // ----- marker last -----

  ghost predicate MarkerLast(store: Store) {
    forall c | c in store.objs && MARKER in store.objs[c].entries :: Whole(store.objs[c].entries)
  }

  ghost predicate IsStaging(builds: set<BuildId>, n: Name) {
    exists b :: Installable(builds, b) && n == StagingName(b)
  }

  /** No build's cache is the staging cache of another. */
  ghost predicate NoAlias(builds: set<BuildId>) {
    forall b | Installable(builds, b) :: !IsStaging(builds, CacheName(b))
  }

  ghost predicate StoreInv(builds: set<BuildId>, store: Store) {
    && NamesLinked(store)
    && MarkerLast(store)
    && forall c | c in store.objs && IsStaging(builds, store.objs[c].birth) :: MARKER !in store.objs[c].entries
  }

  predicate Holds(store: Store, c: nat, n: Name) {
    c in store.objs && store.objs[c].birth == n
  }

  predicate Vital(u: Url) { Required(u) || Wasm(u) }

  /** A cache created under one of this app's names. */
  predicate AppCache(store: Store, c: nat) { c in store.objs && AppName(store.objs[c].birth) }

  ghost predicate ProcInv(builds: set<BuildId>, store: Store, p: Proc) {
    match p
    case Fetching(b) => Installable(builds, b)
    case ListOld(b, wasm, st) => Installable(builds, b) && Wasm(wasm) && Holds(store, st, StagingName(b))
    case Clear(b, wasm, st, todo) => Installable(builds, b) && Wasm(wasm) && Holds(store, st, StagingName(b))
    case Fill(b, wasm, st, todo) =>
      Installable(builds, b) && Wasm(wasm) && Holds(store, st, StagingName(b)) && todo <= Wanted(wasm)
    case Extras(b, wasm, st, todo) =>
      Installable(builds, b) && Wasm(wasm) && Holds(store, st, StagingName(b)) && todo <= Urls(OPTIONAL_PATHS)
    case CheckStaged(b, wasm, st, todo) => Installable(builds, b) && Wasm(wasm) && Holds(store, st, StagingName(b))
    case DropMarker(b, wasm, st, c) =>
      Installable(builds, b) && Wasm(wasm) && Holds(store, st, StagingName(b)) && Holds(store, c, CacheName(b))
    case ListNew(b, wasm, st, c) =>
      Installable(builds, b) && Wasm(wasm) && Holds(store, st, StagingName(b)) && Holds(store, c, CacheName(b))
    case Promote(b, wasm, st, c, todo) =>
      && Installable(builds, b) && Wasm(wasm) && Holds(store, st, StagingName(b)) && Holds(store, c, CacheName(b))
      && MARKER !in todo
    case Copy(b, wasm, st, c, todo, url, resp) =>
      && Installable(builds, b) && Wasm(wasm) && Holds(store, st, StagingName(b)) && Holds(store, c, CacheName(b))
      && MARKER !in todo && url != MARKER
    case CheckBuilt(b, wasm, c, todo) =>
      && Installable(builds, b) && Wasm(wasm) && Holds(store, c, CacheName(b))
      && forall u | u in Wanted(wasm) && u !in todo :: u in store.objs[c].entries
    case DevFill(c, _) => Holds(store, c, CacheName(DEV_BUILD))
    case Serving(b, url) => RuntimeStatic(url) && !CoreKey(url)
    case Owned(b, url, c) => AppCache(store, c) && RuntimeStatic(url) && !CoreKey(url)
    case Searching(url, keys) => (forall n | n in keys :: Selectable(n)) && RuntimeStatic(url) && !CoreKey(url)
    case Storing(url, c) => AppCache(store, c) && RuntimeStatic(url) && !CoreKey(url)
    case ListKept(b, c) => c in store.objs
    case Scrub(b, c, todo) => c in store.objs && forall u | u in todo :: !Allowed(u)
    case _ => true
  }

  /** What every step leaves alone: identities, birth names, and the vital entries of every cache that is
      not a staging cache. */
  ghost predicate Guarantee(builds: set<BuildId>, s: Store, t: Store) {
    forall c | c in s.objs ::
      && c in t.objs && t.objs[c].birth == s.objs[c].birth
      && (!IsStaging(builds, s.objs[c].birth) ==>
            forall u | Vital(u) && u in s.objs[c].entries :: u in t.objs[c].entries)
  }

  lemma ProcInvStable(builds: set<BuildId>, s: Store, t: Store, p: Proc)
    requires NoAlias(builds) && ProcInv(builds, s, p) && Guarantee(builds, s, t)
    ensures ProcInv(builds, t, p)
  {
    if p.CheckBuilt? {
      assert forall u | u in Wanted(p.wasm) :: Vital(u);
    }
  }

  lemma OpenKeeps(builds: set<BuildId>, store: Store, n: Name, id: nat)
    requires StoreInv(builds, store) && id !in store.objs
    ensures var t := Open(store, n, id);
            && StoreInv(builds, t) && Guarantee(builds, store, t)
            && n in t.names && Holds(t, t.names[n], n)
  {
  }

  lemma PutKeeps(builds: set<BuildId>, store: Store, c: nat, u: Url, r: Resp)
    requires StoreInv(builds, store) && c in store.objs
    requires u == MARKER ==> Whole(store.objs[c].entries) && !IsStaging(builds, store.objs[c].birth)
    ensures StoreInv(builds, Put(store, c, u, r)) && Guarantee(builds, store, Put(store, c, u, r))
  {
    var e, e' := store.objs[c].entries, Put(store, c, u, r).objs[c].entries;
    assert e.Keys <= e'.Keys;
    assert Whole(e) ==> Whole(e');
  }

  lemma DropKeeps(builds: set<BuildId>, store: Store, c: nat, u: Url)
    requires StoreInv(builds, store) && c in store.objs
    requires !Vital(u) || IsStaging(builds, store.objs[c].birth)
    ensures StoreInv(builds, Drop(store, c, u)) && Guarantee(builds, store, Drop(store, c, u))
  {
    var e, e' := store.objs[c].entries, Drop(store, c, u).objs[c].entries;
    assert forall v | v != u && v in e :: v in e';
    if MARKER in e' {
      assert Whole(e');
    }
  }

  lemma VitalIsAllowed(u: Url)
    requires Vital(u)
    ensures Allowed(u) && u != MARKER
  {
    MarkerIsNoAsset();
  }

  ghost predicate Kept(builds: set<BuildId>, store: Store, went: Outcome) {
    && went.Went?
    && StoreInv(builds, went.store) && ProcInv(builds, went.store, went.proc)
    && Guarantee(builds, store, went.store)
  }

  lemma OpeningStepKeeps(builds: set<BuildId>, store: Store, p: Proc, ch: Choice)
    requires StoreInv(builds, store) && ProcInv(builds, store, p)
    requires p.Fetching? || p.ListOld? || p.CheckStaged?
    requires StagingStep(store, p, ch).Went?
    ensures Kept(builds, store, StagingStep(store, p, ch))
  {
    match p
    case Fetching(b) => OpenKeeps(builds, store, StagingName(b), ch.id);
    case CheckStaged(b, wasm, st, todo) =>
      if todo == {} {
        OpenKeeps(builds, store, CacheName(b), ch.id);
      }
    case _ =>
  }

  lemma StagingStepKeeps(builds: set<BuildId>, store: Store, p: Proc, ch: Choice)
    requires StoreInv(builds, store) && ProcInv(builds, store, p)
    requires p.Clear? || p.Fill? || p.Extras?
    requires StagingStep(store, p, ch).Went?
    ensures Kept(builds, store, StagingStep(store, p, ch))
  {
    MarkerIsNoAsset();
    if p.todo != {} {
      if p.Clear? {
        DropKeeps(builds, store, p.staging, ch.url);
      } else {
        PutKeeps(builds, store, p.staging, ch.url, ch.resp);
      }
    }
  }

  lemma DropMarkerKeeps(builds: set<BuildId>, store: Store, p: Proc, ch: Choice)
    requires StoreInv(builds, store) && ProcInv(builds, store, p)
    requires p.DropMarker? && PromotionStep(store, p, ch).Went?
    ensures Kept(builds, store, PromotionStep(store, p, ch))
  {
    MarkerIsNoAsset();
    DropKeeps(builds, store, p.cache, MARKER);
  }

  lemma PromotionStepKeeps(builds: set<BuildId>, store: Store, p: Proc, ch: Choice)
    requires StoreInv(builds, store) && ProcInv(builds, store, p)
    requires p.ListNew? || p.Promote? || p.Copy?
    requires PromotionStep(store, p, ch).Went?
    ensures Kept(builds, store, PromotionStep(store, p, ch))
  {
    if p.Copy? {
      PutKeeps(builds, store, p.cache, p.url, p.resp);
    }
  }

  lemma WantedMakesWhole(e: Entries, wasm: Url)
    requires Wasm(wasm) && Wanted(wasm) <= e.Keys
    ensures Whole(e)
  {
    assert wasm in Wanted(wasm) && forall u | Required(u) :: u in Wanted(wasm);
  }

  lemma CommitStepKeeps(builds: set<BuildId>, store: Store, p: Proc, ch: Choice)
    requires NoAlias(builds) && StoreInv(builds, store) && ProcInv(builds, store, p)
    requires p.CheckBuilt? && PromotionStep(store, p, ch).Went?
    ensures Kept(builds, store, PromotionStep(store, p, ch))
  {
    if p.todo == {} {
      WantedMakesWhole(store.objs[p.cache].entries, p.wasm);
      PutKeeps(builds, store, p.cache, MARKER, Manifest(p.b));
    }
  }

  lemma FetchOpensKeeps(builds: set<BuildId>, store: Store, p: Proc, ch: Choice)
    requires StoreInv(builds, store) && ProcInv(builds, store, p) && (p.Serving? || p.Searching?)
    requires ServingStep(store, p, ch).Went?
    ensures Kept(builds, store, ServingStep(store, p, ch))
  {
    OpenKeeps(builds, store, if p.Serving? then CacheName(p.b) else ch.name, ch.id);
  }

  lemma FetchStoresKeeps(builds: set<BuildId>, store: Store, p: Proc, ch: Choice)
    requires StoreInv(builds, store) && ProcInv(builds, store, p) && (p.Owned? || p.Storing?)
    requires ServingStep(store, p, ch).Went?
    ensures Kept(builds, store, ServingStep(store, p, ch))
  {
    if p.Storing? {
      MarkerIsNoAsset();
      PutKeeps(builds, store, p.cache, p.url, ch.resp);
    }
  }

  lemma DevStepKeeps(builds: set<BuildId>, store: Store, p: Proc, ch: Choice)
    requires StoreInv(builds, store) && ProcInv(builds, store, p) && (p.DevOpen? || p.DevFill?)
    requires ServingStep(store, p, ch).Went?
    ensures Kept(builds, store, ServingStep(store, p, ch))
  {
    if p.DevOpen? {
      OpenKeeps(builds, store, CacheName(DEV_BUILD), ch.id);
    } else {
      MarkerIsNoAsset();
      PutKeeps(builds, store, p.cache, ch.url, ch.resp);
    }
  }

  lemma ServingStepKeeps(builds: set<BuildId>, store: Store, p: Proc, ch: Choice)
    requires StoreInv(builds, store) && ProcInv(builds, store, p)
    requires ServingStep(store, p, ch).Went?
    ensures Kept(builds, store, ServingStep(store, p, ch))
  {
    if p.Serving? || p.Searching? {
      FetchOpensKeeps(builds, store, p, ch);
    } else if p.Owned? || p.Storing? {
      FetchStoresKeeps(builds, store, p, ch);
    } else {
      DevStepKeeps(builds, store, p, ch);
    }
  }

  lemma ActivationStepKeeps(builds: set<BuildId>, store: Store, p: Proc, ch: Choice)
    requires StoreInv(builds, store) && ProcInv(builds, store, p) && ActivationPhase(p)
    requires ActivationStep(store, p, ch).Went?
    ensures Kept(builds, store, ActivationStep(store, p, ch))
  {
    match p
    case Evict(b, gone) =>
      if gone == {} {
        OpenKeeps(builds, store, CacheName(b), ch.id);
      }
    case Scrub(b, c, todo) =>
      if todo != {} {
        if Vital(ch.url) {
          VitalIsAllowed(ch.url);
        }
        DropKeeps(builds, store, c, ch.url);
      }
    case _ =>
  }

  /** Every step keeps the store and its own process consistent, and guarantees the rest. */
  lemma StepKeeps(builds: set<BuildId>, store: Store, p: Proc, ch: Choice)
    requires NoAlias(builds) && StoreInv(builds, store) && ProcInv(builds, store, p)
    requires Advance(store, p, ch).Went?
    ensures Kept(builds, store, Advance(store, p, ch))
  {
    if p.Fetching? || p.ListOld? || p.CheckStaged? {
      OpeningStepKeeps(builds, store, p, ch);
    } else if p.Clear? || p.Fill? || p.Extras? {
      StagingStepKeeps(builds, store, p, ch);
    } else if p.CheckBuilt? {
      CommitStepKeeps(builds, store, p, ch);
    } else if p.DropMarker? {
      DropMarkerKeeps(builds, store, p, ch);
    } else if Installing(p) {
      PromotionStepKeeps(builds, store, p, ch);
    } else if ActivationPhase(p) {
      ActivationStepKeeps(builds, store, p, ch);
    } else {
      ServingStepKeeps(builds, store, p, ch);
    }
  }

  ghost predicate Inv(builds: set<BuildId>, s: Sys) {
    StoreInv(builds, s.store) && forall pid | pid in s.procs :: ProcInv(builds, s.store, s.procs[pid])
  }

  lemma DoKeeps(builds: set<BuildId>, s: Sys, e: Event)
    requires NoAlias(builds) && Inv(builds, s) && Can(builds, s, e)
    ensures Inv(builds, Do(builds, s, e))
  {
    if e.Step? {
      StepKeeps(builds, s.store, s.procs[e.pid], e.choice);
      var t := Do(builds, s, e);
      forall pid | pid in t.procs
        ensures ProcInv(builds, t.store, t.procs[pid])
      {
        if pid != e.pid {
          ProcInvStable(builds, s.store, t.store, s.procs[pid]);
        }
      }
    }
  }

  lemma {:induction false} RunKeeps(builds: set<BuildId>, s: Sys, events: seq<Event>, t: Sys)
    requires NoAlias(builds) && Inv(builds, s) && Run(builds, s, events, t)
    ensures Inv(builds, t)
    decreases |events|
  {
    if events != [] {
      DoKeeps(builds, s, events[0]);
      RunKeeps(builds, Do(builds, s, events[0]), events[1..], t);
    }
  }

  lemma ReachableInv(builds: set<BuildId>, s: Sys)
    requires NoAlias(builds) && Reachable(builds, s)
    ensures Inv(builds, s)
  {
    var s0, before :| Initial(s0) && Run(builds, s0, before, s);
    RunKeeps(builds, s0, before, s);
  }
}
