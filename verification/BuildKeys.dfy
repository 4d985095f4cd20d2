/**
 Which requests may stay in a build's cache, by what their paths look like.
 */
module BuildKeys {
  import opened BuildCache
  import opened BuildActivation

  // ----- cache names -----

  /** Letters, digits, and the three marks that a build id keeps, by their codes. */
  predicate Plain(code: int) {
    65 <= code <= 90 || 97 <= code <= 122 || 48 <= code <= 57 || code == 45 || code == 46 || code == 95
  }

  /** The name of a build's cache has a character for each of the build id's: that one if it is plain, else a dash. */
  lemma NameOf(b: BuildId, i: nat)
    requires i < |b|
    ensures |CacheName(b)| == |"cashflux-fav1-"| + |b|
    ensures CacheName(b)[|"cashflux-fav1-"| + i] == if Plain(b[i] as int) then b[i] else '-'
    ensures "cashflux-fav1-" <= CacheName(b) && StagingName(b) == CacheName(b) + "-staging"
  {
    assert |Sanitize(b)| == |b|;
  }

  /** A build without an id has the dev build's cache. */
  lemma NameOfNone()
    ensures CacheName("") == "cashflux-fav1-dev" == CacheName("dev")
  {
    assert Sanitize("dev") == "dev" && Sanitize("") == "";
  }

  /** Activation removes the caches of every version of the app, old ones included. */
  lemma AppNameExactly(n: Name)
    ensures AppName(n) <==> |n| >= 9 && n[..9] == "cashflux-"
  {
    assert LEGACY_CACHE_PREFIX == CACHE_PREFIX[..9];
  }

  // ----- complete builds -----

  function Root(path: string): Url { Local(path, "") }

  /** A cache counts as complete exactly if its marker names the build, the shell is there, and so is one of the two
      spellings of the binary. */
  lemma CompleteExactly(e: Entries, b: BuildId)
    ensures Complete(e, b) <==>
              && Local("__cashflux_complete__.json", "") in e
              && e[Local("__cashflux_complete__.json", "")] == Manifest(b)
              && (forall path | path in REQUIRED_PATHS :: Root(path) in e)
              && (Root("bin/main.wasm") in e || Root("bin/main.wasm.gz") in e)
  {
    assert forall path | path in REQUIRED_PATHS :: Required(Root(path));
    assert forall u | Required(u) :: u == Root(u.path);
    assert Wasm(Root("bin/main.wasm")) && Wasm(Root("bin/main.wasm.gz"));
  }

  // ----- runtime assets -----

  /** A file of that directory and of that kind, with a name. */
  ghost predicate Filed(path: string, dir: string, extension: string) {
    exists name: string :: name != "" && '/' !in name && path == dir + name + extension
  }

  lemma FileInExactly(path: string, dir: string, extension: string)
    requires '/' !in extension
    ensures FileIn(path, dir, extension) <==> Filed(path, dir, extension)
  {
    if FileIn(path, dir, extension) {
      var name := path[|dir|..|path| - |extension|];
      assert path == dir + name + extension;
      assert forall c | c in name :: c in path[|dir|..];
    }
    if Filed(path, dir, extension) {
      var name: string :| name != "" && '/' !in name && path == dir + name + extension;
      assert path[|dir|..] == name + extension;
      assert path[|path| - |extension|..] == extension;
    }
  }

  ghost predicate Image(path: string) {
    || Filed(path, "admin/img/", ".png") || Filed(path, "admin/img/", ".jpg") || Filed(path, "admin/img/", ".jpeg")
    || Filed(path, "admin/img/", ".webp") || Filed(path, "admin/img/", ".svg")
  }

  /** What is stored as it is fetched: fonts, sounds and the images of the admin pages, none of them in a
      directory further down. */
  lemma StaticExactly(path: string, search: string)
    ensures RuntimeStatic(Local(path, search)) <==>
              Filed(path, "fonts/", ".woff2") || Filed(path, "audio/", ".mp3") || Image(path)
  {
    FileInExactly(path, "fonts/", ".woff2");
    FileInExactly(path, "audio/", ".mp3");
    FileInExactly(path, "admin/img/", ".png");
    FileInExactly(path, "admin/img/", ".jpg");
    FileInExactly(path, "admin/img/", ".jpeg");
    FileInExactly(path, "admin/img/", ".webp");
    FileInExactly(path, "admin/img/", ".svg");
  }

  // ----- what may never stay -----

  predicate Api(path: string) { "api/" <= path }

  lemma ApiHead(path: string)
    requires Api(path)
    ensures |path| > 2 && path[0] == 'a' && path[1] == 'p' && path[2] == 'i'
  {
    assert path[..4] == "api/";
    assert path[..4][0] == 'a' && path[..4][1] == 'p' && path[..4][2] == 'i';
  }

  lemma ApiIsNotStatic(path: string, search: string)
    requires Api(path)
    ensures !RuntimeStatic(Local(path, search))
  {
    ApiHead(path);
  }

  lemma RequiredIsNotApi(path: string)
    requires path in REQUIRED_PATHS
    ensures !Api(path)
  {
    if Api(path) {
      ApiHead(path);
    }
  }

  lemma WasmIsNotApi(path: string)
    requires path in WASM_PATHS
    ensures !Api(path)
  {
    if Api(path) {
      ApiHead(path);
    }
  }

  lemma OptionalIsNotApi(path: string)
    requires path in OPTIONAL_PATHS
    ensures !Api(path)
  {
    if Api(path) {
      ApiHead(path);
    }
  }

  /** No response of an API route, nothing from elsewhere, and no root document for a query. */
  lemma NeverAllowed(path: string, search: string, href: string)
    ensures Api(path) ==> !Allowed(Local(path, search))
    ensures !Allowed(Foreign(href))
    ensures search != "" ==> !Allowed(Local("", search))
  {
    var root := Local("", search);
    if RuntimeStatic(root) {
      StaticIsNotRoot(root);
    }
    if Api(path) {
      ApiIsNotStatic(path, search);
      if path in REQUIRED_PATHS {
        RequiredIsNotApi(path);
      } else if path in WASM_PATHS {
        WasmIsNotApi(path);
      } else if path in OPTIONAL_PATHS {
        OptionalIsNotApi(path);
      }
      assert MARKER.path[0] == '_';
    }
  }

  /** Once a build has been activated, no cached response of an API route is left. */
  lemma NoApiLeft(start: Store, store: Store, b: BuildId, n: Name, u: Url)
    requires Cleaned(start, store, b) && n in store.names && AppName(n) && store.names[n] in store.objs
    requires u in store.objs[store.names[n]].entries
    ensures u.Local? && !Api(u.path) && (u.path == "" ==> u.search == "")
  {
    if u.Local? {
      NeverAllowed(u.path, u.search, "");
    } else {
      NeverAllowed("", "", u.href);
    }
  }
}
