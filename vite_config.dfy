/** The path-splitting callbacks of the bundler configuration: the
    `manualChunks` vendor splitter, the `chunkFileNames` namer and the three
    development-proxy path rewrites. */
module ViteConfig {
  import opened Common

  /** What `manualChunks` yields for a module id: `undefined` (default
      chunking), a chunk name, or the TypeError raised when the text after
      `node_modules/` is read from a split that has no second part. */
  datatype ChunkChoice = NoChunk | Chunk(name: string) | Throws

  const NodeModules := "node_modules"
  const NodeModulesDir := "node_modules/"

  function ManualChunks(id: string): ChunkChoice {
    if IndexOf(id, NodeModules, 0).None? then NoChunk
    else
      var parts := Split(id, NodeModulesDir);
      if |parts| < 2 then Throws
      else Chunk(Split(parts[1], "/")[0])
  }

  /** `name` is the package directory at the head of `rest` (the text after the
      first `node_modules/`): it holds no '/', no `node_modules/` starts inside
      it, and it stops at a '/', at the next `node_modules/`, or at the end. */
  ghost predicate IsPackageDir(rest: string, name: string) {
    && StartsWith(rest, name)
    && '/' !in name
    && (forall k :: 0 <= k < |name| ==> !OccursAt(rest, NodeModulesDir, k))
    && (|name| == |rest| || rest[|name|] == '/' || OccursAt(rest, NodeModulesDir, |name|))
  }

  /** Ids outside `node_modules` get no chunk; ids that mention `node_modules`
      but never `node_modules/` throw; all others are named by the package
      directory right after the first `node_modules/`. */
  lemma ManualChunksSpec(id: string)
    ensures ManualChunks(id) == NoChunk <==> !Contains(id, NodeModules)
    ensures ManualChunks(id) == Throws <==> Contains(id, NodeModules) && !Contains(id, NodeModulesDir)
    ensures ManualChunks(id).Chunk? ==>
              && IndexOf(id, NodeModulesDir, 0).Some?
              && IsPackageDir(id[IndexOf(id, NodeModulesDir, 0).value + |NodeModulesDir|..], ManualChunks(id).name)
  {
    IndexOfContains(id, NodeModules);
    IndexOfContains(id, NodeModulesDir);
    SplitSingle(id, NodeModulesDir);
    if Contains(id, NodeModulesDir) {
      var i :| 0 <= i <= |id| && OccursAt(id, NodeModulesDir, i);
      assert id[i..i + |NodeModules|] == id[i..i + |NodeModulesDir|][..|NodeModules|];
      assert OccursAt(id, NodeModules, i);
    }
    if ManualChunks(id).Chunk? {
      var i := IndexOf(id, NodeModulesDir, 0).value;
      var rest := id[i + |NodeModulesDir|..];
      assert Split(id, NodeModulesDir)[1] == Split(rest, NodeModulesDir)[0];
      PackageDirOfRest(rest);
    }
  }

  /** The first part of `rest` split at `node_modules/`, then at '/', is its
      package directory. */
  lemma PackageDirOfRest(rest: string)
    ensures IsPackageDir(rest, Split(Split(rest, NodeModulesDir)[0], "/")[0])
  {
    var seg := Split(rest, NodeModulesDir)[0];
    var name := Split(seg, "/")[0];
    var j := if IndexOf(rest, NodeModulesDir, 0).Some? then IndexOf(rest, NodeModulesDir, 0).value else |rest|;
    assert seg == rest[..j];
    if IndexOf(seg, "/", 0).None? {
      assert name == seg;
      NoSlashBefore(seg, |seg|);
      assert seg[..|seg|] == seg;
    } else {
      var p := IndexOf(seg, "/", 0).value;
      assert name == seg[..p];
      NoSlashBefore(seg, p);
      assert seg[p..p + 1] == "/";
      assert rest[p] == seg[p];
    }
  }

  lemma NoSlashBefore(s: string, p: nat)
    requires p <= |s|
    requires forall k :: 0 <= k < p ==> !OccursAt(s, "/", k)
    ensures '/' !in s[..p]
  {
    forall k | 0 <= k < p ensures s[k] != '/' {
      assert !OccursAt(s, "/", k);
      assert s[k..k + 1] == [s[k]];
    }
  }

  /** The package directory is determined: two candidates are the same text. */
  lemma PackageDirUnique(rest: string, a: string, b: string)
    requires IsPackageDir(rest, a) && IsPackageDir(rest, b)
    ensures a == b
  {
    PackageDirNotLonger(rest, a, b);
    PackageDirNotLonger(rest, b, a);
    assert a == rest[..|a|] == b;
  }

  lemma PackageDirNotLonger(rest: string, a: string, b: string)
    requires IsPackageDir(rest, a) && IsPackageDir(rest, b)
    ensures |b| <= |a|
  {
  }

  /** A scoped package such as `@vue/shared` yields only its scope. */
  lemma ScopedPackageChunk(pre: string, scope: string, more: string)
    requires forall k :: 0 <= k < |pre| ==> !OccursAt(pre + NodeModulesDir + scope + "/" + more, NodeModulesDir, k)
    requires '/' !in scope && !Contains(scope, NodeModules)
    ensures ManualChunks(pre + NodeModulesDir + scope + "/" + more) == Chunk(scope)
  {
    var id := pre + NodeModulesDir + scope + "/" + more;
    var rest := scope + "/" + more;
    FirstDirAt(pre, rest);
    assert id == pre + NodeModulesDir + rest;
    ScopeIsPackageDir(scope, more);
    ManualChunksSpec(id);
    assert ManualChunks(id).Chunk?;
    assert id[IndexOf(id, NodeModulesDir, 0).value + |NodeModulesDir|..] == rest;
    PackageDirUnique(rest, scope, ManualChunks(id).name);
  }

  lemma FirstDirAt(pre: string, rest: string)
    requires forall k :: 0 <= k < |pre| ==> !OccursAt(pre + NodeModulesDir + rest, NodeModulesDir, k)
    ensures IndexOf(pre + NodeModulesDir + rest, NodeModulesDir, 0) == Some(|pre|)
    ensures (pre + NodeModulesDir + rest)[|pre| + |NodeModulesDir|..] == rest
    ensures Contains(pre + NodeModulesDir + rest, NodeModules)
    ensures Contains(pre + NodeModulesDir + rest, NodeModulesDir)
  {
    var id := pre + NodeModulesDir + rest;
    assert id[|pre|..|pre| + |NodeModulesDir|] == NodeModulesDir;
    assert OccursAt(id, NodeModulesDir, |pre|);
    assert id[|pre|..|pre| + |NodeModules|] == NodeModules;
    assert OccursAt(id, NodeModules, |pre|);
  }

  lemma ScopeIsPackageDir(scope: string, more: string)
    requires '/' !in scope && !Contains(scope, NodeModules)
    ensures IsPackageDir(scope + "/" + more, scope)
  {
    var rest := scope + "/" + more;
    forall k | 0 <= k < |scope| ensures !OccursAt(rest, NodeModulesDir, k) {
      NoDirInsideScope(scope, more, k);
    }
    assert rest[..|scope|] == scope;
  }

  lemma NoDirInsideScope(scope: string, more: string, k: nat)
    requires '/' !in scope && !Contains(scope, NodeModules) && k < |scope|
    ensures !OccursAt(scope + "/" + more, NodeModulesDir, k)
  {
    var rest := scope + "/" + more;
    var e := k + |NodeModules|;
    if e < |scope| {
      assert rest[e] == scope[e] != '/';
    } else if e == |scope| {
      assert rest[k..e] == scope[k..e];
      assert !OccursAt(scope, NodeModules, k);
    } else if e < |rest| {
      assert rest[|scope|] == '/';
      assert NodeModulesDir[|scope| - k] != '/';
    }
  }

  /** `chunkFileNames`: `js/<dir>/[name].js`, where `<dir>` is the second-to-last
      '/'-separated part of the facade module id, or `[name]` when there is no
      id, no such part, or the part is empty. */
  function ChunkFileNames(facadeModuleId: Option<string>): (r: string)
    ensures |r| > 13 && r[..3] == "js/" && r[|r| - 10..] == "/[name].js"
    ensures r[3..|r| - 10] != "" && '/' !in r[3..|r| - 10]
  {
    var dir := ChunkDir(facadeModuleId);
    var r := "js/" + dir + "/[name].js";
    assert r[3..|r| - 10] == dir;
    r
  }

  /** The directory part of `chunkFileNames`. */
  function ChunkDir(facadeModuleId: Option<string>): (dir: string)
    ensures dir != "" && '/' !in dir
  {
    var parts := if facadeModuleId.Some? && facadeModuleId.value != "" then Split(facadeModuleId.value, "/") else [];
    var dir := if |parts| >= 2 && parts[|parts| - 2] != "" then parts[|parts| - 2] else "[name]";
    assert '/' !in dir by {
      if dir != "[name]" {
        SplitPartsFree(facadeModuleId.value, "/");
        CharOccurrence(dir, '/');
      }
    }
    dir
  }

  /** The last two parts of `x/d/y`, when `d` and `y` hold no '/'. */
  lemma SplitLastTwo(x: string, d: string, y: string)
    requires '/' !in d && '/' !in y
    ensures Split(x + "/" + d + "/" + y, "/") == Split(x, "/") + [d, y]
  {
    SplitAround(d, '/', y);
    NoCharNoOccurrence(d, '/');
    NoCharNoOccurrence(y, '/');
    SplitWhole(d, "/");
    SplitWhole(y, "/");
    assert Split(d + "/" + y, "/") == [d, y];
    SplitAround(x, '/', d + "/" + y);
    assert x + "/" + d + "/" + y == x + ['/'] + (d + ['/'] + y);
  }

  /** A path `x/d/y` is filed under `d` (or `[name]` when `d` is empty). */
  lemma ChunkFileNamesParentDir(x: string, d: string, y: string)
    requires '/' !in d && '/' !in y
    ensures ChunkFileNames(Some(x + "/" + d + "/" + y)) == "js/" + (if d == "" then "[name]" else d) + "/[name].js"
  {
    SplitLastTwo(x, d, y);
    var parts := Split(x + "/" + d + "/" + y, "/");
    assert parts[|parts| - 2] == d;
  }

  /** A path `d/y` with a single '/' is filed under `d`. */
  lemma ChunkFileNamesTopDir(d: string, y: string)
    requires '/' !in d && '/' !in y
    ensures ChunkFileNames(Some(d + "/" + y)) == "js/" + (if d == "" then "[name]" else d) + "/[name].js"
  {
    SplitAround(d, '/', y);
    NoCharNoOccurrence(d, '/');
    NoCharNoOccurrence(y, '/');
    SplitWhole(d, "/");
    SplitWhole(y, "/");
    assert Split(d + "/" + y, "/") == [d, y];
  }

  /** Without an id, or with an id holding no '/', the chunk is filed under `[name]`. */
  lemma ChunkFileNamesFallback(facadeModuleId: Option<string>)
    requires facadeModuleId.Some? ==> '/' !in facadeModuleId.value
    ensures ChunkFileNames(facadeModuleId) == "js/[name]/[name].js"
  {
    if facadeModuleId.Some? && facadeModuleId.value != "" {
      NoCharNoOccurrence(facadeModuleId.value, '/');
      SplitWhole(facadeModuleId.value, "/");
    }
  }

  /** `path.replace(/^<prefix>/, replacement)`: only a leading occurrence is replaced. */
  function ReplaceLeading(path: string, prefix: string, replacement: string): (r: string)
    ensures StartsWith(path, prefix) ==> r == replacement + path[|prefix|..]
    ensures !StartsWith(path, prefix) ==> r == path
  {
    if StartsWith(path, prefix) then replacement + path[|prefix|..] else path
  }

  /** The `/api` proxy strips one leading `/api`; other paths pass unchanged. */
  function RewriteApi(path: string): (r: string)
    ensures StartsWith(path, "/api") ==> "/api" + r == path
    ensures !StartsWith(path, "/api") ==> r == path
  {
    ReplaceLeading(path, "/api", "")
  }

  /** The `/get` proxy strips one leading `/get`; other paths pass unchanged. */
  function RewriteGet(path: string): (r: string)
    ensures StartsWith(path, "/get") ==> "/get" + r == path
    ensures !StartsWith(path, "/get") ==> r == path
  {
    ReplaceLeading(path, "/get", "")
  }

  /** The `/KingAutomate` proxy replaces its prefix by itself: every path is kept. */
  function RewriteKingAutomate(path: string): (r: string)
    ensures r == path
  {
    ReplaceLeading(path, "/KingAutomate", "/KingAutomate")
  }
}
