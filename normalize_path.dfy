/** Splitting a wire path into the store path, the raw path and the
    priority flag: lib/normalize-path.js (the older modular version) and
    normalizePath in index.ts (the current one). */
module Paths {
  import opened Js

  datatype NormalizedPath = NormalizedPath(path: string, fullPath: string, isPriorityPath: bool)

  /** `/\/?\.priority$/.test(s)`: the optional slash never decides a match. */
  predicate MatchesPrioritySuffix(s: string)
  {
    EndsWith(s, ".priority")
  }

  /** `s.replace(/\/?\.priority$/, '')`. The leftmost match is taken, so the
      slash goes with the suffix when there is one; only one match is removed. */
  function StripPrioritySuffix(s: string): (r: string)
    ensures MatchesPrioritySuffix(s) ==>
      r + "/.priority" == s || (r + ".priority" == s && !EndsWith(r, "/"))
    ensures !MatchesPrioritySuffix(s) ==> r == s
  {
    if !MatchesPrioritySuffix(s) then s
    else if |s| >= 10 && s[|s| - 10] == '/' then s[..|s| - 10]
    else s[..|s| - 9]
  }

  /** lib/normalize-path.js: no leading slash is stripped in this version. */
  function LegacyNormalizePath(fullPath: string): (r: NormalizedPath)
    ensures r.fullPath == fullPath
    ensures r.isPriorityPath <==> EndsWith(fullPath, ".priority")
    ensures r.isPriorityPath ==>
      r.path + "/.priority" == fullPath || (r.path + ".priority" == fullPath && !EndsWith(r.path, "/"))
    ensures !r.isPriorityPath ==> r.path == fullPath
  {
    var isPriorityPath := MatchesPrioritySuffix(fullPath);
    NormalizedPath(if isPriorityPath then StripPrioritySuffix(fullPath) else fullPath, fullPath, isPriorityPath)
  }

  /** `path.charAt(0) === '/' ? path.substr(1) : path` */
  function DropLeadingSlash(s: string): (r: string)
    ensures "/" + r == s || (r == s && !(|s| > 0 && s[0] == '/'))
  {
    if |s| > 0 && s[0] == '/' then s[1..] else s
  }

  /** normalizePath in index.ts: one `/?.priority` suffix is removed, then
      exactly one leading slash. */
  function NormalizePath(fullPath: string): (r: NormalizedPath)
    ensures r.fullPath == fullPath
    ensures r.isPriorityPath <==> EndsWith(fullPath, ".priority")
    ensures r.path == DropLeadingSlash(LegacyNormalizePath(fullPath).path)
  {
    var legacy := LegacyNormalizePath(fullPath);
    NormalizedPath(DropLeadingSlash(legacy.path), fullPath, legacy.isPriorityPath)
  }

  /** Both versions agree except for the leading slash: when the stripped
      path has none, the two results are identical. */
  lemma NormalizeVersionsAgree(fullPath: string)
    requires !(|fullPath| > 0 && fullPath[0] == '/')
    ensures NormalizePath(fullPath) == LegacyNormalizePath(fullPath)
  {
    var p := LegacyNormalizePath(fullPath).path;
    if |p| > 0 {
      assert p[0] == fullPath[0];
    }
  }

  /** For a priority path, the store path and the priority suffix
      reassemble the raw path (index.ts, up to the leading slash it strips). */
  lemma {:induction false} PriorityPathReassembles(fullPath: string)
    requires EndsWith(fullPath, ".priority")
    ensures var r := NormalizePath(fullPath);
      exists lead, suffix :: lead in {"", "/"} && suffix in {"/.priority", ".priority"} &&
        lead + r.path + suffix == fullPath
  {
    var legacy := LegacyNormalizePath(fullPath);
    var r := NormalizePath(fullPath);
    var lead := if |legacy.path| > 0 && legacy.path[0] == '/' then "/" else "";
    assert legacy.path == lead + r.path;
    if legacy.path + "/.priority" == fullPath {
      assert lead + r.path + "/.priority" == fullPath;
    } else {
      assert lead + r.path + ".priority" == fullPath;
    }
  }

  /** Only one suffix is removed: "a/.priority/.priority" keeps a suffix
      that is itself priority-shaped. */
  lemma SingleSuffixRemoved()
    ensures LegacyNormalizePath("a/.priority/.priority") == NormalizedPath("a/.priority", "a/.priority/.priority", true)
    ensures MatchesPrioritySuffix(LegacyNormalizePath("a/.priority/.priority").path)
  {
  }

  /** The slash is optional: "ab.priority" is a priority path of "ab". */
  lemma SlashIsOptional()
    ensures LegacyNormalizePath("ab.priority") == NormalizedPath("ab", "ab.priority", true)
    ensures NormalizePath("/a/b/c/.priority") == NormalizedPath("a/b/c", "/a/b/c/.priority", true)
  {
    var s := "ab.priority";
    assert s[|s| - 9..] == ".priority" && s[|s| - 10] == 'b';
    assert s[..|s| - 9] == "ab";
    var t := "/a/b/c/.priority";
    assert t[|t| - 9..] == ".priority" && t[|t| - 10] == '/';
    assert t[..|t| - 10] == "/a/b/c";
    assert "/a/b/c"[1..] == "a/b/c";
  }

  /** The unit-test vectors of lib/normalize-path.js. */
  lemma LegacyVectors()
    ensures LegacyNormalizePath("a/b/c") == NormalizedPath("a/b/c", "a/b/c", false)
    ensures LegacyNormalizePath("a/b/c/.priority") == NormalizedPath("a/b/c", "a/b/c/.priority", true)
    ensures LegacyNormalizePath("/a/b") == NormalizedPath("/a/b", "/a/b", false)
  {
  }

  /** normalizePath is not idempotent: a second application strips a
      second suffix, or a second leading slash. */
  lemma NotIdempotent()
    ensures NormalizePath("a/.priority/.priority").path == "a/.priority"
    ensures NormalizePath(NormalizePath("a/.priority/.priority").path).path == "a"
    ensures NormalizePath("//a").path == "/a"
    ensures NormalizePath(NormalizePath("//a").path).path == "a"
  {
    SingleSuffixRemoved();
    var once := "a/.priority";
    assert once[|once| - 10] == '/';
    assert LegacyNormalizePath(once).path == "a";
    assert !EndsWith("//a", ".priority");
    assert !EndsWith("/a", ".priority");
  }
}
