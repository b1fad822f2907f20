/**
 * Plugin type and class predicates, the dashboard includes of a
 * `plugin.json`, the backend executable's path and the static route.
 */
module Plugins {
  import opened Wrappers
  import opened Ascii

  const TypePanel: string := "panel"
  const TypeApp: string := "app"
  /** `TypeDashboard`, the include type of a bundled dashboard. */
  const TypeDashboard: string := "dashboard"

  const ClassCore: string := "core"
  const ClassBundled: string := "bundled"
  const ClassExternal: string := "external"

  /** An entry of `includes`: only its type matters here. */
  datatype Include = Include(name: string, includeType: string)

  datatype Plugin = Plugin(id: string, pluginType: string, pluginClass: string, pluginDir: string, executable: string,
                           includes: seq<Include>)

  datatype StaticRoute = StaticRoute(directory: string, pluginId: string)

  /** `Type.IsValid`. */
  predicate IsValidType(t: string)
  {
    t == TypePanel || t == TypeApp
  }

  lemma IsValidTypeExactly(t: string)
    ensures IsValidType(t) <==> t in {"panel", "app"}
  {
  }

  predicate IsPanel(p: Plugin) { p.pluginType == TypePanel }
  predicate IsApp(p: Plugin) { p.pluginType == TypeApp }
  predicate IsCorePlugin(p: Plugin) { p.pluginClass == ClassCore }
  predicate IsBundledPlugin(p: Plugin) { p.pluginClass == ClassBundled }
  predicate IsExternalPlugin(p: Plugin) { p.pluginClass == ClassExternal }

  /** A plugin is at most one of core, bundled, external, and never both panel and app. */
  lemma ClassesExclusive(p: Plugin)
    ensures !(IsCorePlugin(p) && IsBundledPlugin(p))
    ensures !(IsCorePlugin(p) && IsExternalPlugin(p))
    ensures !(IsBundledPlugin(p) && IsExternalPlugin(p))
    ensures !(IsPanel(p) && IsApp(p))
    ensures IsValidType(p.pluginType) <==> IsPanel(p) || IsApp(p)
  {
  }

  /** The includes of type dashboard, in their order. */
  function DashboardIncludesOf(includes: seq<Include>): (r: seq<Include>)
    ensures |r| <= |includes|
    ensures forall x :: x in r <==> x in includes && x.includeType == TypeDashboard
  {
    if |includes| == 0 then []
    else
      var head := if includes[0].includeType == TypeDashboard then [includes[0]] else [];
      head + DashboardIncludesOf(includes[1..])
  }

  /** `s` is `t` with some elements left out. */
  predicate Subsequence(s: seq<Include>, t: seq<Include>)
    decreases |t|
  {
    |s| == 0 || (|t| > 0 && ((s[0] == t[0] && Subsequence(s[1..], t[1..])) || Subsequence(s, t[1..])))
  }

  /** The dashboard includes keep their original order. */
  lemma {:induction false} DashboardIncludesInOrder(includes: seq<Include>)
    ensures Subsequence(DashboardIncludesOf(includes), includes)
  {
    if |includes| > 0 {
      DashboardIncludesInOrder(includes[1..]);
      var rest := DashboardIncludesOf(includes[1..]);
      if includes[0].includeType == TypeDashboard {
        assert DashboardIncludesOf(includes) == [includes[0]] + rest;
        assert ([includes[0]] + rest)[1..] == rest;
      } else {
        assert DashboardIncludesOf(includes) == rest;
      }
    }
  }

  /** Filtering twice changes nothing. */
  lemma {:induction false} DashboardIncludesIdempotent(includes: seq<Include>)
    ensures DashboardIncludesOf(DashboardIncludesOf(includes)) == DashboardIncludesOf(includes)
  {
    if |includes| > 0 {
      DashboardIncludesIdempotent(includes[1..]);
      var rest := DashboardIncludesOf(includes[1..]);
      if includes[0].includeType == TypeDashboard {
        var s := [includes[0]] + rest;
        assert DashboardIncludesOf(includes) == s;
        assert s[0] == includes[0] && s[1..] == rest;
        assert DashboardIncludesOf(s) == [includes[0]] + DashboardIncludesOf(rest);
      } else {
        assert DashboardIncludesOf(includes) == rest;
      }
    }
  }

  /** `JSONData.DashboardIncludes`: the append loop. */
  method DashboardIncludes(includes: seq<Include>) returns (result: seq<Include>)
    ensures result == DashboardIncludesOf(includes)
  {
    result := [];
    for i := 0 to |includes|
      invariant result + DashboardIncludesOf(includes[i..]) == DashboardIncludesOf(includes)
    {
      assert includes[i..][1..] == includes[i + 1..];
      ghost var rest := DashboardIncludesOf(includes[i + 1..]);
      if includes[i].includeType == TypeDashboard {
        assert DashboardIncludesOf(includes[i..]) == [includes[i]] + rest;
        Regroup(result, [includes[i]], rest);
        result := result + [includes[i]];
      } else {
        assert DashboardIncludesOf(includes[i..]) == rest;
      }
    }
    assert includes[|includes|..] == [];
    assert result + [] == result;
  }

  lemma Regroup(a: seq<Include>, b: seq<Include>, c: seq<Include>)
    ensures a + (b + c) == (a + b) + c
  {
  }

  /** `filepath.Join(dir, name)` for a name without separators (path cleaning is not modelled). */
  function Join(dir: string, name: string): string
  {
    if dir == "" then name else dir + "/" + name
  }

  /**
   * `ExecutablePath()` on an operating system `goos` and architecture
   * `goarch`: `<executable>_<os>_<arch>` with both lower-cased, ".exe" on
   * Windows, inside the plugin directory.
   */
  function ExecutablePath(p: Plugin, goos: string, goarch: string): string
  {
    var os := ToLower(goos);
    var extension := if os == "windows" then ".exe" else "";
    Join(p.pluginDir, p.executable + "_" + os + "_" + ToLower(goarch) + extension)
  }

  /** On Windows the path ends in ".exe", elsewhere in the lower-cased architecture. */
  lemma ExecutableSuffix(p: Plugin, goos: string, goarch: string)
    ensures var r := ExecutablePath(p, goos, goarch);
      if ToLower(goos) == "windows" then |r| >= 4 && r[|r| - 4..] == ".exe"
      else |r| >= |goarch| && r[|r| - |goarch|..] == ToLower(goarch)
  {
    var stem := p.executable + "_" + ToLower(goos) + "_";
    var r := ExecutablePath(p, goos, goarch);
    if p.pluginDir != "" {
      stem := p.pluginDir + "/" + stem;
    }
    if ToLower(goos) == "windows" {
      assert r == (stem + ToLower(goarch)) + ".exe";
    } else {
      assert r == stem + ToLower(goarch);
    }
  }

  /** `StaticRoute()`: none for a core plugin, else its directory and id. */
  function StaticRouteOf(p: Plugin): (r: Option<StaticRoute>)
    ensures r.None? <==> IsCorePlugin(p)
    ensures r.Some? ==> r.value.directory == p.pluginDir && r.value.pluginId == p.id
  {
    if IsCorePlugin(p) then None else Some(StaticRoute(p.pluginDir, p.id))
  }
}
