/**
 * Whether an app plugin has a root page in the navigation tree the
 * frontend receives (`pluginHasRootPage`).
 */
module Routes {
  import opened Wrappers

  /** A `NavLinkDTO`; every key read here is optional. */
  datatype NavLinkDto = NavLinkDto(id: Option<string>, url: Option<string>, children: Option<seq<NavLinkDto>>)

  predicate EndsWith(s: string, suffix: string)
  {
    |suffix| <= |s| && s[|s| - |suffix|..] == suffix
  }

  /** `links.find(l => l.id === id)`. */
  function FindById(links: seq<NavLinkDto>, id: string): (r: Option<NavLinkDto>)
    ensures r.None? <==> forall i :: 0 <= i < |links| ==> links[i].id != Some(id)
    ensures r.Some? ==> exists i :: 0 <= i < |links| && links[i] == r.value && links[i].id == Some(id)
                                    && forall j :: 0 <= j < i ==> links[j].id != Some(id)
  {
    if links == [] then None
    else if links[0].id == Some(id) then Some(links[0])
    else
      var rest := FindById(links[1..], id);
      assert forall j :: 1 <= j < |links| ==> links[j] == links[1..][j - 1];
      if rest.Some? then
        var i :| 0 <= i < |links[1..]| && links[1..][i] == rest.value && links[1..][i].id == Some(id)
                 && forall j :: 0 <= j < i ==> links[1..][j].id != Some(id);
        assert links[i + 1] == rest.value;
        rest
      else None
  }

  /** A page that is the plugin's root: its url ends with `/a/<pluginId>`. */
  predicate IsRootPage(page: NavLinkDto, pluginId: string)
  {
    page.url.Some? && EndsWith(page.url.value, "/a/" + pluginId)
  }

  /** `children?.some(page => page.url?.endsWith(...))`. */
  function SomeRootPage(pages: seq<NavLinkDto>, pluginId: string): (r: bool)
    ensures r <==> exists k :: 0 <= k < |pages| && IsRootPage(pages[k], pluginId)
  {
    if pages == [] then false
    else IsRootPage(pages[0], pluginId) || SomeRootPage(pages[1..], pluginId)
  }

  /** The plugin's own node under the apps node, when both exist. */
  function PluginNode(pluginId: string, navTree: seq<NavLinkDto>): Option<NavLinkDto>
  {
    var apps := FindById(navTree, "apps");
    if apps.Some? && apps.value.children.Some? then FindById(apps.value.children.value, "plugin-page-" + pluginId)
    else None
  }

  /** `pluginHasRootPage(pluginId, navTree)`. */
  function PluginHasRootPage(pluginId: string, navTree: seq<NavLinkDto>): (r: bool)
    ensures r <==> var node := PluginNode(pluginId, navTree);
      && node.Some? && node.value.children.Some?
      && exists k :: 0 <= k < |node.value.children.value| && IsRootPage(node.value.children.value[k], pluginId)
  {
    var node := PluginNode(pluginId, navTree);
    if node.Some? && node.value.children.Some? then SomeRootPage(node.value.children.value, pluginId) else false
  }

  /** Without an apps node no plugin has a root page. */
  lemma NoAppsNoRootPage(pluginId: string, navTree: seq<NavLinkDto>)
    requires forall i :: 0 <= i < |navTree| ==> navTree[i].id != Some("apps")
    ensures !PluginHasRootPage(pluginId, navTree)
  {
  }

  /** Without children under the apps node, or under the plugin's node, there is no root page. */
  lemma NoChildrenNoRootPage(pluginId: string, navTree: seq<NavLinkDto>)
    requires var apps := FindById(navTree, "apps");
      || (apps.Some? && apps.value.children.None?)
      || (PluginNode(pluginId, navTree).Some? && PluginNode(pluginId, navTree).value.children.None?)
    ensures !PluginHasRootPage(pluginId, navTree)
  {
  }

  /** Pages without a url never count as the root page. */
  lemma UndefinedUrlsNeverMatch(pluginId: string, navTree: seq<NavLinkDto>)
    requires var node := PluginNode(pluginId, navTree);
      node.Some? && node.value.children.Some?
      && forall k :: 0 <= k < |node.value.children.value| ==> node.value.children.value[k].url.None?
    ensures !PluginHasRootPage(pluginId, navTree)
  {
  }

  /** A tree whose first apps node lists the plugin with a root page has it. */
  lemma RootPageFound(pluginId: string, before: seq<NavLinkDto>, after: seq<NavLinkDto>, page: NavLinkDto)
    requires forall i :: 0 <= i < |before| ==> before[i].id != Some("apps")
    requires IsRootPage(page, pluginId)
    ensures var node := NavLinkDto(Some("plugin-page-" + pluginId), None, Some([page]));
      var apps := NavLinkDto(Some("apps"), None, Some([node]));
      PluginHasRootPage(pluginId, before + [apps] + after)
  {
    var node := NavLinkDto(Some("plugin-page-" + pluginId), None, Some([page]));
    var apps := NavLinkDto(Some("apps"), None, Some([node]));
    var tree := before + [apps] + after;
    assert tree[|before|] == apps;
    assert FindById(tree, "apps") == Some(apps);
    assert FindById([node], "plugin-page-" + pluginId) == Some(node);
    assert IsRootPage(node.children.value[0], pluginId);
  }
}
