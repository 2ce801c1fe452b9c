/**
 * Deferred-chunk filtering: on an eligible bundle, every browser code module that
 * is not an entrypoint loses its code, so that it is loaded later by a script tag.
 */
module ChunkFilter {
  import opened Wrappers
  import opened RenderData

  /** The root provider module, which is always kept. */
  const RootProviderFile := "root-provider.js"

  const CodeType := "code"

  /** The React major version from which chunks may be deferred. */
  const MinReactMajorVersion := 18

  /**
   * Reference definition of the entrypoints: the files whose code the filter
   * must keep, gathered from the five sources the loader protects.
   */
  ghost predicate IsEntrypoint(data: ComponentRenderData, f: string)
  {
    || f == RootProviderFile
    || (exists m :: m in data.entryCompMetas && m.entry == f)
    || (exists p :: p in data.bundle.projects
                    && Truthy(p.globalContextsProviderFileName)
                    && p.globalContextsProviderFileName.value == f)
    || (exists c :: c in data.bundle.components && c.isGlobalContextProvider && c.entry == f)
    || (exists g :: g in data.bundle.globalGroups && g.contextFile == f)
  }

  /** The entry file of every entry component meta (`entryCompMetas.map(m => m.entry)`). */
  function EntryFiles(metas: seq<CompMeta>): (r: seq<string>)
    ensures forall f :: f in r <==> exists m :: m in metas && m.entry == f
  {
    if metas == [] then []
    else
      assert metas == [metas[0]] + metas[1..];
      [metas[0].entry] + EntryFiles(metas[1..])
  }

  /** The truthy global-contexts provider file names of the projects (a map, then a filter). */
  function ProviderFiles(projects: seq<Project>): (r: seq<string>)
    ensures forall f :: f in r <==>
      exists p :: p in projects
                  && Truthy(p.globalContextsProviderFileName)
                  && p.globalContextsProviderFileName.value == f
  {
    if projects == [] then []
    else
      assert projects == [projects[0]] + projects[1..];
      var name := projects[0].globalContextsProviderFileName;
      (if Truthy(name) then [name.value] else []) + ProviderFiles(projects[1..])
  }

  /** The entry files of the components flagged as global context providers (a filter, then a map). */
  function ProviderEntries(components: seq<Component>): (r: seq<string>)
    ensures forall f :: f in r <==>
      exists c :: c in components && c.isGlobalContextProvider && c.entry == f
  {
    if components == [] then []
    else
      assert components == [components[0]] + components[1..];
      var c := components[0];
      (if c.isGlobalContextProvider then [c.entry] else []) + ProviderEntries(components[1..])
  }

  /** The context file of every global group. */
  function ContextFiles(groups: seq<GlobalGroup>): (r: seq<string>)
    ensures forall f :: f in r <==> exists g :: g in groups && g.contextFile == f
  {
    if groups == [] then []
    else
      assert groups == [groups[0]] + groups[1..];
      [groups[0].contextFile] + ContextFiles(groups[1..])
  }

  /** The set of entrypoints, built as the source builds it: five lists spread into one set. */
  function Entrypoints(data: ComponentRenderData): (r: set<string>)
    ensures forall f :: f in r <==> IsEntrypoint(data, f)
  {
    set f | f in EntryFiles(data.entryCompMetas)
                 + [RootProviderFile]
                 + ProviderFiles(data.bundle.projects)
                 + ProviderEntries(data.bundle.components)
                 + ContextFiles(data.bundle.globalGroups)
  }

  /** Whether the filter touches the bundle at all. */
  predicate Eligible(data: ComponentRenderData, reactMajorVersion: int)
  {
    reactMajorVersion >= MinReactMajorVersion && Truthy(data.bundle.bundleKey)
  }

  /**
   * The module list mapped by the filter: a module keeps its code when it is not
   * a code module or when it is an entrypoint; otherwise it is copied with empty code.
   */
  function FilterModules(entrypoints: set<string>, mods: seq<Module>): (r: seq<Module>)
    ensures |r| == |mods|
    ensures forall i :: 0 <= i < |mods| && mods[i].moduleType != CodeType ==> r[i] == mods[i]
    ensures forall i :: 0 <= i < |mods| && mods[i].fileName in entrypoints ==> r[i] == mods[i]
    ensures forall i :: 0 <= i < |mods| && mods[i].moduleType == CodeType && mods[i].fileName !in entrypoints
                     ==> r[i] == mods[i].(code := "")
  {
    if mods == [] then []
    else
      var m := mods[0];
      [if m.moduleType != CodeType || m.fileName in entrypoints then m else m.(code := "")]
        + FilterModules(entrypoints, mods[1..])
  }

  /** The browser module list that `filterCodeFromRenderData` leaves behind. */
  function FilteredBrowser(data: ComponentRenderData, browser: seq<Module>, reactMajorVersion: int): (r: seq<Module>)
    ensures !Eligible(data, reactMajorVersion) ==> r == browser
    ensures |r| == |browser|
    ensures forall i :: 0 <= i < |browser| ==>
      r[i] == if Eligible(data, reactMajorVersion)
                 && browser[i].moduleType == CodeType
                 && !IsEntrypoint(data, browser[i].fileName)
              then browser[i].(code := "")
              else browser[i]
  {
    if Eligible(data, reactMajorVersion) then FilterModules(Entrypoints(data), browser) else browser
  }

  /**
   * The entrypoints never depend on the browser modules, so filtering an already
   * filtered list changes nothing.
   */
  lemma FilterIdempotent(data: ComponentRenderData, browser: seq<Module>, reactMajorVersion: int)
    ensures FilteredBrowser(data, FilteredBrowser(data, browser, reactMajorVersion), reactMajorVersion)
            == FilteredBrowser(data, browser, reactMajorVersion)
  {
  }

  /**
   * Blanks the code of the deferrable browser modules of `data` in place. Only
   * `data.bundle.modules.browser` is reassigned; everything else in the render
   * data is a value or an untouched field.
   */
  method FilterCodeFromRenderData(data: ComponentRenderData, reactMajorVersion: int)
    modifies data.bundle.modules
    ensures data.bundle.modules.browser
            == FilteredBrowser(data, old(data.bundle.modules.browser), reactMajorVersion)
    ensures data.bundle.modules.server == old(data.bundle.modules.server)
  {
    if Eligible(data, reactMajorVersion) {
      var entrypoints := Entrypoints(data);
      data.bundle.modules.browser := FilterModules(entrypoints, data.bundle.modules.browser);
    }
  }

  /** Running the filter on the same render data twice leaves it as one run does. */
  method FilterTwice(data: ComponentRenderData, reactMajorVersion: int)
    modifies data.bundle.modules
    ensures data.bundle.modules.browser
            == FilteredBrowser(data, old(data.bundle.modules.browser), reactMajorVersion)
    ensures data.bundle.modules.server == old(data.bundle.modules.server)
  {
    FilterCodeFromRenderData(data, reactMajorVersion);
    FilterCodeFromRenderData(data, reactMajorVersion);
    FilterIdempotent(data, old(data.bundle.modules.browser), reactMajorVersion);
  }
}
