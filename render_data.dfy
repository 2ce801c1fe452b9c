/**
 * The render data that the wrapped loader's fetch routines return, restricted to
 * the fields that the chunk filter and the deferChunks decision read or write.
 */
module RenderData {
  import opened Wrappers

  /**
   * One module of a fetched bundle. `moduleType` is the record's `type` field
   * ("code", "asset", ...); `otherFields` stands for every further field of the
   * record, which a copy made with object spread keeps as it is.
   */
  datatype Module = Module(
    moduleType: string,
    fileName: string,
    code: string,
    otherFields: map<string, string>)

  /**
   * The `modules` object of a bundle. It is an object rather than a value because
   * the chunk filter reassigns its `browser` list in place, and the caller that
   * handed the render data over sees the change.
   */
  class Modules {
    var browser: seq<Module>
    var server: seq<Module>
  }

  /** An entry of `entryCompMetas`: a component that was looked up, naming its entry module. */
  datatype CompMeta = CompMeta(name: string, entry: string)

  datatype Project = Project(id: string, globalContextsProviderFileName: Option<string>)

  datatype Component = Component(name: string, entry: string, isGlobalContextProvider: bool)

  datatype GlobalGroup = GlobalGroup(name: string, contextFile: string)

  datatype LoaderBundle = LoaderBundle(
    bundleKey: Option<string>,
    deferChunksByDefault: bool,
    projects: seq<Project>,
    components: seq<Component>,
    globalGroups: seq<GlobalGroup>,
    modules: Modules)

  datatype ComponentRenderData = ComponentRenderData(entryCompMetas: seq<CompMeta>, bundle: LoaderBundle)

  /** JavaScript truthiness of an optional string (`!!s`): present and not empty. */
  predicate Truthy(s: Option<string>)
  {
    s.Some? && s.value != ""
  }
}
