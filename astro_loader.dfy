/**
 * The Astro component loader's two fetch operations: they take what the wrapped
 * loader fetched, decide whether chunks are deferred, and if so filter the
 * render data in place before returning it.
 */
module AstroLoader {
  import opened Wrappers
  import opened RenderData
  import opened ChunkFilter

  /** How a caller names a component: by name alone, or by name within a project. */
  datatype ComponentLookupSpec =
    | ByName(name: string)
    | ByProject(name: string, projectId: string)

  /** The fetch options; only `deferChunks` is read here, the rest goes to the wrapped loader. */
  datatype FetchComponentDataOpts = FetchComponentDataOpts(deferChunks: Option<bool>)

  /** One runtime argument of a fetch call. */
  datatype Arg =
    | Spec(spec: ComponentLookupSpec)
    | SpecArray(specs: seq<ComponentLookupSpec>)
    | Opts(opts: FetchComponentDataOpts)
    | Undefined

  /** The result of telling the call shapes apart. `specs` holds the argument values as passed. */
  datatype ParsedArgs = ParsedArgs(specs: seq<Arg>, opts: Option<FetchComponentDataOpts>)

  /** The two call shapes the overloads admit: `f(s1, s2, ...)` and `f([s1, s2, ...], opts?)`. */
  datatype Call =
    | Variadic(specs: seq<ComponentLookupSpec>)
    | ArrayForm(specs: seq<ComponentLookupSpec>, opts: Option<FetchComponentDataOpts>)

  /** Each lookup spec as an argument of its own. */
  function SpecArgs(specs: seq<ComponentLookupSpec>): (r: seq<Arg>)
    ensures |r| == |specs|
    ensures forall i :: 0 <= i < |specs| ==> r[i] == Spec(specs[i])
  {
    if specs == [] then [] else [Spec(specs[0])] + SpecArgs(specs[1..])
  }

  /** The argument list that a call of the given shape passes at run time. */
  function CallArgs(call: Call): seq<Arg>
  {
    match call
    case Variadic(specs) => SpecArgs(specs)
    case ArrayForm(specs, opts) => [SpecArray(specs)] + (if opts.Some? then [Opts(opts.value)] else [])
  }

  /**
   * An array as first argument means the `(specs, opts)` form; anything else means
   * every argument is a spec and there are no options. A second argument that is
   * not an options record has no `deferChunks` and is read as no options.
   */
  function ParseFetchComponentDataArgs(args: seq<Arg>): (r: ParsedArgs)
    ensures r.opts.Some? ==> 2 <= |args| && args[0].SpecArray? && args[1] == Opts(r.opts.value)
    ensures |args| == 0 ==> r.specs == [] && r.opts == None
  {
    if |args| > 0 && args[0].SpecArray? then
      ParsedArgs(SpecArgs(args[0].specs), if |args| > 1 && args[1].Opts? then Some(args[1].opts) else None)
    else
      ParsedArgs(args, None)
  }

  /** Parsing recovers the specs and options of either call shape. */
  lemma ParseInvertsCall(call: Call)
    ensures ParseFetchComponentDataArgs(CallArgs(call))
            == ParsedArgs(SpecArgs(call.specs), if call.ArrayForm? then call.opts else None)
  {
  }

  /** `f("a", "b")` and `f(["a", "b"], opts)` hand the same specs on. */
  lemma CallShapesAgree(specs: seq<ComponentLookupSpec>, opts: Option<FetchComponentDataOpts>)
    ensures ParseFetchComponentDataArgs(CallArgs(Variadic(specs))).specs
            == ParseFetchComponentDataArgs(CallArgs(ArrayForm(specs, opts))).specs
  {
  }

  /** An explicitly `undefined` second argument is the same as a missing one. */
  lemma UndefinedOptsIsNoOpts(specs: seq<ComponentLookupSpec>)
    ensures ParseFetchComponentDataArgs([SpecArray(specs), Undefined])
            == ParseFetchComponentDataArgs(CallArgs(ArrayForm(specs, None)))
            == ParsedArgs(SpecArgs(specs), None)
  {
  }

  /** `opts?.deferChunks`. */
  function DeferChunksOption(opts: Option<FetchComponentDataOpts>): Option<bool>
  {
    if opts.Some? then opts.value.deferChunks else None
  }

  /**
   * Whether the fetched render data is filtered: an explicit `deferChunks` wins,
   * and only when it is undefined does the bundle's default decide.
   */
  function ShouldDeferChunks(opts: Option<FetchComponentDataOpts>, bundle: LoaderBundle): (r: bool)
    ensures DeferChunksOption(opts).Some? ==> (r <==> DeferChunksOption(opts).value)
    ensures DeferChunksOption(opts).None? ==> (r <==> bundle.deferChunksByDefault)
  {
    var deferChunks := DeferChunksOption(opts);
    deferChunks == Some(true) || (deferChunks == None && bundle.deferChunksByDefault)
  }

  /**
   * `maybeFetchComponentData`: `fetched` is what the wrapped loader returned for
   * `args` (None for no data). The same render data is returned, filtered in place
   * when it exists and the deferChunks decision says so.
   */
  method MaybeFetchComponentData(args: seq<Arg>, fetched: Option<ComponentRenderData>, reactMajorVersion: int)
    returns (data: Option<ComponentRenderData>)
    modifies if fetched.Some? then {fetched.value.bundle.modules} else {}
    ensures data == fetched
    ensures fetched.Some? ==>
      var modules := fetched.value.bundle.modules;
      && modules.browser
         == (if ShouldDeferChunks(ParseFetchComponentDataArgs(args).opts, fetched.value.bundle)
             then FilteredBrowser(fetched.value, old(modules.browser), reactMajorVersion)
             else old(modules.browser))
      && modules.server == old(modules.server)
  {
    data := fetched;
    var parsed := ParseFetchComponentDataArgs(args);
    if data.Some? && ShouldDeferChunks(parsed.opts, data.value.bundle) {
      FilterCodeFromRenderData(data.value, reactMajorVersion);
    }
  }

  /**
   * `fetchComponentData`: as `MaybeFetchComponentData`, except that the wrapped
   * loader always returns render data (it fails otherwise, and that failure is its own).
   */
  method FetchComponentData(args: seq<Arg>, fetched: ComponentRenderData, reactMajorVersion: int)
    returns (data: ComponentRenderData)
    modifies fetched.bundle.modules
    ensures data == fetched
    ensures fetched.bundle.modules.browser
            == (if ShouldDeferChunks(ParseFetchComponentDataArgs(args).opts, fetched.bundle)
                then FilteredBrowser(fetched, old(fetched.bundle.modules.browser), reactMajorVersion)
                else old(fetched.bundle.modules.browser))
    ensures fetched.bundle.modules.server == old(fetched.bundle.modules.server)
  {
    data := fetched;
    var parsed := ParseFetchComponentDataArgs(args);
    if ShouldDeferChunks(parsed.opts, data.bundle) {
      FilterCodeFromRenderData(data, reactMajorVersion);
    }
  }

  /**
   * A bundle with a key that defers chunks by default, one entry component "page.js"
   * and one other code chunk: after a fetch without options on React 18, the chunk's
   * code is empty and the page's code is kept.
   */
  method DeferredChunkScenario(modules: Modules)
    modifies modules
    ensures modules.browser == [
      Module(CodeType, "page.js", "render()", map[]),
      Module(CodeType, "chunk1.js", "", map[])]
  {
    var page := Module(CodeType, "page.js", "render()", map[]);
    var chunk := Module(CodeType, "chunk1.js", "console.log(1)", map[]);
    modules.browser := [page, chunk];
    var fetched := ComponentRenderData(
      [CompMeta("Page", "page.js")],
      LoaderBundle(Some("x"), true, [], [], [], modules));
    var data := FetchComponentData(CallArgs(Variadic([ByName("Page")])), fetched, 18);
    assert modules.browser == [page, chunk.(code := "")];
  }

  /**
   * The same bundle fetched with an explicit `deferChunks: false`: the default is
   * overridden and no module loses its code.
   */
  method ExplicitFalseScenario(modules: Modules)
    modifies modules
    ensures modules.browser == [
      Module(CodeType, "page.js", "render()", map[]),
      Module(CodeType, "chunk1.js", "console.log(1)", map[])]
  {
    var page := Module(CodeType, "page.js", "render()", map[]);
    var chunk := Module(CodeType, "chunk1.js", "console.log(1)", map[]);
    modules.browser := [page, chunk];
    var fetched := ComponentRenderData(
      [CompMeta("Page", "page.js")],
      LoaderBundle(Some("x"), true, [], [], [], modules));
    var opts := Some(FetchComponentDataOpts(Some(false)));
    var data := FetchComponentData(CallArgs(ArrayForm([ByName("Page")], opts)), fetched, 18);
  }
}
