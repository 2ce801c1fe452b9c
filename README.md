# Deferred-chunk filtering of the Astro component loader

This project models the one piece of local logic in the Astro adapter of the
Plasmic component loader (`packages/loader-astro/src/index.tsx`):

- **Chunk filter** (`filterCodeFromRenderData`). A bundle is eligible when the React
  major version is at least 18 and the bundle has a truthy `bundleKey`. On an
  eligible bundle, the filter collects the entrypoint files from five sources:
  the entry of every entry component meta, `"root-provider.js"`, every truthy
  global-contexts provider file name of a project, the entry of every component
  flagged as a global context provider, and the context file of every global
  group. It then reassigns `bundle.modules.browser` in place. Every code module
  that is not an entrypoint becomes a copy with empty `code`. Every other module is
  kept as it is.
- **The deferChunks decision** of `maybeFetchComponentData` and `fetchComponentData`.
  An explicit `opts.deferChunks` wins. When it is undefined, the bundle's
  `deferChunksByDefault` decides. `maybeFetchComponentData` never filters missing data.
- **Argument parsing** (`parseFetchComponentDataArgs`). It tells the variadic call
  shape `f(s1, s2, ...)` from the `f([s1, s2, ...], opts)` shape by checking whether
  the first argument is an array.

Modules:

- `Wrappers` provides `Option`.
- `RenderData` is the data model. The render data and its records are datatypes.
  The bundle's `modules` object is the class `Modules`, because the filter reassigns
  its `browser` field in place.
- `ChunkFilter` holds the entrypoint functions and the pure specification of the
  filter, `FilteredBrowser`. It also holds the in-place method
  `FilterCodeFromRenderData`, which is proved against `FilteredBrowser`.
  `IsEntrypoint` is an independent reference definition of the protected files.
- `AstroLoader` holds the decision, the argument parser and the two fetch
  operations. Each fetch operation takes the wrapped loader's result as an input
  and returns the same object, filtered in place when the decision says so.

The filter mutates the render data it is given (line 62) rather than producing a
new filtered view. The model therefore reassigns the field of the shared `Modules`
object, and the fetch operations return the very render data they were handed.

## Model

| member | source | states |
|---|---|---|
| `RenderData.Truthy` | packages/loader-astro/src/index.tsx:48-55 | definition: JavaScript's `!!` on an optional string (present and not empty); used by `ProviderFiles` and `Eligible` |
| `ChunkFilter.Eligible` | packages/loader-astro/src/index.tsx:48 | definition: the test of line 48 (React major version at least 18 and a truthy bundle key); `FilteredBrowser` states what follows from it |
| `ChunkFilter.EntryFiles` | packages/loader-astro/src/index.tsx:51 | a file is listed exactly when some entry component meta names it as its entry |
| `ChunkFilter.ProviderFiles` | packages/loader-astro/src/index.tsx:53-55 | a file is listed exactly when some project's global-contexts provider file name is present, non-empty and equal to it |
| `ChunkFilter.ProviderEntries` | packages/loader-astro/src/index.tsx:56-58 | a file is listed exactly when some component flagged as a global context provider has it as its entry |
| `ChunkFilter.ContextFiles` | packages/loader-astro/src/index.tsx:59 | a file is listed exactly when some global group names it as its context file |
| `ChunkFilter.Entrypoints` | packages/loader-astro/src/index.tsx:50-60 | the entrypoint set holds a file exactly when it is `root-provider.js` or comes from one of the four lists (reference predicate `IsEntrypoint`) |
| `ChunkFilter.FilterModules` | packages/loader-astro/src/index.tsx:62-69 | same length and order; non-code modules and protected modules are returned unchanged; every other code module is the same record with `code` set to `""` |
| `ChunkFilter.FilteredBrowser` | packages/loader-astro/src/index.tsx:47-71 | below React 18 or without a truthy bundle key the list is unchanged; otherwise element i is element i of the input, blanked exactly when it is a code module whose file is not an entrypoint |
| `ChunkFilter.FilterIdempotent` | packages/loader-astro/src/index.tsx:50-69 | filtering the filtered list again gives the same list, because the entrypoints do not depend on the browser modules |
| `ChunkFilter.FilterCodeFromRenderData` | packages/loader-astro/src/index.tsx:47-71 | only `bundle.modules.browser` changes, to the filtered list; the server modules and the rest of the render data stay as they were |
| `ChunkFilter.FilterTwice` | packages/loader-astro/src/index.tsx:47-71 | running the in-place filter twice on the same render data leaves the browser list as one run does |
| `AstroLoader.SpecArgs` | packages/loader-astro/src/index.tsx:93 | each lookup spec of a variadic call is an argument of its own, in order |
| `AstroLoader.CallArgs` | packages/loader-astro/src/index.tsx:88-110 | definition: the runtime argument list of each overload; `ParseInvertsCall` proves the parser recovers the call from it |
| `AstroLoader.ParseFetchComponentDataArgs` | packages/loader-astro/src/index.tsx:132-143 | options are found only when the first argument is an array and the second an options record; no arguments give no specs and no options |
| `AstroLoader.ParseInvertsCall` | packages/loader-astro/src/index.tsx:124-143 | parsing the arguments of either call shape gives back its specs, and its options only in the array form |
| `AstroLoader.CallShapesAgree` | packages/loader-astro/src/index.tsx:135-141 | `f(s1, ..., sn)` and `f([s1, ..., sn], opts)` yield the same specs |
| `AstroLoader.UndefinedOptsIsNoOpts` | packages/loader-astro/src/index.tsx:135-137 | an explicit `undefined` second argument parses as a missing one |
| `AstroLoader.DeferChunksOption` | packages/loader-astro/src/index.tsx:98 | definition: `opts?.deferChunks`; `ShouldDeferChunks` states the decision built on it |
| `AstroLoader.ShouldDeferChunks` | packages/loader-astro/src/index.tsx:98-99 | an explicit `deferChunks` decides on its own, both `true` and `false`; only when it is undefined does `deferChunksByDefault` decide |
| `AstroLoader.MaybeFetchComponentData` | packages/loader-astro/src/index.tsx:93-104 | returns the fetched data itself; missing data is returned unfiltered; present data has its browser modules filtered exactly when the decision says so, and nothing else changes |
| `AstroLoader.FetchComponentData` | packages/loader-astro/src/index.tsx:111-121 | returns the fetched data itself, its browser modules filtered exactly when the decision says so, and nothing else changed |
| `AstroLoader.DeferredChunkScenario` | packages/loader-astro/src/index.tsx:111-119 | with bundle key `"x"`, deferral on by default and entry `page.js`, a variadic fetch without options on React 18 blanks `chunk1.js` in place and keeps `page.js` |
| `AstroLoader.ExplicitFalseScenario` | packages/loader-astro/src/index.tsx:114-116 | the same bundle fetched with `deferChunks: false` keeps every module's code, although deferral is on by default |

## Left out

- The wrapped loader's `maybeFetchComponentData` and `fetchComponentData` (lines 94 and 112) are asynchronous network fetches in an external library. Their results are inputs of the fetch operations, and their failures are not modelled.
- The React major version (line 45) is read from the React runtime. It is an integer parameter here. In the source it is unary `+` of the text before the first dot: that is `NaN` unless the text is numeric, and `0` when the text is empty. `NaN` fails the test at line 48 just as every integer below 18 does, so an integer parameter covers every outcome.
- Malformed render data is not modelled. The source throws a TypeError when `bundle`, `bundle.modules.browser` or one of the four entrypoint lists is missing (lines 48-62). That is a caller contract violation, and the typed records here cannot express such data.
- A `null` option value, or a `null` field anywhere in the render data, is not modelled: `None` stands for `undefined` only.
- The arguments passed through to the wrapped loader are not modelled, and neither is any option other than `deferChunks`.
- `ParseFetchComponentDataArgs`: in the array form, a second argument that is not an options record (the overloads forbid one) is read as no options. This gives the same deferChunks decision as the source, because such a value has no `deferChunks`.
- `ShouldDeferChunks`: `deferChunks` is modelled as a boolean or undefined. A `null` is not modelled; the TypeScript type does not admit one.
- Only the fields that the filter and the decision read are modelled. Any further fields of a module are kept as a map, which a blanked copy preserves.
- Aliasing is modelled only for the `modules` object, the one whose field is reassigned. If two render data shared that object, both would see the change; the other records are values.
- `initPlasmicLoader` (lines 150-161) only constructs the external loader classes, with the platform forced to `"astro"`. `extractPlasmicQueryData` and `PlasmicRootProvider` (lines 171-183) wrap library code and JSX rendering. None of these is modelled.
- The re-export blocks (lines 12-43) and `packages/loader-astro/src/shared-exports.ts` contain only types and re-exports. `examples/astro-example/src/plasmic-init.ts` is configuration. None of them has logic to model.
