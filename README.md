# useTradingViewWidget: the widget-loader lifecycle

This project models the lifecycle of the `useTradingViewWidget` hook in the
TradeIQ dashboard. The hook embeds a TradingView widget in a `<div>`. It takes
a script URL, a configuration object and a pixel height, and it hands back a
ref whose `current` the caller binds to the container. When its effect runs
with a bound container that has no `data-loaded` marker, it does three things.
It replaces the container's content with a region of the given height. It
appends one asynchronous `<script>` whose `src` is the URL and whose inline
text is `JSON.stringify(config)`. It sets `dataset.loaded = 'true'`. When the
handle is unbound, or the marker is already present, the effect does nothing.
An injecting run registers a cleanup. On unmount that cleanup empties the
container and deletes the marker attribute.

The hook's own source, `hooks/UseTradingViewWidget.ts`, is not part of this
model. Its behaviour is taken from the assertions of
`hooks/__tests__/UseTradingViewWidget.test.tsx`.

Three modules:

- `Dom` (dom.dfy) is a reduced DOM. An element's content is a list of nodes:
  a sized region (`height` in px) with children, a script element
  (`src`, `async`, inline text), or opaque other markup. `ScriptsIn` lists
  every script under a list of nodes. `HasRegionOfHeight` is the model of the
  tests' check that the container's markup contains `height: Npx`.
- `Loader` (loader.dfy) is the lifecycle as values. `Effect` and
  `EffectCreates` give one effect run on a bound surface: the new surface and
  the scripts it creates. `Step` and `Replay` give what a sequence of calls
  does to what the tests observe: the handle's `current`, the list of
  created scripts, and whether a cleanup is registered. The calls are binding
  the handle, running the effect with a request, and unmounting. The lemmas state the tests' properties for one
  call and for every sequence of calls.
- `Hook` (hook.dfy) is the mutable form. `Surface` is the `<div>`, with
  `children` and `marker` fields updated in place. `ContainerRef` is the ref.
  `Document` keeps a ghost log `created` of every script it made; this
  stands for the tests' spy on `createElement`. `WidgetHook` has the methods
  `RunEffect` and `Unmount`. Both are proved to take exactly the `Loader.Step`
  for their call. Four client methods replay the test suite's scenarios
  against those contracts.

`JSON.stringify` is a function parameter `stringify: Config -> string`. It is
a call into code the model cannot see. The one fact assumed about it is that
the empty object gives `{}` (`StringifiesEmptyObject`), and only the members
that need it require it. A configuration is a JSON object's members in
insertion order. Heights are unbounded integers, and every value is accepted.
The presentational component passes 600 by default and forwards 0, -100 and
10000 unchanged (components/__tests__/TradingViewWidget.test.tsx:63-70 and
99-125).

## Model

| member | source | states |
|---|---|---|
| `Loader.Effect` | hooks/__tests__/UseTradingViewWidget.test.tsx:77-89 | After any effect run on a bound surface, the marker is present. The surface holds exactly one script if the run injected, and the same number as before if the marker blocked it. |
| `Loader.EffectCreates` | hooks/__tests__/UseTradingViewWidget.test.tsx:91-104 | One run creates at most one script element. It creates none exactly when the marker is already present. |
| `Loader.InjectedScripts` | hooks/__tests__/UseTradingViewWidget.test.tsx:52-59 | The injected content holds exactly one script, the requested one. |
| `Loader.EffectInjects` | hooks/__tests__/UseTradingViewWidget.test.tsx:41-60 | On a bound surface with no marker, the run creates one script with `src` equal to the URL, `async` true and text equal to the serialized configuration. That same script is the only one on the surface, inside the single region of the requested height. The marker is `'true'`. |
| `Loader.EffectHeight` | hooks/__tests__/UseTradingViewWidget.test.tsx:62-75 | After injection, a region of height h exists if and only if h is the requested height. This holds for every integer, including 0 (lines 124-136) and negative values, so nothing is clamped. |
| `Loader.MarkerBlocksEffect` | hooks/__tests__/UseTradingViewWidget.test.tsx:91-104 | With the marker present, whatever the request, the run creates nothing and leaves the surface unchanged. |
| `Loader.EmptyConfigPayload` | hooks/__tests__/UseTradingViewWidget.test.tsx:108-122 | With an empty configuration, the created script's text is exactly `{}`. |
| `Loader.UnboundStaysInert` | hooks/__tests__/UseTradingViewWidget.test.tsx:138-145 | While the handle stays unbound, any number of effect runs and unmounts create no script, register no cleanup and leave `current` unbound. With no cleanup registered at the start, nothing at all changes. |
| `Loader.MarkedStaysInert` | hooks/__tests__/UseTradingViewWidget.test.tsx:91-104 | On a marked surface, any sequence of effect runs with any requests creates nothing and changes nothing. |
| `Loader.InjectsOnce` | hooks/__tests__/UseTradingViewWidget.test.tsx:41-60 | On a bound, unmarked surface, one or more effect runs create exactly one script, the first request's. The surface ends as that first run left it, with a cleanup registered. |
| `Loader.ScriptsPerBinding` | hooks/__tests__/UseTradingViewWidget.test.tsx:52-59 | While the handle stays bound, the calls only append to the list of created scripts. They append at most one script per unmount, plus one if the surface starts unmarked. |
| `Loader.ConsistencyPreserved` | hooks/__tests__/UseTradingViewWidget.test.tsx:77-89 | Every call keeps marker and script together: a surface marked `'true'` holds exactly one script, and an unmarked one holds none. This holds as long as the handle is bound only to such surfaces, which includes a fresh `div`. |
| `Loader.TeardownRestores` | hooks/__tests__/UseTradingViewWidget.test.tsx:149-166 | After an effect run and an unmount, a surface the run injected into has no children and no marker at all, not a marker reading `'false'`. A fresh surface is back to its exact pre-binding state. An already-marked surface gets no cleanup from that run and is left as it was, unless an earlier injection's cleanup is still registered. |
| `Loader.RebindAfterTeardown` | hooks/__tests__/UseTradingViewWidget.test.tsx:149-166 | After teardown, the next effect run injects again with its own request. The log then holds both scripts in order. |
| `Loader.InjectionScenario` | hooks/__tests__/UseTradingViewWidget.test.tsx:41-60 | The suite's request (dark theme, English, 600 px) is run twice on a fresh container. The result is one async script with that URL and the serialized configuration, a 600 px region, and the marker `'true'`. |
| `Hook.Surface.constructor` | hooks/__tests__/UseTradingViewWidget.test.tsx:9 | A new `div` has no content and no marker. |
| `Hook.ContainerRef.constructor` | hooks/__tests__/UseTradingViewWidget.test.tsx:28-39 | The ref exists, and its `current` starts out null (line 143). |
| `Hook.Document.CreateScript` | hooks/__tests__/UseTradingViewWidget.test.tsx:13-19 | Creating a script with given `src`, `async` and text appends exactly that script to the document's log. |
| `Hook.WidgetHook.constructor` | hooks/__tests__/UseTradingViewWidget.test.tsx:28-39 | Mounting the hook gives a fresh, unbound handle and no registered cleanup. |
| `Hook.WidgetHook.RunEffect` | hooks/__tests__/UseTradingViewWidget.test.tsx:41-104 | The new surface state, log and cleanup registration are exactly `Loader.Step` of the old ones for this request: only an injecting run registers a cleanup. The handle's binding does not change. |
| `Hook.WidgetHook.Unmount` | hooks/__tests__/UseTradingViewWidget.test.tsx:149-166 | If a cleanup is registered, a bound surface is left with no children and no marker; otherwise the surface is untouched. The cleanup is then gone. The log and the binding are unchanged. |
| `Hook.ScenarioUnbound` | hooks/__tests__/UseTradingViewWidget.test.tsx:138-145 | After an effect run on a handle nobody bound, `current` is still null and no script element was created. |
| `Hook.ScenarioLifecycle` | hooks/__tests__/UseTradingViewWidget.test.tsx:149-166 | On a fresh container, the first run leaves the marker `'true'` and a 600 px region (lines 77-89). Two runs create exactly one script with text `{}`. Unmount leaves no children and no marker. |
| `Hook.ScenarioAlreadyLoaded` | hooks/__tests__/UseTradingViewWidget.test.tsx:91-104 | On a container whose marker is already `'true'`, the run creates no script. The container keeps its marker through the run and through unmount. |
| `Hook.ScenarioZeroHeight` | hooks/__tests__/UseTradingViewWidget.test.tsx:124-136 | With height 0 the container holds a 0 px region and no 600 px one. |

## Left out

- `hooks/UseTradingViewWidget.ts` is not part of this model. Where the tests leave the hook open, the model makes the choices listed below.
- React scheduling is left out: `useEffect` dependency tracking, when React re-runs an effect or its cleanup, `renderHook` and `waitFor`. The effect and the cleanup are explicit calls.
- Which surface the cleanup clears is a choice of the model: it clears the surface bound at unmount time, which is the injected one in every test.
- The Jest machinery is left out: the `createElement` spy, mock restoration and the `setTimeout` wait. The ghost log `Document.created` takes the spy's place.
- Markup text is left out: the exact `innerHTML` string, the region's class name and `width: 100%`. The region is a structured node with an integer height.
- `JSON.stringify` is left out. It is an opaque parameter whose only known fact is that `{}` comes from the empty object. Key escaping and serialization of nested values are not modelled.
- The marker counts as set whenever the attribute is present, whatever its value. The tests only ever write `'true'`.
- Loader.EffectInjects: `src` is the string the hook assigns. The DOM's `script.src` getter returns that URL resolved against the document base, so the two agree only for absolute, already-normalised URLs such as the ones the tests use. URL resolution is not modelled.
- Loader.InjectionScenario: the same holds for its `src`, which is the test's absolute URL as assigned, not as the DOM would resolve it.
- The tests do not say whether the script goes inside the region or next to it. The model puts it inside the region.
- The third-party script's loading and execution are left out. They happen across a network boundary that the hook never observes.
- The presentational component (components/__tests__/TradingViewWidget.test.tsx) is left out: JSX, the title, class merging and memoization. Its one fact for the core, that any integer height is forwarded, is the model's `height: int`.
- The static constants (lib/__tests__/constants.test.ts) and the page layout (app/(root)/__tests__/page.test.tsx) are left out. They are data tables and glue with no loader logic.
- The marker is kept on the surface, where the tests read and write it.
