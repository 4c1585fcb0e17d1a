# Renderer: template-name resolution and the render pipeline

This project models the core of a small server-side view renderer. The renderer turns a template name into a file path, loads the template module found there, and calls it with a render context. It serialises the markup the template returns and prefixes the doctype. It also offers Koa middleware that installs `context.render`.

Two generations of the renderer are modelled side by side.

- **`LegacyRenderer`** models `lib/renderer.js`, the function-based renderer.
  - `renderer(options)` merges the options over `renderer.defaultOptions`.
  - It resolves a template path by joining it onto `viewPath`.
  - It merges each caller's context into the shared `renderer.defaultRenderContext` in place.
  - That file predates the class-based renderer modelled below.
- **`Renderer`** models the class `Renderer`. Its source is not among the files modelled here. Its behaviour is taken from the assertions of `test/unit/lib/renderer.test.js`:
  - template names of the form `namespace:template`, with defaults `__default` and `index`;
  - a namespace table built from the options;
  - absolute names that bypass the table;
  - a list of fallback names resolved in order;
  - a structural check that the template returned an HTML element;
  - a doctype prefix;
  - a render pipeline with a fixed step order.

  It is described in these modules:
  - `TemplateNames`: `parseTemplateName`, `resolveTemplatePath`, `resolveTemplatePaths`.
  - `HtmlElements`: `isHtmlElement`, `assertIsHtmlElement`, `assertIsFunction`.
  - `RendererOptions`: `defaultOptions`, `applyDefaultOptions`.
  - `Renderer` itself: the constructor, `applyDefaultRenderContext`, `applyStringTransforms`, `loadTemplate`, `render`, `koa`.
- **`Partials`** models `lib/partial.js`. It is the base class for partials. The constructor stores a context with a default. `render()` returns a placeholder naming the class.

Supporting modules:
- `JsValues` holds the slice of JavaScript values the renderer looks at: truthiness, template-literal string conversion, and `Object.assign` on plain objects.
- `RenderErrors` holds the failures.
- `Koa` holds the request context's `body`, `state` and installed `render`.

Collaborators that are foreign code are parameters of the operations that use them:
- module loading: `require` for one path, `requireFirst` for a list of paths;
- calling a template's exported function (`invoke`), which returns a value or throws;
- markup serialisation (`serialize`);
- Koa's `next`;
- `process.env.NODE_ENV` and `process.cwd()`.

Instance methods of the class that only read the instance's fields are modelled as functions of those fields' values:
- `resolveTemplatePath(s)` reads `namespaces`;
- `applyDefaultRenderContext` reads `renderContext`;
- `loadTemplate` reads `namespaces`.

## Model

| member | source | states |
|---|---|---|
| `JsValues.Assign` | lib/renderer.js:12 | Object.assign on plain objects: the result has the keys of both objects; every key of the source carries the source's value; every key only the target has keeps the target's value; an undefined source changes nothing |
| `JsValues.Truthy` | lib/renderer.js:15 | The test behind `||`: a value is falsy exactly when it is undefined, null, `false`, `0` or the empty string. Every object, array and function is truthy |
| `JsValues.ToJsString` | lib/renderer.js:15 | The string a template literal makes of an interpolated value. A string is itself. A number is its decimal digits, with a leading `-` when negative. An object is `[object Object]`. An array joins its items with commas, and an undefined or null item contributes nothing |
| `JsValues.AssignFresh` | test/unit/lib/renderer.test.js:325-347 | `Object.assign({}, a, b)`, which `applyDefaultRenderContext` uses and so does the Koa `context.render` at test/unit/lib/renderer.test.js:265-268. The result is a new object: `b`'s keys win, `a`'s keys fill the rest, and no other key appears |
| `TemplateNames.FirstColon` | test/unit/lib/renderer.test.js:659-672 | Returns the index of a ':' that has no ':' before it, or nothing exactly when the name has no ':' |
| `TemplateNames.FirstColonAt` | test/unit/lib/renderer.test.js:659-672 | Any ':' with no ':' before it is the one the split uses, so only the first colon separates |
| `TemplateNames.ParseTemplateName` | test/unit/lib/renderer.test.js:596-689 | Total on every string. Splits at the first ':' only. An absent or empty namespace gives `__default` and an empty template gives `index`. The namespace never contains ':', and neither part is ever empty |
| `TemplateNames.ParseQualifiedName` | test/unit/lib/renderer.test.js:599-612 | `ns + ":" + tpl` with no ':' in `ns` parses back to `ns` and `tpl`, each defaulted when empty |
| `TemplateNames.ParseFormatRoundTrip` | test/unit/lib/renderer.test.js:596-689 | Parsing the written form of a parsed name gives the same parse back |
| `TemplateNames.ParseNamespaceAndTemplate` | test/unit/lib/renderer.test.js:599-612 | `"ns:tpl"` parses to namespace `ns` and template `tpl` |
| `TemplateNames.ParseEmptyNamespace` | test/unit/lib/renderer.test.js:629-642 | `":tpl"` parses to `__default` and `tpl` |
| `TemplateNames.ParseNamespaceOnly` | test/unit/lib/renderer.test.js:644-657 | `"ns:"` parses to `ns` and `index` |
| `TemplateNames.ParseExtraSeparators` | test/unit/lib/renderer.test.js:659-672 | `"ns:a:b"` parses to `ns` and `a:b` |
| `TemplateNames.ParseTemplateOnly` | test/unit/lib/renderer.test.js:614-627 | `"tpl"` parses to `__default` and `tpl` |
| `TemplateNames.ParseEmptyName` | test/unit/lib/renderer.test.js:674-687 | `""` parses to `__default` and `index` |
| `TemplateNames.ResolveTemplatePath` | test/unit/lib/renderer.test.js:433-489 | A name starting with '/' is returned unchanged and never parsed. Otherwise resolution succeeds exactly when the parsed namespace is configured, and the result is that namespace's path, then "/", then the template. The failure names the namespace with the message `Renderer namespace "<ns>" is not configured` |
| `TemplateNames.ResolveQualifiedName` | test/unit/lib/renderer.test.js:449-456 | For a configured namespace, `ns:tpl` resolves to the namespace path, then "/", then `tpl` |
| `TemplateNames.UnqualifiedNameResolves` | test/unit/lib/renderer.test.js:614-627 | A relative name without ':' resolves exactly when `__default` is configured, and then resolves under the default path |
| `TemplateNames.ResolveEach` | test/unit/lib/renderer.test.js:395-408 | Succeeds exactly when every name resolves. The result has one path per name, in order, each the resolution of that name. A failure carries the error of the first name that does not resolve |
| `TemplateNames.ResolveTemplatePaths` | test/unit/lib/renderer.test.js:410-429 | A single name resolves to a one-element list holding its path, or fails with that name's error |
| `TemplateNames.ScenarioNamespacedName` | example/namespaces/index.js:10-15 | With a default path and an `admin` path configured, `admin:users` resolves to the admin path followed by `/users` |
| `TemplateNames.ScenarioDefaultName` | example/namespaces/index.js:10-22 | In that table, `users` resolves to the default path followed by `/users` |
| `TemplateNames.ScenarioUnknownNamespace` | test/unit/lib/renderer.test.js:475-487 | In that table, `blog:users` fails with an error naming namespace `blog` |
| `HtmlElements.AssertIsHtmlElement` | test/unit/lib/renderer.test.js:743-777 | Passes exactly when `isHtmlElement` holds, and otherwise fails with the given message |
| `HtmlElements.AssertIsFunction` | test/unit/lib/renderer.test.js:779-801 | Passes exactly when the value is a function, and otherwise fails with the given message |
| `HtmlElements.IsHtmlElement` | test/unit/lib/renderer.test.js:691-741 | An object is an element exactly when both its `type` and its `props` are defined. An array is an element list exactly when every item is an element, so the empty array qualifies. No other value is an element |
| `HtmlElements.IsHtmlElementExamples` | test/unit/lib/renderer.test.js:691-741 | These are HTML elements: an object whose `type` and `props` are defined, and an array of two such objects. These are not: a string, `{}`, `{type: undefined, props: undefined}`, and an array holding a string |
| `HtmlElements.ConcatenatedElements` | test/unit/lib/renderer.test.js:704-737 | An array is a valid element list exactly when each of its two halves is |
| `HtmlElements.ScalarsRejected` | test/unit/lib/renderer.test.js:721-737 | Any value that is neither an object nor an array fails the element assertion with the given message |
| `RendererOptions.DefaultOptions` | test/unit/lib/renderer.test.js:493-541 | `env` is NODE_ENV, or "development" when unset. `path` is the working directory joined with `view`. `namespacePaths` is empty |
| `RendererOptions.MergeOptions` | test/unit/lib/renderer.test.js:582-588 | `Object.assign({}, Renderer.defaultOptions, options)`: each option the caller supplies replaces the default as a whole, so a supplied `namespacePaths` is not merged entry by entry. Each omitted option keeps its default |
| `RendererOptions.ApplyDefaultOptions` | test/unit/lib/renderer.test.js:559-594 | An `env` the caller supplies wins over the default. The namespace table holds the supplied or default `namespacePaths` entries plus `__default`, which maps to the supplied or default `path`. The other entries are kept as they were, and `path` is no longer a separate option |
| `RendererOptions.ApplyDefaultOptionsExample` | test/unit/lib/renderer.test.js:565-592 | The tests' literal case: `path: 'mock-path'` becomes `__default: 'mock-path'` next to `mock-namespace` |
| `RendererOptions.DefaultNamespaceAlwaysConfigured` | test/unit/lib/renderer.test.js:63-74 | Whatever options are passed, the constructed table has `__default`, so every relative name without ':' resolves |
| `RendererOptions.ExampleOptionsBuildScenarioTable` | example/namespaces/index.js:10-15 | The example's constructor options, `path: views` and `namespacePaths: {admin: adminViews}`, build exactly the table `{__default: views, admin: adminViews}` that the resolution scenarios take as given |
| `Renderer.DefaultRenderContext` | test/unit/lib/renderer.test.js:76-89 | The constructor's `renderContext` is an object whose only property is `doctype`, set to `<!DOCTYPE html>` |
| `Renderer.ApplyDefaultRenderContext` | test/unit/lib/renderer.test.js:325-347 | This is `AssignFresh` with the instance defaults first: the caller's properties win, the defaults fill the rest, and the defaults are not written to |
| `Renderer.ApplyStringTransforms` | test/unit/lib/renderer.test.js:285-323 | With a string `doctype` in the context, the output is the doctype then the rendered string. With no context, or a falsy doctype, the rendered string is returned unchanged. The rendered string is always the suffix of the result |
| `Renderer.DoctypeIsOnlyDifference` | test/unit/lib/renderer.test.js:285-347 | Take two renders against the default context, one where the caller passes no `doctype` and one where the caller passes a falsy `doctype`. If the template ignores `doctype`, both succeed or both fail with the same error. On success the first output is `<!DOCTYPE html>` followed by the second output |
| `Renderer.LoadTemplate` | test/unit/lib/renderer.test.js:349-378 | A resolution error propagates. With no matching module it fails. A module that does not export a function fails with "Templates must export a function". Otherwise it returns exactly the module `requireFirst` found for the resolved paths |
| `Renderer.RenderPipeline` | test/unit/lib/renderer.test.js:93-144 | A load error is returned as is. A throwing template gives its exception. Output that is not an HTML element fails with "Templates must return an HTML element". It succeeds exactly when loading, calling and checking succeed, and then returns the string transforms applied to the serialised output under the merged context |
| `Renderer.TemplateNotCalledWhenLoadFails` | test/unit/lib/renderer.test.js:106-119 | When loading fails, the outcome does not depend on the template call, so the template is never invoked |
| `Renderer.InvalidOutputNotSerialized` | test/unit/lib/renderer.test.js:121-129 | Output that is not an HTML element gives the assertion error whatever the serialiser does, so it is never serialised |
| `Renderer.KoaContextPrecedence` | test/unit/lib/renderer.test.js:265-273 | Through the Koa adapter the effective context takes a key from the caller first, then from the request state, then from the renderer defaults |
| `Renderer.NullDoctypeDisablesPrefix` | test/unit/lib/renderer.test.js:298-321 | A caller's `doctype: null` beats the default doctype, and the output then has no prefix |
| `Renderer.HomePageScenario` | example/namespaces/index.js:20-23 | Suppose `home` resolves to `<views>/home`, whose function turns the merged context into a valid element. Then rendering gives `<!DOCTYPE html>` followed by the serialised element |
| `Renderer.DoctypeOverrideIsolated` | test/unit/lib/renderer.test.js:338-341 | After a render that passes `doctype: ""`, the renderer's default doctype is still the HTML5 doctype. The next render with no context is the pipeline over the untouched defaults, so any successful output starts with `<!DOCTYPE html>` |
| `Renderer.Renderer.constructor` | test/unit/lib/renderer.test.js:32-91 | `env` and `namespaces` come from the defaulted options, and `namespaces` always has `__default`. `renderContext.doctype` is the HTML5 doctype |
| `Renderer.Renderer.Render` | test/unit/lib/renderer.test.js:93-144 | Returns the render pipeline over the instance's namespaces and default context, and changes nothing on the instance |
| `Renderer.Renderer.KoaMiddleware` | test/unit/lib/renderer.test.js:212-247 | Installs `context.render`, leaves `body` and `state` as they were, and returns `next()` |
| `Koa.MergeState` | test/unit/lib/renderer.test.js:265-268 | This is `AssignFresh` with `context.state` first: the caller's render context wins over the request state, and the state object is not written to |
| `Renderer.Renderer.KoaRender` | test/unit/lib/renderer.test.js:249-279 | Renders with `{} + state + renderContext`. On success `context.body` is the rendered string. On failure the body is unchanged and the error is returned. `context.state` is never changed |
| `LegacyRenderer.ResolveTemplatePath` | lib/renderer.js:28-30 | Succeeds exactly when `options.viewPath` is a string, and gives the view path, then "/", then the template path |
| `LegacyRenderer.WithDoctype` | lib/renderer.js:15 | When the context's `doctype` is truthy, the output is the doctype's string form followed by the serialised output. Otherwise the output is the serialised output alone |
| `LegacyRenderer.RenderOutcome` | lib/renderer.js:11-16 | A path error, a missing module, or a non-function export each fail. A throwing template gives its exception. Otherwise the result is the doctype prefix applied to the serialised return value of the template, called with the merged context |
| `LegacyRenderer.EarlierContextLeaksIntoLaterRender` | lib/renderer.js:12 | Once a render has merged key `k` into the shared defaults, every later render that does not pass `k` sees the earlier value |
| `LegacyRenderer.RendererModule.constructor` | lib/renderer.js:36-42 | `defaultOptions.viewPath` is the working directory joined with `view`, and `defaultRenderContext.doctype` is `<!DOCTYPE html>` |
| `LegacyRenderer.RenderFunction.constructor` | lib/renderer.js:7-8 | The renderer's options are the caller's options over `renderer.defaultOptions`, key by key |
| `LegacyRenderer.RenderFunction.Render` | lib/renderer.js:11-16 | Always writes the caller's context into the shared `defaultRenderContext`, even when a later step fails. It returns the render outcome computed with that shared, merged object |
| `LegacyRenderer.RenderFunction.KoaMiddleware` | lib/renderer.js:18-26 | Installs `context.render`, leaves `body` and `state` as they were, and returns `next()` |
| `LegacyRenderer.RenderFunction.KoaRender` | lib/renderer.js:20-23 | Merges `{} + state + renderContext` into the shared defaults. On success it sets `context.body` to the rendered string. On failure the body is left as it was. `context.state` is never changed |
| `LegacyRenderer.DoctypeOverrideLeaks` | lib/renderer.js:12-15 | A render passing `doctype: ""` empties the shared default doctype. The next render that passes no context runs with `doctype: ""`, so its output carries no doctype |
| `Partials.UnextendedOutputNamesClass` | lib/partial.js:26-28 | The placeholder output identifies the class: two classes with the same placeholder have the same name |
| `Partials.Partial.constructor` | lib/partial.js:15-17 | `context` is the given context, or `{}` when the argument is omitted (undefined). The class name is the constructor's name |
| `Partials.Partial.Render` | lib/partial.js:26-28 | Returns `Unextended Partial (<className>)`, and the class name can be read back from positions 20 to the second-to-last. It changes nothing |
| `Partials.BasePartialRender` | lib/partial.js:15-28 | The base class renders `Unextended Partial (Partial)`, and its context is the given one or `{}` |

## Left out

- htm and Hyperons, which build and serialise the markup tree, are foreign libraries. Serialisation is the parameter `serialize`. The `html` tag that the legacy renderer passes to a template as its first argument is not modelled; a template is `invoke(export, context)`.
- Module loading (`require`, `@rowanmanning/require-first`) is filesystem I/O. It is the parameter `require` or `requireFirst`. The first-match order of `requireFirst` is not stated in any of the modelled files, so no property about which candidate wins is proved. A failed load is reported as `TemplateNotFound(paths)`; the loader's own error text is not modelled.
- Node's `path.join` and `path.resolve` normalisation (`..`, `.`, duplicate slashes) is library behaviour. Joining is `base + "/" + segment`, which is what the tests observe. Consequently no template segment is sanitised against path traversal.
- `process.env.NODE_ENV` and `process.cwd()` are parameters. An empty `NODE_ENV` is treated as a set value.
- Promises and async plumbing: `render` settles to the modelled `Result`. The Express view-engine adapter (`express()`, with its `done` callback) is framework wiring and is not modelled.
- Numbers are integers: NaN, fractions and floating-point string forms are not modelled. Symbols are not modelled, and neither are objects with their own `toString`.
- `Object.assign` is modelled only for plain-object or undefined sources. Explicitly passing an option as `undefined`, which would overwrite the default with `undefined`, is not modelled; an option is either supplied or omitted.
- `RendererOptions.ApplyDefaultOptions`: when the caller's `namespacePaths` already has a `__default` entry, `path` wins. The tests do not pin this down. Whether the fold also mutates the caller's `namespacePaths` object is not modelled.
- `LegacyRenderer.RenderOutcome`, `LegacyRenderer.RenderFunction.Render` and `Renderer.RenderPipeline` assume that templates do not mutate their context. `invoke` is a pure function of the template and the context. In the legacy renderer the template receives the shared `renderer.defaultRenderContext` object itself, and line 15 reads `doctype` after the template has run. A template that writes to its context therefore changes the shared defaults, and can change this render's own prefix. The class renderer likewise hands one and the same merged object to the template and to `applyStringTransforms`. This aliasing is not modelled.
- `RendererOptions.MergeOptions`: `UserOptions` carries only `env`, `path` and `namespacePaths`. In the source, any other key a caller passes is copied by `Object.assign({}, defaultOptions, options)` into the options that `applyDefaultOptions` returns. The model does not carry those extra keys.
- `Renderer.RenderPipeline`: only the name-resolution error of the loader is modelled in detail. Errors thrown by the serialiser are not modelled; `serialize` is total.
- `Partials`: subclasses that override `render()` are not modelled. `this.constructor.name` is the `className` constructor parameter.
- The alias files (`index.js`, `Renderer.html`, `Renderer.Partial`), the test mocks, and all example applications are not part of this model. The one exception is the namespace table of `example/namespaces/index.js`, which the scenario lemmas use.

## Findings

| source | as written | input that shows it | evidently intended | confidence | as-written member | corrected member |
|---|---|---|---|---|---|---|
| lib/renderer.js:12 | `Object.assign(renderer.defaultRenderContext, renderContext)` merges every caller's context into the defaults shared by all renderers and all later calls | `render('home', {doctype: ''})` followed by `render('home')`: the second call renders with the empty doctype. Any key such as `title` likewise leaks into later renders | Merge into a fresh object, `Object.assign({}, defaults, renderContext)`, as the class renderer does | medium, not executed | `LegacyRenderer.DoctypeOverrideLeaks` | `Renderer.DoctypeOverrideIsolated` |
