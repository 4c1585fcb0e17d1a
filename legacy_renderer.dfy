/**
 * The function-based renderer: `renderer(options)` returns a `render`
 * function over a single view directory. Its defaults live on the exported
 * `renderer` function object and are shared by every renderer it creates;
 * each render merges the caller's context INTO the shared default context.
 */
module LegacyRenderer {
  import opened JsValues
  import opened RenderErrors
  import Koa
  import TemplateNames
  import opened HtmlElements

  /**
   * path.join(options.viewPath, templatePath): joins onto the configured view
   * path, which must be a string (path.join throws otherwise).
   */
  function ResolveTemplatePath(options: Context, templatePath: string): (r: Result<string>)
    ensures r.Ok? <==> Get(options, "viewPath").Str?
    ensures r.Ok? ==> r.value == Get(options, "viewPath").s + "/" + templatePath
    ensures r.Err? ==> r.error == InvalidPathArgument
  {
    match Get(options, "viewPath")
    case Str(viewPath) => Ok(TemplateNames.JoinPath(viewPath, templatePath))
    case _ => Err(InvalidPathArgument)
  }

  /**
   * The output with the context's doctype in front when that doctype is
   * truthy; a falsy doctype contributes the empty string.
   */
  function WithDoctype(renderContext: Context, output: string): (r: string)
    ensures Truthy(Get(renderContext, "doctype")) ==> r == ToJsString(Get(renderContext, "doctype")) + output
    ensures !Truthy(Get(renderContext, "doctype")) ==> r == output
    ensures Get(renderContext, "doctype").Str? ==> r == Get(renderContext, "doctype").s + output
  {
    var doctype := Get(renderContext, "doctype");
    ToJsString(if Truthy(doctype) then doctype else Str("")) + output
  }

  /**
   * What one call of `render` returns once `renderContext` is the merged
   * shared context: resolve, require the module, call its export, serialise
   * whatever it returns, prefix the doctype.
   */
  function RenderOutcome(
    options: Context, renderContext: Context, templatePath: string,
    require: string -> Option<Value>,
    invoke: (Value, Context) -> Completion,
    serialize: Value -> string): (r: Result<string>)
    ensures ResolveTemplatePath(options, templatePath).Err? ==> r == Err(InvalidPathArgument)
    ensures ResolveTemplatePath(options, templatePath).Ok? ==>
      var path := ResolveTemplatePath(options, templatePath).value;
      && (require(path).None? ==> r == Err(TemplateNotFound([path])))
      && (require(path).Some? && !require(path).value.Func? ==> r == Err(NotCallable))
      && (require(path).Some? && require(path).value.Func? ==>
            match invoke(require(path).value, renderContext)
            case Throw(e) => r == Err(TemplateThrew(e))
            case Normal(output) => r == Ok(WithDoctype(renderContext, serialize(output))))
  {
    match ResolveTemplatePath(options, templatePath)
    case Err(e) => Err(e)
    case Ok(path) =>
      match require(path)
      case None => Err(TemplateNotFound([path]))
      case Some(template) =>
        if !template.Func? then Err(NotCallable)
        else match invoke(template, renderContext)
          case Throw(e) => Err(TemplateThrew(e))
          case Normal(output) => Ok(WithDoctype(renderContext, serialize(output)))
  }

  /**
   * Because the merge writes into the shared defaults, a key one render
   * supplies is seen by every later render that does not supply it.
   */
  lemma {:induction false} EarlierContextLeaksIntoLaterRender(
    defaults: Context, first: Context, later: Option<Context>, key: string)
    requires key in first
    requires later.None? || key !in later.value
    ensures Get(Assign(Assign(defaults, Some(first)), later), key) == first[key]
  {
    var afterFirst := Assign(defaults, Some(first));
    assert key in afterFirst && afterFirst[key] == first[key];
  }

  /** The exported `renderer` function object, holding the defaults all renderers share. */
  class RendererModule {
    /** `renderer.defaultOptions`. */
    var defaultOptions: Context
    /** `renderer.defaultRenderContext`. */
    var defaultRenderContext: Context

    /** The state at module load; `cwd` stands for process.cwd(). */
    constructor (cwd: string)
      ensures defaultOptions == map["viewPath" := Str(cwd + "/view")]
      ensures defaultRenderContext == map["doctype" := Str(Html5Doctype)]
    {
      defaultOptions := map["viewPath" := Str(cwd + "/view")];
      defaultRenderContext := map["doctype" := Str(Html5Doctype)];
    }
  }

  /** The `render` function `renderer(options)` returns, with the options it closes over. */
  class RenderFunction {
    const shared: RendererModule
    const options: Context

    /** `renderer(options)`: the caller's options over `renderer.defaultOptions`, key by key. */
    constructor (shared: RendererModule, options: Option<Context>)
      ensures this.shared == shared
      ensures this.options == AssignFresh(shared.defaultOptions, options)
    {
      this.shared := shared;
      this.options := AssignFresh(shared.defaultOptions, options);
    }

    /**
     * `render(templatePath, renderContext)`: first merges the caller's context
     * into the shared defaults (whatever happens next), then renders with the
     * merged shared object.
     */
    method Render(
      templatePath: string, renderContext: Option<Context>,
      require: string -> Option<Value>,
      invoke: (Value, Context) -> Completion,
      serialize: Value -> string) returns (r: Result<string>)
      modifies shared`defaultRenderContext
      ensures shared.defaultRenderContext == Assign(old(shared.defaultRenderContext), renderContext)
      ensures r == RenderOutcome(options, shared.defaultRenderContext, templatePath, require, invoke, serialize)
    {
      shared.defaultRenderContext := Assign(shared.defaultRenderContext, renderContext);
      var merged := shared.defaultRenderContext;
      var path := ResolveTemplatePath(options, templatePath);
      if path.Err? {
        return Err(path.error);
      }
      var template := require(path.value);
      if template.None? {
        return Err(TemplateNotFound([path.value]));
      }
      if !template.value.Func? {
        return Err(NotCallable);
      }
      var completion := invoke(template.value, merged);
      if completion.Throw? {
        return Err(TemplateThrew(completion.exception));
      }
      var output := serialize(completion.value);
      r := Ok(WithDoctype(merged, output));
    }

    /** `render.koa()`'s middleware: installs `context.render`, then calls and returns `next()`. */
    method KoaMiddleware(context: Koa.KoaContext, next: () -> Value) returns (r: Value)
      modifies context
      ensures context.renderInstalled
      ensures context.body == old(context.body) && context.state == old(context.state)
      ensures r == next()
    {
      context.renderInstalled := true;
      r := next();
    }

    /**
     * The installed `context.render(templatePath, renderContext)`: renders a
     * fresh `{} + state + renderContext` (which the render then merges into
     * the shared defaults) and sets `context.body` when rendering succeeds.
     */
    method KoaRender(
      context: Koa.KoaContext, templatePath: string, renderContext: Option<Context>,
      require: string -> Option<Value>,
      invoke: (Value, Context) -> Completion,
      serialize: Value -> string) returns (r: Outcome)
      requires context.renderInstalled
      modifies context, shared`defaultRenderContext
      ensures shared.defaultRenderContext
        == Assign(old(shared.defaultRenderContext), Some(Koa.MergeState(old(context.state), renderContext)))
      ensures var outcome := RenderOutcome(options, shared.defaultRenderContext, templatePath, require, invoke, serialize);
        && (outcome.Ok? ==> r == Pass && context.body == Str(outcome.value))
        && (outcome.Err? ==> r == Fail(outcome.error) && context.body == old(context.body))
      ensures context.state == old(context.state) && context.renderInstalled
    {
      var merged := Koa.MergeState(context.state, renderContext);
      var rendered := Render(templatePath, Some(merged), require, invoke, serialize);
      if rendered.Ok? {
        context.body := Str(rendered.value);
        r := Pass;
      } else {
        r := Fail(rendered.error);
      }
    }
  }

  /**
   * Two renders through one renderer: the first passes `doctype: ""`, the
   * second passes no context at all, yet the second renders with an empty
   * doctype and the shared default doctype is gone.
   */
  method DoctypeOverrideLeaks(
    cwd: string,
    require: string -> Option<Value>,
    invoke: (Value, Context) -> Completion,
    serialize: Value -> string) returns (second: Result<string>, sharedDoctype: Value)
    ensures sharedDoctype == Str("")
    ensures second == RenderOutcome(map["viewPath" := Str(cwd + "/view")], map["doctype" := Str("")],
                                    "home", require, invoke, serialize)
    ensures second.Ok? ==> exists output :: second.value == serialize(output)
  {
    var shared := new RendererModule(cwd);
    var render := new RenderFunction(shared, None);
    var first := render.Render("home", Some(map["doctype" := Str("")]), require, invoke, serialize);
    assert shared.defaultRenderContext == map["doctype" := Str("")];
    second := render.Render("home", None, require, invoke, serialize);
    sharedDoctype := Get(shared.defaultRenderContext, "doctype");
  }
}
