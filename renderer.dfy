/**
 * The class renderer: a namespace table and a default render context built
 * at construction, and a render pipeline that resolves template names,
 * loads the first matching module, calls it with the merged context, checks
 * the result is an HTML element, serialises it and prepends the doctype.
 */
module Renderer {
  import opened JsValues
  import opened RenderErrors
  import opened TemplateNames
  import opened HtmlElements
  import opened RendererOptions
  import Koa

  /** `instance.renderContext` as the constructor sets it. */
  function DefaultRenderContext(): Context {
    map["doctype" := Str(Html5Doctype)]
  }

  /**
   * Object.assign({}, instance.renderContext, renderContext): a fresh context
   * in which the caller's properties win and the defaults fill the rest; the
   * defaults themselves are left as they were.
   */
  function ApplyDefaultRenderContext(defaults: Context, renderContext: Option<Context>): Context {
    AssignFresh(defaults, renderContext)
  }

  /** The doctype prefix a context calls for: its `doctype` when truthy, else nothing. */
  function DoctypePrefix(renderContext: Option<Context>): string {
    if renderContext.Some? && Truthy(Get(renderContext.value, "doctype"))
    then ToJsString(Get(renderContext.value, "doctype"))
    else ""
  }

  /** The rendered string with the context's doctype prepended when that doctype is truthy. */
  function ApplyStringTransforms(rendered: string, renderContext: Option<Context>): (r: string)
    ensures renderContext.Some? && Get(renderContext.value, "doctype").Str? ==>
      r == Get(renderContext.value, "doctype").s + rendered
    ensures renderContext.None? || !Truthy(Get(renderContext.value, "doctype")) ==> r == rendered
    ensures |r| >= |rendered| && r[|r| - |rendered|..] == rendered
  {
    DoctypePrefix(renderContext) + rendered
  }

  /**
   * `loadTemplate`: resolve the names, load the first module found, and
   * insist that it exports a function.
   */
  function LoadTemplate(namespaces: NamespaceTable, names: TemplateNameList, requireFirst: seq<string> -> Option<Value>)
    : (r: Result<Value>)
    ensures ResolveTemplatePaths(namespaces, names).Err? ==> r == Err(ResolveTemplatePaths(namespaces, names).error)
    ensures ResolveTemplatePaths(namespaces, names).Ok? ==>
      var paths := ResolveTemplatePaths(namespaces, names).value;
      && (requireFirst(paths).None? ==> r == Err(TemplateNotFound(paths)))
      && (requireFirst(paths).Some? && !requireFirst(paths).value.Func? ==>
            r == Err(AssertionFailed(InvalidExportMessage)))
      && (r.Ok? <==> requireFirst(paths).Some? && requireFirst(paths).value.Func?)
      && (r.Ok? ==> r.value == requireFirst(paths).value)
  {
    match ResolveTemplatePaths(namespaces, names)
    case Err(e) => Err(e)
    case Ok(paths) =>
      match requireFirst(paths)
      case None => Err(TemplateNotFound(paths))
      case Some(exported) =>
        match AssertIsFunction(exported, InvalidExportMessage)
        case Fail(e) => Err(e)
        case Pass => Ok(exported)
  }

  /**
   * What `render` settles to: merge the context, load the template, call it
   * with the merged context, reject output that is not an HTML element,
   * serialise, apply the string transforms. A failing step ends the pipeline
   * with that step's error.
   */
  function RenderPipeline(
    namespaces: NamespaceTable, defaults: Context,
    names: TemplateNameList, renderContext: Option<Context>,
    requireFirst: seq<string> -> Option<Value>,
    invoke: (Value, Context) -> Completion,
    serialize: Value -> string): (r: Result<string>)
    ensures var ctx := ApplyDefaultRenderContext(defaults, renderContext);
      var loaded := LoadTemplate(namespaces, names, requireFirst);
      && (loaded.Err? ==> r == Err(loaded.error))
      && (loaded.Ok? && invoke(loaded.value, ctx).Throw? ==>
            r == Err(TemplateThrew(invoke(loaded.value, ctx).exception)))
      && (loaded.Ok? && invoke(loaded.value, ctx).Normal? && !IsHtmlElement(invoke(loaded.value, ctx).value) ==>
            r == Err(AssertionFailed(InvalidOutputMessage)))
      && (r.Ok? <==> loaded.Ok? && invoke(loaded.value, ctx).Normal? && IsHtmlElement(invoke(loaded.value, ctx).value))
      && (r.Ok? ==> r.value == ApplyStringTransforms(serialize(invoke(loaded.value, ctx).value), Some(ctx)))
  {
    var ctx := ApplyDefaultRenderContext(defaults, renderContext);
    match LoadTemplate(namespaces, names, requireFirst)
    case Err(e) => Err(e)
    case Ok(template) =>
      match invoke(template, ctx)
      case Throw(exception) => Err(TemplateThrew(exception))
      case Normal(html) =>
        match AssertIsHtmlElement(html, InvalidOutputMessage)
        case Fail(e) => Err(e)
        case Pass => Ok(ApplyStringTransforms(serialize(html), Some(ctx)))
  }

  /**
   * Against the default context, a render whose caller passes a falsy
   * `doctype` and one whose caller passes none differ only by the HTML5
   * doctype prefix, as long as the template itself ignores `doctype`: both
   * succeed or both fail with the same error, and the second output is the
   * first with the doctype in front.
   */
  lemma DoctypeIsOnlyDifference(
    namespaces: NamespaceTable, names: TemplateNameList, caller: Context, falsy: Value,
    requireFirst: seq<string> -> Option<Value>,
    invoke: (Value, Context) -> Completion,
    serialize: Value -> string)
    requires !Truthy(falsy)
    requires "doctype" !in caller
    requires forall t, c1: Context, c2: Context :: c1 - {"doctype"} == c2 - {"doctype"} ==> invoke(t, c1) == invoke(t, c2)
    ensures var plain := RenderPipeline(namespaces, DefaultRenderContext(), names, Some(caller["doctype" := falsy]),
                                        requireFirst, invoke, serialize);
      var prefixed := RenderPipeline(namespaces, DefaultRenderContext(), names, Some(caller),
                                     requireFirst, invoke, serialize);
      && (prefixed.Ok? <==> plain.Ok?)
      && (plain.Err? ==> prefixed == plain)
      && (prefixed.Ok? ==> prefixed.value == Html5Doctype + plain.value)
  {
    var withFalsy := ApplyDefaultRenderContext(DefaultRenderContext(), Some(caller["doctype" := falsy]));
    var withDefault := ApplyDefaultRenderContext(DefaultRenderContext(), Some(caller));
    assert withFalsy - {"doctype"} == withDefault - {"doctype"};
    assert Get(withFalsy, "doctype") == falsy;
    assert Get(withDefault, "doctype") == Str(Html5Doctype);
  }

  /** A template is never called when its names do not load: the outcome does not depend on `invoke`. */
  lemma TemplateNotCalledWhenLoadFails(
    namespaces: NamespaceTable, defaults: Context, names: TemplateNameList, renderContext: Option<Context>,
    requireFirst: seq<string> -> Option<Value>,
    invoke1: (Value, Context) -> Completion, invoke2: (Value, Context) -> Completion,
    serialize: Value -> string)
    requires LoadTemplate(namespaces, names, requireFirst).Err?
    ensures RenderPipeline(namespaces, defaults, names, renderContext, requireFirst, invoke1, serialize)
         == RenderPipeline(namespaces, defaults, names, renderContext, requireFirst, invoke2, serialize)
         == Err(LoadTemplate(namespaces, names, requireFirst).error)
  {
  }

  /** Output that is not an HTML element is never serialised: the outcome does not depend on `serialize`. */
  lemma InvalidOutputNotSerialized(
    namespaces: NamespaceTable, defaults: Context, names: TemplateNameList, renderContext: Option<Context>,
    requireFirst: seq<string> -> Option<Value>, invoke: (Value, Context) -> Completion,
    serialize1: Value -> string, serialize2: Value -> string, output: Value)
    requires LoadTemplate(namespaces, names, requireFirst).Ok?
    requires invoke(LoadTemplate(namespaces, names, requireFirst).value,
                    ApplyDefaultRenderContext(defaults, renderContext)) == Normal(output)
    requires !IsHtmlElement(output)
    ensures RenderPipeline(namespaces, defaults, names, renderContext, requireFirst, invoke, serialize1)
         == RenderPipeline(namespaces, defaults, names, renderContext, requireFirst, invoke, serialize2)
         == Err(AssertionFailed(InvalidOutputMessage))
  {
  }

  /**
   * Effective precedence through the Koa adapter, lowest to highest:
   * renderer defaults, request state, the caller's context.
   */
  lemma {:induction false} KoaContextPrecedence(defaults: Context, state: Context, caller: Option<Context>, key: string)
    ensures var ctx := ApplyDefaultRenderContext(defaults, Some(Koa.MergeState(state, caller)));
      && (caller.Some? && key in caller.value ==> Get(ctx, key) == caller.value[key])
      && ((caller.None? || key !in caller.value) && key in state ==> Get(ctx, key) == state[key])
      && ((caller.None? || key !in caller.value) && key !in state ==> Get(ctx, key) == Get(defaults, key))
  {
    var merged := Koa.MergeState(state, caller);
    assert caller.Some? && key in caller.value ==> key in merged && merged[key] == caller.value[key];
    assert (caller.None? || key !in caller.value) && key in state ==> key in merged && merged[key] == state[key];
    assert (caller.None? || key !in caller.value) && key !in state ==> key !in merged;
  }

  /** A caller's explicit null doctype wins over the default and switches the prefix off. */
  lemma {:induction false} NullDoctypeDisablesPrefix(state: Context, caller: Context, rendered: string)
    requires "doctype" in caller && caller["doctype"] == Null
    ensures var ctx := ApplyDefaultRenderContext(DefaultRenderContext(), Some(Koa.MergeState(state, Some(caller))));
      Get(ctx, "doctype") == Null && ApplyStringTransforms(rendered, Some(ctx)) == rendered
  {
    KoaContextPrecedence(DefaultRenderContext(), state, Some(caller), "doctype");
  }

  /**
   * The end-to-end scenario: `home` in the default namespace is the module at
   * `<views>/home`, whose function turns the context into `element`; the
   * result is the HTML5 doctype followed by the serialised element.
   */
  lemma {:induction false} HomePageScenario(
    views: string, adminViews: string, title: Value, element: Value,
    requireFirst: seq<string> -> Option<Value>, invoke: (Value, Context) -> Completion,
    serialize: Value -> string, source: string)
    requires requireFirst([views + "/home"]) == Some(Func(source))
    requires invoke(Func(source), DefaultRenderContext()["title" := title]) == Normal(element)
    requires IsHtmlElement(element)
    ensures RenderPipeline(ScenarioTable(views, adminViews), DefaultRenderContext(), Name("home"),
                           Some(map["title" := title]), requireFirst, invoke, serialize)
         == Ok(Html5Doctype + serialize(element))
  {
    var table := ScenarioTable(views, adminViews);
    assert ResolveTemplatePath(table, "home") == Ok(views + "/home") by {
      assert !IsAbsoluteName("home") && ':' !in "home";
      assert views + "/" + "home" == views + "/home";
      UnqualifiedNameResolves(table, "home");
    }
    assert ApplyDefaultRenderContext(DefaultRenderContext(), Some(map["title" := title]))
        == DefaultRenderContext()["title" := title];
  }

  class Renderer {
    /** The environment label (informational). */
    var env: string
    /** Namespace name to base directory. */
    var namespaces: NamespaceTable
    /** The context every render starts from. */
    var renderContext: Context

    /**
     * `new Renderer(options)`: `env` and `namespaces` come from the defaulted
     * options; `nodeEnv` and `cwd` stand for NODE_ENV and the working directory.
     */
    constructor (options: UserOptions, nodeEnv: Option<string>, cwd: string)
      ensures var resolved := ApplyDefaultOptions(DefaultOptions(nodeEnv, cwd), options);
        env == resolved.env && namespaces == resolved.namespacePaths
      ensures renderContext == DefaultRenderContext()
      ensures DefaultNamespace in namespaces
    {
      var resolved := ApplyDefaultOptions(DefaultOptions(nodeEnv, cwd), options);
      env := resolved.env;
      namespaces := resolved.namespacePaths;
      renderContext := DefaultRenderContext();
    }

    /**
     * `render(templateNames, renderContext)`. It reads the instance and changes
     * nothing, so one call cannot influence the next.
     */
    method Render(
      names: TemplateNameList, callerContext: Option<Context>,
      requireFirst: seq<string> -> Option<Value>,
      invoke: (Value, Context) -> Completion,
      serialize: Value -> string) returns (r: Result<string>)
      ensures r == RenderPipeline(namespaces, renderContext, names, callerContext, requireFirst, invoke, serialize)
    {
      var ctx := ApplyDefaultRenderContext(renderContext, callerContext);
      var loaded := LoadTemplate(namespaces, names, requireFirst);
      if loaded.Err? {
        return Err(loaded.error);
      }
      var completion := invoke(loaded.value, ctx);
      if completion.Throw? {
        return Err(TemplateThrew(completion.exception));
      }
      var check := AssertIsHtmlElement(completion.value, InvalidOutputMessage);
      if check.Fail? {
        return Err(check.error);
      }
      var html := serialize(completion.value);
      r := Ok(ApplyStringTransforms(html, Some(ctx)));
    }

    /** The Koa middleware: installs `context.render`, then calls and returns `next()`. */
    method KoaMiddleware(context: Koa.KoaContext, next: () -> Value) returns (r: Value)
      modifies context
      ensures context.renderInstalled
      ensures context.body == old(context.body) && context.state == old(context.state)
      ensures r == next()
    {
      context.renderInstalled := true;
      r := next();
    }

    /**
     * The installed `context.render(templateNames, renderContext)`: renders with
     * the state merged beneath the caller's context and, only on success, sets
     * `context.body`; the state is not touched.
     */
    method KoaRender(
      context: Koa.KoaContext, names: TemplateNameList, callerContext: Option<Context>,
      requireFirst: seq<string> -> Option<Value>,
      invoke: (Value, Context) -> Completion,
      serialize: Value -> string) returns (r: Outcome)
      requires context.renderInstalled
      modifies context
      ensures var outcome := RenderPipeline(namespaces, renderContext, names,
          Some(Koa.MergeState(old(context.state), callerContext)), requireFirst, invoke, serialize);
        && (outcome.Ok? ==> r == Pass && context.body == Str(outcome.value))
        && (outcome.Err? ==> r == Fail(outcome.error) && context.body == old(context.body))
      ensures context.state == old(context.state) && context.renderInstalled
    {
      var rendered := Render(names, Some(Koa.MergeState(context.state, callerContext)), requireFirst, invoke, serialize);
      if rendered.Ok? {
        context.body := Str(rendered.value);
        r := Pass;
      } else {
        r := Fail(rendered.error);
      }
    }
  }

  /**
   * Two renders through one class renderer: the first passes `doctype: ""`,
   * the second passes no context; the second still starts from the HTML5
   * doctype, because rendering never writes to `renderContext`.
   */
  method DoctypeOverrideIsolated(
    nodeEnv: Option<string>, cwd: string,
    requireFirst: seq<string> -> Option<Value>,
    invoke: (Value, Context) -> Completion,
    serialize: Value -> string) returns (second: Result<string>, defaultDoctype: Value)
    ensures defaultDoctype == Str(Html5Doctype)
    ensures var table := ApplyDefaultOptions(DefaultOptions(nodeEnv, cwd), UserOptions(None, None, None)).namespacePaths;
      second == RenderPipeline(table, DefaultRenderContext(), Name("home"), None, requireFirst, invoke, serialize)
    ensures second.Ok? ==> |second.value| >= |Html5Doctype| && second.value[..|Html5Doctype|] == Html5Doctype
  {
    var renderer := new Renderer(UserOptions(None, None, None), nodeEnv, cwd);
    var first := renderer.Render(Name("home"), Some(map["doctype" := Str("")]), requireFirst, invoke, serialize);
    second := renderer.Render(Name("home"), None, requireFirst, invoke, serialize);
    defaultDoctype := Get(renderer.renderContext, "doctype");
    assert ApplyDefaultRenderContext(DefaultRenderContext(), None) == DefaultRenderContext();
  }
}
