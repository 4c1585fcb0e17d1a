/**
 * Construction-time options of the class renderer (`Renderer.defaultOptions`,
 * `Renderer.applyDefaultOptions`).
 */
module RendererOptions {
  import opened JsValues
  import TemplateNames

  /** The options after defaulting: environment label, default view path, extra namespaces. */
  datatype Options = Options(env: string, path: string, namespacePaths: TemplateNames.NamespaceTable)

  /** What a caller passes; None is a property the caller left out. */
  datatype UserOptions = UserOptions(
    env: Option<string>,
    path: Option<string>,
    namespacePaths: Option<TemplateNames.NamespaceTable>)

  /** The options `applyDefaultOptions` returns: `path` is folded into the namespace table. */
  datatype ResolvedOptions = ResolvedOptions(env: string, namespacePaths: TemplateNames.NamespaceTable)

  /** The environment label used when NODE_ENV is not set. */
  const DevelopmentEnv: string := "development"

  /**
   * `Renderer.defaultOptions`: env from NODE_ENV (else "development"), path
   * `<cwd>/view`, no extra namespaces. `nodeEnv` and `cwd` stand for the
   * process environment and working directory.
   */
  function DefaultOptions(nodeEnv: Option<string>, cwd: string): (o: Options)
    ensures nodeEnv.Some? ==> o.env == nodeEnv.value
    ensures nodeEnv.None? ==> o.env == DevelopmentEnv
    ensures o.path == cwd + "/view" && o.namespacePaths == map[]
  {
    Options(nodeEnv.GetOr(DevelopmentEnv), TemplateNames.JoinPath(cwd, "view"), map[])
  }

  /** Object.assign({}, defaults, user): each option the caller supplies replaces the default whole. */
  function MergeOptions(defaults: Options, user: UserOptions): Options {
    Options(
      user.env.GetOr(defaults.env),
      user.path.GetOr(defaults.path),
      user.namespacePaths.GetOr(defaults.namespacePaths))
  }

  /**
   * Defaults the options, then moves `path` into the namespace table under
   * `__default`; every other namespace entry and `env` are kept.
   */
  function ApplyDefaultOptions(defaults: Options, user: UserOptions): (r: ResolvedOptions)
    ensures r.env == if user.env.Some? then user.env.value else defaults.env
    ensures var base := if user.namespacePaths.Some? then user.namespacePaths.value else defaults.namespacePaths;
      && r.namespacePaths.Keys == base.Keys + {TemplateNames.DefaultNamespace}
      && (forall ns :: ns in base && ns != TemplateNames.DefaultNamespace ==> r.namespacePaths[ns] == base[ns])
    ensures r.namespacePaths[TemplateNames.DefaultNamespace]
      == if user.path.Some? then user.path.value else defaults.path
  {
    var merged := MergeOptions(defaults, user);
    ResolvedOptions(merged.env, merged.namespacePaths[TemplateNames.DefaultNamespace := merged.path])
  }

  /** The literal case of the tests: `path` lands under `__default` next to the given namespace. */
  lemma ApplyDefaultOptionsExample()
    ensures ApplyDefaultOptions(
        Options("mock-env", "mock-path", map["mock-namespace" := "mock-namespace-path"]),
        UserOptions(None, None, None))
      == ResolvedOptions("mock-env", map["__default" := "mock-path", "mock-namespace" := "mock-namespace-path"])
  {
  }

  /** Whatever the caller passes, the resolved table has a default namespace: unqualified names can resolve. */
  lemma {:induction false} DefaultNamespaceAlwaysConfigured(nodeEnv: Option<string>, cwd: string, user: UserOptions, name: string)
    requires !TemplateNames.IsAbsoluteName(name) && ':' !in name
    ensures var table := ApplyDefaultOptions(DefaultOptions(nodeEnv, cwd), user).namespacePaths;
      TemplateNames.ResolveTemplatePath(table, name).Ok?
  {
    var table := ApplyDefaultOptions(DefaultOptions(nodeEnv, cwd), user).namespacePaths;
    TemplateNames.UnqualifiedNameResolves(table, name);
  }

  /**
   * The namespaced example's constructor options, `path: views` and
   * `namespacePaths: {admin: adminViews}`, build exactly the table its
   * resolution scenarios use.
   */
  lemma ExampleOptionsBuildScenarioTable(nodeEnv: Option<string>, cwd: string, views: string, adminViews: string)
    ensures ApplyDefaultOptions(DefaultOptions(nodeEnv, cwd),
                                UserOptions(None, Some(views), Some(map["admin" := adminViews]))).namespacePaths
         == TemplateNames.ScenarioTable(views, adminViews)
  {
  }
}
