/** The slice of a Koa request context that the renderers' Koa middleware touches. */
module Koa {
  import opened JsValues

  class KoaContext {
    /** `context.body`: the response body. */
    var body: Value
    /** `context.state`: request-scoped data for views. */
    var state: Context
    /** Whether the middleware has installed `context.render`. */
    var renderInstalled: bool

    constructor (body: Value, state: Context)
      ensures this.body == body && this.state == state && !renderInstalled
    {
      this.body := body;
      this.state := state;
      renderInstalled := false;
    }
  }

  /**
   * Object.assign({}, context.state, renderContext): the context that
   * `context.render` passes on, in which the caller wins over the state.
   */
  function MergeState(state: Context, renderContext: Option<Context>): Context {
    AssignFresh(state, renderContext)
  }
}
