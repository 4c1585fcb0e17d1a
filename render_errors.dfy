/** The ways a render call can fail, and the result types that carry them. */
module RenderErrors {
  import opened JsValues

  datatype RenderError =
    /** A template name's namespace has no entry in the namespace table. */
    | NamespaceNotConfigured(namespace: string)
    /** The module loader found no module at any of these paths. */
    | TemplateNotFound(paths: seq<string>)
    /** A `Renderer.assertIs…` check failed with this message. */
    | AssertionFailed(message: string)
    /** path.join was given a view path that is not a string. */
    | InvalidPathArgument
    /** The loaded template module does not export a function, and was called. */
    | NotCallable
    /** The template function threw this value. */
    | TemplateThrew(exception: Value)

  datatype Result<+T> = Ok(value: T) | Err(error: RenderError)

  datatype Outcome = Pass | Fail(error: RenderError)

  /** The error message of the two failures whose text the renderer chooses. */
  function Message(e: RenderError): Option<string> {
    match e
    case NamespaceNotConfigured(ns) => Some("Renderer namespace \"" + ns + "\" is not configured")
    case AssertionFailed(message) => Some(message)
    case _ => None
  }
}
