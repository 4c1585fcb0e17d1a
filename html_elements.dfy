/**
 * The structural check the renderer applies to a template's return value
 * (`Renderer.isHtmlElement`) and the two assertion helpers built on such checks.
 */
module HtmlElements {
  import opened JsValues
  import opened RenderErrors

  /** The HTML5 doctype both renderers put in their default render context. */
  const Html5Doctype: string := "<!DOCTYPE html>"

  /** The message `render` passes when a template returns something else. */
  const InvalidOutputMessage: string := "Templates must return an HTML element"
  /** The message `loadTemplate` passes when a module does not export a function. */
  const InvalidExportMessage: string := "Templates must export a function"

  /**
   * An element node is an object whose `type` and `props` are both defined;
   * an array is valid when each of its items is (so the empty array is).
   */
  predicate IsHtmlElement(v: Value) {
    match v
    case Arr(items) => forall i :: 0 <= i < |items| ==> IsHtmlElement(items[i])
    case Obj(fields) => Get(fields, "type") != Undefined && Get(fields, "props") != Undefined
    case _ => false
  }

  /** Throws (fails) with `message` exactly when `v` is not an HTML element. */
  function AssertIsHtmlElement(v: Value, message: string): (r: Outcome)
    ensures r.Pass? <==> IsHtmlElement(v)
    ensures r.Fail? ==> r.error == AssertionFailed(message) && Message(r.error) == Some(message)
  {
    if IsHtmlElement(v) then Pass else Fail(AssertionFailed(message))
  }

  /** Throws (fails) with `message` exactly when `v` is not a function. */
  function AssertIsFunction(v: Value, message: string): (r: Outcome)
    ensures r.Pass? <==> v.Func?
    ensures r.Fail? ==> r.error == AssertionFailed(message) && Message(r.error) == Some(message)
  {
    if v.Func? then Pass else Fail(AssertionFailed(message))
  }

  /** The element `{type: tag, props: {}}` as a value. */
  function Element(tag: string): Value {
    Obj(map["type" := Str(tag), "props" := Obj(map[])])
  }

  /** The literal cases the renderer's tests pin down. */
  lemma IsHtmlElementExamples()
    ensures IsHtmlElement(Element("mock-tag-name"))
    ensures IsHtmlElement(Arr([Element("mock-tag-name"), Element("mock-tag-name")]))
    ensures !IsHtmlElement(Str("mock"))
    ensures !IsHtmlElement(Obj(map[]))
    ensures !IsHtmlElement(Obj(map["type" := Undefined, "props" := Undefined]))
    ensures !IsHtmlElement(Arr([Element("mock-tag-name"), Str("mock")]))
  {
    assert Arr([Element("mock-tag-name"), Str("mock")]).items[1] == Str("mock");
  }

  /** Concatenating two lists of elements gives a list of elements, and only then. */
  lemma {:induction false} ConcatenatedElements(a: seq<Value>, b: seq<Value>)
    ensures IsHtmlElement(Arr(a + b)) <==> IsHtmlElement(Arr(a)) && IsHtmlElement(Arr(b))
  {
    if IsHtmlElement(Arr(a + b)) {
      forall i | 0 <= i < |a| ensures IsHtmlElement(a[i]) { assert (a + b)[i] == a[i]; }
      forall i | 0 <= i < |b| ensures IsHtmlElement(b[i]) { assert (a + b)[|a| + i] == b[i]; }
    }
  }

  /** A value that is neither an object nor an array is never an element, so it is always rejected. */
  lemma ScalarsRejected(v: Value, message: string)
    requires !v.Obj? && !v.Arr?
    ensures AssertIsHtmlElement(v, message) == Fail(AssertionFailed(message))
  {
  }
}
