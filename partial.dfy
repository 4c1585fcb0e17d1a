/** The base class template authors extend to package reusable view logic. */
module Partials {
  import opened JsValues

  /** What an unextended partial renders: a placeholder naming its class. */
  function UnextendedOutput(className: string): string {
    "Unextended Partial (" + className + ")"
  }

  /** The placeholder determines the class name: different classes render differently. */
  lemma {:induction false} UnextendedOutputNamesClass(a: string, b: string)
    requires UnextendedOutput(a) == UnextendedOutput(b)
    ensures a == b
  {
    var prefix := "Unextended Partial (";
    var s := UnextendedOutput(a);
    assert |a| == |b|;
    assert a == s[|prefix|..|s| - 1];
    assert b == UnextendedOutput(b)[|prefix|..|UnextendedOutput(b)| - 1];
  }

  class Partial {
    /** `this.context`: the data the partial renders. */
    var context: Value
    /** The constructor's name, `this.constructor.name` ("Partial" for the base class). */
    const className: string

    /** `new Partial(renderContext)`: an omitted (undefined) context defaults to `{}`. */
    constructor (renderContext: Value, className: string)
      ensures renderContext != Undefined ==> context == renderContext
      ensures renderContext == Undefined ==> context == Obj(map[])
      ensures this.className == className
    {
      context := if renderContext == Undefined then Obj(map[]) else renderContext;
      this.className := className;
    }

    /** `render()`: the placeholder output; it reads nothing but the class name. */
    method Render() returns (r: string)
      ensures r == UnextendedOutput(className)
      ensures |r| == |className| + 21 && r[20..|r| - 1] == className
    {
      r := "Unextended Partial (" + className + ")";
    }
  }

  /** The base class renders "Unextended Partial (Partial)". */
  method BasePartialRender(renderContext: Value) returns (r: string, context: Value)
    ensures r == "Unextended Partial (Partial)"
    ensures context == if renderContext == Undefined then Obj(map[]) else renderContext
  {
    var partial := new Partial(renderContext, "Partial");
    r := partial.Render();
    context := partial.context;
  }
}
