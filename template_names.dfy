/**
 * Template names of the form `[namespace:]template`, and their resolution to
 * file paths through the renderer's namespace table
 * (`Renderer.parseTemplateName`, `resolveTemplatePath`, `resolveTemplatePaths`).
 */
module TemplateNames {
  import opened JsValues
  import opened RenderErrors

  /** The namespace a name without a namespace prefix belongs to. */
  const DefaultNamespace: string := "__default"
  /** The template a name with an empty template part refers to. */
  const DefaultTemplate: string := "index"

  /** Namespace name to base directory (the renderer's `namespaces` Map). */
  type NamespaceTable = map<string, string>

  datatype ParsedTemplateName = ParsedTemplateName(namespace: string, template: string)

  /** The argument of `resolveTemplatePaths`: one name, or a list of fallbacks. */
  datatype TemplateNameList = Name(name: string) | Names(names: seq<string>)

  /** The index of the first ':' in `s`, if there is one. */
  function FirstColon(s: string): (r: Option<nat>)
    ensures r.None? <==> ':' !in s
    ensures r.Some? ==> r.value < |s| && s[r.value] == ':' && ':' !in s[..r.value]
  {
    if s == [] then None
    else if s[0] == ':' then Some(0)
    else match FirstColon(s[1..])
      case None => None
      case Some(i) =>
        assert s[..i + 1] == [s[0]] + s[1..][..i];
        Some(i + 1)
  }

  /** Any position holding a ':' with none before it is the one FirstColon finds. */
  lemma {:induction false} FirstColonAt(s: string, i: nat)
    requires i < |s| && s[i] == ':' && ':' !in s[..i]
    ensures FirstColon(s) == Some(i)
    decreases i
  {
    if i > 0 {
      assert s[..i][0] == s[0];
      assert s[1..][..i - 1] == s[..i][1..];
      FirstColonAt(s[1..], i - 1);
    }
  }

  function OrDefault(s: string, default: string): string {
    if s == "" then default else s
  }

  /**
   * Splits a template name at its first ':' only; an absent or empty namespace
   * becomes `__default` and an empty template becomes `index`. Total: no
   * string makes it fail.
   */
  function ParseTemplateName(name: string): (r: ParsedTemplateName)
    ensures r.namespace != "" && r.template != ""
    ensures ':' !in r.namespace
    ensures ':' !in name ==> r == ParsedTemplateName(DefaultNamespace, OrDefault(name, DefaultTemplate))
    ensures forall i :: 0 <= i < |name| && name[i] == ':' && ':' !in name[..i] ==>
      r == ParsedTemplateName(OrDefault(name[..i], DefaultNamespace), OrDefault(name[i + 1..], DefaultTemplate))
  {
    match FirstColon(name)
    case None => ParsedTemplateName(DefaultNamespace, OrDefault(name, DefaultTemplate))
    case Some(c) =>
      assert forall i :: 0 <= i < |name| && name[i] == ':' && ':' !in name[..i] ==> i == c by {
        forall i | 0 <= i < |name| && name[i] == ':' && ':' !in name[..i] ensures i == c {
          FirstColonAt(name, i);
        }
      }
      ParsedTemplateName(OrDefault(name[..c], DefaultNamespace), OrDefault(name[c + 1..], DefaultTemplate))
  }

  /** The canonical written form of a parsed name. */
  function FormatTemplateName(p: ParsedTemplateName): string {
    p.namespace + ":" + p.template
  }

  /** A namespace without ':' joined to any template splits back into those two parts. */
  lemma {:induction false} ParseQualifiedName(namespace: string, template: string)
    requires ':' !in namespace
    ensures ParseTemplateName(namespace + ":" + template)
      == ParsedTemplateName(OrDefault(namespace, DefaultNamespace), OrDefault(template, DefaultTemplate))
  {
    var name := namespace + ":" + template;
    var i := |namespace|;
    assert name[i] == ':';
    assert name[..i] == namespace;
    assert name[i + 1..] == template;
  }

  /** Parsing is idempotent through the written form: parse . format . parse == parse. */
  lemma {:induction false} ParseFormatRoundTrip(name: string)
    ensures ParseTemplateName(FormatTemplateName(ParseTemplateName(name))) == ParseTemplateName(name)
  {
    var p := ParseTemplateName(name);
    ParseQualifiedName(p.namespace, p.template);
  }

  /** The literal cases the renderer's tests pin down, one lemma each. */
  lemma ParseNamespaceAndTemplate()
    ensures ParseTemplateName("ns:tpl") == ParsedTemplateName("ns", "tpl")
  {
    var name := "ns:tpl";
    FirstColonAt(name, 2);
    assert name[..2] == "ns" && name[3..] == "tpl";
  }

  lemma ParseTemplateOnly()
    ensures ParseTemplateName("tpl") == ParsedTemplateName("__default", "tpl")
  {
  }

  lemma ParseEmptyNamespace()
    ensures ParseTemplateName(":tpl") == ParsedTemplateName("__default", "tpl")
  {
    var name := ":tpl";
    FirstColonAt(name, 0);
    assert name[1..] == "tpl";
  }

  lemma ParseNamespaceOnly()
    ensures ParseTemplateName("ns:") == ParsedTemplateName("ns", "index")
  {
    var name := "ns:";
    FirstColonAt(name, 2);
    assert name[..2] == "ns" && name[3..] == "";
  }

  lemma ParseExtraSeparators()
    ensures ParseTemplateName("ns:a:b") == ParsedTemplateName("ns", "a:b")
  {
    var name := "ns:a:b";
    FirstColonAt(name, 2);
    assert name[..2] == "ns" && name[3..] == "a:b";
  }

  lemma ParseEmptyName()
    ensures ParseTemplateName("") == ParsedTemplateName("__default", "index")
  {
  }

  /** A name starting with '/' is an absolute path and bypasses the namespace table. */
  predicate IsAbsoluteName(name: string) {
    |name| > 0 && name[0] == '/'
  }

  /** path.join for a base directory and a relative segment, without normalisation. */
  function JoinPath(base: string, segment: string): string {
    base + "/" + segment
  }

  /**
   * The file path a template name refers to: an absolute name unchanged;
   * otherwise the namespace's base directory joined with the template, or an
   * error naming the namespace when the table has no entry for it.
   */
  function ResolveTemplatePath(namespaces: NamespaceTable, name: string): (r: Result<string>)
    ensures IsAbsoluteName(name) ==> r == Ok(name)
    ensures !IsAbsoluteName(name) ==>
      (r.Ok? <==> ParseTemplateName(name).namespace in namespaces)
    ensures !IsAbsoluteName(name) && r.Ok? ==>
      r.value == namespaces[ParseTemplateName(name).namespace] + "/" + ParseTemplateName(name).template
    ensures r.Err? ==>
      r.error == NamespaceNotConfigured(ParseTemplateName(name).namespace)
      && Message(r.error) == Some("Renderer namespace \"" + ParseTemplateName(name).namespace + "\" is not configured")
  {
    if IsAbsoluteName(name) then Ok(name)
    else
      var parsed := ParseTemplateName(name);
      if parsed.namespace in namespaces then Ok(JoinPath(namespaces[parsed.namespace], parsed.template))
      else Err(NamespaceNotConfigured(parsed.namespace))
  }

  /** `ns:template` with a configured namespace resolves under that namespace's directory. */
  lemma {:induction false} ResolveQualifiedName(namespaces: NamespaceTable, namespace: string, template: string)
    requires namespace != "" && ':' !in namespace && namespace[0] != '/'
    requires template != ""
    requires namespace in namespaces
    ensures ResolveTemplatePath(namespaces, namespace + ":" + template) == Ok(namespaces[namespace] + "/" + template)
  {
    ParseQualifiedName(namespace, template);
    assert (namespace + ":" + template)[0] == namespace[0];
  }

  /** A relative name without ':' resolves exactly when the default namespace is configured. */
  lemma UnqualifiedNameResolves(namespaces: NamespaceTable, name: string)
    requires !IsAbsoluteName(name) && ':' !in name
    ensures ResolveTemplatePath(namespaces, name).Ok? <==> DefaultNamespace in namespaces
    ensures DefaultNamespace in namespaces ==>
      ResolveTemplatePath(namespaces, name) == Ok(namespaces[DefaultNamespace] + "/" + OrDefault(name, DefaultTemplate))
  {
  }

  /**
   * Resolves every name in order, failing with the error of the first name
   * that does not resolve (Array.prototype.map aborts on the first throw).
   */
  function ResolveEach(namespaces: NamespaceTable, names: seq<string>): (r: Result<seq<string>>)
    ensures r.Ok? <==> forall i :: 0 <= i < |names| ==> ResolveTemplatePath(namespaces, names[i]).Ok?
    ensures r.Ok? ==> (|r.value| == |names|
      && forall i :: 0 <= i < |names| ==> r.value[i] == ResolveTemplatePath(namespaces, names[i]).value)
    ensures r.Err? ==>
      exists i ::
        && 0 <= i < |names|
        && ResolveTemplatePath(namespaces, names[i]) == Err(r.error)
        && forall j :: 0 <= j < i ==> ResolveTemplatePath(namespaces, names[j]).Ok?
  {
    if names == [] then Ok([])
    else match ResolveTemplatePath(namespaces, names[0])
      case Err(e) => Err(e)
      case Ok(head) =>
        match ResolveEach(namespaces, names[1..])
        case Err(e) =>
          ghost var k :| 0 <= k < |names[1..]|
            && ResolveTemplatePath(namespaces, names[1..][k]) == Err(e)
            && forall j :: 0 <= j < k ==> ResolveTemplatePath(namespaces, names[1..][j]).Ok?;
          assert ResolveTemplatePath(namespaces, names[k + 1]) == Err(e);
          assert forall j :: 0 <= j < k + 1 ==> ResolveTemplatePath(namespaces, names[j]).Ok? by {
            forall j | 0 <= j < k + 1 ensures ResolveTemplatePath(namespaces, names[j]).Ok? {
              if j > 0 { assert names[j] == names[1..][j - 1]; }
            }
          }
          Err(e)
        case Ok(tail) =>
          assert forall i :: 1 <= i < |names| ==> names[i] == names[1..][i - 1];
          Ok([head] + tail)
  }

  /** `resolveTemplatePaths`: a single name is treated as a one-element list. */
  function ResolveTemplatePaths(namespaces: NamespaceTable, names: TemplateNameList): (r: Result<seq<string>>)
    ensures names.Name? ==> match ResolveTemplatePath(namespaces, names.name)
      case Ok(path) => r == Ok([path])
      case Err(e) => r == Err(e)
    ensures names.Names? ==> r == ResolveEach(namespaces, names.names)
  {
    match names
    case Name(name) =>
      var r := ResolveEach(namespaces, [name]);
      assert r.Ok? ==> r.value == [r.value[0]];
      r
    case Names(list) => ResolveEach(namespaces, list)
  }

  /** The namespaced scenario's table: `views` for the default namespace, `adminViews` for `admin`. */
  function ScenarioTable(views: string, adminViews: string): NamespaceTable {
    map[DefaultNamespace := views, "admin" := adminViews]
  }

  /** In that table `admin:users` resolves under the admin directory ... */
  lemma ScenarioNamespacedName(views: string, adminViews: string)
    ensures ResolveTemplatePath(ScenarioTable(views, adminViews), "admin:users") == Ok(adminViews + "/users")
  {
    var table := ScenarioTable(views, adminViews);
    assert "admin" + ":" + "users" == "admin:users" by {}
    assert adminViews + "/" + "users" == adminViews + "/users" by {}
    assert "admin" in table && table["admin"] == adminViews by {}
    assert ResolveTemplatePath(table, "admin" + ":" + "users") == Ok(table["admin"] + "/" + "users") by {
      ResolveQualifiedName(table, "admin", "users");
    }
  }

  /** ... while `users` alone resolves under the default directory ... */
  lemma ScenarioDefaultName(views: string, adminViews: string)
    ensures ResolveTemplatePath(ScenarioTable(views, adminViews), "users") == Ok(views + "/users")
  {
    var table := ScenarioTable(views, adminViews);
    assert views + "/" + "users" == views + "/users" by {}
    assert !IsAbsoluteName("users") && ':' !in "users" by {}
    assert ResolveTemplatePath(table, "users") == Ok(table[DefaultNamespace] + "/" + "users") by {
      UnqualifiedNameResolves(table, "users");
    }
  }

  /** ... and a namespace the table lacks is an error naming it. */
  lemma ScenarioUnknownNamespace(views: string, adminViews: string)
    ensures ResolveTemplatePath(ScenarioTable(views, adminViews), "blog:users") == Err(NamespaceNotConfigured("blog"))
  {
    var table := ScenarioTable(views, adminViews);
    assert "blog" + ":" + "users" == "blog:users" by {}
    assert "blog" !in table by {}
    assert ParseTemplateName("blog" + ":" + "users") == ParsedTemplateName("blog", "users") by {
      ParseQualifiedName("blog", "users");
    }
  }
}
