/**
 * How a tooltip finds the template it stamps when none was given to its constructor:
 * the first comment child whose text starts with `tpl:` carries a template and its
 * ambient contexts; otherwise a default template that renders the `text` property.
 */
module Templates {
  import opened Wrappers

  /** A template: the default `[[text]]` one, or one supplied from outside (identified by a number). */
  datatype Template = TextTemplate | Custom(id: nat)

  /**
   * A child node of the tooltip element. A comment node may carry an attached template
   * (`_tpl`) and a list of ambient context objects (`_hctx`).
   */
  datatype ChildNode =
    | Comment(text: string, tpl: Option<Template>, hctx: Option<seq<object>>)
    | TextNode(text: string)
    | Element

  /** The result of template discovery: the template and the ambient contexts to stamp it with. */
  datatype Resolution = Resolution(tpl: Template, context: seq<object>)

  /** A comment node whose text starts with `tpl:`. */
  predicate IsMarker(n: ChildNode) {
    n.Comment? && "tpl:" <= n.text
  }

  /** Index of the first marker among `nodes`, as `Array.prototype.find` visits them. */
  function FindMarker(nodes: seq<ChildNode>): (r: Option<nat>)
    ensures r.Some? ==> r.value < |nodes| && IsMarker(nodes[r.value])
    ensures r.Some? ==> forall j :: 0 <= j < r.value ==> !IsMarker(nodes[j])
    ensures r.None? <==> forall j :: 0 <= j < |nodes| ==> !IsMarker(nodes[j])
  {
    if nodes == [] then None
    else if IsMarker(nodes[0]) then Some(0)
    else
      match FindMarker(nodes[1..])
      case None => None
      case Some(i) => Some(i + 1)
  }

  /**
   * Template discovery: the marker's template (or the default one if the marker carries none)
   * with the marker's contexts (or none); with no marker, the default template and no contexts.
   */
  function Discover(nodes: seq<ChildNode>): (r: Resolution)
    ensures (forall j :: 0 <= j < |nodes| ==> !IsMarker(nodes[j])) ==> r == Resolution(TextTemplate, [])
    ensures forall i :: 0 <= i < |nodes| && IsMarker(nodes[i]) && (forall j :: 0 <= j < i ==> !IsMarker(nodes[j])) ==>
              r == Resolution(nodes[i].tpl.GetOr(TextTemplate), nodes[i].hctx.GetOr([]))
  {
    match FindMarker(nodes)
    case None => Resolution(TextTemplate, [])
    case Some(i) => Resolution(nodes[i].tpl.GetOr(TextTemplate), nodes[i].hctx.GetOr([]))
  }

  /**
   * The template a tooltip ends up with: the constructor's template if there is one (the
   * ambient contexts are then left as they were), otherwise the discovered one.
   */
  function ResolveTemplate(ctorTpl: Option<Template>, templateContext: seq<object>, nodes: seq<ChildNode>): (r: Resolution)
    ensures ctorTpl.Some? ==> r == Resolution(ctorTpl.value, templateContext)
    ensures ctorTpl.None? ==> r == Discover(nodes)
    ensures ctorTpl.None? && (forall j :: 0 <= j < |nodes| ==> !IsMarker(nodes[j])) ==> r == Resolution(TextTemplate, [])
  {
    if ctorTpl.Some? then Resolution(ctorTpl.value, templateContext) else Discover(nodes)
  }
}
