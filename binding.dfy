/**
 * The content cache of a tooltip and the popover it drives, as a value.
 *
 * A tooltip keeps at most one stamped template instance in its `outerBox`, together
 * with the caller context (`usedContext`) it was stamped for. `Show` reuses that
 * instance when the caller passes the same context reference again and re-stamps
 * it otherwise; in every case it then asks the popover to show.
 */
module Binding {
  import opened Wrappers
  import opened Cursor
  import opened Templates

  /** An array of caller contexts; two of them are the same context only if they are the same object. */
  class ContextArray {
    const items: seq<object>

    constructor (items: seq<object>)
      ensures this.items == items
    {
      this.items := items;
    }
  }

  /** A stamped template instance: its identity, the template it was made from and its context chain. */
  datatype Instance = Instance(id: nat, tpl: Option<Template>, context: seq<object>)

  /** A child of `outerBox`: the `<slot>` of the element's own template, or the nodes of an instance. */
  datatype BoxChild = Slot | Stamped(id: nat)

  /** What the tooltip does with template instances, in order. */
  datatype BinderOp = Attached(id: nat, context: seq<object>) | Detached(id: nat) | Cleared

  /** What the tooltip asks of the popover it extends, in order. */
  datatype PopoverCall = ShowAt(node: object) | HideCall | ReFitTo(point: Point)

  /** The part of a tooltip's state that showing, hiding and refitting read and change. */
  datatype View = View(
    self: object,                  // the tooltip element, `this` in the context chain
    tooltipTpl: Option<Template>,
    templateContext: seq<object>,
    followCursor: bool,
    stamped: Option<Instance>,     // `_stampedTemplateInstance`
    usedContext: ContextArray?,
    outerBox: seq<BoxChild>,
    created: nat,                  // number of instances made so far, the next identity
    binderLog: seq<BinderOp>,
    visible: bool,                 // the popover's `visible`
    popoverLog: seq<PopoverCall>)

  /** The caller contexts of `use`; a missing array contributes none. */
  function ItemsOf(use: ContextArray?): seq<object> {
    if use == null then [] else use.items
  }

  /** The context chain an instance is stamped with: ambient contexts, the tooltip, caller contexts. */
  function ContextChain(templateContext: seq<object>, self: object, use: ContextArray?): (chain: seq<object>)
    ensures |chain| == |templateContext| + 1 + |ItemsOf(use)|
    ensures chain[..|templateContext|] == templateContext && chain[|templateContext|] == self
    ensures chain[|templateContext| + 1..] == ItemsOf(use)
  {
    templateContext + [self] + ItemsOf(use)
  }

  /** Nothing about the bound content changed from `a` to `b`. */
  predicate SameContent(a: View, b: View) {
    a.stamped == b.stamped && a.usedContext == b.usedContext && a.outerBox == b.outerBox &&
    a.created == b.created && a.binderLog == b.binderLog
  }

  /** Nothing about the tooltip's configuration changed from `a` to `b`. */
  predicate SameConfig(a: View, b: View) {
    a.self == b.self && a.tooltipTpl == b.tooltipTpl && a.templateContext == b.templateContext &&
    a.followCursor == b.followCursor
  }

  /** The popover's `show(node)`: it becomes visible, anchored at `node`. */
  function PopoverShow(v: View, node: object): (r: View)
    ensures SameContent(r, v) && SameConfig(r, v) && r.visible
    ensures r.popoverLog == v.popoverLog + [ShowAt(node)]
  {
    v.(visible := true, popoverLog := v.popoverLog + [ShowAt(node)])
  }

  /** The popover's `reFit(point)`: it is repositioned at `point`, and stays as visible as it was. */
  function PopoverReFit(v: View, point: Point): (r: View)
    ensures SameContent(r, v) && SameConfig(r, v) && r.visible == v.visible
    ensures r.popoverLog == v.popoverLog + [ReFitTo(point)]
  {
    v.(popoverLog := v.popoverLog + [ReFitTo(point)])
  }

  /** The tooltip's `hide()`, which is the popover's. */
  function Hide(v: View): (r: View)
    ensures SameContent(r, v) && SameConfig(r, v) && !r.visible
    ensures r.popoverLog == v.popoverLog + [HideCall]
  {
    v.(visible := false, popoverLog := v.popoverLog + [HideCall])
  }

  /** `refitToMouseEvent`: reposition the popover next to the pointer. */
  function RefitToMouseEvent(v: View, clientX: int, clientY: int): (r: View)
    ensures SameContent(r, v) && SameConfig(r, v) && r.visible == v.visible
    ensures r.popoverLog == v.popoverLog + [ReFitTo(Point(clientX + 8, clientY + 8))]
  {
    PopoverReFit(v, RefitPoint(clientX, clientY))
  }

  /** First half of `show`: drop an instance that was stamped for another context. */
  function DropStale(v: View, use: ContextArray?): (r: View)
    ensures SameConfig(r, v) && r.visible == v.visible && r.popoverLog == v.popoverLog
    // afterwards, an instance still bound is one stamped for this very context reference
    ensures r.stamped.Some? ==> r.usedContext == use
    ensures v.stamped.Some? && v.usedContext != use ==>
              && r.stamped.None? && r.outerBox == [] && r.created == v.created
              && r.binderLog == v.binderLog + [Detached(v.stamped.value.id), Cleared]
    ensures v.stamped.None? || v.usedContext == use ==> r == v
  {
    if v.stamped.Some? && v.usedContext != use then
      v.(stamped := None, outerBox := [],
         binderLog := v.binderLog + [Detached(v.stamped.value.id), Cleared])
    else v
  }

  /** Second half of `show`: stamp a new instance if none is bound. */
  function StampIfUnbound(v: View, use: ContextArray?): (r: View)
    ensures SameConfig(r, v) && r.visible == v.visible && r.popoverLog == v.popoverLog
    ensures r.stamped.Some?
    ensures v.stamped.Some? ==> r == v
    // nothing bound: one instance with a new identity, from `tooltipTpl`, attached last to `outerBox`
    ensures v.stamped.None? ==>
              && r.stamped.value.id == v.created && r.created == v.created + 1
              && r.stamped.value.tpl == v.tooltipTpl && r.usedContext == use
              && r.stamped.value.context == v.templateContext + [v.self] + ItemsOf(use)
              && r.outerBox == v.outerBox + [Stamped(v.created)]
              && r.binderLog == v.binderLog + [Attached(v.created, r.stamped.value.context)]
  {
    if v.stamped.None? then
      var chain := ContextChain(v.templateContext, v.self, use);
      v.(stamped := Some(Instance(v.created, v.tooltipTpl, chain)), usedContext := use,
         created := v.created + 1, outerBox := v.outerBox + [Stamped(v.created)],
         binderLog := v.binderLog + [Attached(v.created, chain)])
    else v
  }

  /** The tooltip's `show(node, useContext)`. */
  function Show(v: View, node: object, use: ContextArray?): (r: View)
    // whichever way the cache went, the popover is asked to show `node`, last
    ensures r.visible && r.popoverLog == v.popoverLog + [ShowAt(node)]
    ensures SameConfig(r, v)
    // afterwards one instance is bound, for exactly this context
    ensures r.stamped.Some? && r.usedContext == use
    // a newly stamped instance gets the chain: ambient contexts, the tooltip, the caller's contexts
    ensures v.stamped.None? || v.usedContext != use ==> r.stamped.value.context == v.templateContext + [v.self] + ItemsOf(use)
    // ... and is made from the tooltip's template
    ensures v.stamped.None? || v.usedContext != use ==> r.stamped.value.tpl == v.tooltipTpl
    // same context reference: nothing detached, nothing cleared, nothing stamped
    ensures v.stamped.Some? && v.usedContext == use ==> SameContent(r, v)
    // nothing bound: exactly one new instance, appended to outerBox
    ensures v.stamped.None? ==>
              && r.stamped.value.id == v.created && r.created == v.created + 1
              && r.outerBox == v.outerBox + [Stamped(v.created)]
              && r.binderLog == v.binderLog + [Attached(v.created, r.stamped.value.context)]
    // another context: the old instance is detached and outerBox emptied before the new one is attached
    ensures v.stamped.Some? && v.usedContext != use ==>
              && r.stamped.value.id == v.created && r.created == v.created + 1
              && r.outerBox == [Stamped(v.created)]
              && r.binderLog == v.binderLog +
                   [Detached(v.stamped.value.id), Cleared, Attached(v.created, r.stamped.value.context)]
  {
    PopoverShow(StampIfUnbound(DropStale(v, use), use), node)
  }

  /** Identities of the instances attached and not yet detached, by replaying `log`. */
  function LiveIds(log: seq<BinderOp>): set<nat>
    decreases |log|
  {
    if log == [] then {}
    else
      var prev := LiveIds(log[..|log| - 1]);
      match log[|log| - 1]
      case Attached(id, _) => prev + {id}
      case Detached(id) => prev - {id}
      case Cleared => prev
  }

  lemma LiveIdsSnoc(log: seq<BinderOp>, op: BinderOp)
    ensures op.Attached? ==> LiveIds(log + [op]) == LiveIds(log) + {op.id}
    ensures op.Detached? ==> LiveIds(log + [op]) == LiveIds(log) - {op.id}
    ensures op.Cleared? ==> LiveIds(log + [op]) == LiveIds(log)
  {
  }

  /**
   * The cache invariant: exactly the bound instance is live, only its nodes are in
   * `outerBox`, and it was stamped with the chain for the recorded `usedContext`.
   */
  ghost predicate CacheValid(v: View) {
    && LiveIds(v.binderLog) == (if v.stamped.Some? then {v.stamped.value.id} else {})
    && (forall c :: c in v.outerBox && c.Stamped? ==> v.stamped.Some? && c.id == v.stamped.value.id)
    && (v.stamped.Some? ==> Stamped(v.stamped.value.id) in v.outerBox && v.stamped.value.id < v.created)
    && (v.stamped.Some? ==> v.stamped.value.context == ContextChain(v.templateContext, v.self, v.usedContext))
  }

  /** A freshly built tooltip: nothing stamped, `outerBox` holds only its slot, popover hidden. */
  function Initial(self: object, tooltipTpl: Option<Template>): (v: View)
    ensures CacheValid(v) && !v.visible
    ensures v.stamped.None? && v.usedContext == null && v.outerBox == [Slot] && v.created == 0
    ensures v.self == self && v.tooltipTpl == tooltipTpl && v.templateContext == [] && !v.followCursor
    ensures v.binderLog == [] && v.popoverLog == []
  {
    View(self, tooltipTpl, [], false, None, null, [Slot], 0, [], false, [])
  }

  /** `show` keeps the cache invariant: never two live instances, never one stamped for another context. */
  lemma {:induction false} ShowPreservesValid(v: View, node: object, use: ContextArray?)
    requires CacheValid(v)
    ensures CacheValid(Show(v, node, use))
  {
    var r := Show(v, node, use);
    if v.stamped.Some? && v.usedContext != use {
      LiveIdsSnoc(v.binderLog, Detached(v.stamped.value.id));
      LiveIdsSnoc(v.binderLog + [Detached(v.stamped.value.id)], Cleared);
      LiveIdsSnoc(v.binderLog + [Detached(v.stamped.value.id)] + [Cleared], Attached(v.created, r.stamped.value.context));
      assert v.binderLog + [Detached(v.stamped.value.id), Cleared, Attached(v.created, r.stamped.value.context)]
          == v.binderLog + [Detached(v.stamped.value.id)] + [Cleared] + [Attached(v.created, r.stamped.value.context)];
    } else if v.stamped.None? {
      LiveIdsSnoc(v.binderLog, Attached(v.created, r.stamped.value.context));
    }
  }

  /**
   * Two shows in a row: with the same context the second reuses the first's instance;
   * with a different context it detaches that instance and clears `outerBox` before attaching its own.
   */
  lemma RepeatedShow(v: View, n1: object, n2: object, a: ContextArray?, b: ContextArray?)
    requires CacheValid(v)
    ensures var v1 := Show(v, n1, a);
            var v2 := Show(v1, n2, b);
            && (a == b ==> SameContent(v2, v1) && v2.popoverLog == v.popoverLog + [ShowAt(n1), ShowAt(n2)])
            && (a != b ==>
                  && v2.outerBox == [Stamped(v1.created)]
                  && v2.binderLog == v1.binderLog +
                       [Detached(v1.stamped.value.id), Cleared, Attached(v1.created, v2.stamped.value.context)]
                  && v1.stamped.value.id != v2.stamped.value.id)
  {
  }
}
