/**
 * The `pl-tooltip` element and the hover sessions it opens, as objects whose methods
 * update their fields in place. Each method is specified by the value-level model:
 * its new `Snapshot()` (and a session's new `State()`) is the model's function of the old one.
 */
module Tooltip {
  import opened Wrappers
  import opened Cursor
  import opened Templates
  import opened Binding
  import opened Hover

  /** What `connectedCallback` reads and sets, outside the content cache and the popover. */
  datatype Connection = Connection(
    target: object?,
    parentElement: object?,
    childNodes: seq<ChildNode>,
    topLayer: bool,
    pointerEventsNone: bool,     // `style['pointer-events'] = 'none'`
    enterTargets: seq<object>)   // elements a `mouseenter` listener was added to, in order

  class PlTooltip {
    // configuration
    var tooltipTpl: Option<Template>
    var templateContext: seq<object>
    var followCursor: bool
    var target: object?
    // where the element sits in the document
    var parentElement: object?
    var childNodes: seq<ChildNode>
    // set when connected
    var topLayer: bool
    var pointerEventsNone: bool
    var enterTargets: seq<object>
    // the content cache
    var stamped: Option<Instance>
    var usedContext: ContextArray?
    var outerBox: seq<BoxChild>
    var created: nat
    var binderLog: seq<BinderOp>
    // the popover this element extends
    var visible: bool
    var popoverLog: seq<PopoverCall>

    function Snapshot(): View
      reads this
    {
      View(this, tooltipTpl, templateContext, followCursor, stamped, usedContext, outerBox,
           created, binderLog, visible, popoverLog)
    }

    function Wiring(): Connection
      reads this
    {
      Connection(target, parentElement, childNodes, topLayer, pointerEventsNone, enterTargets)
    }

    /** `new PlTooltip(tooltipTpl)`, for an element placed under `parentElement` with `childNodes`. */
    constructor (tooltipTpl: Option<Template>, parentElement: object?, childNodes: seq<ChildNode>)
      ensures Snapshot() == Initial(this, tooltipTpl)
      ensures Wiring() == Connection(null, parentElement, childNodes, false, false, [])
    {
      this.tooltipTpl := tooltipTpl;
      templateContext := [];
      followCursor := false;
      target := null;
      this.parentElement := parentElement;
      this.childNodes := childNodes;
      topLayer := false;
      pointerEventsNone := false;
      enterTargets := [];
      stamped := None;
      usedContext := null;
      outerBox := [Slot];
      created := 0;
      binderLog := [];
      visible := false;
      popoverLog := [];
    }

    /**
     * `connectedCallback`: put the popover in the top layer, let pointer events pass through,
     * resolve the template if the constructor gave none, and listen for `mouseenter` on the
     * explicit target or, failing that, on the parent element.
     */
    method ConnectedCallback()
      modifies this`topLayer, this`pointerEventsNone, this`tooltipTpl, this`templateContext, this`enterTargets
      ensures topLayer && pointerEventsNone
      ensures var res := ResolveTemplate(old(tooltipTpl), old(templateContext), childNodes);
              tooltipTpl == Some(res.tpl) && templateContext == res.context
      ensures enterTargets == old(enterTargets) +
                (if target != null then [target] else if parentElement != null then [parentElement] else [])
    {
      topLayer := true;
      pointerEventsNone := true;
      if tooltipTpl.None? {
        var found := Discover(childNodes);
        tooltipTpl := Some(found.tpl);
        templateContext := found.context;
      }
      var effective := if target != null then target else parentElement;
      if effective != null {
        enterTargets := enterTargets + [effective];
      }
    }

    /** `onMouseEnter(event, contexts)`: open a session on `event.target` and arm its delayed show with no event. */
    method OnMouseEnter(eventTarget: object, contexts: ContextArray?) returns (session: HoverSession)
      ensures fresh(session) && session.owner == this
      ensures session.State() == Enter(eventTarget, contexts)
    {
      session := new HoverSession(this, eventTarget, contexts);
      session.DelayShow(NoEvent);
    }

    /** `refitToMouseEvent`: move the popover next to the pointer. */
    method RefitToMouseEvent(clientX: int, clientY: int)
      modifies this
      ensures Snapshot() == Binding.RefitToMouseEvent(old(Snapshot()), clientX, clientY)
      ensures Wiring() == old(Wiring())
    {
      var point := RefitPoint(clientX, clientY);
      PopoverReFit(point);
    }

    /** `show(node, useContext)`: bind content for `useContext`, reusing the stamped instance if it is the same context. */
    method Show(node: object, useContext: ContextArray?)
      modifies this
      ensures Snapshot() == Binding.Show(old(Snapshot()), node, useContext)
      ensures Wiring() == old(Wiring())
      ensures CacheValid(old(Snapshot())) ==> CacheValid(Snapshot())
    {
      ghost var before := Snapshot();
      DropStaleInstance(useContext);
      StampIfUnbound(useContext);
      PopoverShow(node);
      if CacheValid(before) {
        ShowPreservesValid(before, node, useContext);
      }
    }

    /** First block of `show`: an instance stamped for another context is detached and `outerBox` emptied. */
    method DropStaleInstance(useContext: ContextArray?)
      modifies this
      ensures Snapshot() == DropStale(old(Snapshot()), useContext)
      ensures Wiring() == old(Wiring())
    {
      if stamped.Some? && usedContext != useContext {
        // detach the stale instance, then `outerBox.replaceChildren()`
        binderLog := binderLog + [Detached(stamped.value.id), Cleared];
        outerBox := [];
        stamped := None;
      }
    }

    /** Second block of `show`: with no instance bound, stamp one for the context chain and record `useContext`. */
    method StampIfUnbound(useContext: ContextArray?)
      modifies this
      ensures Snapshot() == Binding.StampIfUnbound(old(Snapshot()), useContext)
      ensures Wiring() == old(Wiring())
    {
      if stamped.None? {
        var context := ContextFor(useContext);
        var instance := Instance(created, tooltipTpl, context);  // `new TemplateInstance(tooltipTpl)`
        // `attach(outerBox, null, context)`, then record the instance and the context it was made for
        created, outerBox, binderLog := created + 1, outerBox + [Stamped(instance.id)], binderLog + [Attached(instance.id, context)];
        usedContext, stamped := useContext, Some(instance);
      }
    }

    /** The context chain `show` stamps with: the ambient contexts, this tooltip, then the caller's contexts. */
    method ContextFor(useContext: ContextArray?) returns (context: seq<object>)
      ensures context == ContextChain(templateContext, this, useContext)
    {
      context := templateContext + [this];
      if useContext != null {
        context := context + useContext.items;
      }
    }

    /** `hide()`. */
    method Hide()
      modifies this
      ensures Snapshot() == Binding.Hide(old(Snapshot()))
      ensures Wiring() == old(Wiring())
    {
      PopoverHide();
    }

    /** The popover's `show`, `hide` and `reFit`, as the state changes they make. */
    method PopoverShow(node: object)
      modifies this
      ensures Snapshot() == Binding.PopoverShow(old(Snapshot()), node)
      ensures Wiring() == old(Wiring())
    {
      visible := true;
      popoverLog := popoverLog + [ShowAt(node)];
    }

    method PopoverHide()
      modifies this
      ensures Snapshot() == Binding.Hide(old(Snapshot()))
      ensures Wiring() == old(Wiring())
    {
      visible := false;
      popoverLog := popoverLog + [HideCall];
    }

    method PopoverReFit(point: Point)
      modifies this
      ensures Snapshot() == Binding.PopoverReFit(old(Snapshot()), point)
      ensures Wiring() == old(Wiring())
    {
      popoverLog := popoverLog + [ReFitTo(point)];
    }
  }

  /** The closure state of one `onMouseEnter` call: its abort signal and its debounced delayed show. */
  class HoverSession {
    const owner: PlTooltip
    const target: object
    const contexts: ContextArray?
    var aborted: bool
    var pending: Option<MouseArg>

    function State(): Session
      reads this
    {
      Session(target, contexts, aborted, pending)
    }

    constructor (owner: PlTooltip, target: object, contexts: ContextArray?)
      ensures this.owner == owner
      ensures State() == Session(target, contexts, false, None)
    {
      this.owner := owner;
      this.target := target;
      this.contexts := contexts;
      aborted := false;
      pending := None;
    }

    /** `delayShow(arg)`: restart the debounce timer, keeping only this latest argument. */
    method DelayShow(arg: MouseArg)
      modifies this
      ensures State() == Arm(old(State()), arg)
    {
      pending := Some(arg);
    }

    /** The `mousemove` listener; the abort signal has removed it once the session is aborted. */
    method OnMouseMove(clientX: int, clientY: int)
      modifies this, owner
      ensures (owner.Snapshot(), State()) == Step(old(owner.Snapshot()), old(State()), Move(clientX, clientY))
      ensures owner.Wiring() == old(owner.Wiring())
      ensures CacheValid(old(owner.Snapshot())) ==> CacheValid(owner.Snapshot())
    {
      if !aborted {
        if owner.visible {
          if owner.followCursor {
            owner.RefitToMouseEvent(clientX, clientY);
          }
        } else {
          DelayShow(MouseAt(clientX, clientY));
        }
      }
    }

    /** The debounce timer elapsing: run the pending `delayShow` call, if there is one. */
    method OnTimerFire()
      modifies this, owner
      ensures (owner.Snapshot(), State()) == Step(old(owner.Snapshot()), old(State()), TimerFire)
      ensures owner.Wiring() == old(owner.Wiring())
      ensures CacheValid(old(owner.Snapshot())) ==> CacheValid(owner.Snapshot())
    {
      if pending.Some? {
        var arg := pending.value;
        pending := None;
        if !aborted {
          owner.Show(target, contexts);
          if owner.followCursor && arg.MouseAt? {
            owner.RefitToMouseEvent(arg.x, arg.y);
          }
        }
      }
    }

    /** The one-shot `mouseleave` listener: hide, then abort the session. */
    method OnMouseLeave()
      modifies this, owner
      ensures (owner.Snapshot(), State()) == Step(old(owner.Snapshot()), old(State()), Leave)
      ensures owner.Wiring() == old(owner.Wiring())
      ensures CacheValid(old(owner.Snapshot())) ==> CacheValid(owner.Snapshot())
    {
      if !aborted {
        owner.Hide();
        aborted := true;
      }
    }
  }

  /**
   * A full hover cycle on a connected tooltip: enter, wait until the timer fires, leave.
   * The tooltip was shown at the target and is hidden again, and the session is over.
   */
  method HoverCycle(tooltip: PlTooltip, eventTarget: object)
    modifies tooltip
    ensures !tooltip.visible
    ensures tooltip.popoverLog == old(tooltip.popoverLog) + [ShowAt(eventTarget), HideCall]
    ensures tooltip.stamped.Some? && tooltip.usedContext == null
  {
    ghost var v0 := tooltip.Snapshot();
    var session := tooltip.OnMouseEnter(eventTarget, null);
    session.OnTimerFire();
    ghost var v1 := tooltip.Snapshot();
    assert v1.popoverLog == v0.popoverLog + [ShowAt(eventTarget)];
    session.OnMouseLeave();
    ghost var v2 := tooltip.Snapshot();
    assert session.aborted && v2 == Binding.Hide(v1);
    session.OnMouseMove(0, 0);
    session.OnTimerFire();
    assert tooltip.Snapshot() == v2;
  }
}
