# pl-tooltip, modelled in Dafny

This project models `PlTooltip`, the tooltip element in `pl-tooltip.js`. `PlTooltip` extends a popover
element. After a pointer enters its target and a delay passes, it shows the popover. When `followCursor`
is set, it keeps the popover next to the pointer. It stamps its content from a template into `outerBox`.

The model has two layers:

- **Value layer.** These are functions over datatypes, and every lemma is stated and proved here.
  - `Templates` covers template discovery in `connectedCallback`.
  - `Cursor` covers the pointer offset.
  - `Binding` holds the `show` content cache and the popover calls, inside one value `View`.
  - `Hover` holds one hover session as a state machine. The timer, `mousemove` and `mouseleave` become
    the explicit events `TimerFire`, `Move(x, y)` and `Leave`, applied one at a time.
- **Object layer.** `Tooltip` holds the classes `PlTooltip` and `HoverSession`.
  - Their methods update fields in place, as the source does.
  - Each method's postcondition says its new `Snapshot()`, and a session's new `State()`, is the
    value layer's function of the old ones.

A `HoverSession` holds what one `onMouseEnter` call's closures share:

- the target and contexts the call received;
- an abort flag (the `AbortController`);
- the debounced `delayShow`, as its pending argument. Re-arming overwrites the pending argument, and
  `TimerFire` runs it.

The stamped template instance is a value `Instance(id, tpl, context)`. Its identity comes from a counter.
`binderLog` records, in order, each instance attached, detached, and each clearing of `outerBox`. The
popover's `show`, `hide` and `reFit` set `visible` and are recorded, in order, in `popoverLog`.
`outerBox` starts with the `<slot>` of the element's own template. The first instance is appended after
the slot. Re-stamping for another context calls `replaceChildren()`, which removes the slot as well, as
the code does.

Four facts about the code shape the session model:

- **A new session on every `mouseenter`.** The listener calls `onMouseEnter` on every event (lines 59,
  62). No flag stops a second session while one is open.
- **`keepHover` is not a property of `PlTooltip`.** It is not declared among its properties
  (lines 11-16) and nothing reads it.
- **A refit needs the armed event.** A delayed show refits only to the mouse event its call was armed
  with (line 74). The initial arming at entry has no event (line 90), so a show that follows it is never
  refitted, even with `followCursor`.
- **Abort does not cancel the timer.** The abort removes the listeners (line 64), but a pending timer
  still fires. The callback's check of the abort flag is what makes it do nothing (lines 71-78).

## Model

| member | source | states |
|---|---|---|
| `Wrappers.Option.GetOr` | pl-tooltip.js:54-55 | `x ?? d` is the value when there is one, `d` otherwise |
| `Templates.FindMarker` | pl-tooltip.js:53 | the index found is of a comment whose text starts with `tpl:`, with no such node before it; none is found exactly when no child is such a comment |
| `Templates.Discover` | pl-tooltip.js:53-55 | with no marker comment: the `[[text]]` template and no contexts; otherwise the first marker's `_tpl` (or the default) and its `_hctx` (or none), described without reference to the search |
| `Templates.ResolveTemplate` | pl-tooltip.js:52-56 | a constructor template is kept along with the existing ambient contexts; otherwise the discovered template, and the default with no contexts when there is no marker |
| `Cursor.RefitPoint` | pl-tooltip.js:93-95 | the anchor for a pointer at `(x, y)` is exactly `(x + 8, y + 8)` (the shifts of line 5) |
| `Binding.Hide` | pl-tooltip.js:120-122 | hiding sets the popover not visible, records one `hide`, and leaves the bound content and the configuration unchanged |
| `Binding.RefitToMouseEvent` | pl-tooltip.js:93-97 | refitting records one `reFit` to exactly `(x + 8, y + 8)` and changes nothing else |
| `Binding.ContextChain` | pl-tooltip.js:109-110 | the chain is the ambient contexts, then the tooltip, then the caller's contexts (none when there is no array), each part in its place |
| `Binding.PopoverShow` | pl-tooltip.js:117 | the popover's `show(node)`: it becomes visible, one `show(node)` is recorded, and content and configuration are unchanged |
| `Binding.PopoverReFit` | pl-tooltip.js:96 | the popover's `reFit(point)`: one `reFit(point)` is recorded, and visibility, content and configuration are unchanged |
| `Binding.DropStale` | pl-tooltip.js:100-105 | an instance bound for another context reference is detached and `outerBox` emptied, in that order. Anything still bound afterwards was stamped for this reference, and otherwise nothing changes |
| `Binding.StampIfUnbound` | pl-tooltip.js:107-115 | with nothing bound: one instance with a new identity, made from `tooltipTpl` with the context chain, is attached last in `outerBox` and recorded with `useContext`; with an instance bound, nothing changes |
| `Binding.Show` | pl-tooltip.js:99-118 | every call ends with the popover showing `node`. Afterwards an instance is bound for exactly `useContext`. A newly stamped instance is made from `tooltipTpl`. Same context reference: nothing is detached, cleared or stamped. Nothing bound: exactly one new instance is appended. Another context: the old instance is detached and `outerBox` emptied before the new one is attached. A newly stamped chain is `templateContext ++ [this] ++ useContext` |
| `Binding.Initial` | pl-tooltip.js:41-44 | a new tooltip has the given template, no ambient contexts (line 9), no instance and no recorded context, only its slot in `outerBox`, empty logs and a hidden popover, and it satisfies the cache invariant |
| `Binding.ShowPreservesValid` | pl-tooltip.js:99-118 | `show` keeps the cache invariant. Exactly the bound instance is live by the attach/detach log, and only its nodes are in `outerBox`. Its chain is the one for the recorded `usedContext`, so no second instance, and no instance stamped for another context reference, ever exists |
| `Binding.RepeatedShow` | pl-tooltip.js:99-118 | two shows with the same context: the second reuses the instance, and the popover is asked to show twice. With different contexts: the first instance is detached and the box cleared before a distinct new instance is attached |
| `Hover.Arm` | pl-tooltip.js:71-78 | calling the debounced `delayShow(arg)` leaves `arg` as the only pending call, whatever was pending before |
| `Hover.Enter` | pl-tooltip.js:62-90 | a session starts not aborted, for the event's target and contexts, with the delayed show armed with no event |
| `Hover.OnMove` | pl-tooltip.js:80-88 | the move listener: while visible, a refit to the pointer plus 8 with `followCursor` and nothing otherwise; while hidden, only a re-arming with this move |
| `Hover.OnTimer` | pl-tooltip.js:71-78 | the debounced body: nothing in an aborted session. Otherwise the target is shown for the session's contexts, with a refit to the carried event plus 8 only under `followCursor` |
| `Hover.Step` | pl-tooltip.js:65-88 | an aborted session changes nothing. A leave hides, aborts and keeps the content. A move while visible refits to `(x + 8, y + 8)` with `followCursor` and otherwise does nothing. A move while hidden only re-arms with the move. A timer fire consumes the pending call; in a live session it shows the target for the session's contexts, then refits only if `followCursor` and the call carried an event |
| `Hover.Run` | pl-tooltip.js:62-91 | a session's events applied in the order they arrive: target, contexts and configuration never change, and popover calls and instance operations are only ever appended |
| `Hover.AbortedIsInert` | pl-tooltip.js:65-88 | after an abort, no sequence of moves, timer fires or leaves changes the tooltip, and the session stays aborted |
| `Hover.LeaveEndsSession` | pl-tooltip.js:65-68 | a leave followed by any events leaves the tooltip exactly as hiding left it |
| `Hover.LeaveFiresAtMostOnce` | pl-tooltip.js:65-68 | over any sequence of events a session hides the tooltip at most once, and never once it is aborted |
| `Hover.MovesPostponeShow` | pl-tooltip.js:80-88 | moves over a hidden tooltip change nothing but the pending call, which is the last move |
| `Hover.ShowAfterLastMove` | pl-tooltip.js:71-88 | moves, then a timer fire: the target is shown once for the session's contexts. With `followCursor` it is then refitted to the last move plus 8, and nothing else is recorded |
| `Hover.EnterWaitLeave` | pl-tooltip.js:62-91 | entering and waiting shows the target with no refit, because the initial arming carries no event. A leave then hides, and later events change nothing |
| `Hover.RunPreservesValid` | pl-tooltip.js:62-118 | no sequence of session events breaks the cache invariant |
| `Tooltip.PlTooltip.constructor` | pl-tooltip.js:41-44 | the new element's state is `Binding.Initial` with the given template, not yet connected |
| `Tooltip.PlTooltip.ConnectedCallback` | pl-tooltip.js:46-60 | sets `topLayer` and transparent pointer events. The template and ambient contexts become `ResolveTemplate` of the old ones and the child nodes. A `mouseenter` listener is added on `target`, else on the parent, if there is one. Nothing else changes |
| `Tooltip.PlTooltip.OnMouseEnter` | pl-tooltip.js:62-91 | a fresh session of this tooltip whose state is `Hover.Enter` of the target and contexts |
| `Tooltip.PlTooltip.RefitToMouseEvent` | pl-tooltip.js:93-97 | the new state is `Binding.RefitToMouseEvent` of the old |
| `Tooltip.PlTooltip.Show` | pl-tooltip.js:99-118 | the new state is `Binding.Show` of the old one, and the cache invariant is kept |
| `Tooltip.PlTooltip.DropStaleInstance` | pl-tooltip.js:100-105 | an instance bound for another context is detached and `outerBox` emptied; otherwise nothing changes |
| `Tooltip.PlTooltip.StampIfUnbound` | pl-tooltip.js:107-115 | with nothing bound, one instance is made with the next identity, attached with the context chain, and recorded with `useContext` |
| `Tooltip.PlTooltip.ContextFor` | pl-tooltip.js:109-110 | the chain built is the ambient contexts, the tooltip itself, then the caller's contexts if there are any |
| `Tooltip.PlTooltip.Hide` | pl-tooltip.js:120-122 | the new state is `Binding.Hide` of the old |
| `Tooltip.PlTooltip.PopoverShow` | pl-tooltip.js:117 | the popover's `show`: the new state is `Binding.PopoverShow` of the old |
| `Tooltip.PlTooltip.PopoverHide` | pl-tooltip.js:121 | the popover's `hide`: the new state is `Binding.Hide` of the old |
| `Tooltip.PlTooltip.PopoverReFit` | pl-tooltip.js:96 | the popover's `reFit`: the new state is `Binding.PopoverReFit` of the old |
| `Tooltip.HoverSession.constructor` | pl-tooltip.js:63-64 | a session starts not aborted, with nothing pending |
| `Tooltip.HoverSession.DelayShow` | pl-tooltip.js:71-78 | the new state is `Hover.Arm` of the old |
| `Tooltip.HoverSession.OnMouseMove` | pl-tooltip.js:80-88 | tooltip and session change as `Hover.Step` with `Move` says, and the cache invariant is kept |
| `Tooltip.HoverSession.OnTimerFire` | pl-tooltip.js:71-78 | tooltip and session change as `Hover.Step` with `TimerFire` says, and the cache invariant is kept |
| `Tooltip.HoverSession.OnMouseLeave` | pl-tooltip.js:65-68 | tooltip and session change as `Hover.Step` with `Leave` says, and the cache invariant is kept |
| `Tooltip.HoverCycle` | pl-tooltip.js:62-91 | enter, timer, leave, then a stray move and timer fire: the popover was asked to show the target and then to hide, it is hidden, and the content stays bound |

## Left out

- `pl-tooltip-target.js` is declarative markup, CSS and element registration, with no logic to model.
- The CSS, the `html` templates, the `static properties` declarations, `customElements.define` and the
  factory `createTooltip` (pl-tooltip.js:11-39, 125-129) are left out. The factory only calls the
  constructor, which is modelled.
- The popover (`PlPopover`) is stood for by `visible` and the ordered log of its `show`, `hide` and
  `reFit` calls. Its geometry and its use of `topLayer` are not modelled, and `super.connectedCallback()`
  is not modelled.
- `TemplateInstance` is stood for by an identity, its template and its context chain. `attach` appends it
  to `outerBox` and `detach` is logged. What detach removes from the document is not modelled, since
  `replaceChildren()` empties `outerBox` right after it. The nodes a template renders are not modelled.
- `debounce` is modelled as its pending argument. The 500 ms delay (line 6) and real time are not
  modelled; `TimerFire` stands for the delay having passed with no re-arming.
- `AbortController` is modelled as a flag. Listeners removed by the signal are modelled as handlers that
  do nothing once the flag is set.
- Event dispatch is not modelled. Each session's handlers are called individually, and which sessions a
  DOM event reaches is left to the caller. `connectedCallback` records the elements it adds a
  `mouseenter` listener to. Each such listener calls `onMouseEnter` with no contexts. Re-connecting adds
  one more listener, as the code does.
- The spread in `concat(...useContext)` flattens elements that are themselves arrays. The model treats
  every context element as one object.
- `null` and `undefined` contexts are both modelled as `null`. This loses one behaviour: after `show(n)`,
  a call `show(n, null)` re-stamps in the code, because `null !== undefined` (line 100). The model
  reuses the instance instead.
- `Binding.ContextArray`: a caller's context array cannot change here (`items` is a constant), while in
  the code it is a mutable array compared only by reference (line 100). If a caller changes the array in
  place and calls `show` again with it, the code keeps the instance stamped from the old contents. Its
  chain then no longer matches the array. The same holds for `templateContext`, which is the marker's
  `_hctx` array taken by reference (line 55). The cache invariant's last condition says the bound chain
  is the one for the recorded context. That condition holds only because the contents are frozen.
  Without freezing, the guarantee is only that no instance stamped for another context reference stays
  bound.
- Pointer coordinates are integers, not floating point.
- The `text` property is only read by the default template, so it is left out.
- `Tooltip.PlTooltip.ConnectedCallback`: its contract does not say the cache invariant is kept. The
  invariant holds when a template was already set or nothing is stamped yet. Otherwise stamping happened
  before any template existed, which `TemplateInstance` does not support.
