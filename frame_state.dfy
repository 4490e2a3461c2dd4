/**
 * The per-frame view assignment of one FrameBuffer as values: its three
 * per-frame fields, the counter of the manager that hands out view ids, and
 * the log of graphics calls issued so far. Each operation of the frame buffer
 * is a function from the state before the call to the state after it.
 */
module FrameState {
  import opened Optional
  import opened Bgfx
  import opened ViewPorts

  /** One call into bgfx, as the frame buffer issues it. */
  datatype Event =
      /** setViewMode(Sequential), setViewClear(NONE), setViewFrameBuffer and setViewRect on a new view. */
    | ViewConfigured(view: ViewId, target: FrameBufferHandle, viewPort: ViewPort)
      /** encoder->touch: a draw that forces the view to execute. */
    | Touched(view: ViewId)
    | ClearSet(view: ViewId, flags: uint16, rgba: uint32, depth: real, stencil: uint8)
    | Submitted(view: ViewId, program: ProgramHandle, submitFlags: uint8)
    | Blitted(view: ViewId, region: BlitRegion)
    | Destroyed(target: FrameBufferHandle)

  /**
   * `viewId`, `viewPort` and `requested` are the frame buffer's m_viewId,
   * m_viewPort and m_requestedViewPort; `nextId` is the id its manager hands
   * out next; `log` is every bgfx call made on its behalf.
   */
  datatype State = State(
    target: FrameBufferHandle,
    viewId: Option<ViewId>,
    viewPort: ViewPort,
    requested: Option<ViewPort>,
    nextId: ViewId,
    log: seq<Event>)

  /**
   * The invariant every operation keeps: without a view the committed
   * viewport is the default; the current view was configured for this
   * target with the committed viewport; every view the log mentions was
   * handed out already, and views were configured in increasing order, so no
   * id is handed out twice.
   */
  ghost predicate Valid(s: State)
  {
    (s.viewId.None? ==> s.viewPort == DefaultViewPort) &&
    (s.viewId.Some? ==>
      s.viewId.value < s.nextId &&
      ViewConfigured(s.viewId.value, s.target, s.viewPort) in s.log) &&
    (forall i :: 0 <= i < |s.log| && !s.log[i].Destroyed? ==> s.log[i].view < s.nextId) &&
    (forall i, j :: 0 <= i < j < |s.log| && s.log[i].ViewConfigured? && s.log[j].ViewConfigured? ==>
      s.log[i].view < s.log[j].view)
  }

  /** What every operation keeps: the target, a counter that never goes back, and a log it only appends to. */
  ghost predicate Extends(s: State, t: State)
  {
    t.target == s.target && s.nextId <= t.nextId && s.log <= t.log
  }

  /** The state a frame buffer is constructed in. */
  function Init(target: FrameBufferHandle, nextId: ViewId): (s: State)
    ensures Valid(s)
    ensures s.viewId.None? && s.requested.None? && s.log == []
  {
    State(target, None, DefaultViewPort, None, nextId, [])
  }

  /** Appends calls to the log. */
  function Issue(s: State, events: seq<Event>): State
  {
    s.(log := s.log + events)
  }

  /**
   * NewView<doTouch>: take the manager's next id, commit `vp`, configure the
   * view, and touch it when asked.
   */
  function NewView(s: State, vp: ViewPort, doTouch: bool): (t: State)
    ensures Extends(s, t)
    ensures Valid(s) ==> Valid(t)
  {
    var id := s.nextId;
    var t := s.(viewId := Some(id), viewPort := vp, nextId := id + 1);
    Issue(t, [ViewConfigured(id, s.target, vp)] + (if doTouch then [Touched(id)] else []))
  }

  function Clear(s: State, flags: uint16, rgba: uint32, depth: real, stencil: uint8): (t: State)
    ensures Extends(s, t)
    ensures Valid(s) ==> Valid(t)
  {
    var v := NewView(s, DefaultViewPort, true);
    Issue(v, [ClearSet(v.viewId.value, flags, rgba, depth, stencil)])
  }

  function SetViewPort(s: State, vp: ViewPort): (t: State)
    ensures Extends(s, t)
    ensures t.log == s.log && t.nextId == s.nextId
    ensures Valid(s) ==> Valid(t)
  {
    s.(requested := Some(vp))
  }

  /** How Submit obtains the view it draws into. */
  datatype Decision = Reuse | Allocate(viewPort: ViewPort)

  /**
   * Submit's choice: a pending viewport that does not compare equal to the
   * committed one forces a new view with it; otherwise a missing view is
   * allocated with the default viewport; otherwise the current view is kept.
   */
  function DecideSubmit(viewId: Option<ViewId>, committed: ViewPort, requested: Option<ViewPort>): (d: Decision)
    ensures d == Reuse <==> viewId.Some? && (requested.None? || requested.value.Equals(committed))
    ensures d.Allocate? && requested.Some? && requested.value.Equals(committed) ==> d.viewPort == DefaultViewPort
    ensures d.Allocate? && requested.Some? && !requested.value.Equals(committed) ==> d.viewPort == requested.value
    ensures d.Allocate? && requested.None? ==> d.viewPort == DefaultViewPort
  {
    if requested.Some? && !requested.value.Equals(committed) then Allocate(requested.value)
    else if viewId.None? then Allocate(DefaultViewPort)
    else Reuse
  }

  function Submit(s: State, program: ProgramHandle, flags: uint8): (t: State)
    ensures Extends(s, t)
    ensures Valid(s) ==> Valid(t)
  {
    var v := match DecideSubmit(s.viewId, s.viewPort, s.requested)
      case Reuse => s
      case Allocate(vp) => NewView(s, vp, false);
    Issue(v, [Submitted(v.viewId.value, program, flags)])
  }

  function Blit(s: State, region: BlitRegion): (t: State)
    ensures Extends(s, t)
    ensures Valid(s) ==> Valid(t)
  {
    var v := NewView(s, DefaultViewPort, false);
    Issue(v, [Blitted(v.viewId.value, region)])
  }

  function Reset(s: State): (t: State)
    ensures Extends(s, t)
    ensures t.log == s.log && t.nextId == s.nextId
    ensures Valid(s) ==> Valid(t)
  {
    s.(viewId := None, viewPort := DefaultViewPort, requested := None)
  }

  function AcquireNewViewId(s: State): (t: State)
    ensures Extends(s, t)
    ensures Valid(s) ==> Valid(t)
  {
    NewView(s, s.viewPort, false)
  }

  /** A call on the frame buffer's public interface. */
  datatype Op =
    | ClearOp(flags: uint16, rgba: uint32, depth: real, stencil: uint8)
    | SetViewPortOp(viewPort: ViewPort)
    | SubmitOp(program: ProgramHandle, submitFlags: uint8)
    | BlitOp(region: BlitRegion)
    | ResetOp
    | AcquireNewViewIdOp

  function Apply(s: State, op: Op): (t: State)
    ensures Extends(s, t)
    ensures Valid(s) ==> Valid(t)
  {
    match op
    case ClearOp(flags, rgba, depth, stencil) => Clear(s, flags, rgba, depth, stencil)
    case SetViewPortOp(vp) => SetViewPort(s, vp)
    case SubmitOp(program, flags) => Submit(s, program, flags)
    case BlitOp(region) => Blit(s, region)
    case ResetOp => Reset(s)
    case AcquireNewViewIdOp => AcquireNewViewId(s)
  }

  /** A sequence of calls, in order. */
  function Run(s: State, ops: seq<Op>): (t: State)
    ensures Extends(s, t)
    ensures Valid(s) ==> Valid(t)
    decreases |ops|
  {
    if ops == [] then s else Run(Apply(s, ops[0]), ops[1..])
  }
}
