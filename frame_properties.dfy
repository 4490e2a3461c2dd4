/**
 * What the frame buffer's operations promise about view assignment, stated
 * over the value model in FrameState.
 */
module FrameProperties {
  import opened Optional
  import opened Bgfx
  import opened ViewPorts
  import opened FrameState

  /** The calls `op` issues when applied to `s`. */
  function Emitted(s: State, op: Op): (e: seq<Event>)
    ensures s.log + e == Apply(s, op).log
  {
    Apply(s, op).log[|s.log|..]
  }

  /** `id` names a view configured somewhere in `log`. */
  ghost predicate Configured(log: seq<Event>, id: ViewId)
  {
    exists i :: 0 <= i < |log| && log[i].ViewConfigured? && log[i].view == id
  }

  /**
   * Within one frame, the manager's next id was not configured before: every
   * new view is fresh in this frame.
   */
  lemma NextIdIsFresh(s: State)
    requires Valid(s)
    ensures !Configured(s.log, s.nextId)
    ensures s.viewId.Some? ==> s.viewId.value != s.nextId
  {
  }

  /** SetViewPort records the request and nothing else: no id, no call, no change to the view. */
  lemma SetViewPortOnlyRecordsRequest(s: State, vp: ViewPort)
    ensures var t := SetViewPort(s, vp);
      t.requested == Some(vp) &&
      t.viewId == s.viewId && t.viewPort == s.viewPort &&
      t.nextId == s.nextId && t.log == s.log
  {
  }

  /**
   * Submit keeps its view and asks the manager for nothing exactly when a view
   * is assigned and no pending viewport differs from the committed one; the
   * draw then goes to that view.
   */
  lemma SubmitReusesIff(s: State, program: ProgramHandle, flags: uint8)
    requires Valid(s)
    ensures var t := Submit(s, program, flags);
      (t.viewId == s.viewId && t.nextId == s.nextId) <==>
      (s.viewId.Some? && (s.requested.None? || s.requested.value.Equals(s.viewPort)))
    ensures var t := Submit(s, program, flags);
      s.viewId.Some? && (s.requested.None? || s.requested.value.Equals(s.viewPort)) ==>
      t.viewPort == s.viewPort && t.log == s.log + [Submitted(s.viewId.value, program, flags)]
  {
  }

  /**
   * A pending viewport that differs from the committed one gets a fresh view
   * without a touch; it becomes the committed viewport and stays pending.
   */
  lemma SubmitReallocatesOnChange(s: State, program: ProgramHandle, flags: uint8)
    requires Valid(s)
    requires s.requested.Some? && !s.requested.value.Equals(s.viewPort)
    ensures var t := Submit(s, program, flags);
      t.viewId == Some(s.nextId) && !Configured(s.log, s.nextId) && t.viewId != s.viewId &&
      t.viewPort == s.requested.value && t.requested == s.requested &&
      t.log == s.log + [ViewConfigured(s.nextId, s.target, s.requested.value), Submitted(s.nextId, program, flags)]
  {
  }

  /**
   * Without a view and without a differing request, Submit allocates a fresh
   * view with the default viewport, which is also the committed one, so it
   * makes no difference whether the default or the committed viewport is used.
   */
  lemma SubmitAllocatesWhenUnassigned(s: State, program: ProgramHandle, flags: uint8)
    requires Valid(s)
    requires s.viewId.None? && (s.requested.None? || s.requested.value.Equals(s.viewPort))
    ensures s.viewPort == DefaultViewPort
    ensures var t := Submit(s, program, flags);
      t.viewId == Some(s.nextId) && !Configured(s.log, s.nextId) &&
      t.viewPort == DefaultViewPort && t.requested == s.requested &&
      t.log == s.log + [ViewConfigured(s.nextId, s.target, DefaultViewPort), Submitted(s.nextId, program, flags)]
  {
  }

  /**
   * On every path Submit draws into a view it holds afterwards, configured
   * for this target with the committed viewport, and it never touches.
   */
  lemma SubmitDrawsIntoCurrentView(s: State, program: ProgramHandle, flags: uint8)
    requires Valid(s)
    ensures var t := Submit(s, program, flags);
      t.viewId.Some? &&
      t.log[|t.log| - 1] == Submitted(t.viewId.value, program, flags) &&
      ViewConfigured(t.viewId.value, s.target, t.viewPort) in t.log &&
      (forall e :: e in Emitted(s, SubmitOp(program, flags)) ==> !e.Touched?)
  {
  }

  /** Two Submits in a row share one view (no SetViewPort in between). */
  lemma SubmitTwiceReuses(s: State, p1: ProgramHandle, f1: uint8, p2: ProgramHandle, f2: uint8)
    requires Valid(s)
    ensures var t := Submit(s, p1, f1); var u := Submit(t, p2, f2);
      u.viewId == t.viewId && u.nextId == t.nextId && u.viewPort == t.viewPort
  {
  }

  /** A request that differs from the committed viewport makes the next Submit use a new view. */
  lemma SetViewPortThenSubmitReallocates(s: State, vp: ViewPort, program: ProgramHandle, flags: uint8)
    requires Valid(s)
    requires !vp.Equals(s.viewPort)
    ensures var t := Submit(SetViewPort(s, vp), program, flags);
      t.viewId == Some(s.nextId) && t.viewId != s.viewId && !Configured(s.log, s.nextId) && t.viewPort == vp
  {
  }

  /** After Reset the next Submit allocates, whatever was assigned before. */
  lemma SubmitAfterResetAllocates(s: State, program: ProgramHandle, flags: uint8)
    requires Valid(s)
    ensures var t := Submit(Reset(s), program, flags);
      t.viewId == Some(s.nextId) && !Configured(s.log, s.nextId) &&
      t.nextId == s.nextId + 1 && t.viewPort == DefaultViewPort
  {
  }

  /**
   * Blit always takes a fresh view with the default viewport and no touch, so
   * two Blits in a row use two different views, both new.
   */
  lemma BlitAlwaysAllocates(s: State, r1: BlitRegion, r2: BlitRegion)
    requires Valid(s)
    ensures var t := Blit(s, r1); var u := Blit(t, r2);
      t.viewId == Some(s.nextId) && t.viewId != s.viewId && !Configured(s.log, s.nextId) &&
      u.viewId == Some(t.nextId) && u.viewId != t.viewId && u.viewId != s.viewId &&
      t.viewPort == DefaultViewPort && u.viewPort == DefaultViewPort &&
      t.requested == s.requested &&
      t.log == s.log + [ViewConfigured(s.nextId, s.target, DefaultViewPort), Blitted(s.nextId, r1)]
  {
  }

  /** AcquireNewViewId takes a fresh view but keeps the committed viewport and ignores the pending one. */
  lemma AcquireKeepsViewPort(s: State)
    requires Valid(s)
    ensures var t := AcquireNewViewId(s);
      t.viewId == Some(s.nextId) && t.viewId != s.viewId && !Configured(s.log, s.nextId) &&
      t.viewPort == s.viewPort && t.requested == s.requested &&
      t.log == s.log + [ViewConfigured(s.nextId, s.target, s.viewPort)]
  {
  }

  /**
   * Clear takes a fresh view with the default viewport, touches it so that it
   * executes even if nothing is drawn into it, and sets the clear on that view.
   */
  lemma ClearTouchesFreshView(s: State, flags: uint16, rgba: uint32, depth: real, stencil: uint8)
    requires Valid(s)
    ensures var t := Clear(s, flags, rgba, depth, stencil);
      t.viewId == Some(s.nextId) && !Configured(s.log, s.nextId) &&
      t.viewPort == DefaultViewPort && t.requested == s.requested &&
      t.log == s.log + [ViewConfigured(s.nextId, s.target, DefaultViewPort),
                        Touched(s.nextId),
                        ClearSet(s.nextId, flags, rgba, depth, stencil)]
  {
  }

  /** Clear is the one operation that touches a view. */
  lemma OnlyClearTouches(s: State, op: Op)
    ensures (exists e :: e in Emitted(s, op) && e.Touched?) <==> op.ClearOp?
  {
    var e := Emitted(s, op);
    if op.ClearOp? {
      assert e[1] == Touched(s.nextId);
    }
  }

  /** Only Clear, Submit and Blit draw with the encoder; SetViewPort, Reset and AcquireNewViewId issue nothing through it. */
  lemma EncoderUseByOperation(s: State, op: Op)
    ensures (exists e :: e in Emitted(s, op) && (e.Touched? || e.Submitted? || e.Blitted?)) <==>
      (op.ClearOp? || op.SubmitOp? || op.BlitOp?)
  {
    var e := Emitted(s, op);
    if op.ClearOp? {
      assert e[1] == Touched(s.nextId);
    } else if op.SubmitOp? || op.BlitOp? {
      assert e[|e| - 1].Submitted? || e[|e| - 1].Blitted?;
    }
  }

  /** Reset returns to the unassigned state, and doing it twice is doing it once. */
  lemma ResetUnassigns(s: State)
    ensures var t := Reset(s);
      t.viewId.None? && t.viewPort == DefaultViewPort && t.requested.None? &&
      t.nextId == s.nextId && t.log == s.log
    ensures Reset(Reset(s)) == Reset(s)
  {
  }

  /**
   * Within one frame, over any sequence of calls from a valid state, no view
   * id is handed out twice: the views configured in the log are pairwise
   * distinct.
   */
  lemma RunConfiguresDistinctViews(s: State, ops: seq<Op>)
    requires Valid(s)
    ensures var t := Run(s, ops);
      forall i, j :: 0 <= i < j < |t.log| && t.log[i].ViewConfigured? && t.log[j].ViewConfigured? ==>
        t.log[i].view != t.log[j].view
  {
  }

  /** The operations that leave a view assigned: each one takes or keeps a view. */
  predicate Assigns(op: Op)
  {
    op.ClearOp? || op.SubmitOp? || op.BlitOp? || op.AcquireNewViewIdOp?
  }

  /** No Reset among `ops[from..]`. */
  predicate NoResetFrom(ops: seq<Op>, from: nat)
  {
    forall j :: from <= j < |ops| ==> !ops[j].ResetOp?
  }

  /**
   * After any sequence of calls a view is assigned exactly when Clear,
   * Submit, Blit or AcquireNewViewId was called since the last Reset, or the
   * view held at the start has not been reset since.
   */
  lemma {:induction false} AssignedIffAllocatedSinceReset(s: State, ops: seq<Op>)
    ensures Run(s, ops).viewId.Some? <==>
      (exists i :: 0 <= i < |ops| && Assigns(ops[i]) && NoResetFrom(ops, i + 1)) ||
      (s.viewId.Some? && NoResetFrom(ops, 0))
    decreases |ops|
  {
    if ops != [] {
      var s1 := Apply(s, ops[0]);
      var rest := ops[1..];
      AssignedIffAllocatedSinceReset(s1, rest);
      assert s1.viewId.Some? <==> Assigns(ops[0]) || (s.viewId.Some? && !ops[0].ResetOp?);
      assert forall k :: 0 <= k < |rest| ==> rest[k] == ops[k + 1];
      assert forall k :: 0 <= k <= |rest| ==> (NoResetFrom(rest, k) <==> NoResetFrom(ops, k + 1));
    }
  }
}
