/**
 * The FrameBuffer object and the manager it takes view ids from. The
 * per-frame fields are updated in place; each method is proved to move the
 * object from a state to the one the matching FrameState function gives.
 */
module FrameBuffers {
  import opened Optional
  import opened Bgfx
  import opened ViewPorts
  import FrameState

  /**
   * The view-id source shared by all frame buffers, as a counter: an id it
   * returns was not returned before. Its pool limit and its reset at frame
   * boundaries are not modelled.
   */
  class FrameBufferManager {
    var next: ViewId
    ghost var issued: set<ViewId>

    ghost predicate Valid()
      reads this
    {
      forall id :: id in issued ==> id < next
    }

    constructor ()
      ensures Valid() && issued == {} && next == 0
    {
      next := 0;
      issued := {};
    }

    method NewViewId() returns (id: ViewId)
      requires Valid()
      modifies this
      ensures Valid()
      ensures id !in old(issued) && issued == old(issued) + {id}
      ensures id == old(next) && next == old(next) + 1
    {
      id := next;
      issued := issued + {id};
      next := next + 1;
    }
  }

  class FrameBuffer {
    const manager: FrameBufferManager
    const handle: FrameBufferHandle
    /** Pixel size; 0 means "the swap chain's current size". */
    const width: uint16
    const height: uint16
    const defaultBackBuffer: bool

    var viewId: Option<ViewId>
    var viewPort: ViewPort
    var requestedViewPort: Option<ViewPort>
    /** The bgfx calls made on behalf of this frame buffer. */
    ghost var log: seq<FrameState.Event>

    ghost function Model(): FrameState.State
      reads this, manager
    {
      FrameState.State(handle, viewId, viewPort, requestedViewPort, manager.next, log)
    }

    ghost predicate Valid()
      reads this, manager
    {
      manager.Valid() && FrameState.Valid(Model())
    }

    constructor (manager: FrameBufferManager, handle: FrameBufferHandle, width: uint16, height: uint16, defaultBackBuffer: bool)
      requires manager.Valid()
      ensures Valid()
      ensures this.manager == manager && this.handle == handle
      ensures this.width == width && this.height == height && this.defaultBackBuffer == defaultBackBuffer
      ensures Model() == FrameState.Init(handle, manager.next)
    {
      this.manager := manager;
      this.handle := handle;
      this.width := width;
      this.height := height;
      this.defaultBackBuffer := defaultBackBuffer;
      viewId := None;
      viewPort := DefaultViewPort;
      requestedViewPort := None;
      log := [];
    }

    /** The destructor: the handle is destroyed exactly when it is valid. */
    method Destroy()
      modifies this
      ensures log == old(log) + (if handle.IsValid() then [FrameState.Destroyed(handle)] else [])
      ensures viewId == old(viewId) && viewPort == old(viewPort) && requestedViewPort == old(requestedViewPort)
    {
      if handle.IsValid() {
        log := log + [FrameState.Destroyed(handle)];
      }
    }

    /** The stored width, or the swap chain's when the stored one is 0. */
    function Width(stats: Stats): uint16
    {
      if width == 0 then stats.width else width
    }

    function Height(stats: Stats): uint16
    {
      if height == 0 then stats.height else height
    }

    method Clear(encoder: Encoder, flags: uint16, rgba: uint32, depth: real, stencil: uint8)
      requires Valid() && encoder != NullEncoder
      modifies this, manager
      ensures Valid()
      ensures Model() == FrameState.Clear(old(Model()), flags, rgba, depth, stencil)
    {
      NewView(encoder, DefaultViewPort, true);
      log := log + [FrameState.ClearSet(viewId.value, flags, rgba, depth, stencil)];
    }

    /** The encoder is taken, and not used, so that callers must have obtained one. */
    method SetViewPort(encoder: Encoder, x: real, y: real, width: real, height: real)
      requires Valid()
      modifies this
      ensures Valid()
      ensures Model() == FrameState.SetViewPort(old(Model()), ViewPort(x, y, width, height))
    {
      requestedViewPort := Some(ViewPort(x, y, width, height));
    }

    method Submit(encoder: Encoder, program: ProgramHandle, flags: uint8)
      requires Valid() && encoder != NullEncoder
      modifies this, manager
      ensures Valid()
      ensures Model() == FrameState.Submit(old(Model()), program, flags)
    {
      ghost var before := Model();
      if requestedViewPort.Some? && !requestedViewPort.value.Equals(viewPort) {
        NewView(encoder, requestedViewPort.value, false);
      } else if viewId.None? {
        NewView(encoder, DefaultViewPort, false);
      }
      ghost var drawn := Model();
      assert drawn == match FrameState.DecideSubmit(before.viewId, before.viewPort, before.requested)
        case Reuse => before
        case Allocate(vp) => FrameState.NewView(before, vp, false);
      log := log + [FrameState.Submitted(viewId.value, program, flags)];
      assert Model() == FrameState.Issue(drawn, [FrameState.Submitted(drawn.viewId.value, program, flags)]);
    }

    /** One blit per view: every Blit takes a new view id. */
    method Blit(encoder: Encoder, region: BlitRegion)
      requires Valid() && encoder != NullEncoder
      modifies this, manager
      ensures Valid()
      ensures Model() == FrameState.Blit(old(Model()), region)
    {
      NewView(encoder, DefaultViewPort, false);
      log := log + [FrameState.Blitted(viewId.value, region)];
    }

    method Reset()
      requires Valid()
      modifies this
      ensures Valid()
      ensures Model() == FrameState.Reset(old(Model()))
    {
      viewId := None;
      viewPort := DefaultViewPort;
      requestedViewPort := None;
    }

    /**
     * NewView<doTouch>. The encoder is dereferenced only to touch, so a null
     * encoder is allowed when no touch is asked for.
     */
    method NewView(encoder: Encoder, vp: ViewPort, doTouch: bool)
      requires Valid() && (doTouch ==> encoder != NullEncoder)
      modifies this, manager
      ensures Valid()
      ensures Model() == FrameState.NewView(old(Model()), vp, doTouch)
    {
      var id := manager.NewViewId();
      viewId := Some(id);
      viewPort := vp;
      log := log + [FrameState.ViewConfigured(id, handle, viewPort)];
      if doTouch {
        log := log + [FrameState.Touched(id)];
      }
    }

    /** Passes a null encoder to NewView, which does not touch and so never dereferences it. */
    method AcquireNewViewId()
      requires Valid()
      modifies this, manager
      ensures Valid()
      ensures Model() == FrameState.AcquireNewViewId(old(Model()))
    {
      NewView(NullEncoder, viewPort, false);
    }
  }

  /**
   * A stored dimension is returned as it is whatever the swap chain does; a
   * stored 0 follows the swap chain on every query, so a resize between two
   * queries shows in the second.
   */
  lemma DimensionsFallBackToSwapChain(fb: FrameBuffer, before: Stats, after: Stats)
    ensures fb.width != 0 ==> fb.Width(before) == fb.width && fb.Width(after) == fb.width
    ensures fb.width == 0 ==> fb.Width(after) == after.width && (fb.Width(before) == fb.Width(after) <==> before.width == after.width)
    ensures fb.height != 0 ==> fb.Height(before) == fb.height && fb.Height(after) == fb.height
    ensures fb.height == 0 ==> fb.Height(after) == after.height && (fb.Height(before) == fb.Height(after) <==> before.height == after.height)
  {
  }
}
