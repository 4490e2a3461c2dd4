# FrameBuffer view assignment

A model of the view-id state machine of Babylon Native's `FrameBuffer`
(`Core/Graphics/Source/FrameBuffer.cpp`). A frame buffer draws through bgfx,
which needs a separate numbered view for every distinct combination of
target, viewport rectangle, clear and draw sequence. The frame buffer keeps
three per-frame fields: the optional current view id, the committed
viewport and an optional pending (requested) viewport. Each operation decides
whether to keep the current view or to take a new id from its
`FrameBufferManager`.

Files:

- `optional.dfy`: `Option`, for the `std::optional` fields.
- `bgfx.dfy`: the values that cross into bgfx: fixed-width integers, handles
  (a handle is valid unless its index is `0xFFFF`), the encoder (possibly
  null), the swap-chain size that `bgfx::getStats()` reports, and blit
  arguments.
- `viewport.dfy`: `ViewPort` with its epsilon comparison `Equals`. The
  components are reals and `Epsilon` is the single-precision epsilon 2^-23.
- `frame_state.dfy`: the operations as functions on a `State`. A state holds
  the three fields, the manager's next id and the log of bgfx calls made so
  far. It also defines the invariant `Valid`:
  - with no view, the committed viewport is the default;
  - the current view was configured for this target with the committed viewport;
  - every view in the log was already handed out;
  - views were configured in strictly increasing order.
  Every operation preserves `Valid`, and so does every sequence of operations
  (`Run`).
- `frame_properties.dfy`: what the operations promise:
  - when `Submit` reuses its view and when it reallocates;
  - `Blit` and `AcquireNewViewId` always take a fresh id;
  - `Clear` is the only operation that touches a view;
  - `Reset` returns to the unassigned state;
  - after any sequence of calls a view is assigned exactly when one was
    taken since the last `Reset`;
  - within one frame, no view id is configured twice.
- `frame_buffer.dfy`: the `FrameBuffer` class and the manager as a class.
  - The class updates its fields in place. Each operation method (all but
    the destructor `Destroy`) is proved to move `Model()` exactly as the
    matching `FrameState` function says, and to keep `Valid()`. `Destroy`
    states its effect on the log directly.
  - `Width`/`Height` take the swap-chain size as a parameter.
  - The accessors `Handle()` and `DefaultBackBuffer()` are the `const`
    fields `handle` and `defaultBackBuffer`.

The default viewport `{}` is taken to be the whole surface, `(0, 0, 1, 1)`.
The header that declares `ViewPort`'s member initialisers is not part of this
model. No proof depends on the value of this constant, only on its identity.

The bgfx calls are not modelled, only logged as `FrameState.Event`s:
- `NewView` configures a view (sequential mode, clear disabled, bound to the
  handle, rectangle from the viewport). The log records this as a single
  `ViewConfigured(id, handle, viewPort)` event.
- Touch, set-clear, submit, blit and destroy are each one event.

Notes on behaviour that follows the code:
- The second branch of `Submit` allocates with the default viewport `{}`
  (FrameBuffer.cpp:71), not explicitly with the committed one. Under the
  invariant the two are the same, because without a view the committed
  viewport is the default. `FrameProperties.SubmitAllocatesWhenUnassigned`
  states this.
- `Clear` commits the default viewport and leaves a pending viewport in
  place. A later `Submit` therefore reallocates if that request differs from
  the default.
- The destructor destroys the handle whenever it is valid, whatever
  `defaultBackBuffer` says. A default back buffer is kept from being
  destroyed only because it is built with an invalid handle.

## Model

| member | source | states |
|---|---|---|
| ViewPorts.EqualsReflexive | Core/Graphics/Source/FrameBuffer.cpp:96-103 | a viewport compares equal to itself |
| ViewPorts.EqualsSymmetric | Core/Graphics/Source/FrameBuffer.cpp:96-103 | the epsilon comparison is symmetric |
| ViewPorts.EqualsNotTransitive | Core/Graphics/Source/FrameBuffer.cpp:96-103 | the comparison is approximate: three viewports exist where a equals b and b equals c but a does not equal c |
| FrameState.Init | Core/Graphics/Source/FrameBuffer.cpp:8-18 | a new frame buffer has no view, no request and an empty log, and satisfies the invariant (no view implies default viewport) |
| FrameState.NewView | Core/Graphics/Source/FrameBuffer.cpp:105-125 | taking a new view keeps the target, only advances the id counter, only appends to the log, and preserves the invariant |
| FrameState.Clear | Core/Graphics/Source/FrameBuffer.cpp:48-53 | Clear keeps the target, appends to the log and preserves the invariant |
| FrameState.SetViewPort | Core/Graphics/Source/FrameBuffer.cpp:55-61 | SetViewPort issues no call and takes no id (log and counter unchanged), and preserves the invariant |
| FrameState.DecideSubmit | Core/Graphics/Source/FrameBuffer.cpp:65-72 | Submit reuses exactly when a view is assigned and no pending viewport differs from the committed one; otherwise it allocates with the pending viewport if that differs, else with the default |
| FrameState.Submit | Core/Graphics/Source/FrameBuffer.cpp:63-75 | Submit keeps the target, appends to the log and preserves the invariant |
| FrameState.Blit | Core/Graphics/Source/FrameBuffer.cpp:77-82 | Blit keeps the target, appends to the log and preserves the invariant |
| FrameState.Reset | Core/Graphics/Source/FrameBuffer.cpp:89-94 | Reset issues no call and takes no id (log and counter unchanged), and preserves the invariant |
| FrameState.AcquireNewViewId | Core/Graphics/Source/FrameBuffer.cpp:127-130 | AcquireNewViewId appends to the log and preserves the invariant |
| FrameState.Apply | Core/Graphics/Source/FrameBuffer.cpp:48-130 | every public operation keeps the target, never moves the id counter back, only appends to the log, and preserves the invariant |
| FrameState.Run | Core/Graphics/Source/FrameBuffer.cpp:48-130 | any sequence of operations from a valid state ends in a valid state whose log extends the first |
| FrameProperties.NextIdIsFresh | Core/Graphics/Source/FrameBuffer.cpp:107 | within one frame, the id the manager hands out next was not configured before and differs from the current view |
| FrameProperties.SetViewPortOnlyRecordsRequest | Core/Graphics/Source/FrameBuffer.cpp:55-61 | SetViewPort only sets the pending viewport: no new id, no bgfx call, view and committed viewport unchanged |
| FrameProperties.SubmitReusesIff | Core/Graphics/Source/FrameBuffer.cpp:63-75 | Submit keeps its view id and takes no new id if and only if a view is assigned and the pending viewport is absent or equal to the committed one; then it only issues the draw to that view |
| FrameProperties.SubmitReallocatesOnChange | Core/Graphics/Source/FrameBuffer.cpp:65-67 | a differing pending viewport gets a fresh view configured with it, without a touch; it becomes the committed viewport and stays pending |
| FrameProperties.SubmitAllocatesWhenUnassigned | Core/Graphics/Source/FrameBuffer.cpp:69-74 | with no view and no differing request, Submit takes a fresh view with the default viewport (which is the committed one), without a touch |
| FrameProperties.SubmitDrawsIntoCurrentView | Core/Graphics/Source/FrameBuffer.cpp:63-75 | on every path the draw is issued to a present view id, configured for this target with the committed viewport, and no touch is issued |
| FrameProperties.SubmitTwiceReuses | Core/Graphics/Source/FrameBuffer.cpp:63-75 | two Submits in a row use the same view id |
| FrameProperties.SetViewPortThenSubmitReallocates | Core/Graphics/Source/FrameBuffer.cpp:55-75 | requesting a viewport that differs from the committed one makes the next Submit use a new view, not configured before in this frame, with that viewport |
| FrameProperties.SubmitAfterResetAllocates | Core/Graphics/Source/FrameBuffer.cpp:63-94 | after Reset, Submit always takes a new id with the default viewport |
| FrameProperties.BlitAlwaysAllocates | Core/Graphics/Source/FrameBuffer.cpp:77-82 | every Blit, consecutive ones included, takes a fresh id with the default viewport and no touch, and leaves the request alone |
| FrameProperties.AcquireKeepsViewPort | Core/Graphics/Source/FrameBuffer.cpp:127-130 | AcquireNewViewId takes a fresh id, keeps the committed viewport, ignores the pending one and issues no touch |
| FrameProperties.ClearTouchesFreshView | Core/Graphics/Source/FrameBuffer.cpp:48-53 | Clear takes a fresh id with the default viewport, touches it so the view executes, and sets the clear on that same id |
| FrameProperties.OnlyClearTouches | Core/Graphics/Source/FrameBuffer.cpp:105-125 | an operation issues a touch if and only if it is Clear |
| FrameProperties.EncoderUseByOperation | Core/Graphics/Source/FrameBuffer.cpp:48-130 | an operation draws through the encoder (touch, submit or blit) if and only if it is Clear, Submit or Blit |
| FrameProperties.ResetUnassigns | Core/Graphics/Source/FrameBuffer.cpp:89-94 | Reset leaves no view, the default viewport and no request, issues nothing, and is idempotent |
| FrameProperties.RunConfiguresDistinctViews | Core/Graphics/Source/FrameBuffer.cpp:105-108 | within one frame, over any sequence of operations, no view id is configured twice |
| FrameProperties.AssignedIffAllocatedSinceReset | Core/Graphics/Source/FrameBuffer.cpp:48-130 | after any sequence of operations a view is assigned if and only if Clear, Submit, Blit or AcquireNewViewId ran since the last Reset, or the starting view was never reset |
| FrameBuffers.FrameBufferManager.NewViewId | Core/Graphics/Source/FrameBuffer.cpp:107 | the returned id was not returned before; the counter advances by one |
| FrameBuffers.FrameBuffer.constructor | Core/Graphics/Source/FrameBuffer.cpp:8-18 | stores the manager, handle, sizes and flag, and starts unassigned and valid |
| FrameBuffers.FrameBuffer.Destroy | Core/Graphics/Source/FrameBuffer.cpp:20-26 | the handle is destroyed exactly when it is valid; the view state is unchanged |
| FrameBuffers.FrameBuffer.Clear | Core/Graphics/Source/FrameBuffer.cpp:48-53 | updates the fields, the manager and the log as FrameState.Clear says; keeps the invariant |
| FrameBuffers.FrameBuffer.SetViewPort | Core/Graphics/Source/FrameBuffer.cpp:55-61 | updates the object as FrameState.SetViewPort says, whatever encoder is passed |
| FrameBuffers.FrameBuffer.Submit | Core/Graphics/Source/FrameBuffer.cpp:63-75 | updates the object as FrameState.Submit says; requires a non-null encoder, which it dereferences |
| FrameBuffers.FrameBuffer.Blit | Core/Graphics/Source/FrameBuffer.cpp:77-82 | updates the object as FrameState.Blit says |
| FrameBuffers.FrameBuffer.Reset | Core/Graphics/Source/FrameBuffer.cpp:89-94 | updates the object as FrameState.Reset says |
| FrameBuffers.FrameBuffer.NewView | Core/Graphics/Source/FrameBuffer.cpp:105-125 | takes the manager's id and updates the object as FrameState.NewView says; needs a non-null encoder only when it touches |
| FrameBuffers.FrameBuffer.AcquireNewViewId | Core/Graphics/Source/FrameBuffer.cpp:127-130 | updates the object as FrameState.AcquireNewViewId says; the null encoder it passes is never dereferenced |
| FrameBuffers.DimensionsFallBackToSwapChain | Core/Graphics/Source/FrameBuffer.cpp:33-41 | a non-zero stored width or height is returned as is; a zero one returns the swap chain's current value on every query, so a resize shows in the next query |

## Left out

- The bgfx calls themselves (`setViewMode`, `setViewClear`, `setViewFrameBuffer`, `setViewRect`, `touch`, `submit`, `blit`, `destroy`, `getStats`) are foreign library calls. They are recorded as log events, and the swap-chain size is a parameter.
- The pixel rectangle `static_cast<uint16_t>(fraction * Width())` is float-to-integer arithmetic. The log records the viewport instead.
- ViewPorts.ViewPort.Equals compares reals, not single-precision floats: rounding, NaN and denormals are not modelled.
- `SetStencil` only forwards its argument to the encoder and touches no state.
- FrameProperties.NextIdIsFresh: freshness holds only within one frame. The model's counter never restarts, so the lemma also holds across Resets; the real manager restarts its ids at the frame boundary, where an id can come back.
- FrameProperties.RunConfiguresDistinctViews: distinctness over the whole log comes from the model's counter never restarting. With the real manager it holds only within one frame, that is between two frame-boundary restarts of the manager.
- FrameBufferManager.NewViewId is modelled as an unbounded counter. The real manager's code is not part of this model; its view pool limit, its exhaustion error and its per-frame reset are not modelled. View ids are unbounded rather than 16-bit.
- Thread safety and encoder ownership are concurrency concerns and are not modelled.
