/**
 * Lesson 5: the event-loop closure of `main`. It captures the window and a
 * mutable State and, per event, renders, resizes, requests a redraw, logs
 * or sets the control flow to Exit. The State driven here is lesson 3's.
 */
module Lesson5 {
  import opened Wrappers
  import opened Winit
  import opened Wgpu
  import Lesson3

  /** What the closure does in answer to one event. */
  datatype Reaction =
    | Continue
    | ResizeTo(size: PhysicalSize)
    | ExitLoop
    | LogError(error: SurfaceError)
    | RequestRedraw

  /** The match on state.render(): `size` is state.size at the time of the call. */
  function OnRender(result: Result<(), SurfaceError>, size: PhysicalSize): (a: Reaction)
    ensures a == Continue <==> result.Ok?
    ensures a.ResizeTo? <==> result == Err(Lost)
    ensures a.ResizeTo? ==> a.size == size
    ensures a == ExitLoop <==> result == Err(OutOfMemory)
    ensures a.LogError? <==> result.Err? && result.error != Lost && result.error != OutOfMemory
    ensures a.LogError? ==> a.error == result.error
    ensures a != RequestRedraw
  {
    match result
    case Ok(_) => Continue
    case Err(Lost) => ResizeTo(size)
    case Err(OutOfMemory) => ExitLoop
    case Err(e) => LogError(e)
  }

  /** The fallback match on a window event that `state.input` did not consume. */
  function OnWindowEvent(event: WindowEvent): (a: Reaction)
    ensures a == RequestRedraw <==> event.Moved?
    ensures a.ResizeTo? <==> event.Resized? || event.ScaleFactorChanged?
    ensures event.Resized? ==> a == ResizeTo(event.size)
    ensures event.ScaleFactorChanged? ==> a == ResizeTo(event.newInnerSize)
    ensures a == ExitLoop <==> event == CloseRequested || IsKeyPress(event, Escape)
    ensures !a.LogError?
  {
    match event
    case Moved(_, _) => RequestRedraw
    case Resized(size) => ResizeTo(size)
    case ScaleFactorChanged(_, newInnerSize) => ResizeTo(newInnerSize)
    case CloseRequested => ExitLoop
    case KeyboardInput(KeyInput(Pressed, Some(Escape))) => ExitLoop
    case _ => Continue
  }

  /**
   * The whole decision table of the closure for the window `window`: `next`
   * is what rendering returns, `size` the state's size and `consumed` what
   * state.input returned.
   */
  function Dispatch(event: Event, window: WindowId, next: Result<(), SurfaceError>, size: PhysicalSize, consumed: bool): (a: Reaction)
    ensures (event.RedrawRequested? || event.WindowEventFor?) && event.windowId != window ==> a == Continue
    ensures event.WindowEventFor? && consumed ==> a == Continue
    ensures event == MainEventsCleared ==> a == RequestRedraw
    ensures a.LogError? ==> event == RedrawRequested(window) && next == Err(a.error)
    ensures a == ExitLoop <==>
      (event == RedrawRequested(window) && next == Err(OutOfMemory)) ||
      (event.WindowEventFor? && event.windowId == window && !consumed &&
       (event.event == CloseRequested || IsKeyPress(event.event, Escape)))
  {
    match event
    case RedrawRequested(id) => if id == window then OnRender(next, size) else Continue
    case MainEventsCleared => RequestRedraw
    case WindowEventFor(ev, id) => if id == window && !consumed then OnWindowEvent(ev) else Continue
    case OtherEvent => Continue
  }

  /** Resized and ScaleFactorChanged with the same size are handled alike. */
  lemma ResizeEventsAgree(window: WindowId, next: Result<(), SurfaceError>, size: PhysicalSize, newSize: PhysicalSize, scale: real)
    ensures Dispatch(WindowEventFor(Resized(newSize), window), window, next, size, false)
         == Dispatch(WindowEventFor(ScaleFactorChanged(scale, newSize), window), window, next, size, false)
         == ResizeTo(newSize)
  {
  }

  /** The captured environment of the closure plus the `control_flow` it writes. */
  class App {
    const window: WindowId
    const state: Lesson3.State
    var controlFlow: ControlFlow
    /** How many times window.request_redraw() was called. */
    var redrawRequests: nat
    /** Every surface error written to standard error, oldest first. */
    var errorLog: seq<SurfaceError>

    ghost predicate Valid()
      reads this, state
    {
      state.Valid()
    }

    constructor (window: WindowId, state: Lesson3.State)
      requires state.Valid()
      ensures Valid()
      ensures this.window == window && this.state == state
      ensures controlFlow == Poll && redrawRequests == 0 && errorLog == []
    {
      this.window := window;
      this.state := state;
      controlFlow := Poll;
      redrawRequests := 0;
      errorLog := [];
    }

    /** Carries out one reaction. */
    method Perform(a: Reaction)
      requires Valid()
      modifies this, state
      ensures Valid()
      ensures controlFlow == (if a == ExitLoop then Exit else old(controlFlow))
      ensures redrawRequests == old(redrawRequests) + (if a == RequestRedraw then 1 else 0)
      ensures errorLog == old(errorLog) + (if a.LogError? then [a.error] else [])
      ensures a.ResizeTo? && IsDrawable(a.size) ==>
        state.size == a.size && state.config == old(state.config).(width := a.size.width, height := a.size.height) &&
        state.configureLog == old(state.configureLog) + [state.config]
      ensures !(a.ResizeTo? && IsDrawable(a.size)) ==>
        state.size == old(state.size) && state.config == old(state.config) && state.configureLog == old(state.configureLog)
      ensures state.renderCube == old(state.renderCube)
    {
      match a
      case Continue =>
      case ResizeTo(size) => state.Resize(size);
      case ExitLoop => controlFlow := Exit;
      case LogError(e) => errorLog := errorLog + [e];
      case RequestRedraw => redrawRequests := redrawRequests + 1;
    }

    /**
     * One call of the closure. `next` is what the surface hands out if this
     * event renders a frame. state.update() is not part of this model.
     */
    method HandleEvent(event: Event, next: Result<(), SurfaceError>)
      requires Valid()
      modifies this, state
      ensures Valid()
      ensures var a := Dispatch(event, window, next, old(state.size), false);
        controlFlow == (if a == ExitLoop then Exit else old(controlFlow)) &&
        redrawRequests == old(redrawRequests) + (if a == RequestRedraw then 1 else 0) &&
        errorLog == old(errorLog) + (if a.LogError? then [a.error] else []) &&
        (a.ResizeTo? && IsDrawable(a.size) ==>
          state.size == a.size && state.config == old(state.config).(width := a.size.width, height := a.size.height) &&
          state.configureLog == old(state.configureLog) + [state.config]) &&
        (!(a.ResizeTo? && IsDrawable(a.size)) ==>
          state.size == old(state.size) && state.config == old(state.config) && state.configureLog == old(state.configureLog))
      ensures state.renderCube ==
        (if event.WindowEventFor? && event.windowId == window && IsKeyPress(event.event, Space)
         then !old(state.renderCube) else old(state.renderCube))
      ensures old(controlFlow) == Exit ==> controlFlow == Exit
      ensures event == RedrawRequested(window) && next == Err(Lost) ==>
        state.size == old(state.size) && state.config == old(state.config) &&
        (IsDrawable(old(state.size)) ==> state.configureLog == old(state.configureLog) + [old(state.config)])
    {
      match event {
        case RedrawRequested(id) =>
          if id == window {
            var rendered := state.Render(next);
            var result: Result<(), SurfaceError> := if rendered.Ok? then Ok(()) else Err(rendered.error);
            assert next.Ok? ==> next.value == ();
            Perform(OnRender(result, state.size));
          }
        case MainEventsCleared =>
          Perform(RequestRedraw);
        case WindowEventFor(ev, id) =>
          if id == window {
            var consumed := state.Input(ev);
            if !consumed {
              Perform(OnWindowEvent(ev));
            }
          }
        case OtherEvent =>
      }
    }
  }
}
