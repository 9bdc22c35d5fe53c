/**
 * The part of the winit windowing library that the tutorial's state and
 * event loop read: window sizes, window events and the loop's control flow.
 */
module Winit {
  import opened Wrappers

  /** Rust's u32, the component type of PhysicalSize<u32>. */
  newtype u32 = x: int | 0 <= x < 0x1_0000_0000

  /** winit::dpi::PhysicalSize<u32>. */
  datatype PhysicalSize = PhysicalSize(width: u32, height: u32)

  /** A size the surface can be configured with: both dimensions positive. */
  predicate IsDrawable(s: PhysicalSize) {
    s.width > 0 && s.height > 0
  }

  datatype ElementState = Pressed | Released

  /** The few virtual key codes the tutorial matches on; every other key is `OtherKey`. */
  datatype VirtualKeyCode = Space | Escape | OtherKey(code: nat)

  /** winit::event::KeyboardInput: whether the key went down or up, and which key, if known. */
  datatype KeyInput = KeyInput(state: ElementState, virtualKeycode: Option<VirtualKeyCode>)

  /**
   * winit::event::WindowEvent, restricted to the variants the tutorial
   * matches on; every other variant is `OtherWindowEvent`.
   * Cursor positions are f64 pixel coordinates, here reals.
   */
  datatype WindowEvent =
    | Resized(size: PhysicalSize)
    | Moved(windowX: int, windowY: int)
    | CloseRequested
    | CursorMoved(x: real, y: real)
    | KeyboardInput(input: KeyInput)
    | ScaleFactorChanged(scaleFactor: real, newInnerSize: PhysicalSize)
    | OtherWindowEvent

  /** The event is a press (not a release) of the given key. */
  predicate IsKeyPress(event: WindowEvent, key: VirtualKeyCode) {
    event.KeyboardInput? && event.input.state == Pressed && event.input.virtualKeycode == Some(key)
  }

  /** winit::window::WindowId. */
  type WindowId = nat

  /** winit::event::Event, restricted to the variants the tutorial matches on. */
  datatype Event =
    | RedrawRequested(windowId: WindowId)
    | MainEventsCleared
    | WindowEventFor(event: WindowEvent, windowId: WindowId)
    | OtherEvent

  /** winit::event_loop::ControlFlow; the loop starts in `Poll`. */
  datatype ControlFlow = Poll | Wait | Exit
}
