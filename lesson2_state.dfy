/**
 * Lesson 2: a State with two pipelines over a shader-generated triangle;
 * each press of Space switches between them. The surface is modelled as
 * the history of the configurations it was given.
 */
module Lesson2 {
  import opened Wrappers
  import opened Winit
  import opened Wgpu

  /** The two pipelines built at startup, as opaque tokens. */
  datatype Pipeline = RenderPipeline | ColorPipeline

  /** The pipeline `render` binds for a given value of `use_color`. */
  function PipelineFor(useColor: bool): (p: Pipeline)
    ensures p == ColorPipeline <==> useColor
    ensures p == RenderPipeline <==> !useColor
  {
    if useColor then ColorPipeline else RenderPipeline
  }

  /** What `render` records in its render pass: a pipeline and a non-indexed draw. */
  datatype RenderPass = RenderPass(pipeline: Pipeline, draw: DrawCall)

  /** The triangle's three vertices come from the shader's vertex index, so no buffer is bound. */
  const TRIANGLE_DRAW := Draw(Range(0, 3), Range(0, 1))

  class State {
    var size: PhysicalSize
    var config: SurfaceConfiguration
    /** Every configuration handed to surface.configure, oldest first. */
    var configureLog: seq<SurfaceConfiguration>
    var useColor: bool

    /**
     * The surface-configuration invariant: the configuration mirrors the last
     * accepted window size, and the surface holds that configuration.
     */
    ghost predicate Valid()
      reads this
    {
      config.width == size.width && config.height == size.height &&
      configureLog != [] && configureLog[|configureLog| - 1] == config
    }

    /** State::new, after the device, surface and both pipelines exist. */
    constructor (windowSize: PhysicalSize, format: TextureFormat)
      ensures Valid()
      ensures size == windowSize
      ensures config == SurfaceConfiguration(format, windowSize.width, windowSize.height, Fifo)
      ensures configureLog == [config]
      ensures !useColor
    {
      size := windowSize;
      config := SurfaceConfiguration(format, windowSize.width, windowSize.height, Fifo);
      configureLog := [SurfaceConfiguration(format, windowSize.width, windowSize.height, Fifo)];
      useColor := false;
    }

    /** State::resize: a size with a zero dimension is ignored. */
    method Resize(newSize: PhysicalSize)
      requires Valid()
      modifies this
      ensures Valid()
      ensures !IsDrawable(newSize) ==> size == old(size) && config == old(config) && configureLog == old(configureLog)
      ensures IsDrawable(newSize) ==>
        size == newSize && config == old(config).(width := newSize.width, height := newSize.height) &&
        configureLog == old(configureLog) + [config]
      ensures useColor == old(useColor)
    {
      if newSize.width > 0 && newSize.height > 0 {
        size := newSize;
        config := config.(width := newSize.width);
        config := config.(height := newSize.height);
        configureLog := configureLog + [config];
      }
    }

    /**
     * State::input: a pressed Space flips `use_color`; releases, other keys
     * and cursor moves leave it alone. The event is never reported as consumed.
     */
    method Input(event: WindowEvent) returns (consumed: bool)
      requires Valid()
      modifies this
      ensures Valid()
      ensures !consumed
      ensures useColor == (if IsKeyPress(event, Space) then !old(useColor) else old(useColor))
      ensures size == old(size) && config == old(config) && configureLog == old(configureLog)
    {
      match event {
        case CursorMoved(_, _) =>
        case KeyboardInput(KeyInput(Pressed, Some(Space))) =>
          useColor := !useColor;
        case _ =>
      }
      consumed := false;
    }

    /**
     * State::render: `next` is what surface.get_current_texture returned.
     * A failure is passed to the caller; otherwise the pass binds the
     * colour pipeline exactly when `use_color` is set and draws vertices
     * 0..3 once.
     */
    method Render(next: Result<(), SurfaceError>) returns (r: Result<RenderPass, SurfaceError>)
      requires Valid()
      ensures next.Err? ==> r == Err(next.error)
      ensures next.Ok? ==> r.Ok?
      ensures r.Ok? ==> (r.value.pipeline == ColorPipeline <==> useColor)
      ensures r.Ok? ==> r.value.draw == Draw(Range(0, 3), Range(0, 1))
    {
      if next.Err? {
        return Err(next.error);
      }
      return Ok(RenderPass(PipelineFor(useColor), TRIANGLE_DRAW));
    }
  }

  /** Two presses of Space restore `use_color`. */
  method PressSpaceTwice(state: State, press: WindowEvent)
    requires state.Valid() && IsKeyPress(press, Space)
    modifies state
    ensures state.Valid() && state.useColor == old(state.useColor)
  {
    var _ := state.Input(press);
    var _ := state.Input(press);
  }
}
