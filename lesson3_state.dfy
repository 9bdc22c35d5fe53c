/**
 * Lesson 3: a State that draws an indexed pentagon and, after each press of
 * Space, swaps to a cube (and back). GPU buffers are modelled as the
 * sequences uploaded into them; the surface as the history of the
 * configurations it was given.
 */
module Lesson3 {
  import opened Wrappers
  import opened Winit
  import opened Wgpu

  /** [f32; 3], with f32 values as reals. */
  datatype Float3 = Float3(x: real, y: real, z: real)

  datatype Vertex = Vertex(position: Float3, color: Float3)

  /** std::mem::size_of::<Vertex>(): two [f32; 3] fields, no padding under repr(C). */
  const SIZE_OF_VERTEX: nat := SizeOfF32Array(3) + SizeOfF32Array(3)

  /** Vertex::description: position at location 0, colour at location 1. */
  function Description(): (layout: VertexBufferLayout)
    ensures layout.arrayStride == SIZE_OF_VERTEX == 24
    ensures layout.stepMode == VertexStep
    ensures |layout.attributes| == 2
    ensures forall a | a in layout.attributes :: a.format == Float32x3 && FormatSize(a.format) == 12
    ensures layout.attributes[0].offset == 0 && layout.attributes[1].offset == 12
    ensures Locations(layout.attributes) == {0, 1}
    ensures WellFormed(layout)
  {
    VertexBufferLayout(
      SIZE_OF_VERTEX,
      VertexStep,
      [ VertexAttribute(0, 0, Float32x3),
        VertexAttribute(SizeOfF32Array(3), 1, Float32x3) ])
  }

  /** The two attributes of a vertex are disjoint and fill its 24 bytes exactly. */
  lemma DescriptionIsExact()
    ensures var attrs := Description().attributes;
      End(attrs[0]) <= attrs[1].offset && End(attrs[1]) == SIZE_OF_VERTEX
      && TotalSize(attrs) == SIZE_OF_VERTEX
  {
    TilingIsExact(Description().attributes, 0, SIZE_OF_VERTEX);
  }

  const PURPLE := Float3(0.5, 0.0, 0.5)
  const RED := Float3(1.0, 0.0, 0.0)
  const GREEN := Float3(0.0, 1.0, 0.0)
  const BLUE := Float3(0.0, 0.0, 1.0)

  /** The pentagon A..E. */
  const VERTICES: seq<Vertex> := [
    Vertex(Float3(-0.0868241, 0.49240386, 0.0), PURPLE),
    Vertex(Float3(-0.49513406, 0.06958647, 0.0), PURPLE),
    Vertex(Float3(-0.21918549, -0.44939706, 0.0), PURPLE),
    Vertex(Float3(0.35966998, -0.3473291, 0.0), PURPLE),
    Vertex(Float3(0.44147372, 0.2347359, 0.0), PURPLE)
  ]

  const INDICES: seq<u16> := [
    0, 1, 4,
    1, 2, 4,
    2, 3, 4
  ]

  /** The unit cube: four vertices per face, faces front, back, top, bottom, right, left. */
  const CUBE_VERTICES: seq<Vertex> := [
    Vertex(Float3(-1.0, -1.0, 1.0), RED),
    Vertex(Float3(1.0, -1.0, 1.0), GREEN),
    Vertex(Float3(1.0, 1.0, 1.0), BLUE),
    Vertex(Float3(-1.0, 1.0, 1.0), RED),

    Vertex(Float3(-1.0, -1.0, -1.0), RED),
    Vertex(Float3(-1.0, 1.0, -1.0), GREEN),
    Vertex(Float3(1.0, 1.0, -1.0), BLUE),
    Vertex(Float3(1.0, -1.0, -1.0), RED),

    Vertex(Float3(-1.0, 1.0, -1.0), RED),
    Vertex(Float3(-1.0, 1.0, 1.0), GREEN),
    Vertex(Float3(1.0, 1.0, 1.0), BLUE),
    Vertex(Float3(1.0, 1.0, -1.0), RED),

    Vertex(Float3(-1.0, -1.0, -1.0), RED),
    Vertex(Float3(1.0, -1.0, -1.0), GREEN),
    Vertex(Float3(1.0, -1.0, 1.0), BLUE),
    Vertex(Float3(-1.0, -1.0, 1.0), RED),

    Vertex(Float3(1.0, -1.0, -1.0), RED),
    Vertex(Float3(1.0, 1.0, -1.0), GREEN),
    Vertex(Float3(1.0, 1.0, 1.0), BLUE),
    Vertex(Float3(1.0, -1.0, 1.0), RED),

    Vertex(Float3(-1.0, -1.0, -1.0), RED),
    Vertex(Float3(-1.0, -1.0, 1.0), GREEN),
    Vertex(Float3(-1.0, 1.0, 1.0), BLUE),
    Vertex(Float3(-1.0, 1.0, -1.0), RED)
  ]

  const CUBE_INDICES: seq<u16> := [
    0, 1, 2, 0, 2, 3,
    4, 5, 6, 4, 6, 7,
    8, 9, 10, 8, 10, 11,
    12, 13, 14, 12, 14, 15,
    16, 17, 18, 16, 18, 19,
    20, 21, 22, 20, 22, 23
  ]

  /** A triangle fan around `apex`: triangles (i, i + 1, apex) for i < n. */
  function Fan(n: nat, apex: u16): seq<u16>
    requires n < apex as int
  {
    if n == 0 then [] else Fan(n - 1, apex) + [(n - 1) as u16, n as u16, apex]
  }

  lemma {:induction false} FanIsTriangleList(n: nat, apex: u16)
    requires n < apex as int
    ensures |Fan(n, apex)| == 3 * n
    ensures TriangleList(Fan(n, apex), apex as int + 1)
  {
    if n > 0 {
      var prefix, triangle := Fan(n - 1, apex), [(n - 1) as u16, n as u16, apex];
      FanIsTriangleList(n - 1, apex);
      forall i | 0 <= i < |prefix + triangle|
        ensures (prefix + triangle)[i] as int < apex as int + 1
      {
        if i < |prefix| {
          assert (prefix + triangle)[i] == prefix[i];
        }
      }
    }
  }

  /** Face f of a quad mesh: triangles (4f, 4f+1, 4f+2) and (4f, 4f+2, 4f+3). */
  function Quad(f: nat): seq<u16>
    requires 4 * f + 3 < 0x1_0000
  {
    [(4 * f) as u16, (4 * f + 1) as u16, (4 * f + 2) as u16,
     (4 * f) as u16, (4 * f + 2) as u16, (4 * f + 3) as u16]
  }

  /** Faces 0..n of a quad mesh. */
  function Quads(n: nat): seq<u16>
    requires 4 * n <= 0x1_0000
  {
    if n == 0 then [] else Quads(n - 1) + Quad(n - 1)
  }

  lemma {:induction false} QuadsAreTriangleList(n: nat)
    requires 4 * n <= 0x1_0000
    ensures |Quads(n)| == 6 * n
    ensures TriangleList(Quads(n), 4 * n)
  {
    if n > 0 {
      var prefix, face := Quads(n - 1), Quad(n - 1);
      QuadsAreTriangleList(n - 1);
      assert |face| == 6 && forall j :: 0 <= j < 6 ==> face[j] as int < 4 * n;
      forall i | 0 <= i < |prefix + face|
        ensures (prefix + face)[i] as int < 4 * n
      {
        if i < |prefix| {
          assert (prefix + face)[i] == prefix[i];
        } else {
          assert (prefix + face)[i] == face[i - |prefix|];
        }
      }
    }
  }

  /** INDICES is the fan of three triangles around vertex E (index 4). */
  lemma PentagonIsFan()
    ensures INDICES == Fan(3, 4)
  {
    assert Fan(1, 4) == [0, 1, 4];
    assert Fan(2, 4) == [0, 1, 4, 1, 2, 4];
  }

  /** CUBE_INDICES is six quads, one per face, each split along its 0-2 diagonal. */
  lemma CubeIsQuads()
    ensures CUBE_INDICES == Quads(6)
  {
    assert CUBE_INDICES == [0, 1, 2, 0, 2, 3] + [4, 5, 6, 4, 6, 7] + [8, 9, 10, 8, 10, 11]
      + [12, 13, 14, 12, 14, 15] + [16, 17, 18, 16, 18, 19] + [20, 21, 22, 20, 22, 23];
    assert Quads(6) == Quad(0) + Quad(1) + Quad(2) + Quad(3) + Quad(4) + Quad(5);
    assert Quad(0) == [0, 1, 2, 0, 2, 3];
    assert Quad(1) == [4, 5, 6, 4, 6, 7];
    assert Quad(2) == [8, 9, 10, 8, 10, 11];
    assert Quad(3) == [12, 13, 14, 12, 14, 15];
    assert Quad(4) == [16, 17, 18, 16, 18, 19];
    assert Quad(5) == [20, 21, 22, 20, 22, 23];
  }

  /** Both index constants are whole triangles over their own vertices. */
  lemma IndexConstantsWellFormed()
    ensures |VERTICES| == 5 && |INDICES| == 9 && TriangleList(INDICES, |VERTICES|)
    ensures |CUBE_VERTICES| == 24 && |CUBE_INDICES| == 36 && TriangleList(CUBE_INDICES, |CUBE_VERTICES|)
  {
    PentagonIsFan();
    FanIsTriangleList(3, 4);
    CubeIsQuads();
    QuadsAreTriangleList(6);
  }

  /** The position halved on every axis (exact in f32 for the cube's ±1.0 coordinates). */
  function Halve(p: Float3): Float3 {
    Float3(p.x / 2.0, p.y / 2.0, p.z / 2.0)
  }

  /** The cube rebuild: every vertex keeps its colour, its position is halved. */
  function HalvedCube(vertices: seq<Vertex>): (r: seq<Vertex>)
    ensures |r| == |vertices|
    ensures forall i :: 0 <= i < |r| ==> r[i].color == vertices[i].color
    ensures forall i :: 0 <= i < |r| ==> r[i].position == Halve(vertices[i].position)
  {
    seq(|vertices|, i requires 0 <= i < |vertices| => vertices[i].(position := Halve(vertices[i].position)))
  }

  /** The vertices bound in each mode. */
  function BoundVertices(renderCube: bool): seq<Vertex> {
    if renderCube then HalvedCube(CUBE_VERTICES) else VERTICES
  }

  /** The indices bound in each mode. */
  function BoundIndices(renderCube: bool): seq<u16> {
    if renderCube then CUBE_INDICES else INDICES
  }

  /** Whichever geometry is bound, every index names a vertex of the bound vertex buffer. */
  lemma BoundGeometryWellFormed(renderCube: bool)
    ensures TriangleList(BoundIndices(renderCube), |BoundVertices(renderCube)|)
    ensures |BoundIndices(renderCube)| == (if renderCube then 36 else 9)
    ensures |BoundVertices(renderCube)| == (if renderCube then 24 else 5)
  {
    IndexConstantsWellFormed();
  }

  /** The one pipeline of lesson 3, an opaque token. */
  datatype Pipeline = RenderPipeline

  datatype IndexFormat = Uint16

  /**
   * What `render` records in its render pass: the pipeline, the vertex buffer
   * in slot 0, the index buffer and its format, and the draw call.
   */
  datatype RenderPass = RenderPass(pipeline: Pipeline, vertexBuffer: seq<Vertex>, indexBuffer: seq<u16>, indexFormat: IndexFormat, draw: DrawCall)

  /** The pass draws whole triangles and reads only indices and vertices that exist. */
  predicate DrawsWithinBuffers(pass: RenderPass) {
    pass.draw.DrawIndexed? &&
    pass.draw.indices.start <= pass.draw.indices.end <= |pass.indexBuffer| &&
    TriangleList(pass.indexBuffer[pass.draw.indices.start..pass.draw.indices.end], |pass.vertexBuffer|)
  }

  class State {
    /** The window size the surface was last configured for. */
    var size: PhysicalSize
    var config: SurfaceConfiguration
    /** Every configuration handed to surface.configure, oldest first. */
    var configureLog: seq<SurfaceConfiguration>
    var vertexBuffer: seq<Vertex>
    var indexBuffer: seq<u16>
    var numIndices: u32
    var renderCube: bool

    /**
     * The configuration mirrors the size, the surface holds the current
     * configuration, the buffers hold the geometry of the current mode and
     * the index count is the length of the bound index buffer.
     */
    ghost predicate Valid()
      reads this
    {
      config.width == size.width && config.height == size.height &&
      configureLog != [] && configureLog[|configureLog| - 1] == config &&
      vertexBuffer == BoundVertices(renderCube) &&
      indexBuffer == BoundIndices(renderCube) &&
      numIndices as int == |indexBuffer|
    }

    /** State::new, after the device, surface and pipeline exist: `format` is the surface's preferred format. */
    constructor (windowSize: PhysicalSize, format: TextureFormat)
      ensures Valid()
      ensures size == windowSize
      ensures config == SurfaceConfiguration(format, windowSize.width, windowSize.height, Fifo)
      ensures configureLog == [config]
      ensures !renderCube && vertexBuffer == VERTICES && indexBuffer == INDICES && numIndices == 9
    {
      size := windowSize;
      config := SurfaceConfiguration(format, windowSize.width, windowSize.height, Fifo);
      configureLog := [SurfaceConfiguration(format, windowSize.width, windowSize.height, Fifo)];
      vertexBuffer := VERTICES;
      indexBuffer := INDICES;
      numIndices := |INDICES| as u32;
      renderCube := false;
    }

    /** State::resize: a size with a zero dimension is ignored. */
    method Resize(newSize: PhysicalSize)
      requires Valid()
      modifies this
      ensures Valid()
      ensures !IsDrawable(newSize) ==> size == old(size) && config == old(config) && configureLog == old(configureLog)
      ensures IsDrawable(newSize) ==>
        size == newSize && config == old(config).(width := newSize.width, height := newSize.height) &&
        configureLog == old(configureLog) + [config]
      ensures renderCube == old(renderCube) && vertexBuffer == old(vertexBuffer)
      ensures indexBuffer == old(indexBuffer) && numIndices == old(numIndices)
    {
      if newSize.width > 0 && newSize.height > 0 {
        size := newSize;
        config := config.(width := newSize.width);
        config := config.(height := newSize.height);
        configureLog := configureLog + [config];
      }
    }

    /**
     * State::input: a pressed Space flips the mode and uploads the other
     * geometry; every other event (cursor moves included) changes nothing
     * modelled here. The event is never reported as consumed.
     */
    method Input(event: WindowEvent) returns (consumed: bool)
      requires Valid()
      modifies this
      ensures Valid()
      ensures !consumed
      ensures renderCube == (if IsKeyPress(event, Space) then !old(renderCube) else old(renderCube))
      ensures indexBuffer == BoundIndices(renderCube) && vertexBuffer == BoundVertices(renderCube)
      ensures numIndices as int == |indexBuffer|
      ensures size == old(size) && config == old(config) && configureLog == old(configureLog)
    {
      match event {
        case CursorMoved(_, _) =>
        case KeyboardInput(KeyInput(Pressed, Some(Space))) =>
          renderCube := !renderCube;
          var vertices;
          if renderCube {
            indexBuffer := CUBE_INDICES;
            numIndices := |CUBE_INDICES| as u32;
            vertices := HalvedCube(CUBE_VERTICES);
          } else {
            indexBuffer := INDICES;
            numIndices := |INDICES| as u32;
            vertices := VERTICES;
          }
          vertexBuffer := vertices;
        case _ =>
      }
      consumed := false;
    }

    /**
     * State::render: `next` is what surface.get_current_texture returned.
     * A failure is passed to the caller; otherwise the pass binds the
     * buffers and draws every bound index, one instance.
     */
    method Render(next: Result<(), SurfaceError>) returns (r: Result<RenderPass, SurfaceError>)
      requires Valid()
      ensures next.Err? ==> r == Err(next.error)
      ensures next.Ok? ==> r.Ok? && r.value.pipeline == RenderPipeline
      ensures next.Ok? ==> r.value.vertexBuffer == BoundVertices(renderCube)
      ensures next.Ok? ==> r.value.indexBuffer == BoundIndices(renderCube) && r.value.indexFormat == Uint16
      ensures next.Ok? ==> r.value.draw == DrawIndexed(Range(0, |BoundIndices(renderCube)|), 0, Range(0, 1))
      ensures r.Ok? ==> DrawsWithinBuffers(r.value)
    {
      if next.Err? {
        return Err(next.error);
      }
      BoundGeometryWellFormed(renderCube);
      assert indexBuffer[0..numIndices] == indexBuffer;
      var pass := RenderPass(RenderPipeline, vertexBuffer, indexBuffer, Uint16,
                             DrawIndexed(Range(0, numIndices as nat), 0, Range(0, 1)));
      return Ok(pass);
    }
  }

  /** Two presses of Space restore the mode, both buffers and the index count. */
  method PressSpaceTwice(state: State, press: WindowEvent)
    requires state.Valid() && IsKeyPress(press, Space)
    modifies state
    ensures state.Valid()
    ensures state.renderCube == old(state.renderCube)
    ensures state.vertexBuffer == old(state.vertexBuffer) && state.indexBuffer == old(state.indexBuffer)
    ensures state.numIndices == old(state.numIndices)
  {
    var _ := state.Input(press);
    var _ := state.Input(press);
  }
}
