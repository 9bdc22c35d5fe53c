/**
 * The part of wgpu that the tutorial's state builds and reads, as data:
 * vertex-buffer layouts, the surface configuration, surface errors and the
 * draw commands a render pass records.
 */
module Wgpu {
  import opened Winit

  /** Rust's u16, the element type of the index buffers (IndexFormat::Uint16). */
  newtype u16 = x: int | 0 <= x < 0x1_0000

  /** Bytes in one f32. */
  const F32_SIZE: nat := 4

  /** std::mem::size_of::<[f32; n]>(). */
  function SizeOfF32Array(n: nat): nat {
    F32_SIZE * n
  }

  datatype VertexFormat = Float32x3 | Float32x4

  /** Bytes one attribute of the given format occupies. */
  function FormatSize(f: VertexFormat): nat {
    match f
    case Float32x3 => SizeOfF32Array(3)
    case Float32x4 => SizeOfF32Array(4)
  }

  /** wgpu::VertexStepMode::{Vertex, Instance}: the buffer advances once per vertex or once per instance. */
  datatype VertexStepMode = VertexStep | InstanceStep

  datatype VertexAttribute = VertexAttribute(offset: nat, shaderLocation: nat, format: VertexFormat)

  datatype VertexBufferLayout = VertexBufferLayout(arrayStride: nat, stepMode: VertexStepMode, attributes: seq<VertexAttribute>)

  /** First byte after the attribute. */
  function End(a: VertexAttribute): nat {
    a.offset + FormatSize(a.format)
  }

  /** Sum of the attribute sizes. */
  function TotalSize(attrs: seq<VertexAttribute>): nat {
    if attrs == [] then 0 else FormatSize(attrs[0].format) + TotalSize(attrs[1..])
  }

  /** The attributes lie back to back, in order, from byte `from` up to byte `to`. */
  predicate Tiles(attrs: seq<VertexAttribute>, from: nat, to: nat) {
    if attrs == [] then from == to
    else attrs[0].offset == from && Tiles(attrs[1..], End(attrs[0]), to)
  }

  /** No two attributes feed the same shader location. */
  predicate DistinctLocations(attrs: seq<VertexAttribute>) {
    forall i, j :: 0 <= i < j < |attrs| ==> attrs[i].shaderLocation != attrs[j].shaderLocation
  }

  function Locations(attrs: seq<VertexAttribute>): set<nat> {
    set a | a in attrs :: a.shaderLocation
  }

  /** A layout whose attributes fill one stride exactly and use distinct locations. */
  predicate WellFormed(layout: VertexBufferLayout) {
    Tiles(layout.attributes, 0, layout.arrayStride) && DistinctLocations(layout.attributes)
  }

  /**
   * A tiling puts every attribute inside [from, to), keeps them pairwise
   * disjoint and in order, and leaves no gap: their sizes add up to to - from.
   */
  lemma {:induction false} TilingIsExact(attrs: seq<VertexAttribute>, from: nat, to: nat)
    requires Tiles(attrs, from, to)
    ensures from <= to && TotalSize(attrs) == to - from
    ensures forall i :: 0 <= i < |attrs| ==> from <= attrs[i].offset && End(attrs[i]) <= to
    ensures forall i, j :: 0 <= i < j < |attrs| ==> End(attrs[i]) <= attrs[j].offset
  {
    if attrs != [] {
      var rest := attrs[1..];
      TilingIsExact(rest, End(attrs[0]), to);
      forall i | 0 <= i < |attrs|
        ensures from <= attrs[i].offset && End(attrs[i]) <= to
      {
        if i > 0 { assert attrs[i] == rest[i - 1]; }
      }
      forall i, j | 0 <= i < j < |attrs|
        ensures End(attrs[i]) <= attrs[j].offset
      {
        assert attrs[j] == rest[j - 1];
        if i > 0 { assert attrs[i] == rest[i - 1]; }
      }
    }
  }

  /** wgpu::TextureFormat: the adapter's preferred format, an opaque token here. */
  datatype TextureFormat = TextureFormat(id: nat)

  datatype PresentMode = Fifo

  /** wgpu::SurfaceConfiguration (usage is always RENDER_ATTACHMENT and is not recorded). */
  datatype SurfaceConfiguration = SurfaceConfiguration(format: TextureFormat, width: u32, height: u32, presentMode: PresentMode)

  /** wgpu::SurfaceError, the ways acquiring the next frame can fail. */
  datatype SurfaceError = Timeout | Outdated | Lost | OutOfMemory

  /** A half-open range start..end of vertices, indices or instances. */
  datatype Range = Range(start: nat, end: nat)

  /** The two draw commands the tutorial records in a render pass. */
  datatype DrawCall =
    | Draw(vertices: Range, instances: Range)
    | DrawIndexed(indices: Range, baseVertex: int, instances: Range)

  /** The index list is a TriangleList: whole triangles, each index naming an existing vertex. */
  predicate TriangleList(indices: seq<u16>, vertexCount: nat) {
    |indices| % 3 == 0 && forall i :: 0 <= i < |indices| ==> indices[i] as int < vertexCount
  }
}
