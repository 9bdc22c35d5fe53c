/**
 * Lesson 6: per-instance data. An Instance is a position and a rotation;
 * the GPU sees its 4x4 f32 model matrix (InstanceRaw), read by the vertex
 * shader as four vec4 attributes at locations 5 to 8.
 */
module Lesson6 {
  import opened Wgpu
  import Lesson3

  /** cgmath::Vector3<f32>, with f32 values as reals. */
  datatype Vector3 = Vector3(x: real, y: real, z: real)

  /** cgmath::Quaternion<f32>: scalar part and vector part. */
  datatype Quaternion = Quaternion(s: real, v: Vector3)

  datatype Instance = Instance(position: Vector3, rotation: Quaternion)

  /** Instance::new stores both arguments unchanged. */
  function New(position: Vector3, rotation: Quaternion): (i: Instance)
    ensures i.position == position && i.rotation == rotation
  {
    Instance(position, rotation)
  }

  /** std::mem::size_of::<InstanceRaw>(): a [[f32; 4]; 4] matrix. */
  const SIZE_OF_INSTANCE_RAW: nat := 4 * SizeOfF32Array(4)

  /** InstanceRaw::description: one Float32x4 attribute per matrix row, advanced per instance. */
  function Description(): (layout: VertexBufferLayout)
    ensures layout.arrayStride == SIZE_OF_INSTANCE_RAW == 64
    ensures layout.stepMode == InstanceStep
    ensures |layout.attributes| == 4
    ensures forall i :: 0 <= i < 4 ==>
      layout.attributes[i].offset == 16 * i &&
      layout.attributes[i].shaderLocation == 5 + i &&
      layout.attributes[i].format == Float32x4
    ensures WellFormed(layout)
    ensures Locations(layout.attributes) == {5, 6, 7, 8}
  {
    VertexBufferLayout(
      SIZE_OF_INSTANCE_RAW,
      InstanceStep,
      [ VertexAttribute(0, 5, Float32x4),
        VertexAttribute(SizeOfF32Array(4), 6, Float32x4),
        VertexAttribute(SizeOfF32Array(8), 7, Float32x4),
        VertexAttribute(SizeOfF32Array(12), 8, Float32x4) ])
  }

  /**
   * The four rows are pairwise disjoint and fill the 64-byte stride with no
   * gap, and their locations are free of the vertex layout's locations 0 and 1.
   */
  lemma DescriptionIsExact()
    ensures var attrs := Description().attributes;
      (forall i, j :: 0 <= i < j < 4 ==> End(attrs[i]) <= attrs[j].offset) &&
      End(attrs[3]) == SIZE_OF_INSTANCE_RAW &&
      TotalSize(attrs) == SIZE_OF_INSTANCE_RAW
    ensures Locations(Description().attributes) !! Locations(Lesson3.Description().attributes)
  {
    TilingIsExact(Description().attributes, 0, SIZE_OF_INSTANCE_RAW);
  }
}
