/**
 * The values src/VulkanRenderer.cpp keeps per swapchain image and per frame slot: the
 * commands recorded into each command buffer, the byte image of the MVP uniform, and the
 * ring of frame slots Draw cycles through.
 */
module FrameData {
  import opened Vulkan
  import Utils
  import Models

  // ---------------------------------------------------------------------------------------
  // Recorded commands

  /** A swapchain image view: the image it views and the swapchain format. */
  datatype ImageView = ImageView(image: Handle, format: Format)

  /** A framebuffer: its single colour attachment and its size. */
  datatype Framebuffer = Framebuffer(attachment: ImageView, extent: Extent2D)

  /** What the renderer reads from a mesh when recording. */
  datatype MeshBuffers = MeshBuffers(vertexBuffer: Handle, indexBuffer: Handle, indexCount: uint32)

  /** The vkCmd* calls RecordCommands issues (the index type is always 32-bit, offsets 0). */
  datatype Command =
    | BeginCommandBuffer
    | BeginRenderPass(framebuffer: Framebuffer, renderArea: Extent2D)
    | BindPipeline
    | BindVertexBuffer(vertexBuffer: Handle, offset: nat)
    | BindIndexBuffer(indexBuffer: Handle, offset: nat)
    | BindDescriptorSet(descriptorSet: Handle)
    | DrawIndexed(indexCount: uint32)
    | EndRenderPass
    | EndCommandBuffer

  /** The four commands that draw one mesh with one descriptor set. */
  function MeshBlock(mesh: MeshBuffers, descriptorSet: Handle): seq<Command>
  {
    [BindVertexBuffer(mesh.vertexBuffer, 0), BindIndexBuffer(mesh.indexBuffer, 0),
     BindDescriptorSet(descriptorSet), DrawIndexed(mesh.indexCount)]
  }

  /** The mesh blocks in mesh-list order. */
  function MeshCommands(meshes: seq<MeshBuffers>, descriptorSet: Handle): seq<Command>
  {
    if meshes == [] then []
    else MeshCommands(meshes[..|meshes| - 1], descriptorSet) + MeshBlock(meshes[|meshes| - 1], descriptorSet)
  }

  /** The full contents of one command buffer. */
  function CommandStream(framebuffer: Framebuffer, extent: Extent2D, meshes: seq<MeshBuffers>, descriptorSet: Handle): seq<Command>
  {
    [BeginCommandBuffer, BeginRenderPass(framebuffer, extent), BindPipeline]
      + MeshCommands(meshes, descriptorSet)
      + [EndRenderPass, EndCommandBuffer]
  }

  lemma {:induction false} MeshCommandsShape(meshes: seq<MeshBuffers>, descriptorSet: Handle)
    ensures |MeshCommands(meshes, descriptorSet)| == 4 * |meshes|
    ensures forall k :: 0 <= k < |meshes| ==>
      MeshCommands(meshes, descriptorSet)[4 * k .. 4 * k + 4] == MeshBlock(meshes[k], descriptorSet)
  {
    if meshes != [] {
      var front := meshes[..|meshes| - 1];
      var head := MeshCommands(front, descriptorSet);
      var last := MeshBlock(meshes[|meshes| - 1], descriptorSet);
      MeshCommandsShape(front, descriptorSet);
      assert MeshCommands(meshes, descriptorSet) == head + last;
      forall k | 0 <= k < |meshes|
        ensures MeshCommands(meshes, descriptorSet)[4 * k .. 4 * k + 4] == MeshBlock(meshes[k], descriptorSet)
      {
        if k < |front| {
          assert (head + last)[4 * k .. 4 * k + 4] == head[4 * k .. 4 * k + 4];
          assert front[k] == meshes[k];
        } else {
          assert (head + last)[4 * k .. 4 * k + 4] == last;
        }
      }
    }
  }

  /**
   * A command buffer begins, starts the render pass on its framebuffer over the swapchain
   * extent and binds the pipeline; then for each mesh in order binds its vertex buffer, its
   * index buffer and the descriptor set, and draws its index count; then ends the pass and
   * the buffer.
   */
  lemma CommandStreamShape(framebuffer: Framebuffer, extent: Extent2D, meshes: seq<MeshBuffers>, descriptorSet: Handle)
    ensures var s := CommandStream(framebuffer, extent, meshes, descriptorSet);
      && |s| == 5 + 4 * |meshes|
      && s[..3] == [BeginCommandBuffer, BeginRenderPass(framebuffer, extent), BindPipeline]
      && (forall k :: 0 <= k < |meshes| ==> s[3 + 4 * k .. 7 + 4 * k] == MeshBlock(meshes[k], descriptorSet))
      && s[|s| - 2..] == [EndRenderPass, EndCommandBuffer]
  {
    var s := CommandStream(framebuffer, extent, meshes, descriptorSet);
    var body := MeshCommands(meshes, descriptorSet);
    MeshCommandsShape(meshes, descriptorSet);
    forall k | 0 <= k < |meshes|
      ensures s[3 + 4 * k .. 7 + 4 * k] == MeshBlock(meshes[k], descriptorSet)
    {
      assert s[3 + 4 * k .. 7 + 4 * k] == body[4 * k .. 4 * k + 4];
    }
  }

  /** The only descriptor set a mesh block binds is the one it was built with. */
  lemma {:induction false} MeshCommandsBindOnly(meshes: seq<MeshBuffers>, descriptorSet: Handle)
    ensures forall c :: c in MeshCommands(meshes, descriptorSet) && c.BindDescriptorSet? ==> c.descriptorSet == descriptorSet
  {
    if meshes != [] {
      MeshCommandsBindOnly(meshes[..|meshes| - 1], descriptorSet);
    }
  }

  /** A command buffer binds no descriptor set but the one it was recorded with. */
  lemma CommandStreamBindsOnly(framebuffer: Framebuffer, extent: Extent2D, meshes: seq<MeshBuffers>, descriptorSet: Handle)
    ensures forall c :: c in CommandStream(framebuffer, extent, meshes, descriptorSet) && c.BindDescriptorSet? ==>
      c.descriptorSet == descriptorSet
  {
    MeshCommandsBindOnly(meshes, descriptorSet);
  }

  // ---------------------------------------------------------------------------------------
  // The MVP uniform as bytes

  /** sizeof(glm::mat4) and sizeof(ModelViewProjectionMatrix). */
  const MAT4_SIZE: nat := 64
  const MVP_SIZE: nat := 3 * MAT4_SIZE

  /** The uniform struct: projection, view and model matrices, in that order. */
  datatype Mvp = Mvp(projection: Models.Mat4, view: Models.Mat4, model: Models.Mat4)

  /** A float's bit pattern in little-endian byte order. */
  function FloatBytes(f: bv32): (b: seq<bv8>)
    ensures |b| == 4
  {
    [(f & 0xFF) as bv8, ((f >> 8) & 0xFF) as bv8, ((f >> 16) & 0xFF) as bv8, (f >> 24) as bv8]
  }

  function FloatOf(b: seq<bv8>): bv32
    requires |b| == 4
  {
    (b[0] as bv32) | (b[1] as bv32 << 8) | (b[2] as bv32 << 16) | (b[3] as bv32 << 24)
  }

  lemma FloatRoundTrip(f: bv32)
    ensures FloatOf(FloatBytes(f)) == f
  {
  }

  /** Consecutive floats laid out with no padding. */
  function FloatsBytes(fs: seq<bv32>): (b: seq<bv8>)
    ensures |b| == 4 * |fs|
  {
    if fs == [] then [] else FloatBytes(fs[0]) + FloatsBytes(fs[1..])
  }

  function FloatsOf(b: seq<bv8>): (fs: seq<bv32>)
    requires |b| % 4 == 0
    ensures 4 * |fs| == |b|
    decreases |b|
  {
    if b == [] then [] else [FloatOf(b[..4])] + FloatsOf(b[4..])
  }

  lemma {:induction false} FloatsRoundTrip(fs: seq<bv32>)
    ensures FloatsOf(FloatsBytes(fs)) == fs
  {
    if fs != [] {
      var b := FloatsBytes(fs);
      assert b[..4] == FloatBytes(fs[0]);
      assert b[4..] == FloatsBytes(fs[1..]);
      FloatRoundTrip(fs[0]);
      FloatsRoundTrip(fs[1..]);
    }
  }

  /** The bytes memcpy copies out of the MVP struct. */
  function MvpBytes(mvp: Mvp): (b: seq<bv8>)
    ensures |b| == MVP_SIZE
  {
    FloatsBytes(mvp.projection + mvp.view + mvp.model)
  }

  /** The MVP a shader reads from a uniform buffer's bytes. */
  function MvpOf(b: seq<bv8>): Mvp
    requires |b| == MVP_SIZE
  {
    var fs := FloatsOf(b);
    Mvp(fs[..16], fs[16..32], fs[32..])
  }

  /** The bytes written to a uniform buffer read back as the MVP that was written. */
  lemma MvpRoundTrip(mvp: Mvp)
    ensures MvpOf(MvpBytes(mvp)) == mvp
  {
    var fs := mvp.projection + mvp.view + mvp.model;
    FloatsRoundTrip(fs);
    assert fs[..16] == mvp.projection && fs[16..32] == mvp.view && fs[32..] == mvp.model;
  }

  /** Uniform memory after the MVP is copied into the buffer of one image. */
  function WriteUniform(memory: seq<seq<bv8>>, imageIndex: nat, mvp: Mvp): (r: seq<seq<bv8>>)
    requires imageIndex < |memory|
    ensures |r| == |memory|
    ensures |r[imageIndex]| == MVP_SIZE && MvpOf(r[imageIndex]) == mvp
    ensures forall j :: 0 <= j < |memory| && j != imageIndex ==> r[j] == memory[j]
  {
    MvpRoundTrip(mvp);
    memory[imageIndex := MvpBytes(mvp)]
  }

  /** Writing the same MVP to the same image twice leaves what writing it once leaves. */
  lemma WriteUniformIdempotent(memory: seq<seq<bv8>>, imageIndex: nat, mvp: Mvp)
    requires imageIndex < |memory|
    ensures WriteUniform(WriteUniform(memory, imageIndex, mvp), imageIndex, mvp) == WriteUniform(memory, imageIndex, mvp)
  {
  }

  // ---------------------------------------------------------------------------------------
  // Frame slots

  /** The slot Draw moves to after using one. */
  function NextFrame(frame: nat): (next: nat)
    ensures next < Utils.MAX_FRAME_DRAWS
    ensures frame < Utils.MAX_FRAME_DRAWS ==> next != frame
  {
    (frame + 1) % Utils.MAX_FRAME_DRAWS
  }

  /** The slot in use after n completed draws, starting from slot 0. */
  function FrameAfter(n: nat): nat
  {
    if n == 0 then 0 else NextFrame(FrameAfter(n - 1))
  }

  /** The slots cycle 0, 1, 0, 1, ...: after n draws the slot is n mod MAX_FRAME_DRAWS. */
  lemma {:induction false} FrameAfterIsMod(n: nat)
    ensures FrameAfter(n) == n % Utils.MAX_FRAME_DRAWS
  {
    if n > 0 {
      FrameAfterIsMod(n - 1);
    }
  }

  /**
   * A slot comes back exactly MAX_FRAME_DRAWS draws later and not sooner, so a slot's
   * semaphores and fence are reused only every MAX_FRAME_DRAWS-th frame.
   */
  lemma FrameSlotReuse(n: nat, k: nat)
    requires 0 < k <= Utils.MAX_FRAME_DRAWS
    ensures FrameAfter(n + k) == FrameAfter(n) <==> k == Utils.MAX_FRAME_DRAWS
  {
    FrameAfterIsMod(n);
    FrameAfterIsMod(n + k);
  }
}
