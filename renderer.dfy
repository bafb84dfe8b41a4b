/**
 * The VulkanRenderer class of src/VulkanRenderer.cpp, reduced to the state it keeps between
 * driver calls: the swapchain choices, the per-image tables (framebuffers, command buffers,
 * uniform buffers and their memory, descriptor sets), the per-slot synchronisation objects,
 * and the frame ring Draw advances. Driver calls that create objects are replaced by fresh
 * handles from a counter; the driver's answers (acquired image, submit and present results,
 * swapchain images) are parameters.
 */
module Renderer {
  import opened Vulkan
  import opened Wrappers
  import Utils
  import Swapchain
  import DeviceSelection
  import Models
  import opened FrameData

  /** VK_NULL_HANDLE; the handle counter starts above it. */
  const NULL_HANDLE: Handle := Handle(0)

  /** A uniform buffer and the arguments CreateBuffer made it with. */
  datatype UniformBuffer = UniformBuffer(buffer: Handle, size: nat, usage: bv32, memoryProperties: bv32)

  /** The buffer a descriptor's binding has been written to point at. */
  datatype BufferBinding = BufferBinding(binding: nat, buffer: Handle, offset: nat, range: nat)

  /** A descriptor set and what its binding 0 has been written with (None until written). */
  datatype DescriptorSet = DescriptorSet(handle: Handle, write: Option<BufferBinding>)

  /** A descriptor pool: its capacity in sets and uniform descriptors, and the sets taken from it. */
  datatype DescriptorPool = DescriptorPool(maxSets: nat, uniformDescriptorCount: nat, allocatedSets: nat)

  /** The negotiated parts of VkSwapchainCreateInfoKHR. */
  datatype SwapchainCreateInfo = SwapchainCreateInfo(
    surfaceFormat: SurfaceFormat,
    presentMode: PresentMode,
    extent: Extent2D,
    minImageCount: uint32,
    sharing: Swapchain.ImageSharing)

  /** One vkQueueSubmit: the semaphore waited on, the command buffer, the semaphore signalled, the fence slot. */
  datatype Submission = Submission(waitSemaphore: Handle, commandBuffer: nat, signalSemaphore: Handle, fence: nat)

  /** One vkQueuePresentKHR: the semaphore waited on and the image presented. */
  datatype Presentation = Presentation(waitSemaphore: Handle, imageIndex: nat)

  /** What one successful Draw hands to the driver, starting with the semaphore the acquire signals. */
  datatype Frame = Frame(acquireSemaphore: Handle, submission: Submission, presentation: Presentation)

  /** How descriptor set i is written: binding 0, uniform buffer i from offset 0 over the MVP. */
  function UniformBinding(uniformBuffer: UniformBuffer): BufferBinding
  {
    BufferBinding(0, uniformBuffer.buffer, 0, MVP_SIZE)
  }

  class VulkanRenderer {
    /** The frame slot: which semaphores and fence the next Draw uses. */
    var currentFrame: nat
    var meshList: seq<MeshBuffers>
    var mvp: Mvp

    var swapchainInfo: SwapchainCreateInfo
    var swapchainImageFormat: Format
    var swapchainExtent: Extent2D

    // One entry per swapchain image.
    var swapChainImages: seq<ImageView>
    var framebuffers: seq<Framebuffer>
    var commandBuffers: seq<seq<Command>>
    var uniformBuffers: seq<UniformBuffer>
    var uniformBufferMemory: array<seq<bv8>>
    var descriptorPool: DescriptorPool
    var descriptorSets: seq<DescriptorSet>

    // One entry per frame slot.
    var imageAvailable: seq<Handle>
    var renderFinished: seq<Handle>
    /** Whether each slot's fence is signalled. */
    var drawFences: array<bool>

    /** The next handle the driver hands out. */
    var nextHandle: nat

    /** The per-image tables line up with the swapchain images. */
    predicate ImageTables()
      reads this`framebuffers, this`swapChainImages, this`commandBuffers, this`uniformBuffers,
            this`uniformBufferMemory, this`descriptorSets, this`swapchainExtent, this`meshList,
            uniformBufferMemory
    {
      && |framebuffers| == |swapChainImages|
      && |commandBuffers| == |framebuffers|
      && |uniformBuffers| == |swapChainImages|
      && uniformBufferMemory.Length == |uniformBuffers|
      && |descriptorSets| == |uniformBuffers|
      && (forall i :: 0 <= i < uniformBufferMemory.Length ==> |uniformBufferMemory[i]| == MVP_SIZE)
      && (forall i :: 0 <= i < |descriptorSets| ==> descriptorSets[i].write == Some(UniformBinding(uniformBuffers[i])))
      && (forall i :: 0 <= i < |commandBuffers| ==>
            commandBuffers[i] == CommandStream(framebuffers[i], swapchainExtent, meshList, descriptorSets[i].handle))
    }

    /** The per-slot objects exist and the frame slot is one of them. */
    predicate FrameSlots()
      reads this`imageAvailable, this`renderFinished, this`drawFences, this`currentFrame, drawFences
    {
      && |imageAvailable| == Utils.MAX_FRAME_DRAWS
      && |renderFinished| == Utils.MAX_FRAME_DRAWS
      && drawFences.Length == Utils.MAX_FRAME_DRAWS
      && currentFrame < Utils.MAX_FRAME_DRAWS
    }

    predicate Valid()
      reads this, uniformBufferMemory, drawFences
    {
      ImageTables() && FrameSlots()
    }

    /** A renderer before Init: no objects, frame slot 0 (m_CurrentFrame's initialiser). */
    constructor ()
      ensures currentFrame == 0 && meshList == [] && swapChainImages == []
      ensures framebuffers == [] && commandBuffers == [] && uniformBuffers == [] && descriptorSets == []
      ensures imageAvailable == [] && renderFinished == [] && drawFences.Length == 0
      ensures nextHandle > NULL_HANDLE.id
    {
      currentFrame := 0;
      meshList := [];
      mvp := Mvp(Models.IDENTITY, Models.IDENTITY, Models.IDENTITY);
      swapchainInfo := SwapchainCreateInfo(SurfaceFormat(FORMAT_UNDEFINED, COLOR_SPACE_SRGB_NONLINEAR), PRESENT_MODE_FIFO,
                                           Extent2D(0, 0), 0, Swapchain.ImageSharing(Exclusive, []));
      swapchainImageFormat := FORMAT_UNDEFINED;
      swapchainExtent := Extent2D(0, 0);
      swapChainImages := [];
      framebuffers := [];
      commandBuffers := [];
      uniformBuffers := [];
      uniformBufferMemory := new seq<bv8>[0];
      descriptorPool := DescriptorPool(0, 0, 0);
      descriptorSets := [];
      imageAvailable := [];
      renderFinished := [];
      drawFences := new bool[0];
      nextHandle := NULL_HANDLE.id + 1;
    }

    /** A driver call creating an object: the next handle. */
    method NewHandle() returns (h: Handle)
      modifies this`nextHandle
      ensures h == Handle(old(nextHandle)) && nextHandle == old(nextHandle) + 1
    {
      h := Handle(nextHandle);
      nextHandle := nextHandle + 1;
    }

    /**
     * Negotiates format, present mode, extent, image count and sharing for the device, then
     * stores the format and extent and appends a view of each image the swapchain returned.
     */
    method CreateSwapChain(device: PhysicalDevice, framebufferWidth: int, framebufferHeight: int, images: seq<Handle>)
      requires |device.swapChainDetails.formats| > 0
      modifies this`swapchainInfo, this`swapchainImageFormat, this`swapchainExtent, this`swapChainImages
      ensures var details := device.swapChainDetails;
        && swapchainInfo.surfaceFormat == Swapchain.BestSurfaceFormat(details.formats)
        && (swapchainInfo.presentMode == PRESENT_MODE_MAILBOX <==> PRESENT_MODE_MAILBOX in details.presentationModes)
        && (swapchainInfo.presentMode != PRESENT_MODE_MAILBOX ==> swapchainInfo.presentMode == PRESENT_MODE_FIFO)
        && swapchainInfo.extent == Swapchain.ChooseSwapExtent(details.surfaceCapabilities, framebufferWidth, framebufferHeight)
        && swapchainInfo.minImageCount == Swapchain.SwapchainImageCount(details.surfaceCapabilities)
        && swapchainInfo.sharing == Swapchain.SwapchainSharing(DeviceSelection.QueueFamiliesOf(device.queueFamilies))
      ensures swapchainImageFormat == swapchainInfo.surfaceFormat.format
      ensures swapchainExtent == swapchainInfo.extent
      ensures |swapChainImages| == |old(swapChainImages)| + |images|
      ensures swapChainImages[..|old(swapChainImages)|] == old(swapChainImages)
      ensures forall i :: 0 <= i < |images| ==>
        swapChainImages[|old(swapChainImages)| + i] == ImageView(images[i], swapchainImageFormat)
    {
      var details := device.swapChainDetails;
      var surfaceFormat := Swapchain.ChooseBestSurfaceFormat(details.formats);
      var presentMode := Swapchain.ChooseBestPresentationMode(details.presentationModes);
      var extent := Swapchain.ChooseSwapExtent(details.surfaceCapabilities, framebufferWidth, framebufferHeight);
      var imageCount := Swapchain.SwapchainImageCount(details.surfaceCapabilities);
      var indices := DeviceSelection.GetQueueFamilies(device);
      swapchainInfo := SwapchainCreateInfo(surfaceFormat, presentMode, extent, imageCount, Swapchain.SwapchainSharing(indices));

      swapchainImageFormat := surfaceFormat.format;
      swapchainExtent := extent;

      var newImages := swapChainImages;
      for i := 0 to |images|
        invariant |newImages| == |old(swapChainImages)| + i
        invariant newImages[..|old(swapChainImages)|] == old(swapChainImages)
        invariant forall k :: 0 <= k < i ==>
          newImages[|old(swapChainImages)| + k] == ImageView(images[k], surfaceFormat.format)
      {
        newImages := newImages + [ImageView(images[i], surfaceFormat.format)];
      }
      swapChainImages := newImages;
    }

    /** One framebuffer per swapchain image, attaching that image's view, at the swapchain extent. */
    method CreateFramebuffers()
      modifies this`framebuffers
      ensures |framebuffers| == |swapChainImages|
      ensures forall i :: 0 <= i < |framebuffers| ==> framebuffers[i] == Framebuffer(swapChainImages[i], swapchainExtent)
    {
      framebuffers := seq(|swapChainImages|, _ => Framebuffer(ImageView(NULL_HANDLE, FORMAT_UNDEFINED), Extent2D(0, 0)));
      for i := 0 to |framebuffers|
        invariant |framebuffers| == |swapChainImages|
        invariant forall k :: 0 <= k < i ==> framebuffers[k] == Framebuffer(swapChainImages[k], swapchainExtent)
      {
        framebuffers := framebuffers[i := Framebuffer(swapChainImages[i], swapchainExtent)];
      }
    }

    /** One freshly allocated, empty command buffer per framebuffer. */
    method CreateCommandBuffers()
      modifies this`commandBuffers
      ensures |commandBuffers| == |framebuffers|
      ensures forall i :: 0 <= i < |commandBuffers| ==> commandBuffers[i] == []
    {
      commandBuffers := seq(|framebuffers|, _ => []);
    }

    /**
     * One uniform buffer per swapchain image, each the size of the MVP, for uniform use, in
     * host-visible coherent memory.
     */
    method CreateUniformBuffers()
      modifies this`uniformBuffers, this`uniformBufferMemory, this`nextHandle
      ensures |uniformBuffers| == |swapChainImages|
      ensures forall i :: 0 <= i < |uniformBuffers| ==>
        uniformBuffers[i] == UniformBuffer(Handle(old(nextHandle) + i), MVP_SIZE, BUFFER_USAGE_UNIFORM_BUFFER_BIT, HOST_VISIBLE_COHERENT)
      ensures fresh(uniformBufferMemory) && uniformBufferMemory.Length == |uniformBuffers|
      ensures forall i :: 0 <= i < uniformBufferMemory.Length ==> |uniformBufferMemory[i]| == MVP_SIZE
      ensures nextHandle == old(nextHandle) + |uniformBuffers|
    {
      var buffers := [];
      for i := 0 to |swapChainImages|
        invariant |buffers| == i
        invariant nextHandle == old(nextHandle) + i
        invariant forall k :: 0 <= k < i ==>
          buffers[k] == UniformBuffer(Handle(old(nextHandle) + k), MVP_SIZE, BUFFER_USAGE_UNIFORM_BUFFER_BIT, HOST_VISIBLE_COHERENT)
      {
        var buffer := NewHandle();
        buffers := buffers + [UniformBuffer(buffer, MVP_SIZE, BUFFER_USAGE_UNIFORM_BUFFER_BIT, HOST_VISIBLE_COHERENT)];
      }
      uniformBuffers := buffers;
      uniformBufferMemory := new seq<bv8>[|buffers|](_ => seq(MVP_SIZE, _ => 0));
    }

    /** A pool with room for one uniform descriptor set per uniform buffer. */
    method CreateDescriptorPool()
      modifies this`descriptorPool
      ensures descriptorPool == DescriptorPool(|uniformBuffers|, |uniformBuffers|, 0)
    {
      descriptorPool := DescriptorPool(|uniformBuffers|, |uniformBuffers|, 0);
    }

    /**
     * Allocates one set per uniform buffer, then writes set i to point at uniform buffer i.
     * The allocation fails, leaving null handles, when the pool has no room for the sets.
     */
    method CreateDescriptorSets() returns (r: Result<()>)
      modifies this`descriptorSets, this`descriptorPool, this`nextHandle
      ensures |descriptorSets| == |uniformBuffers|
      ensures var n := |uniformBuffers|;
        r.Err? <==> old(descriptorPool).allocatedSets + n > old(descriptorPool).maxSets
                    || old(descriptorPool).allocatedSets + n > old(descriptorPool).uniformDescriptorCount
      ensures r.Err? ==> r.error == "Failed to allocate descriptor sets!"
      ensures r.Err? ==> forall i :: 0 <= i < |descriptorSets| ==> descriptorSets[i] == DescriptorSet(NULL_HANDLE, None)
      ensures r.Err? ==> descriptorPool == old(descriptorPool) && nextHandle == old(nextHandle)
      ensures r.Ok? ==> descriptorPool == old(descriptorPool).(allocatedSets := old(descriptorPool).allocatedSets + |uniformBuffers|)
      ensures r.Ok? ==> forall i :: 0 <= i < |descriptorSets| ==>
        descriptorSets[i] == DescriptorSet(Handle(old(nextHandle) + i), Some(UniformBinding(uniformBuffers[i])))
    {
      var n := |uniformBuffers|;
      if descriptorPool.allocatedSets + n > descriptorPool.maxSets
         || descriptorPool.allocatedSets + n > descriptorPool.uniformDescriptorCount
      {
        descriptorSets := seq(n, _ => DescriptorSet(NULL_HANDLE, None));
        return Err("Failed to allocate descriptor sets!");
      }
      var pool := descriptorPool.(allocatedSets := descriptorPool.allocatedSets + n);
      var sets := [];
      for i := 0 to n
        invariant |sets| == i && nextHandle == old(nextHandle) + i
        invariant forall k :: 0 <= k < i ==> sets[k] == DescriptorSet(Handle(old(nextHandle) + k), None)
      {
        var descriptorSet := NewHandle();
        sets := sets + [DescriptorSet(descriptorSet, None)];
      }

      for i := 0 to n
        invariant |sets| == n
        invariant forall k :: 0 <= k < i ==>
          sets[k] == DescriptorSet(Handle(old(nextHandle) + k), Some(UniformBinding(uniformBuffers[k])))
        invariant forall k :: i <= k < n ==> sets[k] == DescriptorSet(Handle(old(nextHandle) + k), None)
      {
        sets := sets[i := sets[i].(write := Some(UniformBinding(uniformBuffers[i])))];
      }
      descriptorPool := pool;
      descriptorSets := sets;
      return Ok(());
    }

    /** Records every command buffer: buffer i renders framebuffer i with descriptor set i. */
    method RecordCommands()
      requires |commandBuffers| <= |framebuffers| && |commandBuffers| <= |descriptorSets|
      modifies this`commandBuffers
      ensures |commandBuffers| == |old(commandBuffers)|
      ensures forall i :: 0 <= i < |commandBuffers| ==>
        commandBuffers[i] == CommandStream(framebuffers[i], swapchainExtent, meshList, descriptorSets[i].handle)
    {
      for i := 0 to |commandBuffers|
        invariant |commandBuffers| == |old(commandBuffers)|
        invariant forall k :: 0 <= k < i ==>
          commandBuffers[k] == CommandStream(framebuffers[k], swapchainExtent, meshList, descriptorSets[k].handle)
      {
        var descriptorSet := descriptorSets[i].handle;
        var commands := [BeginCommandBuffer, BeginRenderPass(framebuffers[i], swapchainExtent), BindPipeline];
        for m := 0 to |meshList|
          invariant commands == [BeginCommandBuffer, BeginRenderPass(framebuffers[i], swapchainExtent), BindPipeline]
                                + MeshCommands(meshList[..m], descriptorSet)
        {
          var mesh := meshList[m];
          assert meshList[..m + 1][..m] == meshList[..m];
          commands := commands + [BindVertexBuffer(mesh.vertexBuffer, 0), BindIndexBuffer(mesh.indexBuffer, 0),
                                  BindDescriptorSet(descriptorSet), DrawIndexed(mesh.indexCount)];
        }
        assert meshList[..|meshList|] == meshList;
        commands := commands + [EndRenderPass, EndCommandBuffer];
        commandBuffers := commandBuffers[i := commands];
      }
    }

    /** Copies the MVP into the memory of the acquired image's uniform buffer. */
    method UpdateUniformBuffer(imageIndex: nat)
      requires imageIndex < uniformBufferMemory.Length
      modifies uniformBufferMemory
      ensures uniformBufferMemory[..] == WriteUniform(old(uniformBufferMemory[..]), imageIndex, mvp)
    {
      MvpRoundTrip(mvp);
      uniformBufferMemory[imageIndex] := MvpBytes(mvp);
    }

    /** Replaces the model matrix of the MVP, leaving projection and view. */
    method UpdateModel(newModel: Models.Mat4)
      modifies this`mvp
      ensures mvp == old(mvp).(model := newModel)
    {
      mvp := mvp.(model := newModel);
    }

    /** Two semaphores and a fence per frame slot; the fences start signalled. */
    method CreateSynchronization()
      modifies this`imageAvailable, this`renderFinished, this`drawFences, this`nextHandle
      ensures |imageAvailable| == Utils.MAX_FRAME_DRAWS && |renderFinished| == Utils.MAX_FRAME_DRAWS
      ensures forall s :: 0 <= s < Utils.MAX_FRAME_DRAWS ==>
        imageAvailable[s] == Handle(old(nextHandle) + 2 * s) && renderFinished[s] == Handle(old(nextHandle) + 2 * s + 1)
      ensures fresh(drawFences) && drawFences.Length == Utils.MAX_FRAME_DRAWS
      ensures forall s :: 0 <= s < drawFences.Length ==> drawFences[s]
      ensures nextHandle == old(nextHandle) + 2 * Utils.MAX_FRAME_DRAWS
    {
      var available := [];
      var finished := [];
      var fences := new bool[Utils.MAX_FRAME_DRAWS];
      for i := 0 to Utils.MAX_FRAME_DRAWS
        invariant |available| == i && |finished| == i
        invariant nextHandle == old(nextHandle) + 2 * i
        invariant forall s :: 0 <= s < i ==>
          available[s] == Handle(old(nextHandle) + 2 * s) && finished[s] == Handle(old(nextHandle) + 2 * s + 1)
        invariant forall s :: 0 <= s < i ==> fences[s]
      {
        var semaphore := NewHandle();
        available := available + [semaphore];
        semaphore := NewHandle();
        finished := finished + [semaphore];
        fences[i] := true;
      }
      imageAvailable := available;
      renderFinished := finished;
      drawFences := fences;
    }

    /**
     * One frame. The wait on the slot's fence returns once it is signalled (so a Draw
     * starts only then); the fence is reset; the acquired image's uniform buffer receives the
     * MVP; command buffer imageIndex is submitted waiting on the slot's image-available
     * semaphore, signalling its render-finished semaphore and the slot's fence; the image is
     * presented after render-finished; the slot advances. A failed submit or present
     * returns the error the source throws and leaves the slot where it was.
     */
    method Draw(imageIndex: nat, submitSucceeded: bool, presentSucceeded: bool) returns (r: Result<Frame>)
      requires Valid()
      requires drawFences[currentFrame]
      requires imageIndex < |swapChainImages|
      modifies this`currentFrame, drawFences, uniformBufferMemory
      ensures Valid()
      ensures !drawFences[old(currentFrame)]
      ensures forall s :: 0 <= s < drawFences.Length && s != old(currentFrame) ==> drawFences[s] == old(drawFences[s])
      ensures uniformBufferMemory[..] == WriteUniform(old(uniformBufferMemory[..]), imageIndex, mvp)
      ensures r.Ok? <==> submitSucceeded && presentSucceeded
      ensures !submitSucceeded ==> r == Err("Failed to command buffer to queue!")
      ensures submitSucceeded && !presentSucceeded ==> r == Err("Failed to present rendererd image to screen!")
      ensures var slot := old(currentFrame);
        r.Ok? ==> r.value == Frame(imageAvailable[slot],
                                   Submission(imageAvailable[slot], imageIndex, renderFinished[slot], slot),
                                   Presentation(renderFinished[slot], imageIndex))
      ensures r.Ok? ==> currentFrame == NextFrame(old(currentFrame))
      ensures r.Err? ==> currentFrame == old(currentFrame)
    {
      drawFences[currentFrame] := false;
      var acquireSemaphore := imageAvailable[currentFrame];

      UpdateUniformBuffer(imageIndex);

      var submission := Submission(imageAvailable[currentFrame], imageIndex, renderFinished[currentFrame], currentFrame);
      if !submitSucceeded {
        return Err("Failed to command buffer to queue!");
      }

      var presentation := Presentation(renderFinished[currentFrame], imageIndex);
      if !presentSucceeded {
        return Err("Failed to present rendererd image to screen!");
      }

      r := Ok(Frame(acquireSemaphore, submission, presentation));
      currentFrame := (currentFrame + 1) % Utils.MAX_FRAME_DRAWS;
    }

    /** The GPU finishes the work submitted with a slot's fence, which signals it. */
    method SignalFence(slot: nat)
      requires slot < drawFences.Length
      modifies drawFences
      ensures drawFences[slot]
      ensures forall s :: 0 <= s < drawFences.Length && s != slot ==> drawFences[s] == old(drawFences[s])
    {
      drawFences[slot] := true;
    }

    /** The swapchain steps of Init: the swapchain and its views, then one framebuffer per view. */
    method CreateSwapChainImages(device: PhysicalDevice, framebufferWidth: int, framebufferHeight: int, images: seq<Handle>)
      requires |device.swapChainDetails.formats| > 0
      modifies this`swapchainInfo, this`swapchainImageFormat, this`swapchainExtent, this`swapChainImages,
               this`framebuffers
      ensures |swapChainImages| == |old(swapChainImages)| + |images|
      ensures |framebuffers| == |swapChainImages|
      ensures swapchainExtent == Swapchain.ChooseSwapExtent(device.swapChainDetails.surfaceCapabilities, framebufferWidth, framebufferHeight)
    {
      CreateSwapChain(device, framebufferWidth, framebufferHeight, images);
      CreateFramebuffers();
    }

    /**
     * The per-image steps of Init, in its order: command buffers, uniform buffers, a
     * descriptor pool sized for them, descriptor sets, recorded commands.
     */
    method CreateImageResources()
      requires |framebuffers| == |swapChainImages|
      modifies this`commandBuffers, this`uniformBuffers, this`uniformBufferMemory, this`descriptorPool,
               this`descriptorSets, this`nextHandle
      ensures ImageTables() && fresh(uniformBufferMemory)
    {
      CreateCommandBuffers();
      CreateUniformBuffers();
      CreateDescriptorPool();
      var allocation := CreateDescriptorSets();
      // The pool was just sized for exactly these sets, so the allocation succeeds.
      assert allocation.Ok?;
      RecordCommands();
    }

    /**
     * Init from the swapchain on: swapchain, framebuffers, the MVP (its projection and view
     * given, the model the identity), the meshes, command buffers, uniform buffers,
     * descriptor pool and sets, recorded commands and synchronisation objects. Returns
     * EXIT_FAILURE (1) when a step throws, 0 otherwise.
     */
    method Init(device: PhysicalDevice, framebufferWidth: int, framebufferHeight: int, images: seq<Handle>,
                meshes: seq<MeshBuffers>, projection: Models.Mat4, view: Models.Mat4) returns (status: int)
      requires |device.swapChainDetails.formats| > 0
      requires swapChainImages == [] && currentFrame < Utils.MAX_FRAME_DRAWS
      modifies this
      ensures status == 0
      ensures Valid()
      ensures currentFrame == old(currentFrame)
      ensures |swapChainImages| == |images| && meshList == old(meshList) + meshes
      ensures mvp == Mvp(projection, view, Models.IDENTITY)
      ensures forall s :: 0 <= s < drawFences.Length ==> drawFences[s]
      ensures fresh(drawFences) && fresh(uniformBufferMemory)
    {
      CreateSwapChainImages(device, framebufferWidth, framebufferHeight, images);

      mvp := Mvp(projection, view, Models.IDENTITY);
      meshList := meshList + meshes;

      CreateImageResources();
      CreateSynchronization();
      return 0;
    }
  }

  /**
   * In a valid renderer, command buffer i binds only descriptor set i, and that set points
   * at uniform buffer i: the commands submitted for an image read that image's uniform buffer.
   */
  lemma CommandBufferReadsOwnUniform(renderer: VulkanRenderer, imageIndex: nat)
    requires renderer.Valid()
    requires imageIndex < |renderer.commandBuffers|
    ensures forall c :: c in renderer.commandBuffers[imageIndex] && c.BindDescriptorSet? ==>
      c.descriptorSet == renderer.descriptorSets[imageIndex].handle
    ensures renderer.descriptorSets[imageIndex].write == Some(UniformBinding(renderer.uniformBuffers[imageIndex]))
  {
    CommandStreamBindsOnly(renderer.framebuffers[imageIndex], renderer.swapchainExtent, renderer.meshList,
                           renderer.descriptorSets[imageIndex].handle);
  }
}
