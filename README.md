# Vulkan renderer core, modelled in Dafny

This project models the decision rules and table-keeping of a small Vulkan renderer
(`VulkanRenderer`, `Mesh`, `MeshModel` and the helpers in `Utils.h`) and proves their
properties. Calls into the Vulkan driver, GLFW and the model importer are not modelled as
code: what the driver reports (devices, queue families, surface formats, memory types,
swapchain images, the acquired image, submit and present results) is an input. Buffers,
descriptor sets and semaphores the driver creates are fresh handles from a counter; image
views and framebuffers are values built from what they attach, a command buffer is the list
of commands recorded into it, and a fence is a boolean (signalled or not).

The modules follow the source:

- `Vulkan` (`vulkan.dfy`): the Vulkan values the core reads, with their constants
  (formats, colour spaces, present modes, queue, memory and buffer-usage bits, the
  `VK_KHR_swapchain` name, 32 memory types at most).
- `Wrappers` (`wrappers.dfy`): `Option` and `Result`; `Err` carries the message of the
  `std::runtime_error` the source throws.
- `Utils` (`utils.dfy`): `MAX_FRAME_DRAWS`, the device-extension list, `QueueFamilyIndices`
  and the first-match memory-type search.
- `Swapchain` (`swapchain.dfy`): surface format, present mode, extent, image count and
  sharing mode.
- `DeviceSelection` (`device_selection.dfy`): the queue-family scan, the extension and
  layer checks, device suitability, first-suitable selection and the de-duplicated queue
  list of the logical device. The presentation-support query is the `surfaceSupport` field
  of each queue family.
- `MeshBuffer` (`mesh.dfy`): the `Mesh` class (vertex count and one host-visible vertex
  buffer whose memory is an array of bytes).
- `Models` (`mesh_model.dfy`): scene flattening with an abstract node tree and face
  datatype in place of the importer's types, material-to-texture lists, and the
  `MeshModel` class.
- `FrameData` (`frame_data.dfy`): the recorded command stream, the byte image of the MVP
  uniform, and the ring of frame slots.
- `Renderer` (`renderer.dfy`): the `VulkanRenderer` class with its per-image tables,
  per-slot semaphores and fences (a boolean array; the GPU finishing work is the
  `SignalFence` event), `Draw` and the part of `Init` from the swapchain on.

Floats are carried as 32-bit patterns and never computed on. A `Vertex` of `Mesh` is its
24 bytes; the MVP uniform is 192 bytes (three 4x4 float matrices, little-endian).

Three behaviours of the code that a reader might not expect:

- The swapchain image count is minImageCount + 1, lowered to maxImageCount when that is
  non-zero and smaller. It therefore equals minImageCount when maxImageCount does, and the
  `uint32_t` sum wraps to 0 when minImageCount is 0xFFFFFFFF (`Swapchain.SwapchainImageCount`).
- Having no suitable device is not an error. `GetPhysicalDevice` only throws when there is
  no device at all; otherwise it may leave the device unset
  (`DeviceSelection.GetPhysicalDevice` returns `Ok(None)`).
- The queue-family scan overwrites the graphics index at every graphics family until both
  indices are set, so it reports the last graphics family before it stops, not the first
  (`DeviceSelection.LastGraphicsFamilyWins`).

## Model

| member | source | states |
|---|---|---|
| Utils.QueueFamilyIndices.IsValid | src/Utils.h:31-34 | valid only when both family indices are non-negative; an index still at the not-found value -1 makes the pair invalid |
| Utils.NewQueueFamilyIndices | src/Utils.h:28-29 | a default `QueueFamilyIndices` has both families -1 and is not valid |
| Utils.FirstMemoryType | src/Utils.h:83-91 | the first index from `from` on whose allowed bit is set and whose flags contain the requested flags, with every earlier index failing; None when no index qualifies |
| Utils.FindMemoryTypeIndex | src/Utils.h:77-94 | the loop returns the smallest qualifying index, every smaller index fails the bit or flag test, and 0 when none qualifies |
| Utils.NoMatchLooksLikeIndexZero | src/Utils.h:93 | a device with no qualifying type gets index 0, the same as a device whose type 0 qualifies |
| Swapchain.FirstPreferredFormat | src/VulkanRenderer.cpp:1141-1149 | the first RGBA8/BGRA8 sRGB-non-linear entry from `from` on, with none before it; None when there is none |
| Swapchain.ChooseBestSurfaceFormat | src/VulkanRenderer.cpp:1134-1152 | a lone UNDEFINED entry gives RGBA8/sRGB; otherwise the first preferred entry; otherwise `formats[0]` (the list must be non-empty) |
| Swapchain.SurfaceFormatExamples | src/VulkanRenderer.cpp:1134-1152 | a lone UNDEFINED entry gives RGBA8/sRGB; [BGRA8 sRGB, R16 extended-linear] gives the BGRA8 entry |
| Swapchain.ChooseBestPresentationMode | src/VulkanRenderer.cpp:1154-1167 | MAILBOX exactly when MAILBOX is offered, FIFO otherwise, even when FIFO is not listed or the list is empty |
| Swapchain.ChooseSwapExtent | src/VulkanRenderer.cpp:1169-1195 | the current extent verbatim when its width is not 0xFFFFFFFF; otherwise each axis is the framebuffer size cast to `uint32_t`, clamped into [min, max] when min <= max |
| Swapchain.ExtentHeightSentinelIgnored | src/VulkanRenderer.cpp:1171 | only the width is tested: a current extent with height 0xFFFFFFFF is returned as is |
| Swapchain.ExtentExamples | src/VulkanRenderer.cpp:1175-1193 | a framebuffer inside the bounds is kept, one outside is clamped to the maximum |
| Swapchain.SwapchainImageCount | src/VulkanRenderer.cpp:345-349 | minImageCount + 1, lowered to maxImageCount only when that is non-zero and smaller; the sum wraps at 2^32 |
| Swapchain.SwapchainImageCountInRange | src/VulkanRenderer.cpp:345-349 | when minImageCount < 0xFFFFFFFF and maxImageCount is 0 or at least minImageCount, the count lies in [minImageCount, maxImageCount] and exceeds minImageCount whenever the maximum leaves room |
| Swapchain.SwapchainSharing | src/VulkanRenderer.cpp:372-388 | CONCURRENT with the two family indices iff the families differ; EXCLUSIVE with no indices otherwise |
| DeviceSelection.LastSupporting | src/VulkanRenderer.cpp:1080-1090 | the last family below n with queues and the capability, none after it, or -1 |
| DeviceSelection.ScanEnd | src/VulkanRenderer.cpp:1077-1096 | where the scan stops: the first prefix in which both kinds are found, or the end |
| DeviceSelection.GetQueueFamilies | src/VulkanRenderer.cpp:1065-1099 | the scan's result; each set index is below the family count and names a family with queues and the graphics bit, respectively presentation support |
| DeviceSelection.QueueFamiliesValidIff | src/VulkanRenderer.cpp:1065-1099 | the scan yields valid indices iff some family supports graphics and some family supports presentation |
| DeviceSelection.LastGraphicsFamilyWins | src/VulkanRenderer.cpp:1080-1083 | with families [graphics, graphics, presentation] the scan reports (1, 2) |
| DeviceSelection.ContainsAll | src/VulkanRenderer.cpp:1023-1034 | true iff every required name occurs in the available list (the equality search) |
| DeviceSelection.CheckInstanceExtensionSupport | src/VulkanRenderer.cpp:972-1003 | as written: true iff every name to check has some available name that differs from it |
| DeviceSelection.InstanceExtensionCheckInverted | src/VulkanRenderer.cpp:989 | the check rejects an instance offering exactly the needed extension and accepts one that lacks it |
| DeviceSelection.CheckDeviceExtensionSupport | src/VulkanRenderer.cpp:1005-1037 | false for a device with no extensions; otherwise true iff every required device extension is listed, that is iff `VK_KHR_swapchain` is listed |
| DeviceSelection.CheckValidationLayerSupport | src/VulkanRenderer.cpp:1197-1225 | true iff `VK_LAYER_KHRONOS_validation` is among the available layers |
| DeviceSelection.CheckDeviceSuitable | src/VulkanRenderer.cpp:1039-1063 | true iff there is a graphics family and a presentation family, the swapchain extension is offered, and formats and present modes are both non-empty |
| DeviceSelection.GetPhysicalDevice | src/VulkanRenderer.cpp:1276-1301 | throws iff the list is empty; otherwise the first suitable device in enumeration order, or none when no device is suitable |
| DeviceSelection.QueueCreateInfos | src/VulkanRenderer.cpp:268-284 | one entry per distinct family of {graphics, presentation}, ascending, one queue each: 1 entry when they coincide, 2 otherwise |
| DeviceSelection.CreateLogicalDevice | src/VulkanRenderer.cpp:257-317 | fails iff validation layers are requested and missing; otherwise the de-duplicated queues, the swapchain extension and the layers of the build |
| MeshBuffer.VertexBytesAt | src/Mesh.cpp:72-73 | byte k of the vertex array is byte k mod sizeof(Vertex) of vertex k div sizeof(Vertex) |
| MeshBuffer.ToInt32 | src/Mesh.cpp:18-21 | the `size_t` to `int` conversion: in int range, and the identity below 2^31 |
| MeshBuffer.Mesh.constructor | src/Mesh.cpp:4-11 | records the vertex count and the devices, then holds a vertex buffer whose contents are the vertex bytes |
| MeshBuffer.Mesh.GetVertexCount | src/Mesh.cpp:18-21 | the stored vertex count whenever it fits in an int |
| MeshBuffer.Mesh.DestroyVertexBuffer | src/Mesh.cpp:28-32 | the vertex buffer and its memory are both released |
| MeshBuffer.Mesh.CreateVertexBuffer | src/Mesh.cpp:34-75 | buffer size sizeof(Vertex) x count, vertex usage, exclusive; memory of the first HOST_VISIBLE and HOST_COHERENT type; the buffer's bytes equal the vertex bytes from offset 0 over the whole size |
| MeshBuffer.Mesh.FindMemoryTypeIndex | src/Mesh.cpp:77-94 | the same first-match search over the mesh's device, 0 when none qualifies |
| Models.FaceIndicesLength | src/MeshModel.cpp:125-134 | the concatenated index list has as many entries as the faces' index counts add up to |
| Models.FaceIndicesAppend | src/MeshModel.cpp:125-134 | concatenating face lists concatenates their index lists, in face order |
| Models.VertexOf | src/MeshModel.cpp:99-112 | vertex i has imported position i, and channel-0 (x, y) when that channel exists, (0, 0) otherwise |
| Models.LoadMesh | src/MeshModel.cpp:90-141 | one vertex per imported vertex as above, the faces' indices concatenated in face order, the texture of the mesh's material (whose index must be below the list size) |
| Models.FlattenLength | src/MeshModel.cpp:66-88 | the flattened list has the subtree's total mesh count |
| Models.FlattenIsPreOrder | src/MeshModel.cpp:66-88 | a concrete tree flattens in pre-order |
| Models.LoadNode | src/MeshModel.cpp:66-88 | the node's own meshes in order, then each child's list in child order: the subtree's meshes in pre-order, as many as the subtree holds |
| Models.LoadMaterials | src/MeshModel.cpp:34-64 | one entry per material: the diffuse texture path verbatim when the material has one and fetching it succeeds, the empty string otherwise |
| Models.MeshModel.constructor | src/MeshModel.cpp:4-8 | stores the mesh list; the model matrix is the identity |
| Models.MeshModel.GetMesh | src/MeshModel.cpp:10-19 | fails with "Attempted to access invalid mesh index" iff index >= mesh count, otherwise the mesh at index |
| Models.MeshModel.SetModel | src/MeshModel.cpp:21-24 | replaces the model matrix and nothing else |
| Models.MeshModel.DestroyMeshModel | src/MeshModel.cpp:26-32 | every mesh's buffers are released, each mesh once, in list order; nothing else about the meshes changes |
| FrameData.MeshCommandsShape | src/VulkanRenderer.cpp:934-951 | four commands per mesh; block k binds mesh k's vertex and index buffers and the descriptor set, then draws mesh k's index count |
| FrameData.CommandStreamShape | src/VulkanRenderer.cpp:921-963 | a command buffer is begin, render pass on its framebuffer over the extent, bind pipeline, the mesh blocks in list order, end pass, end |
| FrameData.CommandStreamBindsOnly | src/VulkanRenderer.cpp:947-948 | a command buffer binds only the descriptor set it was recorded with |
| FrameData.FloatsRoundTrip | src/VulkanRenderer.cpp:897 | floats laid out as bytes read back as the same floats |
| FrameData.MvpRoundTrip | src/VulkanRenderer.cpp:892-899 | the bytes copied from the MVP read back as the same projection, view and model |
| FrameData.WriteUniform | src/VulkanRenderer.cpp:892-899 | the image's buffer then holds the MVP, and every other buffer is unchanged |
| FrameData.WriteUniformIdempotent | src/VulkanRenderer.cpp:892-899 | uploading the same MVP to the same image twice leaves the uniform memory as one upload does |
| FrameData.NextFrame | src/VulkanRenderer.cpp:139 | the next slot is below MAX_FRAME_DRAWS and differs from the current one |
| FrameData.FrameAfterIsMod | src/VulkanRenderer.cpp:139 | after n draws from slot 0 the slot is n mod MAX_FRAME_DRAWS |
| FrameData.FrameSlotReuse | src/VulkanRenderer.cpp:139 | a slot comes back after exactly MAX_FRAME_DRAWS draws and not sooner |
| Renderer.VulkanRenderer.constructor | src/VulkanRenderer.h:98 | the frame slot starts at 0 and the tables start empty |
| Renderer.VulkanRenderer.CreateSwapChain | src/VulkanRenderer.cpp:331-421 | the negotiated format, present mode, extent, image count and sharing are the ones the rules above give; one view per returned image is appended |
| Renderer.VulkanRenderer.CreateFramebuffers | src/VulkanRenderer.cpp:713-741 | one framebuffer per swapchain image, attaching image i's view at the swapchain extent |
| Renderer.VulkanRenderer.CreateCommandBuffers | src/VulkanRenderer.cpp:760-778 | one command buffer per framebuffer |
| Renderer.VulkanRenderer.CreateUniformBuffers | src/VulkanRenderer.cpp:806-822 | one uniform buffer per image, sized for the MVP, for uniform use, host-visible and coherent |
| Renderer.VulkanRenderer.CreateDescriptorPool | src/VulkanRenderer.cpp:824-844 | room for as many sets and uniform descriptors as there are uniform buffers |
| Renderer.VulkanRenderer.CreateDescriptorSets | src/VulkanRenderer.cpp:846-890 | one set per uniform buffer, set i written with uniform buffer i, offset 0, range sizeof(MVP); fails with null sets when the pool lacks room, leaving the pool and the handle counter as they were |
| Renderer.VulkanRenderer.RecordCommands | src/VulkanRenderer.cpp:901-970 | command buffer i holds the stream for framebuffer i and descriptor set i |
| Renderer.VulkanRenderer.UpdateUniformBuffer | src/VulkanRenderer.cpp:892-899 | only the memory of the image's uniform buffer changes, to the MVP bytes |
| Renderer.VulkanRenderer.UpdateModel | src/VulkanRenderer.cpp:78-81 | replaces the model matrix of the MVP, keeping projection and view |
| Renderer.VulkanRenderer.CreateSynchronization | src/VulkanRenderer.cpp:780-804 | two semaphores and a fence per slot; every fence is created signalled |
| Renderer.VulkanRenderer.Draw | src/VulkanRenderer.cpp:83-140 | runs only once the slot's fence is signalled and resets it; writes the image's uniform buffer; submits command buffer imageIndex with the slot's semaphores and fence; presents after render-finished; advances the slot mod MAX_FRAME_DRAWS; a failed submit or present returns its error and keeps the slot |
| Renderer.VulkanRenderer.Init | src/VulkanRenderer.cpp:9-76 | after the steps from the swapchain on, the tables line up, the model matrix is the identity, the fence array and uniform memory are freshly allocated, the fences are signalled and the status is 0, so `Draw` can follow |
| Renderer.CommandBufferReadsOwnUniform | src/VulkanRenderer.cpp:849-889 | in a valid renderer, command buffer i binds only descriptor set i, and set i points at uniform buffer i |

## Left out

- Creation and destruction of Vulkan objects (instance, surface, logical device, render
  pass, descriptor set layout, pipeline, command pool, image views, buffers, memory) and
  `CleanUp`: foreign driver calls; the model keeps only the decisions and table shapes
  around them, with fresh handles standing for created objects.
- The failure branches of driver calls (`VK_SUCCESS` checks on creation, allocation and
  recording calls): what the driver returns is not modelled, except the submit and present
  results of `Draw`, which are inputs, and descriptor-set allocation, which fails exactly
  when the pool has no room left.
- `Init` before the swapchain (instance, surface, device selection and logical device):
  these are modelled as the separate operations above, not chained inside `Init`.
- The fixed-function pipeline and render-pass configuration: constant struct filling.
- Float computations: the projection and view matrices are inputs to `Init`; vertex data,
  viewport, clear colour and vertex colours are not modelled.
- Semaphore semantics, `vkQueueWaitIdle`, `vkDeviceWaitIdle`: concurrency; only the slot
  indexing and the fence flags are modelled, and the wait on a fence is the precondition of
  `Draw` that the fence is signalled.
- `readSPVFile`, `CreateShaderModule`, `CreateBuffer`, `CopyBuffer` and `main.cpp`: file
  I/O, allocation and transfer-queue calls, and window setup. The memory-type choice inside
  `CreateBuffer` is `Utils.FindMemoryTypeIndex`.
- How `LoadMesh` constructs the `Mesh` (src/MeshModel.cpp:137-138 passes seven arguments
  to a constructor declared with six, and `Vertex` has no texture coordinates): a loaded
  mesh is a `MeshRecord` of vertices, indices, texture id and a buffers-live flag.
- DeviceSelection.QueueCreateInfos: the family index stays an `int`. The source stores it
  in a `uint32_t` field, where an unset -1 becomes 0xFFFFFFFF. The logical device is only
  created for a suitable device, whose two indices are set, so the two agree there.
- Models.LoadMesh: the vertex colour (a float constant) and the empty normals branch are
  not modelled.
- Renderer.VulkanRenderer.CreateSwapChain: the swapchain creation result is not modelled;
  the images it returns are an input.
- Renderer.VulkanRenderer.Init: states status 0 because every step that can throw is a
  driver failure the model leaves out.
- `MeshModel::LoadNode`, `LoadMesh` and `LoadMaterials` take the scene as an abstract tree:
  the importer's pointer arrays become sequences, and a mesh reference or material index
  out of range is a precondition rather than undefined behaviour.

## Findings

| source | as written | input that shows it | evidently intended | confidence | as-written member | corrected member |
|---|---|---|---|---|---|---|
| src/VulkanRenderer.cpp:989 | `if (strcmp(checkExtension, extension.extensionName))` marks an extension as present when the names differ | required `["VK_KHR_surface"]`, available `["VK_KHR_surface"]` is rejected; available `["VK_EXT_debug_utils"]` is accepted | `strcmp(...) == 0`: every required name must occur among the available names | high, not executed | DeviceSelection.InstanceExtensionCheckInverted | DeviceSelection.ContainsAll |
