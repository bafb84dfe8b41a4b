/**
 * The Mesh class of src/Mesh.cpp: it records the vertex count and owns one host-visible
 * vertex buffer whose memory holds the bytes of the vertex array.
 */
module MeshBuffer {
  import opened Vulkan
  import Utils

  /** sizeof(Vertex): two glm::vec3 of 32-bit floats. */
  const VERTEX_SIZE: nat := 24

  /** A vertex as the bytes of its object representation (its float contents are not modelled). */
  type Vertex = s: seq<bv8> | |s| == VERTEX_SIZE witness seq(VERTEX_SIZE, _ => 0)

  /** The bytes of a contiguous std::vector<Vertex>. */
  function VertexBytes(vertices: seq<Vertex>): (bytes: seq<bv8>)
    ensures |bytes| == VERTEX_SIZE * |vertices|
  {
    if vertices == [] then [] else VertexBytes(vertices[..|vertices| - 1]) + vertices[|vertices| - 1]
  }

  /** Byte k of the array is byte k % sizeof(Vertex) of vertex k / sizeof(Vertex). */
  lemma {:induction false} VertexBytesAt(vertices: seq<Vertex>, k: nat)
    requires k < VERTEX_SIZE * |vertices|
    ensures VertexBytes(vertices)[k] == vertices[k / VERTEX_SIZE][k % VERTEX_SIZE]
  {
    var n := |vertices| - 1;
    var front := vertices[..n];
    if k < VERTEX_SIZE * n {
      VertexBytesAt(front, k);
      assert vertices[k / VERTEX_SIZE] == front[k / VERTEX_SIZE];
    } else {
      assert k / VERTEX_SIZE == n && k % VERTEX_SIZE == k - VERTEX_SIZE * n;
    }
  }

  /** The conversion of a size_t to int: the low 32 bits read as a two's-complement number. */
  function ToInt32(x: nat): (r: int)
    ensures -0x8000_0000 <= r < 0x8000_0000
    ensures x < 0x8000_0000 ==> r == x
  {
    var low := x % 0x1_0000_0000;
    if low < 0x8000_0000 then low else low - 0x1_0000_0000
  }

  /** The parts of VkBufferCreateInfo the mesh sets. */
  datatype BufferInfo = BufferInfo(size: nat, usage: bv32, sharingMode: SharingMode)

  /** What vkGetBufferMemoryRequirements reports for the buffer. */
  datatype MemoryRequirements = MemoryRequirements(size: nat, memoryTypeBits: bv32)

  class Mesh {
    var vertexCount: nat
    var physicalDevice: PhysicalDevice
    var device: Handle
    /** How the vertex buffer was created. */
    var vertexBuffer: BufferInfo
    /** The memory type chosen for the buffer's allocation. */
    var vertexMemoryType: uint32
    /** The contents of the buffer's memory allocation. */
    var vertexBufferMemory: array<bv8>
    /** The buffer and its memory have been created and not yet released. */
    var vertexBufferLive: bool
    var vertexMemoryLive: bool

    /** The allocation covers the buffer, which is sized for the vertices. */
    predicate Valid()
      reads this
    {
      && vertexBuffer.size == VERTEX_SIZE * vertexCount
      && vertexBuffer.size <= vertexBufferMemory.Length
      && |physicalDevice.memoryTypes| <= MAX_MEMORY_TYPES
    }

    /** The contents the vertex buffer presents: the first size bytes of its memory. */
    function BufferContents(): (bytes: seq<bv8>)
      requires Valid()
      reads this, vertexBufferMemory
    {
      vertexBufferMemory[..vertexBuffer.size]
    }

    /**
     * Records the vertex count and the devices, then creates the vertex buffer holding the
     * vertices.
     */
    constructor (newPhysicalDevice: PhysicalDevice, newDevice: Handle, vertices: seq<Vertex>, memRequirements: MemoryRequirements)
      requires |newPhysicalDevice.memoryTypes| <= MAX_MEMORY_TYPES
      requires memRequirements.size >= VERTEX_SIZE * |vertices|
      ensures Valid()
      ensures vertexCount == |vertices| && physicalDevice == newPhysicalDevice && device == newDevice
      ensures BufferContents() == VertexBytes(vertices)
      ensures vertexMemoryType == Utils.MemoryTypeIndex(newPhysicalDevice.memoryTypes, memRequirements.memoryTypeBits, HOST_VISIBLE_COHERENT)
      ensures vertexBufferLive && vertexMemoryLive
    {
      vertexCount := |vertices|;
      physicalDevice := newPhysicalDevice;
      device := newDevice;
      vertexBuffer := BufferInfo(0, 0, Exclusive);
      vertexMemoryType := 0;
      vertexBufferMemory := new bv8[0];
      vertexBufferLive, vertexMemoryLive := false, false;
      new;
      CreateVertexBuffer(vertices, memRequirements);
    }

    /** The vertex count, converted to int as the getter's return type does. */
    function GetVertexCount(): (n: int)
      reads this
      ensures vertexCount < 0x8000_0000 ==> n == vertexCount
      ensures -0x8000_0000 <= n < 0x8000_0000
    {
      ToInt32(vertexCount)
    }

    /** Releases the vertex buffer and its memory. */
    method DestroyVertexBuffer()
      modifies this`vertexBufferLive, this`vertexMemoryLive
      ensures !vertexBufferLive && !vertexMemoryLive
    {
      vertexBufferLive := false;
      vertexMemoryLive := false;
    }

    /**
     * Creates a buffer of sizeof(Vertex) * count bytes, allocates host-visible, coherent
     * memory for it and copies the vertex bytes in from offset 0 across the whole buffer.
     */
    method CreateVertexBuffer(vertices: seq<Vertex>, memRequirements: MemoryRequirements)
      requires |physicalDevice.memoryTypes| <= MAX_MEMORY_TYPES
      requires vertexCount == |vertices|
      requires memRequirements.size >= VERTEX_SIZE * |vertices|
      modifies this
      ensures Valid()
      ensures vertexBuffer == BufferInfo(VERTEX_SIZE * |vertices|, BUFFER_USAGE_VERTEX_BUFFER_BIT, Exclusive)
      ensures vertexMemoryType == Utils.MemoryTypeIndex(physicalDevice.memoryTypes, memRequirements.memoryTypeBits, HOST_VISIBLE_COHERENT)
      ensures fresh(vertexBufferMemory) && vertexBufferMemory.Length == memRequirements.size
      ensures BufferContents() == VertexBytes(vertices)
      ensures vertexBufferLive && vertexMemoryLive
      ensures vertexCount == old(vertexCount) && physicalDevice == old(physicalDevice) && device == old(device)
    {
      vertexBuffer := BufferInfo(VERTEX_SIZE * |vertices|, BUFFER_USAGE_VERTEX_BUFFER_BIT, Exclusive);
      vertexBufferLive := true;

      vertexMemoryType := FindMemoryTypeIndex(memRequirements.memoryTypeBits, HOST_VISIBLE_COHERENT);
      vertexBufferMemory := new bv8[memRequirements.size];
      vertexMemoryLive := true;

      // Map the memory, copy the vertex bytes from offset 0 over the buffer's size, unmap.
      var data := VertexBytes(vertices);
      forall i | 0 <= i < vertexBuffer.size {
        vertexBufferMemory[i] := data[i];
      }
    }

    /** The search of Utils.FindMemoryTypeIndex over this mesh's physical device. */
    method FindMemoryTypeIndex(allowedTypes: bv32, propertyFlags: bv32) returns (index: uint32)
      requires |physicalDevice.memoryTypes| <= MAX_MEMORY_TYPES
      ensures index == Utils.MemoryTypeIndex(physicalDevice.memoryTypes, allowedTypes, propertyFlags)
      ensures index == 0 || index as nat < |physicalDevice.memoryTypes|
    {
      index := Utils.FindMemoryTypeIndex(physicalDevice, allowedTypes, propertyFlags);
    }
  }
}
