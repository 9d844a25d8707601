/**
 * The GPU resources and containers the rendering core hands around: buffer objects,
 * textures, framebuffers, shader programs, the scratch byte buffer and the drawable
 * queues. Their own classes (BufferObject, Texture, Framebuffer, ShaderProgram,
 * DrawableQueue) are not part of this model; they appear here as values carrying
 * the attributes the core reads. Each GL object carries a serial number that stands
 * for its identity and serves as its GL name.
 */
module Resources {
  import opened Gles
  import UnitShapes

  datatype Option<+T> = None | Some(value: T)

  /** The client-side contents a buffer object uploads. */
  datatype BufferData =
    | Floats(floats: seq<real>)
    | Shorts(shorts: seq<int>)
    | Outline(coords: seq<UnitShapes.Coord>)  // trigonometric coordinates, kept symbolic
    | Unmodelled(length: nat)                 // floating point contents the model does not compute

  /** A GPU buffer object: its binding target, its size in bytes and its contents. */
  datatype BufferObject = BufferObject(target: int, size: int, data: BufferData, serial: nat)
  {
    /** The number of elements of the buffer's contents. */
    function BufferLength(): nat
    {
      match data
      case Floats(f) => |f|
      case Shorts(s) => |s|
      case Outline(c) => |c|
      case Unmodelled(n) => n
    }
  }

  /** A 2D texture with its dimensions and pixel format. */
  datatype Texture = Texture(width: int, height: int, format: int, pixelType: int, serial: nat)

  /** A framebuffer object with a colour and a depth attachment. */
  datatype Framebuffer = Framebuffer(colorAttachment: Texture, depthAttachment: Texture, serial: nat)

  /** The registry keys of the shader programs the core uses. */
  datatype ProgramKey = SensorProgramKey | BasicProgramKey | MockupProgramKey

  /** A shader program instance, created for one registry key. */
  datatype Program = Program(key: ProgramKey, serial: nat)

  /** A terrain tile ready to draw: its vertices are relative to its origin and held in the buffer named `vertexPoints`. */
  datatype TerrainChunk = TerrainChunk(vertexOrigin: Vec3, vertexPoints: nat)

  /** A direct NIO byte buffer, as far as the core uses one: its capacity, position and limit. */
  datatype ByteBuffer = ByteBuffer(capacity: nat, position: nat, limit: nat)
  {
    predicate Valid()
    {
      position <= limit <= capacity
    }

    /** clear(): the whole capacity becomes available again. */
    function Clear(): (r: ByteBuffer)
      ensures r.Valid() && r.capacity == capacity && r.position == 0 && r.limit == capacity
    {
      ByteBuffer(capacity, 0, capacity)
    }

    /**
     * A relative bulk get of `count` bytes: the position moves past them. Reading past
     * the limit throws in the source; the core only reads what it cleared room for.
     */
    function Get(count: nat): (r: ByteBuffer)
      requires Valid() && position + count <= limit
      ensures r.Valid() && r.capacity == capacity && r.limit == limit && r.position == position + count
    {
      ByteBuffer(capacity, position + count, limit)
    }
  }

  /** A freshly allocated buffer of the given capacity. */
  function AllocateDirect(capacity: nat): (r: ByteBuffer)
    ensures r.Valid() && r.capacity == capacity && r.position == 0 && r.limit == capacity
  {
    ByteBuffer(capacity, 0, capacity)
  }

  /**
   * An ordered queue of drawables read through a cursor: peek does not advance it,
   * poll does, rewind moves it back to the start without removing anything.
   */
  datatype DrawableQueue<T> = DrawableQueue(items: seq<T>, cursor: nat)
  {
    function Count(): nat
    {
      |items|
    }

    function GetDrawable(index: int): (r: Option<T>)
      ensures r.Some? <==> 0 <= index < |items|
      ensures r.Some? ==> r.value == items[index]
    {
      if 0 <= index < |items| then Some(items[index]) else None
    }

    function PeekDrawable(): (r: Option<T>)
      ensures r.None? <==> cursor >= |items|
      ensures r.Some? ==> r.value == items[cursor]
    {
      if cursor < |items| then Some(items[cursor]) else None
    }

    function PollDrawable(): (r: (Option<T>, DrawableQueue<T>))
      ensures r.0 == PeekDrawable()
      ensures r.1.items == items
      ensures r.1.cursor == if cursor < |items| then cursor + 1 else cursor
    {
      if cursor < |items| then (Some(items[cursor]), this.(cursor := cursor + 1)) else (None, this)
    }

    function RewindDrawables(): (r: DrawableQueue<T>)
      ensures r.items == items && r.cursor == 0
    {
      this.(cursor := 0)
    }
  }

  /** The drawables obtained by polling until the queue signals that it is exhausted. */
  function PollAll<T>(q: DrawableQueue<T>): seq<T>
    decreases |q.items| - q.cursor
  {
    var (d, rest) := q.PollDrawable();
    if d.None? then [] else [d.value] + PollAll(rest)
  }

  /** Polling to exhaustion yields the drawables from the cursor on, in insertion order. */
  lemma {:induction false} PollAllYieldsRemaining<T>(q: DrawableQueue<T>)
    requires q.cursor <= |q.items|
    ensures PollAll(q) == q.items[q.cursor..]
    decreases |q.items| - q.cursor
  {
    if q.cursor < |q.items| {
      var rest := q.PollDrawable().1;
      PollAllYieldsRemaining(rest);
      assert q.items[q.cursor..] == [q.items[q.cursor]] + q.items[q.cursor + 1..];
    }
  }

  /**
   * Rewinding and polling to exhaustion yields every drawable in insertion order,
   * whatever had been consumed before: two traversals see the same sequence.
   */
  lemma RewindThenPollAllYieldsAll<T>(q: DrawableQueue<T>)
    ensures PollAll(q.RewindDrawables()) == q.items
  {
    PollAllYieldsRemaining(q.RewindDrawables());
  }

  /** After a full traversal the queue is exhausted; a second full traversal needs a rewind. */
  lemma {:induction false} PollAllExhausts<T>(q: DrawableQueue<T>)
    requires q.cursor <= |q.items|
    ensures Exhaust(q).cursor == |q.items| && Exhaust(q).items == q.items
    ensures PollAll(Exhaust(q)) == []
    decreases |q.items| - q.cursor
  {
    if q.cursor < |q.items| {
      PollAllExhausts(q.PollDrawable().1);
    }
  }

  /** The queue after polling to exhaustion. */
  function Exhaust<T>(q: DrawableQueue<T>): (r: DrawableQueue<T>)
    decreases |q.items| - q.cursor
  {
    var (d, rest) := q.PollDrawable();
    if d.None? then q else Exhaust(rest)
  }
}
