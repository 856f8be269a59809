/**
 * The universal container and its visitor as objects updated in place: a
 * growable byte buffer with an append-only list of descriptors, and a
 * visitor that keeps a handler per type identity and hands each stored
 * object to the handler registered for its type.
 */
module Containers {
  import opened Layout

  /**
   * A byte arena holding objects of several types. `data` is the buffer
   * (its length is the capacity `bufferSize`), `size` the number of bytes in
   * use, `types` one descriptor per stored object in insertion order.
   */
  class Container {
    var data: array<Byte>
    var types: seq<TypeInfo>
    var bufferSize: nat
    var size: nat

    /** The capacity is the buffer's length, covers the used bytes, and the descriptors tile them. */
    ghost predicate Valid()
      reads this
    {
      && data.Length == bufferSize
      && size <= bufferSize
      && Contiguous(types)
      && End(types) == size
    }

    /** The stored objects, in insertion order, as the bytes each descriptor covers. */
    ghost function Values(): (vs: seq<seq<Byte>>)
      reads this, data
      requires Valid()
    {
      Segments(data[..], types)
    }

    /** An empty container: no buffer, no descriptors. */
    constructor ()
      ensures Valid() && fresh(data)
      ensures types == [] && bufferSize == 0 && size == 0
      ensures Values() == []
    {
      data := new Byte[0];
      types := [];
      bufferSize := 0;
      size := 0;
    }

    /**
     * Stores the bytes of one object of type `hash`. The buffer grows first
     * exactly when the object would reach or pass the end of the buffer; the
     * new descriptor starts where the used bytes end.
     */
    method PushBack(hash: Hash, obj: seq<Byte>)
      requires Valid()
      requires |obj| >= 1
      modifies this, data
      ensures Valid()
      ensures types == old(types) + [TypeInfo(hash, old(size), |obj|)]
      ensures size == old(size) + |obj|
      ensures data[..size] == old(data[..size]) + obj
      ensures Values() == old(Values()) + [obj]
      ensures old(size) + |obj| >= old(bufferSize) ==>
                fresh(data) && bufferSize == GrownCapacity(old(bufferSize), |obj|)
      ensures old(size) + |obj| < old(bufferSize) ==>
                data == old(data) && bufferSize == old(bufferSize)
    {
      var objSize := |obj|;
      if size + objSize >= bufferSize {
        ExpandContainer(objSize);
      }
      Store(hash, obj);
    }

    /**
     * The second half of PushBack, once the buffer has room: records a
     * descriptor that starts where the previous one ends (at 0 for the
     * first) and copies the object's bytes there.
     */
    method Store(hash: Hash, obj: seq<Byte>)
      requires Valid()
      requires size + |obj| <= bufferSize
      modifies this`types, this`size, data
      ensures Valid()
      ensures types == old(types) + [TypeInfo(hash, old(size), |obj|)]
      ensures size == old(size) + |obj|
      ensures data[..size] == old(data[..size]) + obj
      ensures Values() == old(Values()) + [obj]
    {
      var objSize := |obj|;
      var offset := 0;
      if |types| > 0 {
        offset := types[|types| - 1].offset + types[|types| - 1].length;
      }
      ghost var before := data[..];
      assert before[..size] == data[..size];
      AppendObject(before, types, hash, obj);
      types := types + [TypeInfo(hash, offset, objSize)];
      CopyInto(offset, obj);
      size := size + objSize;
      assert data[..size] == data[..][..size];
    }

    /**
     * Moves the used bytes into a new buffer of capacity
     * `GrownCapacity(bufferSize, minimumSize)`; nothing but the buffer and
     * its capacity changes.
     */
    method ExpandContainer(minimumSize: nat)
      requires Valid()
      modifies this`data, this`bufferSize
      ensures Valid() && fresh(data)
      ensures bufferSize == GrownCapacity(old(bufferSize), minimumSize)
      ensures types == old(types) && size == old(size)
      ensures data[..size] == old(data[..size])
      ensures Values() == old(Values())
    {
      var newSize := bufferSize * 2;
      if newSize < bufferSize + minimumSize {
        newSize := newSize + minimumSize;
      }
      assert newSize == GrownCapacity(bufferSize, minimumSize);

      var newData := new Byte[newSize];
      var i := 0;
      while i < size
        modifies newData
        invariant 0 <= i <= size
        invariant newData[..i] == data[..i]
      {
        newData[i] := data[i];
        i := i + 1;
      }
      ghost var before := data[..];
      data := newData;
      bufferSize := newSize;

      assert data[..][..size] == before[..size];
      SegmentsAgree(data[..], before, types);
    }

    /** Writes `src` over the buffer from `offset` on and leaves every other byte alone. */
    method CopyInto(offset: nat, src: seq<Byte>)
      requires offset + |src| <= data.Length
      modifies data
      ensures data[..] == Overwrite(old(data[..]), offset, src)
    {
      var k := 0;
      while k < |src|
        invariant 0 <= k <= |src|
        invariant forall p :: 0 <= p < data.Length ==>
                    data[p] == if offset <= p < offset + k then src[p - offset] else old(data[p])
      {
        data[offset + k] := src[k];
        k := k + 1;
      }
    }

    /** Where a stored object's bytes start: a place inside the used bytes holding exactly that object. */
    method GetObjectPointer(typeInfo: TypeInfo) returns (ptr: nat)
      requires Valid()
      requires typeInfo in types
      ensures ptr == typeInfo.offset
      ensures ptr + typeInfo.length <= size
      ensures forall i :: 0 <= i < |types| && types[i] == typeInfo ==>
                data[ptr..ptr + typeInfo.length] == Values()[i]
    {
      ptr := typeInfo.offset;
      AllRegionsWithinEnd(types);
    }

    /**
     * Calls the handler registered for the `i`-th object's type with that
     * object's bytes, found through its pointer, and keeps what the handler
     * writes there.
     */
    method RunHandler(handlers: map<Hash, Handler>, typeInfo: TypeInfo, ghost i: nat)
      requires Valid()
      requires SizePreserving(handlers)
      requires i < |types| && types[i] == typeInfo
      requires typeInfo.hashCode in handlers
      modifies data
      ensures Valid()
      ensures Values() == old(Values())[i := Apply(handlers, typeInfo.hashCode, old(Values())[i])]
      ensures data[size..] == old(data[size..])
    {
      var ptr := GetObjectPointer(typeInfo);
      var result := handlers[typeInfo.hashCode](data[ptr..ptr + typeInfo.length]);
      ghost var before := data[..];
      SegmentsOverwrite(before, types, i, result);
      CopyInto(ptr, result);
      assert data[size..] == data[..][size..] == before[size..];
    }

    /**
     * One dispatch pass: walks the descriptors in insertion order and, for
     * each whose type has a handler, hands that object's bytes to it and
     * stores what it leaves behind. Returns the indices of the descriptors
     * whose handler ran, in the order it ran.
     */
    method ForEach(handlers: map<Hash, Handler>) returns (visited: seq<nat>)
      requires Valid()
      requires SizePreserving(handlers)
      modifies data
      ensures Valid()
      ensures visited == VisitOrder(types, handlers.Keys)
      ensures Values() == Dispatched(old(Values()), types, handlers)
      ensures data[size..] == old(data[size..])
    {
      ghost var start := Values();
      ghost var tail := data[size..];
      DispatchEnds(start, types, handlers);
      visited := [];
      var i := 0;
      while i < |types|
        invariant 0 <= i <= |types|
        invariant visited == VisitOrder(types[..i], handlers.Keys)
        invariant Values() == DispatchedUpTo(start, types, handlers, i)
        invariant data[size..] == tail
      {
        var t := types[i];
        VisitOrderSnoc(types, handlers.Keys, i);
        DispatchStep(start, types, handlers, i);
        if t.hashCode in handlers {
          RunHandler(handlers, t, i);
          visited := visited + [i];
        }
        i := i + 1;
      }
      assert types[..i] == types;
    }
  }

  /**
   * Dispatches over one container with a handler per type identity. The
   * container is bound once, at construction.
   */
  class ContainerVisitor {
    const container: Container
    var handlers: map<Hash, Handler>

    constructor (container: Container)
      ensures this.container == container
      ensures handlers == map[]
    {
      this.container := container;
      handlers := map[];
    }

    /** Registers `handler` for type `hash`, replacing any earlier one: the last registration wins. */
    method SetHandler(hash: Hash, handler: Handler)
      modifies this
      ensures handlers == old(handlers)[hash := handler]
    {
      handlers := handlers[hash := handler];
    }

    /** One dispatch pass over the bound container with the handlers registered so far. */
    method Process() returns (visited: seq<nat>)
      requires container.Valid()
      requires SizePreserving(handlers)
      modifies container.data
      ensures container.Valid()
      ensures visited == VisitOrder(container.types, handlers.Keys)
      ensures container.Values() == Dispatched(old(container.Values()), container.types, handlers)
      ensures container.data[container.size..] == old(container.data[container.size..])
    {
      var current := handlers;
      visited := container.ForEach(current);
      assert handlers == current;
    }
  }
}
