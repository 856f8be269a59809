# Universal container, modelled in Dafny

The repository is a small heterogeneous value store written in C++. It has two parts:

- A `Container`: a growable byte buffer holding objects of arbitrary fixed-layout types. Each object gets a descriptor with its type identity, offset and length.
- A `ContainerVisitor`: keeps one handler per type identity and, on `process()`, walks the descriptors in insertion order. It hands each object whose type has a handler a pointer to the object's bytes, and the handler may rewrite those bytes in place.

The model has three modules:

- `Layout` (`layout.dfy`) holds the pure side.
  - The descriptor record and the growth rule `GrownCapacity`.
  - Contiguity of descriptors, with an equivalent prefix-sum characterisation.
  - The view `Segments` of a byte buffer as one value per descriptor, and its inverse `Concat`.
  - The effect of a dispatch pass on the stored values (`Dispatched`), and the order in which a pass calls handlers (`VisitOrder`).
- `Containers` (`container.dfy`) holds the two classes.
  - `Container` has the fields `data` (an `array<Byte>` whose length is `bufferSize`), `types`, `bufferSize` and `size`, and the methods `PushBack`, `ExpandContainer`, `GetObjectPointer` and `ForEach`.
  - `ContainerVisitor` has `SetHandler` and `Process`.
  - Every `Container` method is proved against the `Layout` functions. `Container.Valid()` is the class invariant and `Container.Values()` is the abstract contents.
- `Demo` (`demo.dfy`) is the demonstration program's sequence of calls, proved from the contracts alone.
  - Ints 5, 10 and 99, the double 15.46 and the colour (255, 0, 0) are pushed as little-endian bytes, and the buffer ends with capacity 32.
  - Three passes follow. Each visits all five objects in order, and only the second pass changes anything: it turns the three ints into -1.

A handler is modelled as a function from the object's bytes to the bytes it leaves there. `SizePreserving(handlers)` states that a handler keeps the object's size, which the program relies on by convention (see "## Left out"). `ForEach` and `Process` return the indices of the descriptors whose handler ran, in the order they ran. This stands in for the handlers' observable calls.

`expandContainer` adds `minimumSize` to the doubled capacity (main.cpp:88-90). So when doubling leaves too little room, the new capacity is `2 * capacity + size` rather than `capacity + size`, and `GrownCapacity` states this. From capacity 0 both give `size`. The demonstration registers a colour handler too (main.cpp:175-179), so every pass in `Demo` visits all five objects.

## Model

| member | source | states |
|---|---|---|
| Layout.GrownCapacity | main.cpp:86-90 | The new capacity is at least the old capacity plus the object's size and at least double the old capacity. It is exactly double when the object fits in the doubled buffer, and double plus the object's size otherwise. From an empty buffer it is exactly the object's size. |
| Layout.ContiguousIffPrefixSums | main.cpp:47-49 | "Each descriptor starts where the previous one ends, the first at 0" holds exactly when "each descriptor starts at the sum of the earlier lengths" holds. Under it, the end of the last descriptor is the total length. |
| Layout.RegionsOrdered | main.cpp:47-49 | Under contiguity, an earlier object ends no later than any later object starts, so no two objects overlap. |
| Layout.RegionWithinEnd | main.cpp:47-54 | Under contiguity, every object lies inside the used bytes `[0, End(types))`. |
| Layout.Segments | main.cpp:10-14 | Reading the buffer through the descriptors yields one value per descriptor, and each value has its descriptor's length. |
| Layout.SegmentsPartition | main.cpp:44-54 | The descriptors partition the used bytes: the stored values laid end to end are exactly the bytes `[0, size)`. |
| Layout.ConcatSegments | main.cpp:44-54 | Conversely, values of the descriptors' lengths, laid end to end, fill `End(types)` bytes and are read back unchanged through the descriptors. |
| Layout.AppendObject | main.cpp:44-54 | The new descriptor at offset `End(types)` keeps the layout contiguous and extends the end by the object's size. After the write, the used bytes are the old used bytes followed by the object, and the stored values are the old values followed by the object. |
| Layout.Overwrite | main.cpp:52 | Writing `src` at `offset` changes exactly the bytes in `[offset, offset + |src|)`, to `src`. Every other byte and the length stay as they were. |
| Layout.SegmentsOverwrite | main.cpp:63 | Writing a value of the `i`-th object's length over that object's bytes replaces the `i`-th stored value and leaves every other stored value as it was. |
| Layout.Apply | main.cpp:61-63 | An object whose type has no handler is left as it was, and a handled object keeps its size. |
| Layout.Dispatched | main.cpp:58-65 | After a pass, every object keeps its size, and an object whose type has no handler is unchanged. |
| Layout.DispatchStep | main.cpp:60-64 | Handling the next object in insertion order moves a partial pass on by exactly that object. |
| Layout.DispatchKeepsLayout | main.cpp:58-65 | The values a pass leaves behind still fill exactly the used bytes and are read back through the same descriptors. The layout survives any pass. |
| Layout.VisitOrderSnoc | main.cpp:60-64 | Visiting one more descriptor appends its index exactly when its type has a handler. |
| Layout.VisitOrderSpec | main.cpp:60-64 | A pass calls a handler for exactly the descriptors whose type has a handler (both directions), in strictly increasing insertion order, so each is called once. |
| Layout.VisitOrderAll | main.cpp:60-64 | When every stored type has a handler, a pass visits every descriptor, in insertion order. |
| Containers.Container.constructor | main.cpp:19-24 | A new container has capacity 0, no used bytes, no descriptors and no stored values. |
| Containers.Container.PushBack | main.cpp:36-55 | The invariant is kept. The new descriptor has the object's type, starts at the old `size` and has the object's length. `size` grows by that length, the used bytes gain the object at the end, and the stored values gain the object at the end. The buffer is replaced by one of capacity `GrownCapacity` exactly when `size + length >= bufferSize`; otherwise buffer and capacity are unchanged. |
| Containers.Container.Store | main.cpp:44-54 | With room in the buffer, the descriptor is appended at the end of the previous one (0 for the first), the bytes are copied there, and the stored values gain the object at the end. |
| Containers.Container.ExpandContainer | main.cpp:86-100 | The new buffer is fresh with capacity `GrownCapacity(bufferSize, minimumSize)`. The used bytes, the descriptors, `size` and the stored values are all unchanged. |
| Containers.Container.CopyInto | main.cpp:52 | The buffer afterwards is `Overwrite` of the old buffer at `offset` with `src`. |
| Containers.Container.GetObjectPointer | main.cpp:81-84 | The pointer is the descriptor's offset. The object lies inside the used bytes, and the bytes there are exactly the stored value of that descriptor. |
| Containers.Container.RunHandler | main.cpp:61-63 | Calling the handler on the `i`-th object through its pointer replaces exactly the `i`-th stored value with the handler's result. The invariant and the bytes past `size` are kept. |
| Containers.Container.ForEach | main.cpp:58-65 | Handlers are called in `VisitOrder`. The stored values become `Dispatched` of the old values. The descriptors and the invariant are kept, and the bytes past `size` are untouched. |
| Containers.ContainerVisitor.constructor | main.cpp:116-119 | The visitor is bound to the given container and starts with no handlers. |
| Containers.ContainerVisitor.SetHandler | main.cpp:121-130 | The handler is registered for the type, replacing any earlier one (the last registration wins), and every other type's handler is kept. |
| Containers.ContainerVisitor.Process | main.cpp:132-135 | One `ForEach` pass over the bound container with the registered handlers. It has the same visit order and the same effect on the stored values as `ForEach`. |
| Demo.PushTwoInts | main.cpp:144-150 | After pushing ints 5 and 10, the capacity is 8, with 8 used bytes and those two values stored. |
| Demo.FillContainer | main.cpp:144-159 | After the five pushes, the descriptors are int@0, int@4, double@8, colour@16 and int@19, and the used bytes are 23. The capacity is 32 and the stored values are the five objects' bytes. |
| Demo.ReadingPassKeepsValues | main.cpp:165-181 | A pass whose handlers only read leaves every stored value as it was. |
| Demo.ResetPassValues | main.cpp:187-194 | With the int handler setting -1 and the others only reading, a pass turns every int into -1 and leaves every other object unchanged. |
| Demo.FirstPass | main.cpp:163-181 | After registering reading handlers for int, double and colour, the pass visits objects 0 to 4 and changes nothing. |
| Demo.SecondPass | main.cpp:187-194 | After replacing the int handler, the pass visits objects 0 to 4 and turns objects 0, 1 and 4 into -1. The double and the colour are untouched. |
| Demo.ThirdPass | main.cpp:200-206 | After registering a reading int handler through the type-parameter overload, the pass visits objects 0 to 4 and changes nothing. |
| Demo.Scenario | main.cpp:142-206 | All three passes visit the five objects in insertion order. In the end, the three ints read as FF FF FF FF (-1), and the double's and colour's bytes are as pushed. |

## Left out

- `debug()` and every console print, including the handlers' printing in the demonstration program. I/O is not modelled. A handler is modelled only by what it writes into its object.
- Type identities: `typeid(T).hash_code()` becomes a plain number (`Hash`). Two distinct types that share a hash code are not modelled.
- `std::function<void(void*)>` handlers are modelled as functions from the object's bytes to its new bytes. A handler reading or writing memory outside its own object is not modelled.
- Layout.SizePreserving: that a handler keeps its object's size is stated as a precondition of the dispatch operations. In C++ nothing checks it: a handler is a `std::function<void(void*)>` (main.cpp:58, 121, 127), and it keeps the size only by the registration convention that the handler for `typeid(T)` casts the pointer to `T*` (main.cpp:166, 171, 176, 188, 201). The precondition asks for size preservation on inputs of every length. Extending a handler that way loses nothing, because without hash collisions a handler only ever sees objects of its own type. For that reason `Demo.SetMinusOne` writes FF over however many bytes it is given.
- Containers.Container.PushBack: requires a non-empty object, because `sizeof` is never 0 in C++. The typed assignment through `reinterpret_cast` is modelled as a byte-for-byte copy of the object's representation.
- Containers.Container.PushBack: `size_t` is modelled as an unbounded `nat`, so wrap-around of `size + objSize` or of the doubled capacity is not modelled.
- Containers.ContainerVisitor.SetHandler: both overloads (by `type_info` and by type parameter) map to this one method taking the type's identity.
- The destructor, `delete[]` of the old buffer, the deleted copy and move operations, and the `Color` struct's constructor are not modelled. Memory is garbage-collected in Dafny, and `Color` appears only as its three bytes.
- Aliasing through raw pointers is not modelled. A pointer from `GetObjectPointer` is an offset into `data`, valid until the next growth.
- `forEach` receives its handler map by value. `Process` passes the current map, and the copy itself is not modelled.
