/**
 * A client of the container: the calls the repository's demonstration
 * program makes (five pushes of ints, a double and a colour, then three
 * dispatch passes), with what the contracts of Containers let a caller
 * conclude about them. Each type identity is a fixed number here; the
 * handlers stand for the printing lambdas (they leave the bytes as they are)
 * and for the one that sets an int to -1.
 */
module Demo {
  import opened Layout
  import opened Containers

  const IntHash: Hash := 1
  const DoubleHash: Hash := 2
  const ColorHash: Hash := 3

  /** A handler that only reads the object. */
  function Inspect(v: seq<Byte>): seq<Byte>
  {
    v
  }

  /** A handler that stores the 32-bit int -1 (all bits set). */
  function SetMinusOne(v: seq<Byte>): seq<Byte>
  {
    seq(|v|, _ => 0xFF)
  }

  /** The first two pushes, ints 5 and 10: the buffer grows on each, to capacity 4 and then 8. */
  method PushTwoInts() returns (c: Container)
    ensures fresh(c) && fresh(c.data)
    ensures c.Valid()
    ensures c.types == StoredTypes()[..2]
    ensures c.size == 8 && c.bufferSize == 8
    ensures c.Values() == Stored()[..2]
  {
    c := new Container();
    c.PushBack(IntHash, [5, 0, 0, 0]);
    assert c.bufferSize == 4 && c.Values() == [[5, 0, 0, 0]];
    c.PushBack(IntHash, [10, 0, 0, 0]);
  }

  /**
   * Pushes int 5, int 10, double 15.46, the colour (255, 0, 0) and int 99,
   * as little-endian bytes: the buffer grows on four of the five pushes and
   * ends with capacity 32, and the descriptors tile the 23 used bytes.
   */
  method FillContainer() returns (c: Container)
    ensures fresh(c) && fresh(c.data)
    ensures c.Valid()
    ensures c.types == StoredTypes()
    ensures c.size == 23 && c.bufferSize == 32
    ensures c.Values() == Stored()
  {
    var v := Stored();
    c := PushTwoInts();
    c.PushBack(DoubleHash, v[2]);
    assert c.bufferSize == 16 && c.Values() == [v[0], v[1], v[2]];
    c.PushBack(ColorHash, v[3]);
    assert c.bufferSize == 32 && c.Values() == [v[0], v[1], v[2], v[3]];
    c.PushBack(IntHash, v[4]);
  }

  /** A pass that visits all five objects visits them as 0, 1, 2, 3, 4. */
  lemma FiveInOrder()
    ensures seq(5, j => j) == [0, 1, 2, 3, 4]
  {
  }

  /** Handlers that leave every object's bytes as they were. */
  ghost predicate AllReading(handlers: map<Hash, Handler>)
  {
    forall h, s :: h in handlers ==> handlers[h](s) == s
  }

  /** A pass with reading handlers keeps every object. */
  lemma ReadingPassKeepsValues(values: seq<seq<Byte>>, types: seq<TypeInfo>, handlers: map<Hash, Handler>)
    requires |values| == |types|
    requires AllReading(handlers)
    ensures SizePreserving(handlers)
    ensures Dispatched(values, types, handlers) == values
  {
    var d := Dispatched(values, types, handlers);
    forall j | 0 <= j < |values|
      ensures d[j] == values[j]
    {
    }
  }

  /** A pass where ints are set to -1 and every other handler reads. */
  lemma ResetPassValues(values: seq<seq<Byte>>, types: seq<TypeInfo>, handlers: map<Hash, Handler>)
    requires |values| == |types|
    requires IntHash in handlers
    requires forall s :: handlers[IntHash](s) == SetMinusOne(s)
    requires AllReading(handlers - {IntHash})
    ensures SizePreserving(handlers)
    ensures forall j :: 0 <= j < |values| ==>
              Dispatched(values, types, handlers)[j]
                == if types[j].hashCode == IntHash then SetMinusOne(values[j]) else values[j]
  {
    forall h, s | h in handlers
      ensures |handlers[h](s)| == |s|
    {
      if h != IntHash {
        assert h in handlers - {IntHash} && (handlers - {IntHash})[h] == handlers[h];
      }
    }
    forall j | 0 <= j < |values| && types[j].hashCode != IntHash && types[j].hashCode in handlers
      ensures handlers[types[j].hashCode](values[j]) == values[j]
    {
      var h := types[j].hashCode;
      assert h in handlers - {IntHash} && (handlers - {IntHash})[h] == handlers[h];
    }
  }

  /** The five objects of FillContainer, by value. */
  function Stored(): seq<seq<Byte>>
  {
    [[5, 0, 0, 0], [10, 0, 0, 0], [0xEC, 0x51, 0xB8, 0x1E, 0x85, 0xEB, 0x2E, 0x40], [255, 0, 0], [99, 0, 0, 0]]
  }

  /** The descriptors of FillContainer. */
  function StoredTypes(): seq<TypeInfo>
  {
    [TypeInfo(IntHash, 0, 4), TypeInfo(IntHash, 4, 4), TypeInfo(DoubleHash, 8, 8),
     TypeInfo(ColorHash, 16, 3), TypeInfo(IntHash, 19, 4)]
  }

  /** Registers reading handlers for int, double and colour and runs a pass. */
  method FirstPass(visitor: ContainerVisitor) returns (visited: seq<nat>)
    requires visitor.container.Valid()
    requires visitor.container.types == StoredTypes()
    requires visitor.handlers == map[]
    modifies visitor, visitor.container.data
    ensures visitor.container.Valid()
    ensures visitor.handlers.Keys == {IntHash, DoubleHash, ColorHash} && AllReading(visitor.handlers)
    ensures visited == [0, 1, 2, 3, 4]
    ensures visitor.container.Values() == old(visitor.container.Values())
  {
    visitor.SetHandler(IntHash, Inspect);
    visitor.SetHandler(DoubleHash, Inspect);
    visitor.SetHandler(ColorHash, Inspect);
    var c := visitor.container;
    ReadingPassKeepsValues(c.Values(), c.types, visitor.handlers);
    VisitOrderAll(c.types, visitor.handlers.Keys);
    visited := visitor.Process();
    FiveInOrder();
  }

  /** Replaces the int handler by one that sets the value to -1 and runs a pass. */
  method SecondPass(visitor: ContainerVisitor) returns (visited: seq<nat>)
    requires visitor.container.Valid()
    requires visitor.container.types == StoredTypes()
    requires visitor.handlers.Keys == {IntHash, DoubleHash, ColorHash} && AllReading(visitor.handlers)
    modifies visitor, visitor.container.data
    ensures visitor.container.Valid()
    ensures visitor.handlers.Keys == {IntHash, DoubleHash, ColorHash}
    ensures AllReading(visitor.handlers - {IntHash})
    ensures visited == [0, 1, 2, 3, 4]
    ensures var before := old(visitor.container.Values());
            visitor.container.Values()
              == [SetMinusOne(before[0]), SetMinusOne(before[1]), before[2], before[3], SetMinusOne(before[4])]
  {
    visitor.SetHandler(IntHash, SetMinusOne);
    var c := visitor.container;
    ResetPassValues(c.Values(), c.types, visitor.handlers);
    VisitOrderAll(c.types, visitor.handlers.Keys);
    visited := visitor.Process();
    FiveInOrder();
  }

  /** Puts a reading int handler back and runs a pass. */
  method ThirdPass(visitor: ContainerVisitor) returns (visited: seq<nat>)
    requires visitor.container.Valid()
    requires visitor.container.types == StoredTypes()
    requires visitor.handlers.Keys == {IntHash, DoubleHash, ColorHash}
    requires AllReading(visitor.handlers - {IntHash})
    modifies visitor, visitor.container.data
    ensures visitor.container.Valid()
    ensures visited == [0, 1, 2, 3, 4]
    ensures visitor.container.Values() == old(visitor.container.Values())
  {
    visitor.SetHandler(IntHash, Inspect);
    var c := visitor.container;
    forall h, s | h in visitor.handlers
      ensures visitor.handlers[h](s) == s
    {
      if h != IntHash {
        ghost var rest := old(visitor.handlers) - {IntHash};
        assert h in rest && rest[h] == visitor.handlers[h];
      }
    }
    ReadingPassKeepsValues(c.Values(), c.types, visitor.handlers);
    VisitOrderAll(c.types, visitor.handlers.Keys);
    visited := visitor.Process();
    FiveInOrder();
  }

  /**
   * Three dispatch passes: with reading handlers for int, double and colour,
   * then with the int handler replaced by one that sets the value to -1,
   * then with a reading int handler again. Every pass visits all five
   * objects in insertion order; after the second pass the three ints read
   * -1 and the double and the colour are untouched.
   */
  method Scenario() returns (firstPass: seq<nat>, secondPass: seq<nat>, thirdPass: seq<nat>,
                             ints: seq<seq<Byte>>, others: seq<seq<Byte>>)
    ensures firstPass == secondPass == thirdPass == [0, 1, 2, 3, 4]
    ensures ints == [[0xFF, 0xFF, 0xFF, 0xFF], [0xFF, 0xFF, 0xFF, 0xFF], [0xFF, 0xFF, 0xFF, 0xFF]]
    ensures others == [[0xEC, 0x51, 0xB8, 0x1E, 0x85, 0xEB, 0x2E, 0x40], [255, 0, 0]]
  {
    var c := FillContainer();
    var visitor := new ContainerVisitor(c);
    firstPass := FirstPass(visitor);
    secondPass := SecondPass(visitor);
    thirdPass := ThirdPass(visitor);
    ghost var minusOne: seq<Byte> := [0xFF, 0xFF, 0xFF, 0xFF];
    assert SetMinusOne(Stored()[0]) == SetMinusOne(Stored()[1]) == SetMinusOne(Stored()[4]) == minusOne;
    assert c.Values() == [minusOne, minusOne, Stored()[2], Stored()[3], minusOne];
    ints := [c.data[0..4], c.data[4..8], c.data[19..23]];
    others := [c.data[8..16], c.data[16..19]];
  }
}
