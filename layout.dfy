/**
 * The layout of the universal container's byte arena, as values: the
 * descriptor of a stored object, the rule that descriptors tile the used
 * bytes without gaps, the growth policy of the buffer, the view of the used
 * bytes as one byte string per stored object, and what one dispatch pass
 * does to those byte strings.
 */
module Layout {

  type Byte = bv8

  /** The type identity of a stored object, `typeid(obj).hash_code()`. */
  type Hash = nat

  /** One stored object: its type identity and the bytes `[offset, offset + length)`. */
  datatype TypeInfo = TypeInfo(hashCode: Hash, offset: nat, length: nat)

  /** A handler registered for a type: given the bytes of one stored object, the bytes it leaves behind. */
  type Handler = seq<Byte> -> seq<Byte>

  /**
   * Every registered handler leaves bytes of the size it was given: a handler
   * reinterprets the bytes as the registered type and writes only that
   * object back.
   */
  ghost predicate SizePreserving(handlers: map<Hash, Handler>)
  {
    forall h, s :: h in handlers ==> |handlers[h](s)| == |s|
  }

  // ---------------------------------------------------------------------
  // Growth policy
  // ---------------------------------------------------------------------

  /**
   * The capacity `expandContainer(minimumSize)` moves to: the doubled
   * capacity when that leaves room for `minimumSize` more bytes, and
   * otherwise the doubled capacity plus `minimumSize`.
   */
  function GrownCapacity(bufferSize: nat, minimumSize: nat): (r: nat)
    ensures r >= bufferSize + minimumSize
    ensures r >= 2 * bufferSize
    ensures r == 2 * bufferSize || r == 2 * bufferSize + minimumSize
    ensures bufferSize == 0 ==> r == minimumSize
    ensures r == 2 * bufferSize <==> minimumSize <= bufferSize
  {
    var newSize := bufferSize * 2;
    if newSize < bufferSize + minimumSize then newSize + minimumSize else newSize
  }

  // ---------------------------------------------------------------------
  // Contiguous descriptors
  // ---------------------------------------------------------------------

  /** The first byte after the last descriptor (0 when there is none). */
  function End(types: seq<TypeInfo>): nat
  {
    if |types| == 0 then 0 else types[|types| - 1].offset + types[|types| - 1].length
  }

  /** The first descriptor starts at 0 and each later one where the previous one ends. */
  ghost predicate Contiguous(types: seq<TypeInfo>)
  {
    && (|types| > 0 ==> types[0].offset == 0)
    && forall i, j :: 0 <= i && j == i + 1 < |types| ==> types[j].offset == types[i].offset + types[i].length
  }

  /** The sum of the lengths of all descriptors. */
  function TotalLength(types: seq<TypeInfo>): nat
  {
    if |types| == 0 then 0 else TotalLength(types[..|types| - 1]) + types[|types| - 1].length
  }

  /** Each descriptor starts at the total length of the descriptors before it. */
  ghost predicate PrefixSums(types: seq<TypeInfo>)
  {
    forall i :: 0 <= i < |types| ==> types[i].offset == TotalLength(types[..i])
  }

  /** Contiguity of a non-empty sequence is contiguity of its front plus the last link. */
  lemma ContiguousSnoc(types: seq<TypeInfo>)
    requires |types| > 0
    ensures Contiguous(types) <==>
              Contiguous(types[..|types| - 1]) && types[|types| - 1].offset == End(types[..|types| - 1])
  {
    var p := types[..|types| - 1];
    if Contiguous(p) && types[|types| - 1].offset == End(p) {
      forall i, j | 0 <= i && j == i + 1 < |types|
        ensures types[j].offset == types[i].offset + types[i].length
      {
        if j < |types| - 1 {
          assert types[i] == p[i] && types[j] == p[j];
        }
      }
    }
  }

  /** The prefix-sum rule for a non-empty sequence is the rule for its front plus the last offset. */
  lemma PrefixSumsSnoc(types: seq<TypeInfo>)
    requires |types| > 0
    ensures PrefixSums(types) <==>
              PrefixSums(types[..|types| - 1]) && types[|types| - 1].offset == TotalLength(types[..|types| - 1])
  {
    var n := |types| - 1;
    var p := types[..n];
    forall i | 0 <= i < n
      ensures types[i] == p[i] && types[..i] == p[..i]
    {
    }
  }

  /**
   * The adjacency rule and the prefix-sum rule describe the same layouts, and
   * for such a layout the end of the last descriptor is the total length.
   */
  lemma {:induction false} ContiguousIffPrefixSums(types: seq<TypeInfo>)
    ensures Contiguous(types) <==> PrefixSums(types)
    ensures Contiguous(types) ==> End(types) == TotalLength(types)
  {
    if |types| > 0 {
      var n := |types| - 1;
      var p := types[..n];
      ContiguousIffPrefixSums(p);
      ContiguousSnoc(types);
      PrefixSumsSnoc(types);
      assert TotalLength(types) == TotalLength(p) + types[n].length;
    }
  }

  /** Under contiguity an earlier descriptor ends no later than a later one starts. */
  lemma {:induction false} RegionsOrdered(types: seq<TypeInfo>, j: nat, i: nat)
    requires Contiguous(types)
    requires j < i < |types|
    ensures types[j].offset + types[j].length <= types[i].offset
  {
    if j < i - 1 {
      RegionsOrdered(types, j, i - 1);
    }
  }

  /** Under contiguity every descriptor lies inside `[0, End(types))`. */
  lemma AllRegionsWithinEnd(types: seq<TypeInfo>)
    requires Contiguous(types)
    ensures forall i :: 0 <= i < |types| ==> types[i].offset + types[i].length <= End(types)
  {
    forall i | 0 <= i < |types|
      ensures types[i].offset + types[i].length <= End(types)
    {
      RegionWithinEnd(types, i);
    }
  }

  /** Under contiguity the `i`-th descriptor lies inside `[0, End(types))`. */
  lemma RegionWithinEnd(types: seq<TypeInfo>, i: nat)
    requires Contiguous(types)
    requires i < |types|
    ensures types[i].offset + types[i].length <= End(types)
  {
    if i < |types| - 1 {
      RegionsOrdered(types, i, |types| - 1);
    }
  }

  // ---------------------------------------------------------------------
  // Bytes viewed as one value per descriptor
  // ---------------------------------------------------------------------

  /** `bytes` with `src` written over `[offset, offset + |src|)`. */
  function Overwrite(bytes: seq<Byte>, offset: nat, src: seq<Byte>): (r: seq<Byte>)
    requires offset + |src| <= |bytes|
    ensures |r| == |bytes|
    ensures forall p :: 0 <= p < |r| ==>
              r[p] == if offset <= p < offset + |src| then src[p - offset] else bytes[p]
  {
    bytes[..offset] + src + bytes[offset + |src|..]
  }

  /** The bytes of one stored object. */
  function Region(bytes: seq<Byte>, t: TypeInfo): seq<Byte>
    requires t.offset + t.length <= |bytes|
  {
    bytes[t.offset..t.offset + t.length]
  }

  /** The stored objects, in insertion order, each as the bytes its descriptor covers. */
  function Segments(bytes: seq<Byte>, types: seq<TypeInfo>): (vs: seq<seq<Byte>>)
    requires Contiguous(types)
    requires End(types) <= |bytes|
    ensures |vs| == |types|
    ensures forall i :: 0 <= i < |vs| ==> |vs[i]| == types[i].length
  {
    AllRegionsWithinEnd(types);
    seq(|types|, i requires 0 <= i < |types| => Region(bytes, types[i]))
  }

  /** The stored objects' bytes laid end to end. */
  function Concat(vs: seq<seq<Byte>>): seq<Byte>
  {
    if |vs| == 0 then [] else Concat(vs[..|vs| - 1]) + vs[|vs| - 1]
  }

  /** Segments of a longer descriptor sequence extend those of its front. */
  lemma SegmentsSnoc(bytes: seq<Byte>, types: seq<TypeInfo>)
    requires |types| > 0
    requires Contiguous(types)
    requires End(types) <= |bytes|
    ensures Contiguous(types[..|types| - 1])
    ensures End(types[..|types| - 1]) <= |bytes|
    ensures Segments(bytes, types) ==
              Segments(bytes, types[..|types| - 1]) + [Region(bytes, types[|types| - 1])]
  {
    ContiguousSnoc(types);
    var p := types[..|types| - 1];
    if |p| > 0 {
      RegionWithinEnd(types, |p| - 1);
    }
  }

  /** The descriptors partition the used bytes: their segments laid end to end give them back. */
  lemma {:induction false} SegmentsPartition(bytes: seq<Byte>, types: seq<TypeInfo>)
    requires Contiguous(types)
    requires End(types) <= |bytes|
    ensures Concat(Segments(bytes, types)) == bytes[..End(types)]
  {
    if |types| > 0 {
      var p := types[..|types| - 1];
      SegmentsSnoc(bytes, types);
      SegmentsPartition(bytes, p);
      PartitionStep(bytes, types);
    }
  }

  /** The inductive step of SegmentsPartition: one more descriptor adds its region at the end. */
  lemma PartitionStep(bytes: seq<Byte>, types: seq<TypeInfo>)
    requires |types| > 0
    requires Contiguous(types)
    requires End(types) <= |bytes|
    requires Contiguous(types[..|types| - 1])
    requires Concat(Segments(bytes, types[..|types| - 1])) == bytes[..End(types[..|types| - 1])]
    ensures Concat(Segments(bytes, types)) == bytes[..End(types)]
  {
    var n := |types| - 1;
    var p := types[..n];
    SegmentsSnoc(bytes, types);
    var vs := Segments(bytes, types);
    assert vs[..n] == Segments(bytes, p);
    ContiguousSnoc(types);
    calc {
      Concat(vs);
      Concat(vs[..n]) + vs[n];
      bytes[..End(p)] + bytes[End(p)..End(types)];
      bytes[..End(types)];
    }
  }

  /**
   * The converse of SegmentsPartition: values of the descriptors' lengths,
   * laid end to end, are read back unchanged through the same descriptors.
   */
  lemma {:induction false} ConcatSegments(vs: seq<seq<Byte>>, types: seq<TypeInfo>)
    requires Contiguous(types)
    requires |vs| == |types|
    requires forall i :: 0 <= i < |vs| ==> |vs[i]| == types[i].length
    ensures |Concat(vs)| == End(types)
    ensures Segments(Concat(vs), types) == vs
  {
    if |types| > 0 {
      var n := |types| - 1;
      ContiguousSnoc(types);
      ConcatSegments(vs[..n], types[..n]);
      ConcatStep(vs, types);
    }
  }

  /** The inductive step of ConcatSegments: one more value is read back from the new last region. */
  lemma ConcatStep(vs: seq<seq<Byte>>, types: seq<TypeInfo>)
    requires |types| > 0
    requires Contiguous(types)
    requires |vs| == |types|
    requires forall i :: 0 <= i < |vs| ==> |vs[i]| == types[i].length
    requires Contiguous(types[..|types| - 1])
    requires |Concat(vs[..|vs| - 1])| == End(types[..|types| - 1])
    requires Segments(Concat(vs[..|vs| - 1]), types[..|types| - 1]) == vs[..|vs| - 1]
    ensures |Concat(vs)| == End(types)
    ensures Segments(Concat(vs), types) == vs
  {
    var n := |types| - 1;
    var p := types[..n];
    var front := Concat(vs[..n]);
    var bytes := Concat(vs);
    ContiguousSnoc(types);
    assert bytes == front + vs[n];
    assert |vs[n]| == types[n].length && types[n].offset == |front|;
    assert front == bytes[..|front|];
    SegmentsSnoc(bytes, types);
    SegmentsAgree(bytes, front, p);
    assert Region(bytes, types[n]) == vs[n];
    assert vs == vs[..n] + [vs[n]];
  }

  /** Two byte strings that agree below `n` agree on every slice below `n`. */
  lemma SliceAgree(b1: seq<Byte>, b2: seq<Byte>, n: nat, lo: nat, hi: nat)
    requires lo <= hi <= n <= |b1| && n <= |b2|
    requires b1[..n] == b2[..n]
    ensures b1[lo..hi] == b2[lo..hi]
  {
    forall k | 0 <= k < hi - lo
      ensures b1[lo..hi][k] == b2[lo..hi][k]
    {
      assert b1[lo..hi][k] == b1[..n][lo + k];
      assert b2[lo..hi][k] == b2[..n][lo + k];
    }
  }

  /** Segments read only the bytes below `End(types)`. */
  lemma SegmentsAgree(b1: seq<Byte>, b2: seq<Byte>, types: seq<TypeInfo>)
    requires Contiguous(types)
    requires End(types) <= |b1| && End(types) <= |b2|
    requires b1[..End(types)] == b2[..End(types)]
    ensures Segments(b1, types) == Segments(b2, types)
  {
    forall i | 0 <= i < |types|
      ensures Segments(b1, types)[i] == Segments(b2, types)[i]
    {
      RegionWithinEnd(types, i);
      SliceAgree(b1, b2, End(types), types[i].offset, types[i].offset + types[i].length);
    }
  }

  /**
   * Appending: a descriptor placed where the used bytes end, with the
   * object's bytes written there, extends the tiling by exactly that object
   * and leaves every earlier object's bytes as they were.
   */
  lemma AppendObject(bytes: seq<Byte>, types: seq<TypeInfo>, hash: Hash, obj: seq<Byte>)
    requires Contiguous(types)
    requires End(types) + |obj| <= |bytes|
    ensures var t := TypeInfo(hash, End(types), |obj|);
            var after := Overwrite(bytes, End(types), obj);
            && Contiguous(types + [t])
            && End(types + [t]) == End(types) + |obj|
            && after[..End(types) + |obj|] == bytes[..End(types)] + obj
            && Segments(after, types + [t]) == Segments(bytes, types) + [obj]
  {
    var t := TypeInfo(hash, End(types), |obj|);
    var ts := types + [t];
    var after := Overwrite(bytes, End(types), obj);
    assert ts[..|ts| - 1] == types;
    ContiguousSnoc(ts);
    assert after[..End(types)] == bytes[..End(types)];
    SegmentsAgree(after, bytes, types);
    SegmentsSnoc(after, ts);
    assert Region(after, t) == obj;
    assert after[..End(types) + |obj|] == bytes[..End(types)] + obj;
  }

  /** Writing over one object's bytes changes that object and no other. */
  lemma SegmentsOverwrite(bytes: seq<Byte>, types: seq<TypeInfo>, i: nat, v: seq<Byte>)
    requires Contiguous(types)
    requires End(types) <= |bytes|
    requires i < |types|
    requires |v| == types[i].length
    ensures types[i].offset + |v| <= |bytes|
    ensures Segments(Overwrite(bytes, types[i].offset, v), types) == Segments(bytes, types)[i := v]
  {
    RegionWithinEnd(types, i);
    var o := types[i].offset;
    var b := Overwrite(bytes, o, v);
    forall j | 0 <= j < |types|
      ensures Segments(b, types)[j] == Segments(bytes, types)[i := v][j]
    {
      RegionWithinEnd(types, j);
      var t := types[j];
      if j < i {
        RegionsOrdered(types, j, i);
      } else if j > i {
        RegionsOrdered(types, i, j);
      }
      assert forall k :: 0 <= k < t.length ==>
        Region(b, t)[k] == b[t.offset + k];
    }
  }

  // ---------------------------------------------------------------------
  // Dispatch
  // ---------------------------------------------------------------------

  /** One object after dispatch: its handler's output if its type has a handler, else unchanged. */
  function Apply(handlers: map<Hash, Handler>, hash: Hash, v: seq<Byte>): (r: seq<Byte>)
    requires SizePreserving(handlers)
    ensures |r| == |v|
    ensures hash !in handlers ==> r == v
  {
    if hash in handlers then handlers[hash](v) else v
  }

  /**
   * The stored objects after one dispatch pass with `handlers`: every object
   * keeps its size, and an object whose type has no handler is left as it was.
   */
  function Dispatched(values: seq<seq<Byte>>, types: seq<TypeInfo>, handlers: map<Hash, Handler>)
    : (r: seq<seq<Byte>>)
    requires SizePreserving(handlers)
    requires |values| == |types|
    ensures |r| == |values|
    ensures forall j :: 0 <= j < |r| ==> |r[j]| == |values[j]|
    ensures forall j :: 0 <= j < |r| && types[j].hashCode !in handlers ==> r[j] == values[j]
  {
    seq(|values|, j requires 0 <= j < |values| => Apply(handlers, types[j].hashCode, values[j]))
  }

  /** The stored objects part way through a dispatch pass: the first `n` have been handled. */
  function DispatchedUpTo(values: seq<seq<Byte>>, types: seq<TypeInfo>, handlers: map<Hash, Handler>, n: nat)
    : (r: seq<seq<Byte>>)
    requires SizePreserving(handlers)
    requires |values| == |types|
    requires n <= |values|
  {
    seq(|values|, j requires 0 <= j < |values| =>
      if j < n then Apply(handlers, types[j].hashCode, values[j]) else values[j])
  }

  /** Handling the next object moves a partial pass one step on. */
  lemma DispatchStep(values: seq<seq<Byte>>, types: seq<TypeInfo>, handlers: map<Hash, Handler>, n: nat)
    requires |values| == |types|
    requires SizePreserving(handlers)
    requires n < |values|
    ensures DispatchedUpTo(values, types, handlers, n + 1)
              == DispatchedUpTo(values, types, handlers, n)[n := Apply(handlers, types[n].hashCode, values[n])]
  {
    var a := DispatchedUpTo(values, types, handlers, n + 1);
    var b := DispatchedUpTo(values, types, handlers, n)[n := Apply(handlers, types[n].hashCode, values[n])];
    assert |a| == |b|;
    forall j | 0 <= j < |a|
      ensures a[j] == b[j]
    {
    }
  }

  /** A pass that has handled nothing leaves the objects alone; one that has handled all is Dispatched. */
  lemma DispatchEnds(values: seq<seq<Byte>>, types: seq<TypeInfo>, handlers: map<Hash, Handler>)
    requires |values| == |types|
    requires SizePreserving(handlers)
    ensures DispatchedUpTo(values, types, handlers, 0) == values
    ensures DispatchedUpTo(values, types, handlers, |values|) == Dispatched(values, types, handlers)
  {
    var z := DispatchedUpTo(values, types, handlers, 0);
    assert forall j | 0 <= j < |z| :: z[j] == values[j];
    var a := DispatchedUpTo(values, types, handlers, |values|);
    var d := Dispatched(values, types, handlers);
    assert forall j | 0 <= j < |a| :: a[j] == d[j];
  }

  /**
   * A dispatch pass keeps the layout: the objects it leaves behind, laid end
   * to end, fill the same bytes and are read back through the same
   * descriptors.
   */
  lemma DispatchKeepsLayout(bytes: seq<Byte>, types: seq<TypeInfo>, handlers: map<Hash, Handler>)
    requires SizePreserving(handlers)
    requires Contiguous(types)
    requires End(types) <= |bytes|
    ensures |Concat(Dispatched(Segments(bytes, types), types, handlers))| == End(types)
    ensures Segments(Concat(Dispatched(Segments(bytes, types), types, handlers)), types)
              == Dispatched(Segments(bytes, types), types, handlers)
  {
    ConcatSegments(Dispatched(Segments(bytes, types), types, handlers), types);
  }

  /**
   * The indices of the descriptors whose handler a dispatch pass invokes, in
   * the order it invokes them.
   */
  function VisitOrder(types: seq<TypeInfo>, keys: set<Hash>): seq<nat>
  {
    if |types| == 0 then []
    else VisitOrder(types[..|types| - 1], keys)
         + (if types[|types| - 1].hashCode in keys then [|types| - 1] else [])
  }

  /** Visiting one more descriptor appends its index exactly when its type has a handler. */
  lemma VisitOrderSnoc(types: seq<TypeInfo>, keys: set<Hash>, i: nat)
    requires i < |types|
    ensures VisitOrder(types[..i + 1], keys)
              == VisitOrder(types[..i], keys) + (if types[i].hashCode in keys then [i] else [])
  {
    assert types[..i + 1][..i] == types[..i];
  }

  /**
   * A dispatch pass visits exactly the descriptors whose type has a handler,
   * and it visits them in insertion order, each once.
   */
  lemma {:induction false} VisitOrderSpec(types: seq<TypeInfo>, keys: set<Hash>)
    ensures forall j :: j in VisitOrder(types, keys) <==> 0 <= j < |types| && types[j].hashCode in keys
    ensures forall a, b :: 0 <= a < b < |VisitOrder(types, keys)| ==>
              VisitOrder(types, keys)[a] < VisitOrder(types, keys)[b]
  {
    if |types| > 0 {
      var n := |types| - 1;
      var p := types[..n];
      VisitOrderSpec(p, keys);
      assert forall j :: 0 <= j < n ==> p[j] == types[j];
      var front := VisitOrder(p, keys);
      var vo := VisitOrder(types, keys);
      assert vo == front + (if types[n].hashCode in keys then [n] else []);
      forall a, b | 0 <= a < b < |vo|
        ensures vo[a] < vo[b]
      {
        if b >= |front| {
          assert front[a] in front;
        }
      }
    }
  }

  /** When every stored type has a handler, a pass visits every descriptor, in insertion order. */
  lemma {:induction false} VisitOrderAll(types: seq<TypeInfo>, keys: set<Hash>)
    requires forall j :: 0 <= j < |types| ==> types[j].hashCode in keys
    ensures VisitOrder(types, keys) == seq(|types|, j => j)
  {
    if |types| > 0 {
      var n := |types| - 1;
      VisitOrderAll(types[..n], keys);
      assert seq(|types|, j => j) == seq(n, j => j) + [n];
    }
  }
}
