/**
 * Equality of macro structs, which ignores what unset optional fields hold, and the round trip up to it for values
 * that are not of normal form.
 */
module ThriftEquality {
  import opened RpcTypes
  import opened ThriftWire
  import opened ThriftCodec
  import opened ThriftLaws
  import opened ThriftNormal

  /** operator== of macro structs, and of the containers over them. */
  ghost predicate Equal(t: Type, a: Val, b: Val)
    requires HasType(t, a) && HasType(t, b)
  {
    match t
    case TStruct(fields) => forall i :: 0 <= i < |fields| ==> EqualField(fields[i], a.slots[i], b.slots[i])
    case TList(elem) => |a.items| == |b.items| && forall i :: 0 <= i < |a.items| ==> Equal(elem, a.items[i], b.items[i])
    case TSet(elem, _, _) =>
      |a.items| == |b.items| && forall i :: 0 <= i < |a.items| ==> Equal(elem, a.items[i], b.items[i])
    case TMap(key, value, _) =>
      |a.pairs| == |b.pairs| && forall i :: 0 <= i < |a.pairs| ==>
        Equal(key, a.pairs[i].0, b.pairs[i].0) && Equal(value, a.pairs[i].1, b.pairs[i].1)
    case _ => a == b
  }

  ghost predicate EqualField(f: Field, a: Slot, b: Slot)
    requires HasType(f.t, a.val) && HasType(f.t, b.val)
  {
    if f.req.Optional? then a.isset == b.isset && (a.isset ==> Equal(f.t, a.val, b.val)) else Equal(f.t, a.val, b.val)
  }

  /** What an unset field holds does not count, whether it is set does. */
  lemma EmbeddedEquality(a: int, p: bool, x: int, b: int, q: bool, y: int)
    requires HasType(EMBEDDED, Embedded(a, p, x)) && HasType(EMBEDDED, Embedded(b, q, y))
    ensures Equal(EMBEDDED, Embedded(a, p, x), Embedded(b, q, y)) <==> a == b && p == q && (p ==> x == y)
  {
    var fields, v, w := EMBEDDED.fields, Embedded(a, p, x), Embedded(b, q, y);
    assert HasType(fields[0].t, v.slots[0].val) && HasType(fields[0].t, w.slots[0].val);
    assert HasType(fields[1].t, v.slots[1].val) && HasType(fields[1].t, w.slots[1].val);
    assert Equal(EMBEDDED, v, w) <==>
           EqualField(fields[0], v.slots[0], w.slots[0]) && EqualField(fields[1], v.slots[1], w.slots[1]);
    assert Equal(TByte, VInt(a), VInt(b)) <==> a == b;
    assert Equal(TI16, VInt(x), VInt(y)) <==> x == y;
  }

  /** Values of normal form are equal exactly when they are the same value. */
  lemma {:induction false} NormalEqualIsSame(t: Type, a: Val, b: Val)
    requires HasType(t, a) && HasType(t, b) && Normal(t, a) && Normal(t, b)
    ensures Equal(t, a, b) <==> a == b
    decreases t, 0
  {
    match t
    case TStruct(fields) =>
      forall i | 0 <= i < |fields| ensures EqualField(fields[i], a.slots[i], b.slots[i]) <==> a.slots[i] == b.slots[i] {
        NormalEqualIsSame(fields[i].t, a.slots[i].val, b.slots[i].val);
      }
      assert (forall i :: 0 <= i < |fields| ==> a.slots[i] == b.slots[i]) <==> a.slots == b.slots;
    case TList(elem) => SameItems(elem, a.items, b.items);
    case TSet(elem, _, _) => SameItems(elem, a.items, b.items);
    case TMap(key, value, _) =>
      if |a.pairs| == |b.pairs| {
        forall i | 0 <= i < |a.pairs|
          ensures Equal(key, a.pairs[i].0, b.pairs[i].0) && Equal(value, a.pairs[i].1, b.pairs[i].1)
                  <==> a.pairs[i] == b.pairs[i]
        {
          NormalEqualIsSame(key, a.pairs[i].0, b.pairs[i].0);
          NormalEqualIsSame(value, a.pairs[i].1, b.pairs[i].1);
        }
        assert (forall i :: 0 <= i < |a.pairs| ==> a.pairs[i] == b.pairs[i]) <==> a.pairs == b.pairs;
      }
    case _ =>
  }

  lemma {:induction false} SameItems(elem: Type, a: seq<Val>, b: seq<Val>)
    requires AreNormal(elem, a) && AreNormal(elem, b)
    ensures (|a| == |b| && forall i :: 0 <= i < |a| ==> Equal(elem, a[i], b[i])) <==> a == b
    decreases elem, 1
  {
    if |a| == |b| {
      forall i | 0 <= i < |a| ensures Equal(elem, a[i], b[i]) <==> a[i] == b[i] {
        NormalEqualIsSame(elem, a[i], b[i]);
      }
      assert (forall i :: 0 <= i < |a| ==> a[i] == b[i]) <==> a == b;
    }
  }

  // ---------------------------------------------------------------- what is written of a value

  /** The value with every unset field holding its default: what the bytes of `v` tell of it. */
  ghost function Cleared(t: Type, v: Val): (y: Val)
    requires HasType(t, v)
    ensures HasType(t, y)
    decreases t, 0
  {
    match t
    case TStruct(fields) =>
      VStruct(seq(|fields|, i requires 0 <= i < |fields| => ClearedSlot(fields[i], v.slots[i])))
    case TList(elem) => VSeq(seq(|v.items|, i requires 0 <= i < |v.items| => Cleared(elem, v.items[i])))
    case TSet(elem, _, _) => VSeq(seq(|v.items|, i requires 0 <= i < |v.items| => Cleared(elem, v.items[i])))
    case TMap(key, value, _) =>
      VMap(seq(|v.pairs|, i requires 0 <= i < |v.pairs| =>
                 (Cleared(key, v.pairs[i].0), Cleared(value, v.pairs[i].1))))
    case _ => v
  }

  ghost function ClearedSlot(f: Field, s: Slot): (r: Slot)
    requires HasType(f.t, s.val)
    ensures HasType(f.t, r.val) && r.isset == (!f.req.Optional? || s.isset)
    decreases f.t, 1
  {
    if IsWritten(f, s) then Slot(true, Cleared(f.t, s.val)) else FreshSlot(f)
  }

  lemma {:induction false} FreshFits(t: Type)
    ensures Fits(Fresh(t))
  {
    match t
    case TStruct(fields) =>
      forall i | 0 <= i < |fields| ensures Fits(FreshSlot(fields[i]).val) {
        FreshFits(fields[i].t);
      }
    case _ =>
  }

  lemma {:induction false} ClearedFits(t: Type, v: Val)
    requires HasType(t, v) && Fits(v)
    ensures Fits(Cleared(t, v))
  {
    match t
    case TStruct(fields) =>
      forall i | 0 <= i < |fields| ensures Fits(ClearedSlot(fields[i], v.slots[i]).val) {
        ClearedFits(fields[i].t, v.slots[i].val);
        FreshFits(fields[i].t);
      }
    case TList(elem) =>
      forall i | 0 <= i < |v.items| ensures Fits(Cleared(elem, v.items[i])) { ClearedFits(elem, v.items[i]); }
    case TSet(elem, _, _) =>
      forall i | 0 <= i < |v.items| ensures Fits(Cleared(elem, v.items[i])) { ClearedFits(elem, v.items[i]); }
    case TMap(key, value, _) =>
      forall i | 0 <= i < |v.pairs| ensures Fits(Cleared(key, v.pairs[i].0)) && Fits(Cleared(value, v.pairs[i].1)) {
        ClearedFits(key, v.pairs[i].0);
        ClearedFits(value, v.pairs[i].1);
      }
    case _ =>
  }

  /** Equality does not see the difference ... */
  lemma {:induction false} EqualToCleared(t: Type, v: Val)
    requires HasType(t, v)
    ensures Equal(t, v, Cleared(t, v))
  {
    match t
    case TStruct(fields) =>
      forall i | 0 <= i < |fields| ensures EqualField(fields[i], v.slots[i], Cleared(t, v).slots[i]) {
        EqualToCleared(fields[i].t, v.slots[i].val);
      }
    case TList(elem) =>
      forall i | 0 <= i < |v.items| ensures Equal(elem, v.items[i], Cleared(elem, v.items[i])) {
        EqualToCleared(elem, v.items[i]);
      }
    case TSet(elem, _, _) =>
      forall i | 0 <= i < |v.items| ensures Equal(elem, v.items[i], Cleared(elem, v.items[i])) {
        EqualToCleared(elem, v.items[i]);
      }
    case TMap(key, value, _) =>
      forall i | 0 <= i < |v.pairs|
        ensures Equal(key, v.pairs[i].0, Cleared(key, v.pairs[i].0))
        ensures Equal(value, v.pairs[i].1, Cleared(value, v.pairs[i].1))
      {
        EqualToCleared(key, v.pairs[i].0);
        EqualToCleared(value, v.pairs[i].1);
      }
    case _ =>
  }

  /** ... and neither do the bytes. */
  lemma {:induction false} ClearedBytes(t: Type, v: Val)
    requires HasType(t, v) && Fits(v)
    ensures Fits(Cleared(t, v)) && Enc(t, Cleared(t, v)) == Enc(t, v)
    decreases t, 1, 0
  {
    hide EncFields, EncItems, EncPairs;
    ClearedFits(t, v);
    var c := Cleared(t, v);
    match t
    case TStruct(fields) => ClearedFieldBytes(fields, v.slots, c.slots, 0);
    case TList(elem) => ClearedItemBytes(elem, v.items, c.items);
    case TSet(elem, _, _) => ClearedItemBytes(elem, v.items, c.items);
    case TMap(_, _, _) => ClearedPairBytes(t, v.pairs, c.pairs);
    case _ =>
  }

  lemma {:induction false} ClearedFieldBytes(fields: seq<Field>, slots: seq<Slot>, cleared: seq<Slot>, i: nat)
    requires i <= |fields| == |slots| == |cleared|
    requires forall k :: 0 <= k < |fields| ==> HasType(fields[k].t, slots[k].val) && Fits(slots[k].val)
    requires forall k :: 0 <= k < |fields| ==> HasType(fields[k].t, cleared[k].val) && Fits(cleared[k].val)
    requires forall k :: 0 <= k < |fields| ==> cleared[k] == ClearedSlot(fields[k], slots[k])
    ensures EncFields(fields, cleared, i) == EncFields(fields, slots, i)
    decreases TStruct(fields), 0, |fields| - i
  {
    hide Enc, HasType, Fits, Fresh, Cleared;
    if i < |fields| {
      ClearedBytes(fields[i].t, slots[i].val);
      ClearedFieldBytes(fields, slots, cleared, i + 1);
    }
  }

  lemma {:induction false} ClearedItemBytes(elem: Type, items: seq<Val>, cleared: seq<Val>)
    requires |items| == |cleared|
    requires forall k :: 0 <= k < |items| ==> HasType(elem, items[k]) && Fits(items[k])
    requires forall k :: 0 <= k < |items| ==> HasType(elem, cleared[k]) && Fits(cleared[k])
    requires forall k :: 0 <= k < |items| ==> cleared[k] == Cleared(elem, items[k])
    ensures EncItems(elem, cleared) == EncItems(elem, items)
    decreases elem, 2, |items|
  {
    hide Enc, Fits, Cleared;
    if items != [] {
      ClearedBytes(elem, items[0]);
      ClearedItemBytes(elem, items[1..], cleared[1..]);
    }
  }

  lemma {:induction false} ClearedPairBytes(t: Type, pairs: seq<(Val, Val)>, cleared: seq<(Val, Val)>)
    requires t.TMap? && |pairs| == |cleared|
    requires forall k :: 0 <= k < |pairs| ==>
        HasType(t.key, pairs[k].0) && HasType(t.value, pairs[k].1) && Fits(pairs[k].0) && Fits(pairs[k].1)
    requires forall k :: 0 <= k < |pairs| ==>
        && HasType(t.key, cleared[k].0) && HasType(t.value, cleared[k].1)
        && Fits(cleared[k].0) && Fits(cleared[k].1)
    requires forall k :: 0 <= k < |pairs| ==> cleared[k] == (Cleared(t.key, pairs[k].0), Cleared(t.value, pairs[k].1))
    ensures EncPairs(t, cleared) == EncPairs(t, pairs)
    decreases t, 0, |pairs|
  {
    hide Enc, Fits, Cleared;
    if pairs != [] {
      ClearedBytes(t.key, pairs[0].0);
      ClearedBytes(t.value, pairs[0].1);
      ClearedPairBytes(t, pairs[1..], cleared[1..]);
    }
  }

  // ---------------------------------------------------------------- round trip up to equality

  /** A schema without sets and maps: nothing in it is ordered by what unset fields hold. */
  ghost predicate Unordered(t: Type) {
    match t
    case TStruct(fields) => forall i :: 0 <= i < |fields| ==> Unordered(fields[i].t)
    case TList(elem) => Unordered(elem)
    case TSet(_, _, _) => false
    case TMap(_, _, _) => false
    case _ => true
  }

  /** Without sets and maps, putting the unset fields to their defaults always gives the normal form. */
  lemma {:induction false} ClearedIsNormal(t: Type, v: Val)
    requires HasType(t, v) && Unordered(t)
    ensures Normal(t, Cleared(t, v))
  {
    match t
    case TStruct(fields) =>
      forall i | 0 <= i < |fields| ensures Normal(fields[i].t, ClearedSlot(fields[i], v.slots[i]).val) {
        ClearedIsNormal(fields[i].t, v.slots[i].val);
        FreshIsNormal(fields[i].t);
      }
    case TList(elem) =>
      forall i | 0 <= i < |v.items| ensures Normal(elem, Cleared(elem, v.items[i])) {
        ClearedIsNormal(elem, v.items[i]);
      }
    case _ =>
  }

  /** Of all values equal to `v`, the cleared one is that of normal form. */
  lemma {:induction false} NormalEqualIsCleared(t: Type, v: Val, y: Val)
    requires HasType(t, v) && HasType(t, y) && Normal(t, y) && Equal(t, v, y)
    ensures y == Cleared(t, v)
    decreases t, 0
  {
    match t
    case TStruct(fields) =>
      forall i | 0 <= i < |fields| ensures y.slots[i] == ClearedSlot(fields[i], v.slots[i]) {
        assert EqualField(fields[i], v.slots[i], y.slots[i]);
        if IsWritten(fields[i], v.slots[i]) {
          NormalEqualIsCleared(fields[i].t, v.slots[i].val, y.slots[i].val);
        }
      }
      assert y.slots == Cleared(t, v).slots;
    case TList(elem) => ClearedItems(elem, v.items, y.items);
    case TSet(elem, _, _) => ClearedItems(elem, v.items, y.items);
    case TMap(key, value, _) =>
      forall i | 0 <= i < |v.pairs| ensures y.pairs[i] == Cleared(t, v).pairs[i] {
        NormalEqualIsCleared(key, v.pairs[i].0, y.pairs[i].0);
        NormalEqualIsCleared(value, v.pairs[i].1, y.pairs[i].1);
      }
      assert y.pairs == Cleared(t, v).pairs;
    case _ =>
  }

  lemma {:induction false} ClearedItems(elem: Type, items: seq<Val>, y: seq<Val>)
    requires |items| == |y| && AreNormal(elem, y)
    requires forall i :: 0 <= i < |items| ==> HasType(elem, items[i]) && Equal(elem, items[i], y[i])
    ensures y == seq(|items|, i requires 0 <= i < |items| => Cleared(elem, items[i]))
    decreases elem, 1
  {
    forall i | 0 <= i < |items| ensures y[i] == Cleared(elem, items[i]) {
      NormalEqualIsCleared(elem, items[i], y[i]);
    }
  }

  /**
   * Round trip up to equality: reading back gives a value equal to the one written, whatever its unset fields hold,
   * if and only if the elements of its sets and the keys of its maps stay in order without them.
   */
  lemma RoundTripIsEqual(t: Type, v: Val, rest: bytes)
    requires WellFormed(t) && Ordered(t) && HasType(t, v) && Fits(v)
    ensures var r := Read(t, Fresh(t), Enc(t, v) + rest);
            r.Some? && r.value.1 == rest && Equal(t, v, r.value.0) <==> Normal(t, Cleared(t, v))
  {
    ClearedBytes(t, v);
    EqualToCleared(t, v);
    hide Read, Enc, Normal, HasType, Equal, Cleared, Fits, WellFormed, Ordered, Fresh;
    RoundTripIffNormal(t, Cleared(t, v), rest);
    FreshIsNormal(t);
    ReadIsNormal(t, Fresh(t), Enc(t, v) + rest);
    var r := Read(t, Fresh(t), Enc(t, v) + rest);
    if r.Some? && Equal(t, v, r.value.0) {
      NormalEqualIsCleared(t, v, r.value.0);
    }
  }

  lemma {:induction false} UnorderedIsOrdered(t: Type)
    requires Unordered(t)
    ensures Ordered(t)
  {
    match t
    case TStruct(fields) =>
      forall i | 0 <= i < |fields| ensures Ordered(fields[i].t) {
        UnorderedIsOrdered(fields[i].t);
      }
    case TList(elem) => UnorderedIsOrdered(elem);
    case _ =>
  }

  /** Without sets and maps every value comes back equal to what it was, whatever its unset fields hold. */
  lemma UnorderedRoundTrip(t: Type, v: Val, rest: bytes)
    requires WellFormed(t) && Unordered(t) && HasType(t, v) && Fits(v)
    ensures var r := Read(t, Fresh(t), Enc(t, v) + rest);
            r.Some? && r.value.1 == rest && Equal(t, v, r.value.0)
  {
    UnorderedIsOrdered(t);
    ClearedIsNormal(t, v);
    RoundTripIsEqual(t, v, rest);
  }
}
