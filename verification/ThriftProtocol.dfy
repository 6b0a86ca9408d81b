/**
 * The codec as it runs: writers that append to a buffer and readers that move through one, both counting bytes,
 * proved against the functions of ThriftCodec.
 */
module ThriftProtocol {
  import opened RpcTypes
  import opened ThriftWire
  import opened ThriftCodec
  import opened ThriftEvolution
  import opened ThriftLaws

  // ---------------------------------------------------------------- writing

  /** The memory buffer that a protocol object writes to. */
  class Output {
    var buffer: bytes

    constructor ()
      ensures buffer == []
    {
      buffer := [];
    }

    method Append(s: bytes) returns (xfer: nat)
      modifies this
      ensures buffer == old(buffer) + s && xfer == |s|
    {
      buffer := buffer + s;
      xfer := |s|;
    }

    /** TTypeT<T>::write: what it appends, and how many bytes it says it did. */
    method Write(t: Type, v: Val) returns (xfer: nat)
      requires HasType(t, v) && Fits(v)
      modifies this
      ensures buffer == old(buffer) + Enc(t, v) && xfer == |Enc(t, v)|
      decreases t, 1, 0
    {
      hide EncFields, EncItems, EncPairs, EncInt, EncNat;
      Widths();
      match t {
        case TBool =>
          xfer := Append([if v.b then 1 else 0]);
        case TDouble =>
          xfer := Append(EncNat(8, v.bits));
        case TString =>
          xfer := Append(EncInt(4, |v.s|) + v.s);
        case TStruct(fields) =>
          xfer := WriteFields(fields, v.slots);
          var stop := Append([STOP]);
          xfer := xfer + stop;
          assert old(buffer) + (EncFields(fields, v.slots, 0) + [STOP])
                 == old(buffer) + EncFields(fields, v.slots, 0) + [STOP];
        case TList(elem) =>
          xfer := WriteSized(elem, v.items);
        case TSet(elem, _, _) =>
          xfer := WriteSized(elem, v.items);
        case TMap(key, value, _) =>
          xfer := WritePairs(t, v.pairs);
        case _ =>
          xfer := Append(EncInt(Width(t), v.i));
      }
    }

    /** The fields of a struct one after the other; optional fields only if set. */
    method WriteFields(fields: seq<Field>, slots: seq<Slot>) returns (xfer: nat)
      requires |fields| == |slots|
      requires forall k :: 0 <= k < |fields| ==> HasType(fields[k].t, slots[k].val) && Fits(slots[k].val)
      modifies this
      ensures buffer == old(buffer) + EncFields(fields, slots, 0) && xfer == |EncFields(fields, slots, 0)|
      decreases TStruct(fields), 0, 0
    {
      hide EncField, HasType, Fits;
      xfer := 0;
      for i := 0 to |fields|
        invariant buffer + EncFields(fields, slots, i) == old(buffer) + EncFields(fields, slots, 0)
        invariant xfer + |EncFields(fields, slots, i)| == |EncFields(fields, slots, 0)|
      {
        ghost var before := buffer;
        var field := WriteField(fields[i], slots[i]);
        xfer := xfer + field;
        assert buffer + EncFields(fields, slots, i + 1)
            == before + (EncField(fields[i], slots[i]) + EncFields(fields, slots, i + 1));
      }
    }

    /** A field header and a value; nothing for an optional field that is not set. */
    method WriteField(f: Field, slot: Slot) returns (xfer: nat)
      requires HasType(f.t, slot.val) && Fits(slot.val)
      modifies this
      ensures buffer == old(buffer) + EncField(f, slot) && xfer == |EncField(f, slot)|
      decreases f.t, 2, 0
    {
      hide Enc, EncInt, HasType, Fits;
      Widths();
      xfer := 0;
      if !f.req.Optional? || slot.isset {
        var head := Append([Code(f.t)] + EncInt(2, f.id));
        var body := Write(f.t, slot.val);
        xfer := head + body;
      }
    }

    /** A list or a set: element type, size, elements. */
    method WriteSized(elem: Type, items: seq<Val>) returns (xfer: nat)
      requires |items| < 0x8000_0000
      requires forall i :: 0 <= i < |items| ==> HasType(elem, items[i]) && Fits(items[i])
      modifies this
      ensures InWidth(4, |items|)
      ensures buffer == old(buffer) + ([Code(elem)] + EncInt(4, |items|) + EncItems(elem, items))
      ensures xfer == |[Code(elem)] + EncInt(4, |items|) + EncItems(elem, items)|
      decreases elem, 3, 0
    {
      hide Enc, EncInt, HasType, Fits;
      Widths();
      xfer := Append([Code(elem)] + EncInt(4, |items|));
      ghost var start := buffer;
      for i := 0 to |items|
        invariant buffer + EncItems(elem, items[i..]) == start + EncItems(elem, items)
        invariant xfer + |EncItems(elem, items[i..])| == 5 + |EncItems(elem, items)|
      {
        ghost var before := buffer;
        var body := Write(elem, items[i]);
        xfer := xfer + body;
        assert items[i..][1..] == items[i + 1..];
        assert buffer + EncItems(elem, items[i + 1..])
               == before + (Enc(elem, items[i]) + EncItems(elem, items[i + 1..]));
      }
      assert items[|items|..] == [] && buffer + EncItems(elem, []) == buffer;
      assert old(buffer) + [Code(elem)] + EncInt(4, |items|) + EncItems(elem, items)
          == old(buffer) + ([Code(elem)] + EncInt(4, |items|) + EncItems(elem, items));
    }

    method WritePairs(t: Type, pairs: seq<(Val, Val)>) returns (xfer: nat)
      requires t.TMap? && |pairs| < 0x8000_0000
      requires forall i :: 0 <= i < |pairs| ==>
          HasType(t.key, pairs[i].0) && HasType(t.value, pairs[i].1) && Fits(pairs[i].0) && Fits(pairs[i].1)
      modifies this
      ensures InWidth(4, |pairs|)
      ensures buffer == old(buffer) + ([Code(t.key), Code(t.value)] + EncInt(4, |pairs|) + EncPairs(t, pairs))
      ensures xfer == |[Code(t.key), Code(t.value)] + EncInt(4, |pairs|) + EncPairs(t, pairs)|
      decreases t, 0, 0
    {
      hide Enc, EncInt, HasType, Fits;
      Widths();
      xfer := Append([Code(t.key), Code(t.value)] + EncInt(4, |pairs|));
      ghost var start := buffer;
      for i := 0 to |pairs|
        invariant buffer + EncPairs(t, pairs[i..]) == start + EncPairs(t, pairs)
        invariant xfer + |EncPairs(t, pairs[i..])| == 6 + |EncPairs(t, pairs)|
      {
        ghost var before := buffer;
        var key := Write(t.key, pairs[i].0);
        var value := Write(t.value, pairs[i].1);
        xfer := xfer + key + value;
        assert pairs[i..][1..] == pairs[i + 1..];
        assert buffer + EncPairs(t, pairs[i + 1..])
            == before + (Enc(t.key, pairs[i].0) + Enc(t.value, pairs[i].1) + EncPairs(t, pairs[i + 1..]));
      }
      assert pairs[|pairs|..] == [] && buffer + EncPairs(t, []) == buffer;
      assert old(buffer) + [Code(t.key), Code(t.value)] + EncInt(4, |pairs|) + EncPairs(t, pairs)
          == old(buffer) + ([Code(t.key), Code(t.value)] + EncInt(4, |pairs|) + EncPairs(t, pairs));
    }
  }

  // ---------------------------------------------------------------- reading

  /** The memory buffer that a protocol object reads from. */
  class Input {
    const data: bytes
    var pos: nat

    ghost predicate Valid()
      reads this
    {
      pos <= |data|
    }

    ghost function Rest(): bytes
      requires Valid()
      reads this
    {
      data[pos..]
    }

    constructor (data: bytes)
      ensures Valid() && this.data == data && Rest() == data
    {
      this.data := data;
      pos := 0;
    }

    /** The next `n` bytes, or failure when there are fewer. */
    method Take(n: nat) returns (s: Option<bytes>)
      requires Valid()
      modifies this
      ensures Valid() && old(pos) <= pos
      ensures match s
              case Some(b) =>
                |old(Rest())| >= n && b == old(Rest())[..n] && Rest() == old(Rest())[n..] && pos == old(pos) + n
              case None => |old(Rest())| < n && pos == old(pos)
    {
      if |data| - pos < n {
        return None;
      }
      s := Some(data[pos..pos + n]);
      pos := pos + n;
    }

    /** readByte, readI16, readI32, readI64. */
    method TakeInt(n: nat) returns (i: Option<int>)
      requires Valid()
      modifies this
      ensures Valid() && old(pos) <= pos
      ensures match ReadInt(n, old(Rest()))
              case Some((k, rest)) => i == Some(k) && Rest() == rest && pos == old(pos) + n
              case None => i == None
    {
      var s := Take(n);
      match s {
        case Some(b) => i := Some(DecInt(b));
        case None => i := None;
      }
    }

    /** A 32-bit size; a negative one is an error. */
    method TakeSize() returns (n: Option<nat>)
      requires Valid()
      modifies this
      ensures Valid() && old(pos) <= pos
      ensures match ReadInt(4, old(Rest()))
              case Some((k, rest)) =>
                if k < 0 then n == None else n.Some? && n.value == k && Rest() == rest && pos == old(pos) + 4
              case None => n == None
    {
      var i := TakeInt(4);
      if i.Some? && i.value >= 0 {
        return Some(i.value);
      }
      return None;
    }

    /** readListBegin, readSetBegin, readMapBegin: the element types on the wire are not looked at. */
    method TakeHeader(types: nat) returns (n: Option<nat>)
      requires Valid() && types > 0
      modifies this
      ensures Valid() && old(pos) <= pos && (n.Some? ==> old(pos) < pos)
      ensures |old(Rest())| < types ==> n == None
      ensures |old(Rest())| >= types ==>
                match ReadInt(4, old(Rest())[types..])
                case Some((k, rest)) => if k < 0 then n == None else n.Some? && n.value == k && Rest() == rest
                case None => n == None
    {
      n := None;
      var codes := Take(types);
      if codes.Some? { n := TakeSize(); }
    }

    /** TProtocol::skip. */
    method SkipValue(code: byte) returns (xfer: Option<nat>)
      requires Valid()
      modifies this
      ensures Valid() && old(pos) <= pos
      ensures match Skip(code, old(Rest()))
              case Some(rest) => Rest() == rest && xfer == Some(pos - old(pos))
              case None => xfer == None
      decreases |data| - pos, 1, 0
    {
      var start := pos;
      var ok := false;
      match code {
        case 2 => ok := Discard(1);
        case 3 => ok := Discard(1);
        case 4 => ok := Discard(8);
        case 6 => ok := Discard(2);
        case 8 => ok := Discard(4);
        case 10 => ok := Discard(8);
        case 11 =>
          var n := TakeSize();
          if n.Some? { ok := Discard(n.value); }
        case 12 => ok := SkipStruct();
        case 13 =>
          var types := Take(2);
          if types.Some? {
            var n := TakeSize();
            if n.Some? { ok := SkipEntries(types.value[0], types.value[1], n.value); }
          }
        case 14 => ok := SkipSized();
        case 15 => ok := SkipSized();
        case _ =>
      }
      xfer := if ok then Some(pos - start) else None;
    }

    method Discard(n: nat) returns (ok: bool)
      requires Valid()
      modifies this
      ensures Valid() && old(pos) <= pos
      ensures ok == Drop(n, old(Rest())).Some? && (ok ==> Rest() == Drop(n, old(Rest())).value)
    {
      var s := Take(n);
      ok := s.Some?;
    }

    method SkipSized() returns (ok: bool)
      requires Valid()
      modifies this
      ensures Valid() && old(pos) <= pos
      ensures ok == SkipContainer(old(Rest())).Some? && (ok ==> Rest() == SkipContainer(old(Rest())).value)
      decreases |data| - pos, 0, 0
    {
      var elem := Take(1);
      if elem.None? { return false; }
      var n := TakeSize();
      if n.None? { return false; }
      ghost var all := SkipItems(elem.value[0], n.value, Rest());
      for i := 0 to n.value
        invariant Valid() && old(pos) < pos && Rest() == data[pos..]
        invariant SkipItems(elem.value[0], n.value - i, Rest()) == all
      {
        var x := SkipValue(elem.value[0]);
        if x.None? { return false; }
      }
      ok := true;
    }

    method SkipEntries(key: byte, value: byte, n: nat) returns (ok: bool)
      requires Valid()
      modifies this
      ensures Valid() && old(pos) <= pos
      ensures ok == SkipPairs(key, value, n, old(Rest())).Some?
      ensures ok ==> Rest() == SkipPairs(key, value, n, old(Rest())).value
      decreases |data| - pos, 2, n
    {
      hide SkipPairs, Skip, Rest;
      ghost var all := SkipPairs(key, value, n, Rest());
      for i := 0 to n
        invariant Valid() && old(pos) <= pos
        invariant SkipPairs(key, value, n - i, Rest()) == all
      {
        PairsSkipped(key, value, n - i, Rest());
        var k := SkipValue(key);
        if k.None? { return false; }
        var v := SkipValue(value);
        if v.None? { return false; }
      }
      PairsSkipped(key, value, 0, Rest());
      ok := true;
    }

    method SkipStruct() returns (ok: bool)
      requires Valid()
      modifies this
      ensures Valid() && old(pos) <= pos
      ensures ok == SkipFields(old(Rest())).Some? && (ok ==> Rest() == SkipFields(old(Rest())).value)
      decreases |data| - pos, 0, 0
    {
      ghost var all := SkipFields(Rest());
      while true
        invariant Valid() && old(pos) <= pos
        invariant SkipFields(Rest()) == all
        decreases |data| - pos
      {
        var code := Take(1);
        if code.None? { return false; }
        if code.value[0] == STOP { return true; }
        var id := TakeInt(2);
        if id.None? { return false; }
        var x := SkipValue(code.value[0]);
        if x.None? { return false; }
      }
    }

    /** TTypeT<T>::read into the target `x`: the value and the number of bytes read, or an exception. */
    method Read(t: Type, x: Val) returns (r: Option<(Val, nat)>)
      requires Valid() && HasType(t, x)
      modifies this
      ensures Valid() && old(pos) <= pos
      ensures match ThriftCodec.Read(t, x, old(Rest()))
              case Some((v, rest)) => r == Some((v, pos - old(pos))) && Rest() == rest
              case None => r == None
      decreases |data| - pos, 1, 0
    {
      hide ThriftCodec.ReadFields, ThriftCodec.ReadItems, ThriftCodec.ReadSet, ThriftCodec.ReadPairs;
      var start := pos;
      var v: Option<Val> := None;
      match t {
        case TStruct(fields) =>
          v := ReadStruct(fields, x.slots);
        case TList(elem) =>
          var n := TakeHeader(1);
          if n.Some? { v := ReadElements(elem, n.value); }
        case TSet(elem, less, clears) =>
          var n := TakeHeader(1);
          if n.Some? { v := ReadInto(elem, less, if clears then [] else x.items, n.value); }
        case TMap(key, value, less) =>
          var n := TakeHeader(2);
          if n.Some? { v := ReadEntries(key, value, less, n.value); }
        case _ =>
          v := ReadScalar(t, x);
      }
      r := if v.Some? then Some((v.value, pos - start)) else None;
    }

    /** readBool, readByte, readI16, readI32, readI64, readDouble, readString. */
    method ReadScalar(t: Type, ghost x: Val) returns (v: Option<Val>)
      requires Valid() && IsScalar(t) && HasType(t, x)
      modifies this
      ensures Valid() && old(pos) <= pos
      ensures match ThriftCodec.Read(t, x, old(Rest()))
              case Some((y, rest)) => v == Some(y) && Rest() == rest
              case None => v == None
      decreases |data| - pos, 0, 0
    {
      v := None;
      if t.TBool? {
        var b := Take(1);
        if b.Some? { v := Some(VBool(b.value[0] != 0)); }
      } else if t.TDouble? {
        var b := Take(8);
        if b.Some? { v := Some(VDouble(DecNat(b.value))); }
      } else if t.TString? {
        var n := TakeSize();
        if n.Some? {
          var b := Take(n.value);
          if b.Some? { v := Some(VString(b.value)); }
        }
      } else {
        var i := TakeInt(Width(t));
        if i.Some? { v := Some(VInt(i.value)); }
      }
    }

    /** The read loop of a struct, and the check that every required field has come. */
    method ReadStruct(fields: seq<Field>, target: seq<Slot>) returns (v: Option<Val>)
      requires Valid() && SlotsOk(fields, target)
      modifies this
      ensures Valid() && old(pos) <= pos
      ensures match ReadFields(fields, target, {}, old(Rest()))
              case Some((slots, seen, rest)) =>
                v == (if AllRequired(fields, seen) then Some(VStruct(slots)) else None) && (v.Some? ==> Rest() == rest)
              case None => v == None
      decreases |data| - pos, 0, 0
    {
      hide HasType, Code, Find, Rest;
      var slots, seen: set<int> := target, {};
      ghost var all := ReadFields(fields, target, {}, Rest());
      while true
        invariant Valid() && old(pos) <= pos && SlotsOk(fields, slots)
        invariant ReadFields(fields, slots, seen, Rest()) == all
        decreases |data| - pos
      {
        var code := Take(1);
        if code.None? { return None; }
        if code.value[0] == STOP { break; }
        var id := TakeInt(2);
        if id.None? { return None; }
        var i := Find(fields, id.value);
        if i < |fields| && Code(fields[i].t) == code.value[0] {
          var field := Read(fields[i].t, slots[i].val);
          if field.None? { return None; }
          slots, seen := slots[i := Slot(true, field.value.0)], seen + {id.value};
        } else {
          var skipped := SkipValue(code.value[0]);
          if skipped.None? { return None; }
        }
      }
      v := if AllRequired(fields, seen) then Some(VStruct(slots)) else None;
    }

    method ReadElements(elem: Type, n: nat) returns (v: Option<Val>)
      requires Valid()
      modifies this
      ensures Valid() && old(pos) <= pos
      ensures match ReadItems(elem, [], n, old(Rest()))
              case Some((items, rest)) => v == Some(items) && Rest() == rest
              case None => v == None
      decreases |data| - pos, 2, n
    {
      hide HasType, Rest;
      var items: seq<Val> := [];
      ghost var all := ReadItems(elem, [], n, Rest());
      for i := 0 to n
        invariant Valid() && old(pos) <= pos && forall k :: 0 <= k < |items| ==> HasType(elem, items[k])
        invariant ReadItems(elem, items, n - i, Rest()) == all
      {
        var e := Read(elem, Fresh(elem));
        if e.None? { return None; }
        items := items + [e.value.0];
      }
      v := Some(VSeq(items));
    }

    method ReadInto(elem: Type, less: (Val, Val) -> bool, target: seq<Val>, n: nat) returns (v: Option<Val>)
      requires Valid() && forall i :: 0 <= i < |target| ==> HasType(elem, target[i])
      modifies this
      ensures Valid() && old(pos) <= pos
      ensures match ReadSet(elem, less, target, n, old(Rest()))
              case Some((items, rest)) => v == Some(items) && Rest() == rest
              case None => v == None
      decreases |data| - pos, 2, n
    {
      hide HasType, Insert, Rest;
      var items := target;
      ghost var all := ReadSet(elem, less, target, n, Rest());
      for i := 0 to n
        invariant Valid() && old(pos) <= pos && forall k :: 0 <= k < |items| ==> HasType(elem, items[k])
        invariant ReadSet(elem, less, items, n - i, Rest()) == all
      {
        var e := Read(elem, Fresh(elem));
        if e.None? { return None; }
        InsertKeepsType(elem, less, items, e.value.0);
        items := Insert(less, items, e.value.0);
      }
      v := Some(VSeq(items));
    }

    method ReadEntries(key: Type, value: Type, less: (Val, Val) -> bool, n: nat) returns (v: Option<Val>)
      requires Valid()
      modifies this
      ensures Valid() && old(pos) <= pos
      ensures match ReadPairs(key, value, less, [], n, old(Rest()))
              case Some((pairs, rest)) => v == Some(pairs) && Rest() == rest
              case None => v == None
      decreases |data| - pos, 3, n
    {
      assert PairsOk(key, value, []);
      hide HasType, ReadPair, ReadPairs, PairsOk, Rest;
      var pairs: seq<(Val, Val)> := [];
      ghost var all := ReadPairs(key, value, less, [], n, Rest());
      for i := 0 to n
        invariant Valid() && old(pos) <= pos && PairsOk(key, value, pairs)
        invariant ReadPairs(key, value, less, pairs, n - i, Rest()) == all
      {
        ghost var s := Rest();
        PairsFrom(key, value, less, pairs, n - i, s);
        var next := ReadEntry(key, value, less, pairs);
        if next.None? {
          assert all == None;
          return None;
        }
        pairs := next.value;
        assert n - i - 1 == n - (i + 1);
      }
      assert n - n == 0;
      PairsFrom(key, value, less, pairs, 0, Rest());
      v := Some(VMap(pairs));
    }

    /** One entry of a map: its value is read into the one that the key has already. */
    method ReadEntry(key: Type, value: Type, less: (Val, Val) -> bool, pairs: seq<(Val, Val)>)
      returns (next: Option<seq<(Val, Val)>>)
      requires Valid() && PairsOk(key, value, pairs)
      modifies this
      ensures Valid() && old(pos) <= pos
      ensures match ReadPair(key, value, less, pairs, old(Rest()))
              case Some((pairs', rest)) => next == Some(pairs') && Rest() == rest
              case None => next == None
      decreases |data| - pos, 2, 0
    {
      hide HasType, Access, ThriftCodec.Read, Rest;
      var k := Read(key, Fresh(key));
      if k.None? { return None; }
      AccessKeepsTypes(key, value, less, pairs, k.value.0);
      var (p, pairs') := Access(less, pairs, k.value.0, Fresh(value));
      var e := Read(value, pairs'[p].1);
      if e.None? { return None; }
      next := Some(pairs'[p := (pairs'[p].0, e.value.0)]);
    }
  }

  /** One round of the loop that skips the entries of a map. */
  lemma PairsSkipped(key: byte, value: byte, n: nat, s: bytes)
    ensures SkipPairs(key, value, n, s) ==
            if n == 0 then Some(s) else
            match Skip(key, s)
            case Some(rest) =>
              (match Skip(value, rest)
               case Some(rest') => SkipPairs(key, value, n - 1, rest')
               case None => None)
            case None => None
  {
  }

  /** One round of the loop over the entries of a map. */
  lemma PairsFrom(key: Type, value: Type, less: (Val, Val) -> bool, pairs: seq<(Val, Val)>, n: nat, s: bytes)
    requires PairsOk(key, value, pairs)
    ensures ReadPairs(key, value, less, pairs, n, s) ==
            if n == 0 then Some((VMap(pairs), s)) else
            match ReadPair(key, value, less, pairs, s)
            case Some((pairs', rest)) => ReadPairs(key, value, less, pairs', n - 1, rest)
            case None => None
  {
  }

  // ---------------------------------------------------------------- the codec

  /** ThriftEncoder::encode of a struct. */
  method Encode(t: Type, v: Val) returns (buf: bytes)
    requires t.TStruct? && HasType(t, v) && Fits(v)
    ensures buf == Enc(t, v) && buf != []
  {
    var output := new Output();
    var xfer := output.Write(t, v);
    buf := output.buffer;
  }

  /** ThriftDecoder::decode into a fresh struct: what follows the struct in the buffer is ignored. */
  method Decode(t: Type, buf: bytes) returns (v: Option<Val>)
    requires t.TStruct?
    ensures v == match ThriftCodec.Read(t, Fresh(t), buf)
                 case Some((y, _)) => Some(y)
                 case None => None
  {
    hide ThriftCodec.Read;
    var input := new Input(buf);
    var r := input.Read(t, Fresh(t));
    v := if r.Some? && r.value.1 > 0 then Some(r.value.0) else None;
  }

  /** What is encoded is decoded to the same value, and both count the bytes on the wire. */
  method RoundTripCounted(t: Type, v: Val, rest: bytes) returns (written: nat, read: nat, y: Val)
    requires WellFormed(t) && HasType(t, v) && Normal(t, v) && Fits(v)
    ensures y == v && written == read == |Enc(t, v)|
  {
    var output := new Output();
    hide Enc, HasType, Normal, WellFormed, ThriftCodec.Read;
    written := output.Write(t, v);
    RoundTrip(t, v, rest);
    assert output.buffer == Enc(t, v);
    var input := new Input(output.buffer + rest);
    var r := input.Read(t, Fresh(t));
    assert |input.Rest()| == |rest| && input.pos == |Enc(t, v)|;
    y, read := r.value.0, r.value.1;
  }
}
