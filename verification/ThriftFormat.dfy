/**
 * The format itself: what every type looks like on the wire, byte for byte, which bytes the readers accept, and how
 * they take a container apart.
 */
module ThriftFormat {
  import opened RpcTypes
  import opened ThriftWire
  import opened ThriftCodec

  // ---------------------------------------------------------------- numbers

  lemma BytesOfTwo(u: nat)
    requires u < 0x1_0000
    ensures u < Pow256(2) && EncNat(2, u) == [u / 0x100, u % 0x100]
  {
    Widths();
    BigEndian(2, u, 0);
    BigEndian(2, u, 1);
    hide EncNat;
  }

  lemma BytesOfFour(u: nat)
    requires u < 0x1_0000_0000
    ensures u < Pow256(4)
    ensures EncNat(4, u) == [u / 0x100_0000, u / 0x1_0000 % 0x100, u / 0x100 % 0x100, u % 0x100]
  {
    hide EncNat;
    Widths();
    assert Pow256(3) == 0x100_0000;
    BigEndian(4, u, 0);
    BigEndian(4, u, 1);
    BigEndian(4, u, 2);
    BigEndian(4, u, 3);
  }

  lemma BytesOfEight(u: nat)
    requires u < 0x1_0000_0000_0000_0000
    ensures u < Pow256(8)
    ensures EncNat(8, u) == [u / 0x100_0000_0000_0000, u / 0x1_0000_0000_0000 % 0x100,
                             u / 0x100_0000_0000 % 0x100, u / 0x1_0000_0000 % 0x100,
                             u / 0x100_0000 % 0x100, u / 0x1_0000 % 0x100, u / 0x100 % 0x100, u % 0x100]
  {
    hide EncNat;
    Widths();
    Powers();
    forall k: nat | k < 8 ensures EncNat(8, u)[7 - k] as int == u / Pow256(k) % 256 {
      BigEndian(8, u, k);
    }
    hide Pow256;
    var s := EncNat(8, u);
    assert s[7 - 0] == u % 0x100 && s[7 - 1] == u / 0x100 % 0x100;
    assert s[7 - 2] == u / 0x1_0000 % 0x100 && s[7 - 3] == u / 0x100_0000 % 0x100;
    assert s[7 - 4] == u / 0x1_0000_0000 % 0x100 && s[7 - 5] == u / 0x100_0000_0000 % 0x100;
    assert s[7 - 6] == u / 0x1_0000_0000_0000 % 0x100 && s[7 - 7] == u / 0x100_0000_0000_0000;
  }

  lemma Powers()
    ensures Pow256(0) == 1 && Pow256(1) == 0x100 && Pow256(2) == 0x1_0000 && Pow256(3) == 0x100_0000
    ensures Pow256(4) == 0x1_0000_0000 && Pow256(5) == 0x100_0000_0000 && Pow256(6) == 0x1_0000_0000_0000
    ensures Pow256(7) == 0x100_0000_0000_0000 && Pow256(8) == 0x1_0000_0000_0000_0000
  {
    Widths();
  }

  lemma NumberOfOne(s: bytes)
    requires |s| == 1
    ensures DecNat(s) == s[0]
  {
    assert s[..0] == [] && DecNat(s[..0]) == 0;
  }

  lemma NumberOfTwo(s: bytes)
    requires |s| == 2
    ensures DecNat(s) == s[0] as int * 0x100 + s[1] as int
  {
    NumberOfOne(s[..1]);
  }

  lemma NumberOfFour(s: bytes)
    requires |s| == 4
    ensures DecNat(s) == s[0] as int * 0x100_0000 + s[1] as int * 0x1_0000 + s[2] as int * 0x100 + s[3] as int
  {
    NumberOfTwo(s[..2]);
    assert s[..3][..2] == s[..2] && DecNat(s[..3]) == DecNat(s[..2]) * 0x100 + s[2];
  }

  lemma NumberOfEight(s: bytes)
    requires |s| == 8
    ensures DecNat(s) == s[0] as int * 0x100_0000_0000_0000 + s[1] as int * 0x1_0000_0000_0000
                         + s[2] as int * 0x100_0000_0000 + s[3] as int * 0x1_0000_0000 + s[4] as int * 0x100_0000
                         + s[5] as int * 0x1_0000 + s[6] as int * 0x100 + s[7] as int
  {
    NumberOfFour(s[..4]);
    assert s[..5][..4] == s[..4] && DecNat(s[..5]) == DecNat(s[..4]) * 0x100 + s[4];
    assert s[..6][..5] == s[..5] && DecNat(s[..6]) == DecNat(s[..5]) * 0x100 + s[5];
    assert s[..7][..6] == s[..6] && DecNat(s[..7]) == DecNat(s[..6]) * 0x100 + s[6];
    assert DecNat(s) == DecNat(s[..7]) * 0x100 + s[7];
    hide DecNat;
  }

  // ---------------------------------------------------------------- what is written

  /** The integers of 8, 16, 32 and 64 bits: two's complement, the highest byte first. */
  lemma IntegerBytes(i: int)
    ensures -0x80 <= i < 0x80 ==>
              HasType(TByte, VInt(i)) && Enc(TByte, VInt(i)) == [if i < 0 then i + 0x100 else i]
    ensures -0x8000 <= i < 0x8000 ==>
              var u := if i < 0 then i + 0x1_0000 else i;
              HasType(TI16, VInt(i)) && Enc(TI16, VInt(i)) == [u / 0x100, u % 0x100]
    ensures -0x8000_0000 <= i < 0x8000_0000 ==>
              var u := if i < 0 then i + 0x1_0000_0000 else i;
              && HasType(TI32, VInt(i))
              && Enc(TI32, VInt(i)) == [u / 0x100_0000, u / 0x1_0000 % 0x100, u / 0x100 % 0x100, u % 0x100]
    ensures -0x8000_0000_0000_0000 <= i < 0x8000_0000_0000_0000 ==>
              var u := if i < 0 then i + 0x1_0000_0000_0000_0000 else i;
              && HasType(TI64, VInt(i))
              && Enc(TI64, VInt(i)) == [u / 0x100_0000_0000_0000, u / 0x1_0000_0000_0000 % 0x100,
                                        u / 0x100_0000_0000 % 0x100, u / 0x1_0000_0000 % 0x100,
                                        u / 0x100_0000 % 0x100, u / 0x1_0000 % 0x100, u / 0x100 % 0x100, u % 0x100]
  {
    hide EncNat, Pow256;
    Powers();
    if -0x80 <= i < 0x80 { BytesOfOne(if i < 0 then i + 0x100 else i); }
    if -0x8000 <= i < 0x8000 { BytesOfTwo(if i < 0 then i + 0x1_0000 else i); }
    if -0x8000_0000 <= i < 0x8000_0000 { BytesOfFour(if i < 0 then i + 0x1_0000_0000 else i); }
    if -0x8000_0000_0000_0000 <= i < 0x8000_0000_0000_0000 {
      BytesOfEight(if i < 0 then i + 0x1_0000_0000_0000_0000 else i);
    }
  }

  lemma BytesOfOne(u: nat)
    requires u < 0x100
    ensures u < Pow256(1) && EncNat(1, u) == [u]
  {
    Widths();
    assert EncNat(0, 0) == [];
  }

  /** A bool is one byte, 1 or 0. */
  lemma BoolByte(b: bool)
    ensures HasType(TBool, VBool(b)) && Enc(TBool, VBool(b)) == [if b then 1 else 0]
  {
  }

  /** A double is its eight bytes, the highest first. */
  lemma DoubleBytes(u: nat)
    requires u < 0x1_0000_0000_0000_0000
    ensures HasType(TDouble, VDouble(u))
    ensures Enc(TDouble, VDouble(u)) == [u / 0x100_0000_0000_0000, u / 0x1_0000_0000_0000 % 0x100,
                                         u / 0x100_0000_0000 % 0x100, u / 0x1_0000_0000 % 0x100,
                                         u / 0x100_0000 % 0x100, u / 0x1_0000 % 0x100, u / 0x100 % 0x100, u % 0x100]
  {
    hide EncNat, Pow256;
    Powers();
    BytesOfEight(u);
  }

  lemma SizeBytes(n: nat)
    requires n < 0x8000_0000
    ensures InWidth(4, n)
    ensures EncInt(4, n) == [n / 0x100_0000, n / 0x1_0000 % 0x100, n / 0x100 % 0x100, n % 0x100]
  {
    hide EncNat, Pow256;
    Powers();
    BytesOfFour(n);
  }

  /** A string is its 32-bit size and its bytes; longer than such a size can say it does not fit. */
  lemma StringBytes(s: bytes)
    ensures Fits(VString(s)) <==> |s| < 0x8000_0000
    ensures HasType(TString, VString(s))
    ensures |s| < 0x8000_0000 ==>
              var n := |s|;
              Enc(TString, VString(s)) == [n / 0x100_0000, n / 0x1_0000 % 0x100, n / 0x100 % 0x100, n % 0x100] + s
  {
    hide EncInt, Pow256;
    if |s| < 0x8000_0000 { SizeBytes(|s|); }
  }

  /** Everything fits whose sizes 32 bits can say. */
  lemma SizesFit(slots: seq<Slot>, items: seq<Val>, pairs: seq<(Val, Val)>)
    ensures Fits(VStruct(slots)) <==> forall i :: 0 <= i < |slots| ==> Fits(slots[i].val)
    ensures Fits(VSeq(items)) <==> |items| <= 0x7FFF_FFFF && forall i :: 0 <= i < |items| ==> Fits(items[i])
    ensures Fits(VMap(pairs)) <==>
              |pairs| <= 0x7FFF_FFFF && forall i :: 0 <= i < |pairs| ==> Fits(pairs[i].0) && Fits(pairs[i].1)
  {
  }

  /** The codes of the types. */
  lemma TypeCodes(t: Type)
    ensures (Code(t) == 2 <==> t.TBool?) && (Code(t) == 3 <==> t.TByte?) && (Code(t) == 4 <==> t.TDouble?)
    ensures (Code(t) == 6 <==> t.TI16?) && (Code(t) == 8 <==> t.TI32?) && (Code(t) == 10 <==> t.TI64?)
    ensures (Code(t) == 11 <==> t.TString?) && (Code(t) == 12 <==> t.TStruct?)
    ensures (Code(t) == 13 <==> t.TMap?) && (Code(t) == 14 <==> t.TSet?) && (Code(t) == 15 <==> t.TList?)
  {
  }

  /** A field is a byte for its type, two for its id, and its value; an optional one that is not set is left out. */
  lemma FieldBytes(f: Field, slot: Slot)
    requires HasType(f.t, slot.val) && Fits(slot.val)
    ensures f.req.Optional? && !slot.isset ==> EncField(f, slot) == []
    ensures !f.req.Optional? || slot.isset ==>
              var id := if f.id < 0 then f.id + 0x1_0000 else f.id;
              var code := match f.t
                          case TBool => 2
                          case TByte => 3
                          case TDouble => 4
                          case TI16 => 6
                          case TI32 => 8
                          case TI64 => 10
                          case TString => 11
                          case TStruct(_) => 12
                          case TMap(_, _, _) => 13
                          case TSet(_, _, _) => 14
                          case TList(_) => 15;
              EncField(f, slot) == [code, id / 0x100, id % 0x100] + Enc(f.t, slot.val)
  {
    hide EncNat, Pow256, Enc, HasType, Fits;
    Powers();
    BytesOfTwo(if f.id < 0 then f.id + 0x1_0000 else f.id);
  }

  /** A struct is its fields in their order and a 0. */
  lemma StructBytes(fields: seq<Field>, slots: seq<Slot>)
    requires HasType(TStruct(fields), VStruct(slots)) && Fits(VStruct(slots))
    ensures |slots| == |fields| && Enc(TStruct(fields), VStruct(slots)) == EncFields(fields, slots, 0) + [0]
    ensures EncFields(fields, slots, |fields|) == []
    ensures forall i :: 0 <= i < |fields| ==>
              EncFields(fields, slots, i) == EncField(fields[i], slots[i]) + EncFields(fields, slots, i + 1)
  {
    hide EncField;
  }

  lemma ElementsFit(elem: Type, items: seq<Val>)
    requires HasType(TList(elem), VSeq(items)) && Fits(VSeq(items))
    ensures |items| < 0x8000_0000 && forall i :: 0 <= i < |items| ==> HasType(elem, items[i]) && Fits(items[i])
  {
  }

  lemma HeaderBytes(code: byte, size: bytes, rest: bytes)
    requires |size| == 4
    ensures [code] + size + rest == [code, size[0], size[1], size[2], size[3]] + rest
  {
  }

  /** A list is the code of its elements, a 32-bit size, and the elements. */
  lemma ListBytes(elem: Type, items: seq<Val>)
    requires HasType(TList(elem), VSeq(items)) && Fits(VSeq(items))
    ensures var n := |items|;
            && n < 0x8000_0000
            && Enc(TList(elem), VSeq(items)) == [Code(elem), n / 0x100_0000, n / 0x1_0000 % 0x100, n / 0x100 % 0x100,
                                                 n % 0x100] + EncItems(elem, items)
  {
    ElementsFit(elem, items);
    hide EncInt, Pow256, EncItems, Code, HasType, Fits;
    Widths();
    SizeBytes(|items|);
    HeaderBytes(Code(elem), EncInt(4, |items|), EncItems(elem, items));
  }

  /** So is a set. */
  lemma SetBytes(elem: Type, less: (Val, Val) -> bool, clears: bool, items: seq<Val>)
    requires HasType(TSet(elem, less, clears), VSeq(items)) && Fits(VSeq(items))
    ensures HasType(TList(elem), VSeq(items))
    ensures Enc(TSet(elem, less, clears), VSeq(items)) == Enc(TList(elem), VSeq(items))
  {
    hide EncInt, Pow256, EncItems, Code;
  }

  /** A map is the codes of its keys and values, a 32-bit size, and the entries. */
  lemma MapBytes(t: Type, pairs: seq<(Val, Val)>)
    requires t.TMap? && HasType(t, VMap(pairs)) && Fits(VMap(pairs))
    ensures var n := |pairs|;
            && n < 0x8000_0000
            && Enc(t, VMap(pairs)) == [Code(t.key), Code(t.value), n / 0x100_0000, n / 0x1_0000 % 0x100,
                                       n / 0x100 % 0x100, n % 0x100] + EncPairs(t, pairs)
  {
    SizeBytes(|pairs|);
    hide EncInt, Pow256, EncPairs;
  }

  /** The elements stand one behind the other in their order. */
  lemma {:induction false} ItemsInOrder(elem: Type, before: seq<Val>, x: Val)
    requires forall i :: 0 <= i < |before| ==> HasType(elem, before[i]) && Fits(before[i])
    requires HasType(elem, x) && Fits(x)
    ensures EncItems(elem, []) == []
    ensures EncItems(elem, before + [x]) == EncItems(elem, before) + Enc(elem, x)
  {
    hide Enc, HasType, Fits;
    if before == [] {
      assert before + [x] == [x] && [x][1..] == [];
    } else {
      ItemsInOrder(elem, before[1..], x);
      assert (before + [x])[1..] == before[1..] + [x];
    }
  }

  /** So do the entries of a map, each key before its value. */
  lemma {:induction false} PairsInOrder(t: Type, before: seq<(Val, Val)>, x: (Val, Val))
    requires t.TMap? && forall i :: 0 <= i < |before| ==>
        HasType(t.key, before[i].0) && HasType(t.value, before[i].1) && Fits(before[i].0) && Fits(before[i].1)
    requires HasType(t.key, x.0) && HasType(t.value, x.1) && Fits(x.0) && Fits(x.1)
    ensures EncPairs(t, []) == []
    ensures EncPairs(t, before + [x]) == EncPairs(t, before) + Enc(t.key, x.0) + Enc(t.value, x.1)
  {
    hide Enc, HasType, Fits;
    if before == [] {
      assert before + [x] == [x] && [x][1..] == [];
    } else {
      PairsInOrder(t, before[1..], x);
      assert (before + [x])[1..] == before[1..] + [x];
    }
  }

  // ---------------------------------------------------------------- what is skipped

  /** Values of fixed width are skipped by their width. */
  lemma FixedWidthSkipped(code: byte, width: nat, s: bytes)
    requires (code, width) in {(2, 1), (3, 1), (4, 8), (6, 2), (8, 4), (10, 8)}
    ensures Skip(code, s) == if |s| < width then None else Some(s[width..])
  {
    hide ReadInt, SkipFields, SkipPairs, SkipContainer;
  }

  /** A type that no value has is an error. */
  lemma NoSuchType(code: byte, s: bytes)
    requires code !in {2, 3, 4, 6, 8, 10, 11, 12, 13, 14, 15}
    ensures Skip(code, s) == None
  {
    hide ReadInt, SkipFields, SkipPairs, SkipContainer;
  }

  /** A 32-bit size at the front of `s`, or None when there is none or it is negative. */
  function SizeAt(s: bytes): (n: Option<nat>)
    ensures n.Some? <==> |s| >= 4 && s[0] < 128
    ensures n.Some? ==> n.value as int == s[0] as int * 0x100_0000 + s[1] as int * 0x1_0000 + s[2] as int * 0x100
                                          + s[3] as int
  {
    if |s| < 4 || s[0] >= 128 then None
    else Some(s[0] as int * 0x100_0000 + s[1] as int * 0x1_0000 + s[2] as int * 0x100 + s[3] as int)
  }

  lemma ReadsSize(s: bytes)
    ensures |s| < 4 ==> ReadInt(4, s) == None
    ensures |s| >= 4 ==> ReadInt(4, s).Some? && ReadInt(4, s).value.1 == s[4..]
    ensures |s| >= 4 && SizeAt(s).Some? ==> ReadInt(4, s).value.0 == SizeAt(s).value
    ensures |s| >= 4 && SizeAt(s).None? ==> ReadInt(4, s).value.0 < 0
  {
    hide DecNat, Pow256;
    Powers();
    if |s| >= 4 {
      NumberOfFour(s[..4]);
    }
  }

  /** A string is skipped with its bytes; a size that is negative or too large is an error. */
  lemma StringSkipped(s: bytes)
    ensures Skip(11, s) == match SizeAt(s)
                           case Some(n) => if |s| < 4 + n then None else Some(s[4 + n..])
                           case None => None
  {
    hide ReadInt, SizeAt, SkipFields, SkipPairs, SkipContainer;
    ReadsSize(s);
    if SizeAt(s).Some? && |s| >= 4 + SizeAt(s).value {
      assert s[4..][SizeAt(s).value..] == s[4 + SizeAt(s).value..];
    }
  }

  /** A struct is skipped field by field, by the type on the wire, up to the 0. */
  lemma StructSkipped(s: bytes)
    ensures s == [] ==> Skip(12, s) == None
    ensures s != [] && s[0] == 0 ==> Skip(12, s) == Some(s[1..])
    ensures s != [] && s[0] != 0 ==>
              Skip(12, s) == if |s| < 3 then None else
                             match Skip(s[0], s[3..])
                             case Some(rest) => Skip(12, rest)
                             case None => None
  {
    SkipsFields(s);
    FirstFieldSkipped(s);
    if |s| >= 3 && Skip(s[0], s[3..]).Some? {
      SkipsFields(Skip(s[0], s[3..]).value);
    }
    hide Skip, SkipFields;
  }

  lemma SkipsFields(s: bytes)
    ensures Skip(12, s) == SkipFields(s)
  {
    hide ReadInt, SkipFields, SkipPairs, SkipContainer;
  }

  lemma FirstFieldSkipped(s: bytes)
    ensures s == [] ==> SkipFields(s) == None
    ensures s != [] && s[0] == 0 ==> SkipFields(s) == Some(s[1..])
    ensures s != [] && s[0] != 0 ==>
              SkipFields(s) == if |s| < 3 then None else
                               match Skip(s[0], s[3..])
                               case Some(rest) => SkipFields(rest)
                               case None => None
  {
    hide Skip;
    if |s| >= 3 {
      assert s[1..][2..] == s[3..];
    }
  }

  /** Skipping one value of each of these types leads from `s` to `r`. */
  ghost predicate SkipsTo(codes: seq<byte>, s: bytes, r: bytes) {
    exists rests: seq<bytes> ::
      && |rests| == |codes| + 1 && rests[0] == s && rests[|codes|] == r
      && forall i :: 0 <= i < |codes| ==> Skip(codes[i], rests[i]) == Some(rests[i + 1])
  }

  lemma OneSkippedFirst(code: byte, codes: seq<byte>, s: bytes, r: bytes)
    ensures SkipsTo([code] + codes, s, r) <==> Skip(code, s).Some? && SkipsTo(codes, Skip(code, s).value, r)
  {
    if SkipsTo([code] + codes, s, r) { FirstOfAll(code, codes, s, r); }
    if Skip(code, s).Some? && SkipsTo(codes, Skip(code, s).value, r) { FirstAndOthers(code, codes, s, r); }
    hide Skip, SkipsTo;
  }

  lemma FirstOfAll(code: byte, codes: seq<byte>, s: bytes, r: bytes)
    requires SkipsTo([code] + codes, s, r)
    ensures Skip(code, s).Some? && SkipsTo(codes, Skip(code, s).value, r)
  {
    hide Skip;
    var all := [code] + codes;
    var rests: seq<bytes> :| |rests| == |all| + 1 && rests[0] == s && rests[|all|] == r
      && forall i :: 0 <= i < |all| ==> Skip(all[i], rests[i]) == Some(rests[i + 1]);
    assert Skip(all[0], rests[0]) == Some(rests[1]);
    var others := rests[1..];
    forall i | 0 <= i < |codes| ensures Skip(codes[i], others[i]) == Some(others[i + 1]) {
      var j := i + 1;
      assert codes[i] == all[j] && others[i] == rests[j] && others[i + 1] == rests[j + 1];
    }
  }

  lemma FirstAndOthers(code: byte, codes: seq<byte>, s: bytes, r: bytes)
    requires Skip(code, s).Some? && SkipsTo(codes, Skip(code, s).value, r)
    ensures SkipsTo([code] + codes, s, r)
  {
    hide Skip;
    var all := [code] + codes;
    var others: seq<bytes> :| |others| == |codes| + 1 && others[0] == Skip(code, s).value && others[|codes|] == r
      && forall i :: 0 <= i < |codes| ==> Skip(codes[i], others[i]) == Some(others[i + 1]);
    var rests := [s] + others;
    assert |rests| == |all| + 1 && rests[0] == s && rests[|all|] == r;
    forall i | 0 <= i < |all| ensures Skip(all[i], rests[i]) == Some(rests[i + 1]) {
      if i > 0 {
        var j := i - 1;
        assert all[i] == codes[j] && rests[i] == others[j] && rests[i + 1] == others[j + 1];
      }
    }
  }

  lemma NoneSkipped(s: bytes, r: bytes)
    ensures SkipsTo([], s, r) <==> s == r
  {
    if s == r {
      assert |[s]| == 1;
    }
  }

  lemma {:induction false} ItemsSkipped(code: byte, n: nat, s: bytes, r: bytes)
    ensures SkipItems(code, n, s) == Some(r) <==> SkipsTo(seq(n, _ => code), s, r)
    decreases n
  {
    hide Skip, SkipsTo;
    if n == 0 {
      NoneSkipped(s, r);
      assert seq(n, _ => code) == [];
    } else {
      assert seq(n, _ => code) == [code] + seq(n - 1, _ => code);
      OneSkippedFirst(code, seq(n - 1, _ => code), s, r);
      if Skip(code, s).Some? {
        ItemsSkipped(code, n - 1, Skip(code, s).value, r);
      }
    }
  }

  /** A list and a set are skipped element by element, by the type in their header. */
  lemma ElementsSkipped(s: bytes, r: bytes)
    ensures Skip(14, s) == Skip(15, s)
    ensures Skip(15, s) == Some(r) <==>
              s != [] && SizeAt(s[1..]).Some? && SkipsTo(seq(SizeAt(s[1..]).value, _ => s[0]), s[5..], r)
  {
    hide SkipsTo, ReadInt, SkipItems, SizeAt;
    if s != [] {
      ReadsSize(s[1..]);
      if SizeAt(s[1..]).Some? {
        assert s[1..][4..] == s[5..];
        ItemsSkipped(s[0], SizeAt(s[1..]).value, s[5..], r);
      }
    }
  }

  /** The types of the keys and the values of `n` entries. */
  function EntryCodes(key: byte, value: byte, n: nat): (codes: seq<byte>)
    ensures |codes| == 2 * n && forall i :: 0 <= i < 2 * n ==> codes[i] == if i % 2 == 0 then key else value
  {
    if n == 0 then [] else [key] + ([value] + EntryCodes(key, value, n - 1))
  }

  lemma {:induction false} EntriesSkipped(key: byte, value: byte, n: nat, s: bytes, r: bytes)
    ensures SkipPairs(key, value, n, s) == Some(r) <==> SkipsTo(EntryCodes(key, value, n), s, r)
    decreases n
  {
    hide Skip, SkipsTo;
    if n == 0 {
      NoneSkipped(s, r);
    } else {
      var codes := EntryCodes(key, value, n - 1);
      OneSkippedFirst(key, [value] + codes, s, r);
      if Skip(key, s).Some? {
        var rest := Skip(key, s).value;
        OneSkippedFirst(value, codes, rest, r);
        if Skip(value, rest).Some? {
          EntriesSkipped(key, value, n - 1, Skip(value, rest).value, r);
        }
      }
    }
  }

  /** A map is skipped entry by entry, each key before its value. */
  lemma MapSkipped(s: bytes, r: bytes)
    ensures Skip(13, s) == Some(r) <==>
              |s| >= 2 && SizeAt(s[2..]).Some? && SkipsTo(EntryCodes(s[0], s[1], SizeAt(s[2..]).value), s[6..], r)
  {
    hide SkipsTo, ReadInt, SkipPairs, SizeAt;
    if |s| >= 2 {
      ReadsSize(s[2..]);
      if SizeAt(s[2..]).Some? {
        assert s[2..][4..] == s[6..];
        EntriesSkipped(s[0], s[1], SizeAt(s[2..]).value, s[6..], r);
      }
    }
  }

  // ---------------------------------------------------------------- what is read

  /** What a variable holds before it is read into; a field without a bit counts as set. */
  lemma FreshValues(elem: Type, value: Type, less: (Val, Val) -> bool, clears: bool)
    ensures Fresh(TBool) == VBool(false) && Fresh(TDouble) == VDouble(0) && Fresh(TString) == VString([])
    ensures Fresh(TByte) == Fresh(TI16) == Fresh(TI32) == Fresh(TI64) == VInt(0)
    ensures Fresh(TList(elem)) == Fresh(TSet(elem, less, clears)) == VSeq([])
    ensures Fresh(TMap(elem, value, less)) == VMap([])
  {
    hide HasType;
  }

  lemma FreshStruct(fields: seq<Field>)
    ensures var v := Fresh(TStruct(fields));
            && v.VStruct? && |v.slots| == |fields|
            && forall i :: 0 <= i < |fields| ==> v.slots[i] == Slot(!fields[i].req.Optional?, Fresh(fields[i].t))
  {
    hide HasType;
  }

  /** Any byte but 0 is true. */
  lemma BoolRead(b: bool, s: bytes)
    ensures Read(TBool, VBool(b), s) == if s == [] then None else Some((VBool(s[0] != 0), s[1..]))
  {
  }

  lemma SignedRead(n: nat, s: bytes)
    requires |s| >= n
    ensures var u := DecNat(s[..n]);
            ReadInt(n, s) == Some((if 2 * u >= Pow256(n) then u - Pow256(n) else u, s[n..]))
  {
    hide DecNat, Pow256;
  }

  lemma IntegerRead(t: Type, n: nat, x: int, s: bytes)
    requires (t == TByte && n == 1) || (t == TI16 && n == 2) || (t == TI32 && n == 4) || (t == TI64 && n == 8)
    requires HasType(t, VInt(x))
    ensures Read(t, VInt(x), s) == match ReadInt(n, s)
                                   case Some((i, rest)) => Some((VInt(i), rest))
                                   case None => None
  {
    hide ReadInt, HasType, ReadFields, ReadItems, ReadSet, ReadPairs;
  }

  lemma OneByteRead(s: bytes)
    requires s != []
    ensures ReadInt(1, s) == Some((if s[0] < 0x80 then s[0] as int else s[0] as int - 0x100, s[1..]))
  {
    hide ReadInt, DecNat, Pow256;
    Powers();
    NumberOfOne(s[..1]);
    SignedRead(1, s);
  }

  /** Integers are two's complement, the highest byte first; their former value does not matter. */
  lemma ByteRead(x: int, s: bytes)
    requires HasType(TByte, VInt(x))
    ensures Read(TByte, VInt(x), s) ==
            if |s| < 1 then None else Some((VInt(if s[0] < 0x80 then s[0] as int else s[0] as int - 0x100), s[1..]))
  {
    hide Read, HasType, ReadInt, DecNat, Pow256;
    Powers();
    IntegerRead(TByte, 1, x, s);
    if |s| >= 1 { OneByteRead(s); } else { TooShort(1, s); }
  }

  lemma I16Read(x: int, s: bytes)
    requires HasType(TI16, VInt(x))
    ensures Read(TI16, VInt(x), s) ==
            if |s| < 2 then None else
            var u := s[0] as int * 0x100 + s[1] as int;
            Some((VInt(if s[0] < 0x80 then u else u - 0x1_0000), s[2..]))
  {
    hide Read, HasType, ReadInt, DecNat, Pow256;
    Powers();
    IntegerRead(TI16, 2, x, s);
    if |s| >= 2 { NumberOfTwo(s[..2]); SignedRead(2, s); } else { TooShort(2, s); }
  }

  lemma I32Read(x: int, s: bytes)
    requires HasType(TI32, VInt(x))
    ensures Read(TI32, VInt(x), s) ==
            if |s| < 4 then None else
            var u := s[0] as int * 0x100_0000 + s[1] as int * 0x1_0000 + s[2] as int * 0x100 + s[3] as int;
            Some((VInt(if s[0] < 0x80 then u else u - 0x1_0000_0000), s[4..]))
  {
    hide Read, HasType, ReadInt, DecNat, Pow256;
    Powers();
    IntegerRead(TI32, 4, x, s);
    if |s| >= 4 { NumberOfFour(s[..4]); SignedRead(4, s); } else { TooShort(4, s); }
  }

  lemma TooShort(n: nat, s: bytes)
    requires |s| < n
    ensures ReadInt(n, s) == None
  {
  }

  lemma I64Read(x: int, s: bytes)
    requires HasType(TI64, VInt(x))
    ensures Read(TI64, VInt(x), s) ==
            if |s| < 8 then None else
            var u := s[0] as int * 0x100_0000_0000_0000 + s[1] as int * 0x1_0000_0000_0000
                     + s[2] as int * 0x100_0000_0000 + s[3] as int * 0x1_0000_0000 + s[4] as int * 0x100_0000
                     + s[5] as int * 0x1_0000 + s[6] as int * 0x100 + s[7] as int;
            Some((VInt(if s[0] < 0x80 then u else u - 0x1_0000_0000_0000_0000), s[8..]))
  {
    hide Read, HasType, ReadInt, DecNat, Pow256;
    Powers();
    IntegerRead(TI64, 8, x, s);
    if |s| >= 8 { NumberOfEight(s[..8]); SignedRead(8, s); } else { TooShort(8, s); }
  }

  /** A double is the next eight bytes, whatever they are. */
  lemma DoubleRead(d: nat, s: bytes)
    requires d < 0x1_0000_0000_0000_0000
    ensures HasType(TDouble, VDouble(d))
    ensures Read(TDouble, VDouble(d), s) ==
            if |s| < 8 then None else
            Some((VDouble(s[0] as int * 0x100_0000_0000_0000 + s[1] as int * 0x1_0000_0000_0000
                          + s[2] as int * 0x100_0000_0000 + s[3] as int * 0x1_0000_0000 + s[4] as int * 0x100_0000
                          + s[5] as int * 0x1_0000 + s[6] as int * 0x100 + s[7] as int), s[8..]))
  {
    hide DecNat, Pow256, ReadFields, ReadItems, ReadSet, ReadPairs;
    Powers();
    if |s| >= 8 { NumberOfEight(s[..8]); }
  }

  /** A string is read with its bytes; a size that is negative or too large is an error. */
  lemma StringRead(x: bytes, s: bytes)
    ensures Read(TString, VString(x), s) == match SizeAt(s)
                                            case Some(n) => if |s| < 4 + n then None
                                                            else Some((VString(s[4..4 + n]), s[4 + n..]))
                                            case None => None
  {
    hide ReadInt, SizeAt, ReadFields, ReadItems, ReadSet, ReadPairs, HasType;
    ReadsSize(s);
    if SizeAt(s).Some? && |s| >= 4 + SizeAt(s).value {
      var n := SizeAt(s).value;
      assert s[4..][..n] == s[4..4 + n] && s[4..][n..] == s[4 + n..];
    }
  }

  /** Reading values of type `t`, each into a fresh one, leads from `s` to `r` and gives `vs`. */
  ghost predicate ReadsTo(t: Type, s: bytes, vs: seq<Val>, r: bytes) {
    exists rests: seq<bytes> ::
      && |rests| == |vs| + 1 && rests[0] == s && rests[|vs|] == r
      && forall i :: 0 <= i < |vs| ==> Read(t, Fresh(t), rests[i]) == Some((vs[i], rests[i + 1]))
  }

  lemma NoneRead(t: Type, s: bytes, r: bytes)
    ensures ReadsTo(t, s, [], r) <==> s == r
  {
    if s == r {
      assert |[s]| == 1;
    }
  }

  lemma OneReadFirst(t: Type, s: bytes, v: Val, vs: seq<Val>, rest: bytes, r: bytes)
    requires Read(t, Fresh(t), s) == Some((v, rest)) && ReadsTo(t, rest, vs, r)
    ensures ReadsTo(t, s, [v] + vs, r)
  {
    hide Read, Fresh;
    var all := [v] + vs;
    var others: seq<bytes> :| |others| == |vs| + 1 && others[0] == rest && others[|vs|] == r
      && forall i :: 0 <= i < |vs| ==> Read(t, Fresh(t), others[i]) == Some((vs[i], others[i + 1]));
    var rests := [s] + others;
    assert |rests| == |all| + 1 && rests[0] == s && rests[|all|] == r;
    forall i | 0 <= i < |all| ensures Read(t, Fresh(t), rests[i]) == Some((all[i], rests[i + 1])) {
      if i > 0 {
        var j := i - 1;
        assert all[i] == vs[j] && rests[i] == others[j] && rests[i + 1] == others[j + 1];
      }
    }
  }

  /** The loop of a list takes one element after the other, in the order of the wire. */
  lemma {:induction false} ItemsRead(elem: Type, done: seq<Val>, n: nat, s: bytes) returns (vs: seq<Val>)
    requires forall i :: 0 <= i < |done| ==> HasType(elem, done[i])
    ensures ReadItems(elem, done, n, s).Some? ==>
              && |vs| == n && ReadItems(elem, done, n, s).value.0 == VSeq(done + vs)
              && ReadsTo(elem, s, vs, ReadItems(elem, done, n, s).value.1)
    decreases n
  {
    vs := [];
    hide Read, Fresh, HasType, ReadsTo;
    if n == 0 {
      NoneRead(elem, s, s);
      assert done + [] == done;
    } else {
      var first := Read(elem, Fresh(elem), s);
      if first.Some? {
        var (v, rest) := first.value;
        var others := ItemsRead(elem, done + [v], n - 1, rest);
        vs := [v] + others;
        assert done + [v] + others == done + vs;
        if ReadItems(elem, done, n, s).Some? {
          OneReadFirst(elem, s, v, others, rest, ReadItems(elem, done, n, s).value.1);
        }
      }
    }
  }

  lemma FirstRead(t: Type, s: bytes, vs: seq<Val>, r: bytes)
    requires vs != [] && ReadsTo(t, s, vs, r)
    ensures Read(t, Fresh(t), s).Some? && Read(t, Fresh(t), s).value.0 == vs[0]
    ensures ReadsTo(t, Read(t, Fresh(t), s).value.1, vs[1..], r)
  {
    hide Read, Fresh;
    var rests: seq<bytes> :| |rests| == |vs| + 1 && rests[0] == s && rests[|vs|] == r
      && forall i :: 0 <= i < |vs| ==> Read(t, Fresh(t), rests[i]) == Some((vs[i], rests[i + 1]));
    assert Read(t, Fresh(t), rests[0]) == Some((vs[0], rests[1]));
    var others := rests[1..];
    forall i | 0 <= i < |vs| - 1 ensures Read(t, Fresh(t), others[i]) == Some((vs[1..][i], others[i + 1])) {
      var j := i + 1;
      assert vs[1..][i] == vs[j] && others[i] == rests[j] && others[i + 1] == rests[j + 1];
    }
    assert |others| == |vs[1..]| + 1 && others[0] == rests[1] && others[|vs[1..]|] == r;
  }

  lemma {:induction false} ItemsTaken(elem: Type, done: seq<Val>, s: bytes, vs: seq<Val>, r: bytes)
    requires (forall i :: 0 <= i < |done| ==> HasType(elem, done[i])) && ReadsTo(elem, s, vs, r)
    ensures ReadItems(elem, done, |vs|, s) == Some((VSeq(done + vs), r))
    decreases |vs|
  {
    hide Read, Fresh, HasType, ReadsTo;
    if vs == [] {
      NoneRead(elem, s, r);
      assert done + vs == done;
    } else {
      FirstRead(elem, s, vs, r);
      ItemsTaken(elem, done + [vs[0]], Read(elem, Fresh(elem), s).value.1, vs[1..], r);
      assert done + [vs[0]] + vs[1..] == done + vs;
    }
  }

  /** A list is read element by element in the order of the wire, whatever it held and whatever type its header has. */
  lemma ListRead(elem: Type, x: Val, s: bytes, vs: seq<Val>, r: bytes)
    requires HasType(TList(elem), x)
    ensures Read(TList(elem), x, s) == Some((VSeq(vs), r)) <==>
              s != [] && SizeAt(s[1..]) == Some(|vs|) && ReadsTo(elem, s[5..], vs, r)
  {
    ListLoop(elem, x, s);
    hide Read, ReadsTo, ReadItems, HasType, SizeAt;
    if s != [] && SizeAt(s[1..]).Some? {
      var n := SizeAt(s[1..]).value;
      var taken := ItemsRead(elem, [], n, s[5..]);
      assert [] + taken == taken;
      if n == |vs| && ReadsTo(elem, s[5..], vs, r) {
        ItemsTaken(elem, [], s[5..], vs, r);
        assert [] + vs == vs;
      }
    }
  }

  lemma ListLoop(elem: Type, x: Val, s: bytes)
    requires HasType(TList(elem), x)
    ensures Read(TList(elem), x, s)
            == if s == [] || SizeAt(s[1..]).None? then None else ReadItems(elem, [], SizeAt(s[1..]).value, s[5..])
  {
    hide ReadInt, SizeAt, ReadFields, ReadItems, ReadSet, ReadPairs, HasType;
    if s != [] {
      ReadsSize(s[1..]);
      assert |s| >= 5 ==> s[1..][4..] == s[5..];
    }
  }

  /** `set::insert` of one element after the other. */
  function InsertAll(less: (Val, Val) -> bool, done: seq<Val>, vs: seq<Val>): seq<Val>
    decreases |vs|
  {
    if vs == [] then done else InsertAll(less, Insert(less, done, vs[0]), vs[1..])
  }

  /** An element goes before the first that is not less, unless that one is equivalent: then nothing changes. */
  lemma InsertPlace(less: (Val, Val) -> bool, items: seq<Val>, e: Val, p: nat)
    requires p <= |items| && (forall i :: 0 <= i < p ==> less(items[i], e)) && (p < |items| ==> !less(items[p], e))
    ensures Insert(less, items, e)
            == if p < |items| && !less(e, items[p]) then items else items[..p] + [e] + items[p..]
  {
    hide LowerBound;
  }

  /** The loop of a set inserts the elements that the loop of a list takes. */
  lemma {:induction false} ItemsInserted(elem: Type, less: (Val, Val) -> bool, done: seq<Val>, s: bytes, vs: seq<Val>,
                                         r: bytes)
    requires (forall i :: 0 <= i < |done| ==> HasType(elem, done[i])) && ReadsTo(elem, s, vs, r)
    ensures ReadSet(elem, less, done, |vs|, s) == Some((VSeq(InsertAll(less, done, vs)), r))
    decreases |vs|
  {
    hide Read, Fresh, HasType, Insert, ReadsTo;
    if vs == [] {
      NoneRead(elem, s, r);
    } else {
      FirstRead(elem, s, vs, r);
      InsertKeepsType(elem, less, done, vs[0]);
      ItemsInserted(elem, less, Insert(less, done, vs[0]), Read(elem, Fresh(elem), s).value.1, vs[1..], r);
    }
  }

  lemma {:induction false} SetFailsWithList(elem: Type, less: (Val, Val) -> bool, done: seq<Val>, acc: seq<Val>, n: nat,
                                            s: bytes)
    requires forall i :: 0 <= i < |done| ==> HasType(elem, done[i])
    requires forall i :: 0 <= i < |acc| ==> HasType(elem, acc[i])
    ensures ReadSet(elem, less, done, n, s).Some? <==> ReadItems(elem, acc, n, s).Some?
    decreases n
  {
    hide Read, Fresh, HasType, Insert;
    if n > 0 && Read(elem, Fresh(elem), s).Some? {
      var (v, rest) := Read(elem, Fresh(elem), s).value;
      InsertKeepsType(elem, less, done, v);
      SetFailsWithList(elem, less, Insert(less, done, v), acc + [v], n - 1, rest);
    }
  }

  /** A set is read like a list, and its elements are inserted in the order of the wire into what it held or nothing. */
  lemma SetRead(elem: Type, less: (Val, Val) -> bool, clears: bool, x: Val, s: bytes)
    requires HasType(TSet(elem, less, clears), x)
    ensures Read(TSet(elem, less, clears), x, s)
            == match Read(TList(elem), VSeq([]), s)
               case Some((y, r)) => Some((VSeq(InsertAll(less, if clears then [] else x.items, y.items)), r))
               case None => None
  {
    var target := if clears then [] else x.items;
    ListLoop(elem, VSeq([]), s);
    SetStart(elem, less, clears, x, s);
    if s != [] && SizeAt(s[1..]).Some? {
      var n := SizeAt(s[1..]).value;
      SetFailsWithList(elem, less, target, [], n, s[5..]);
      var vs := ItemsRead(elem, [], n, s[5..]);
      if ReadItems(elem, [], n, s[5..]).Some? {
        ItemsInserted(elem, less, target, s[5..], vs, ReadItems(elem, [], n, s[5..]).value.1);
        assert [] + vs == vs;
      }
    }
    hide Read, ReadItems, ReadSet, HasType, SizeAt, InsertAll, ReadsTo;
  }

  lemma SetStart(elem: Type, less: (Val, Val) -> bool, clears: bool, x: Val, s: bytes)
    requires HasType(TSet(elem, less, clears), x)
    ensures Read(TSet(elem, less, clears), x, s)
            == if s == [] || SizeAt(s[1..]).None? then None
               else ReadSet(elem, less, if clears then [] else x.items, SizeAt(s[1..]).value, s[5..])
  {
    hide ReadInt, SizeAt, ReadFields, ReadItems, ReadSet, ReadPairs;
    if s != [] {
      ReadsSize(s[1..]);
      assert |s| >= 5 ==> s[1..][4..] == s[5..];
    }
  }

  /** The place of a key: every entry before it has a smaller one, and the entry there has not. */
  ghost predicate PlaceOf(less: (Val, Val) -> bool, pairs: seq<(Val, Val)>, key: Val, p: nat) {
    p <= |pairs| && (forall i :: 0 <= i < p ==> less(pairs[i].0, key)) && (p < |pairs| ==> !less(pairs[p].0, key))
  }

  lemma AccessPlace(less: (Val, Val) -> bool, pairs: seq<(Val, Val)>, key: Val, blank: Val, p: nat)
    requires PlaceOf(less, pairs, key, p)
    ensures Access(less, pairs, key, blank)
            == if p < |pairs| && !less(key, pairs[p].0) then (p, pairs)
               else (p, pairs[..p] + [(key, blank)] + pairs[p..])
  {
    var q := LowerBound(less, Keys(pairs), key);
    assert q == p by {
      assert forall i :: 0 <= i < |pairs| ==> Keys(pairs)[i] == pairs[i].0;
    }
    hide LowerBound;
  }

  /**
   * One entry of a map: its value is read into the one that an equivalent key has already, which keeps its key; for
   * a new key into a fresh one, which goes to its place.
   */
  lemma EntryRead(key: Type, value: Type, less: (Val, Val) -> bool, done: seq<(Val, Val)>, s: bytes, p: nat)
    requires PairsOk(key, value, done)
    requires Read(key, Fresh(key), s).Some? ==> PlaceOf(less, done, Read(key, Fresh(key), s).value.0, p)
    ensures ReadPair(key, value, less, done, s)
            == match Read(key, Fresh(key), s)
               case Some((k, rest)) =>
                 if p < |done| && !less(k, done[p].0) then
                   match Read(value, done[p].1, rest)
                   case Some((v, r)) => Some((done[p := (done[p].0, v)], r))
                   case None => None
                 else
                   (match Read(value, Fresh(value), rest)
                    case Some((v, r)) => Some((done[..p] + [(k, v)] + done[p..], r))
                    case None => None)
               case None => None
  {
    hide Read, Fresh, HasType, PlaceOf, Access;
    if Read(key, Fresh(key), s).Some? {
      var (k, rest) := Read(key, Fresh(key), s).value;
      PlaceInRange(less, done, k, p);
      AccessPlace(less, done, k, Fresh(value), p);
      if !(p < |done| && !less(k, done[p].0)) && Read(value, Fresh(value), rest).Some? {
        ValueInPlace(done, p, k, Fresh(value), Read(value, Fresh(value), rest).value.0);
      }
    }
  }

  lemma ValueInPlace(done: seq<(Val, Val)>, p: nat, k: Val, blank: Val, v: Val)
    requires p <= |done|
    ensures var longer := done[..p] + [(k, blank)] + done[p..];
            longer[p] == (k, blank) && longer[p := (k, v)] == done[..p] + [(k, v)] + done[p..]
  {
  }

  lemma PlaceInRange(less: (Val, Val) -> bool, pairs: seq<(Val, Val)>, key: Val, p: nat)
    requires PlaceOf(less, pairs, key, p)
    ensures p <= |pairs|
  {
  }

  /** Reading entries one after the other leads from `s` and the map `done` to `r` and the map `pairs`. */
  ghost predicate EntriesTo(t: Type, n: nat, done: seq<(Val, Val)>, s: bytes, pairs: seq<(Val, Val)>, r: bytes)
    requires t.TMap?
  {
    exists steps: seq<(seq<(Val, Val)>, bytes)> ::
      && |steps| == n + 1 && steps[0] == (done, s) && steps[n] == (pairs, r)
      && forall i :: 0 <= i < n ==>
           && PairsOk(t.key, t.value, steps[i].0)
           && ReadPair(t.key, t.value, t.less, steps[i].0, steps[i].1) == Some(steps[i + 1])
  }

  lemma NoEntries(t: Type, done: seq<(Val, Val)>, s: bytes, pairs: seq<(Val, Val)>, r: bytes)
    requires t.TMap?
    ensures EntriesTo(t, 0, done, s, pairs, r) <==> done == pairs && s == r
  {
    if done == pairs && s == r {
      assert |[(done, s)]| == 1;
    }
  }

  lemma FirstEntry(t: Type, n: nat, done: seq<(Val, Val)>, s: bytes, pairs: seq<(Val, Val)>, r: bytes)
    requires t.TMap? && PairsOk(t.key, t.value, done) && EntriesTo(t, n + 1, done, s, pairs, r)
    ensures var next := ReadPair(t.key, t.value, t.less, done, s);
            next.Some? && EntriesTo(t, n, next.value.0, next.value.1, pairs, r)
  {
    hide ReadPair, PairsOk;
    var steps: seq<(seq<(Val, Val)>, bytes)> :|
      && |steps| == n + 2 && steps[0] == (done, s) && steps[n + 1] == (pairs, r)
      && forall i :: 0 <= i < n + 1 ==>
           && PairsOk(t.key, t.value, steps[i].0)
           && ReadPair(t.key, t.value, t.less, steps[i].0, steps[i].1) == Some(steps[i + 1]);
    var others := steps[1..];
    assert |others| == n + 1 && others[0] == steps[1] && others[n] == (pairs, r);
    assert ReadPair(t.key, t.value, t.less, steps[0].0, steps[0].1) == Some(steps[0 + 1]);
    forall i | 0 <= i < n
      ensures PairsOk(t.key, t.value, others[i].0)
      ensures ReadPair(t.key, t.value, t.less, others[i].0, others[i].1) == Some(others[i + 1])
    {
      var j := i + 1;
      assert others[i] == steps[j] && others[i + 1] == steps[j + 1];
    }
  }

  lemma OneEntryFirst(t: Type, n: nat, done: seq<(Val, Val)>, s: bytes, pairs: seq<(Val, Val)>, r: bytes)
    requires t.TMap? && PairsOk(t.key, t.value, done) && ReadPair(t.key, t.value, t.less, done, s).Some?
    requires var next := ReadPair(t.key, t.value, t.less, done, s).value;
             EntriesTo(t, n, next.0, next.1, pairs, r)
    ensures EntriesTo(t, n + 1, done, s, pairs, r)
  {
    hide ReadPair, PairsOk;
    var next := ReadPair(t.key, t.value, t.less, done, s).value;
    var others: seq<(seq<(Val, Val)>, bytes)> :|
      && |others| == n + 1 && others[0] == (next.0, next.1) && others[n] == (pairs, r)
      && forall i :: 0 <= i < n ==>
           && PairsOk(t.key, t.value, others[i].0)
           && ReadPair(t.key, t.value, t.less, others[i].0, others[i].1) == Some(others[i + 1]);
    var steps := [(done, s)] + others;
    assert |steps| == n + 2 && steps[0] == (done, s) && steps[n + 1] == (pairs, r);
    forall i | 0 <= i < n + 1
      ensures PairsOk(t.key, t.value, steps[i].0)
      ensures ReadPair(t.key, t.value, t.less, steps[i].0, steps[i].1) == Some(steps[i + 1])
    {
      if i > 0 {
        var j := i - 1;
        assert steps[i] == others[j] && steps[i + 1] == others[j + 1];
      }
    }
  }

  lemma {:induction false} EntriesRead(t: Type, n: nat, done: seq<(Val, Val)>, s: bytes, pairs: seq<(Val, Val)>,
                                       r: bytes)
    requires t.TMap? && PairsOk(t.key, t.value, done)
    ensures ReadPairs(t.key, t.value, t.less, done, n, s) == Some((VMap(pairs), r))
            <==> EntriesTo(t, n, done, s, pairs, r)
    decreases n
  {
    hide ReadPair, PairsOk, EntriesTo;
    if n == 0 {
      NoEntries(t, done, s, pairs, r);
    } else {
      var next := ReadPair(t.key, t.value, t.less, done, s);
      if next.Some? {
        EntriesRead(t, n - 1, next.value.0, next.value.1, pairs, r);
        if EntriesTo(t, n - 1, next.value.0, next.value.1, pairs, r) {
          OneEntryFirst(t, n - 1, done, s, pairs, r);
        }
      }
      if EntriesTo(t, n, done, s, pairs, r) {
        FirstEntry(t, n - 1, done, s, pairs, r);
      }
    }
  }

  /** A map is read entry by entry in the order of the wire, whatever it held and whatever types its header names. */
  lemma MapRead(t: Type, x: Val, s: bytes, pairs: seq<(Val, Val)>, r: bytes)
    requires t.TMap? && HasType(t, x)
    ensures Read(t, x, s) == Some((VMap(pairs), r)) <==>
              |s| >= 2 && SizeAt(s[2..]).Some? && EntriesTo(t, SizeAt(s[2..]).value, [], s[6..], pairs, r)
  {
    MapLoop(t, x, s);
    if |s| >= 2 && SizeAt(s[2..]).Some? {
      EntriesRead(t, SizeAt(s[2..]).value, [], s[6..], pairs, r);
    }
    hide Read, ReadPairs, HasType, SizeAt, EntriesTo;
  }

  lemma MapLoop(t: Type, x: Val, s: bytes)
    requires t.TMap? && HasType(t, x)
    ensures Read(t, x, s)
            == if |s| < 2 || SizeAt(s[2..]).None? then None
               else ReadPairs(t.key, t.value, t.less, [], SizeAt(s[2..]).value, s[6..])
  {
    hide ReadInt, SizeAt, ReadFields, ReadItems, ReadSet, ReadPairs, HasType;
    if |s| >= 2 {
      ReadsSize(s[2..]);
      assert |s| >= 6 ==> s[2..][4..] == s[6..];
    }
  }

  // ---------------------------------------------------------------- structs

  /** A struct is read by the loop over its fields, and every required field must have come. */
  lemma StructRead(fields: seq<Field>, x: Val, s: bytes, slots: seq<Slot>, r: bytes)
    requires HasType(TStruct(fields), x)
    ensures SlotsOk(fields, x.slots)
    ensures Read(TStruct(fields), x, s) == Some((VStruct(slots), r)) <==>
              exists seen :: ReadFields(fields, x.slots, {}, s) == Some((slots, seen, r))
                             && forall i :: 0 <= i < |fields| && fields[i].req.Required? ==> fields[i].id in seen
  {
    hide ReadFields;
  }

  /** The loop ends at a 0; a field that is not complete is an error. */
  lemma FieldsEnd(fields: seq<Field>, slots: seq<Slot>, seen: set<int>, s: bytes)
    requires SlotsOk(fields, slots)
    ensures s == [] ==> ReadFields(fields, slots, seen, s) == None
    ensures s != [] && s[0] == 0 ==> ReadFields(fields, slots, seen, s) == Some((slots, seen, s[1..]))
    ensures s != [] && s[0] != 0 && |s| < 3 ==> ReadFields(fields, slots, seen, s) == None
  {
  }

  /** The first field with the id on the wire is read into when its type is the one on the wire. */
  lemma FieldRead(fields: seq<Field>, slots: seq<Slot>, seen: set<int>, s: bytes, i: nat)
    requires SlotsOk(fields, slots) && |s| >= 3 && i < |fields| && s[0] != 0
    requires fields[i].id == (s[1] as int * 0x100 + s[2] as int) - (if s[1] < 0x80 then 0 else 0x1_0000)
    requires forall k :: 0 <= k < i ==> fields[k].id != fields[i].id
    ensures ReadFields(fields, slots, seen, s)
            == if Code(fields[i].t) == s[0] then
                 match Read(fields[i].t, slots[i].val, s[3..])
                 case Some((v, rest)) => ReadFields(fields, slots[i := Slot(true, v)], seen + {fields[i].id}, rest)
                 case None => None
               else
                 match Skip(s[0], s[3..])
                 case Some(rest) => ReadFields(fields, slots, seen, rest)
                 case None => None
  {
    hide Read, Skip, HasType, Code, Pow256, DecNat;
    Powers();
    NumberOfTwo(s[1..][..2]);
    SignedRead(2, s[1..]);
    assert s[1..][2..] == s[3..];
  }

  /** A field that the reader does not have is skipped by its type on the wire. */
  lemma FieldSkipped(fields: seq<Field>, slots: seq<Slot>, seen: set<int>, s: bytes)
    requires SlotsOk(fields, slots) && |s| >= 3 && s[0] != 0
    requires forall k :: 0 <= k < |fields| ==>
        fields[k].id != (s[1] as int * 0x100 + s[2] as int) - (if s[1] < 0x80 then 0 else 0x1_0000)
    ensures ReadFields(fields, slots, seen, s) == match Skip(s[0], s[3..])
                                                  case Some(rest) => ReadFields(fields, slots, seen, rest)
                                                  case None => None
  {
    hide Read, Skip, HasType, Code, Pow256, DecNat;
    Powers();
    NumberOfTwo(s[1..][..2]);
    SignedRead(2, s[1..]);
    assert s[1..][2..] == s[3..];
  }
}
