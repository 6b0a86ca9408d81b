/**
 * The Thrift struct codec: type-directed writers and readers, what a reader does with fields it does not know or
 * declares with another type, and what a value becomes between two schemas.
 */
module ThriftCodec {
  import opened RpcTypes
  import opened ThriftWire

  type FieldId = i: int | -0x8000 <= i < 0x8000

  /** Macro structs declare fields required or optional; generated code writes default fields always, checks never. */
  datatype Requirement = Required | Optional | Default

  /** `less` orders sets and maps; macro code reads into a set without clearing it, generated code clears it. */
  datatype Type =
    | TBool | TByte | TI16 | TI32 | TI64 | TDouble | TString
    | TStruct(fields: seq<Field>)
    | TList(elem: Type)
    | TSet(elem: Type, less: (Val, Val) -> bool, clears: bool)
    | TMap(key: Type, value: Type, less: (Val, Val) -> bool)

  datatype Field = Field(id: FieldId, req: Requirement, t: Type)

  const STOP: byte := 0

  /** TTypeT<T>::value. */
  function Code(t: Type): (c: byte)
    ensures c != STOP
  {
    match t
    case TBool => 2
    case TByte => 3
    case TDouble => 4
    case TI16 => 6
    case TI32 => 8
    case TI64 => 10
    case TString => 11
    case TStruct(_) => 12
    case TMap(_, _, _) => 13
    case TSet(_, _, _) => 14
    case TList(_) => 15
  }

  /** Bytes of an integer of this type. */
  function Width(t: Type): nat {
    match t
    case TByte => 1
    case TI16 => 2
    case TI32 => 4
    case TI64 => 8
    case _ => 0
  }

  /** `v` is a value of type `t`. The bit of a field that has none in the source is always set. */
  ghost predicate HasType(t: Type, v: Val) {
    match t
    case TBool => v.VBool?
    case TDouble => v.VDouble? && v.bits < Pow256(8)
    case TString => v.VString?
    case TStruct(fields) =>
      && v.VStruct? && |v.slots| == |fields|
      && forall i :: 0 <= i < |fields| ==> HasType(fields[i].t, v.slots[i].val)
                                           && (!fields[i].req.Optional? ==> v.slots[i].isset)
    case TList(elem) => v.VSeq? && forall i :: 0 <= i < |v.items| ==> HasType(elem, v.items[i])
    case TSet(elem, _, _) => v.VSeq? && forall i :: 0 <= i < |v.items| ==> HasType(elem, v.items[i])
    case TMap(key, value, _) =>
      v.VMap? && forall i :: 0 <= i < |v.pairs| ==> HasType(key, v.pairs[i].0) && HasType(value, v.pairs[i].1)
    case _ => v.VInt? && InWidth(Width(t), v.i)
  }

  /** No string or container in `v` is longer than a 32-bit size can say. */
  ghost predicate Fits(v: Val) {
    match v
    case VString(s) => |s| < 0x8000_0000
    case VStruct(slots) => forall i :: 0 <= i < |slots| ==> Fits(slots[i].val)
    case VSeq(items) => |items| < 0x8000_0000 && forall i :: 0 <= i < |items| ==> Fits(items[i])
    case VMap(pairs) => |pairs| < 0x8000_0000 && forall i :: 0 <= i < |pairs| ==> Fits(pairs[i].0) && Fits(pairs[i].1)
    case _ => true
  }

  /** What the default constructor gives. */
  function Fresh(t: Type): (v: Val)
    ensures HasType(t, v)
  {
    match t
    case TBool => VBool(false)
    case TDouble => VDouble(0)
    case TString => VString([])
    case TStruct(fields) => VStruct(seq(|fields|, i requires 0 <= i < |fields| => FreshSlot(fields[i])))
    case TList(_) => VSeq([])
    case TSet(_, _, _) => VSeq([])
    case TMap(_, _, _) => VMap([])
    case _ => VInt(0)
  }

  function FreshSlot(f: Field): (s: Slot)
    ensures HasType(f.t, s.val) && s.isset == !f.req.Optional?
  {
    Slot(!f.req.Optional?, Fresh(f.t))
  }

  // ---------------------------------------------------------------- writing

  function Enc(t: Type, v: Val): (s: bytes)
    requires HasType(t, v) && Fits(v)
    ensures s != []
    decreases t, 1, 0
  {
    Widths();
    match t
    case TBool => [if v.b then 1 else 0]
    case TDouble => EncNat(8, v.bits)
    case TString => EncInt(4, |v.s|) + v.s
    case TStruct(fields) => EncFields(fields, v.slots, 0) + [STOP]
    case TList(elem) => [Code(elem)] + EncInt(4, |v.items|) + EncItems(elem, v.items)
    case TSet(elem, _, _) => [Code(elem)] + EncInt(4, |v.items|) + EncItems(elem, v.items)
    case TMap(key, value, _) => [Code(key), Code(value)] + EncInt(4, |v.pairs|) + EncPairs(t, v.pairs)
    case _ => EncInt(Width(t), v.i)
  }

  /** A field header and its value; an optional field that is not set is left out. */
  function EncField(f: Field, slot: Slot): bytes
    requires HasType(f.t, slot.val) && Fits(slot.val)
    decreases f.t, 2, 0
  {
    Widths();
    if f.req.Optional? && !slot.isset then [] else [Code(f.t)] + EncInt(2, f.id) + Enc(f.t, slot.val)
  }

  /** The fields from the `i`-th on. */
  function EncFields(fields: seq<Field>, slots: seq<Slot>, i: nat): bytes
    requires i <= |fields| == |slots|
    requires forall k :: 0 <= k < |fields| ==> HasType(fields[k].t, slots[k].val) && Fits(slots[k].val)
    decreases TStruct(fields), 0, |fields| - i
  {
    if i == |fields| then [] else EncField(fields[i], slots[i]) + EncFields(fields, slots, i + 1)
  }

  function EncItems(elem: Type, items: seq<Val>): bytes
    requires forall i :: 0 <= i < |items| ==> HasType(elem, items[i]) && Fits(items[i])
    decreases elem, 2, |items|
  {
    if items == [] then [] else Enc(elem, items[0]) + EncItems(elem, items[1..])
  }

  function EncPairs(t: Type, pairs: seq<(Val, Val)>): bytes
    requires t.TMap? && forall i :: 0 <= i < |pairs| ==>
        HasType(t.key, pairs[i].0) && HasType(t.value, pairs[i].1) && Fits(pairs[i].0) && Fits(pairs[i].1)
    decreases t, 0, |pairs|
  {
    if pairs == [] then [] else Enc(t.key, pairs[0].0) + Enc(t.value, pairs[0].1) + EncPairs(t, pairs[1..])
  }

  // ---------------------------------------------------------------- skipping

  /** TProtocol::skip of a value of wire type `code`. */
  function Skip(code: byte, s: bytes): (r: Option<bytes>)
    ensures r.Some? ==> |r.value| <= |s|
    decreases |s|, 1, 0
  {
    match code
    case 2 => Drop(1, s)
    case 3 => Drop(1, s)
    case 4 => Drop(8, s)
    case 6 => Drop(2, s)
    case 8 => Drop(4, s)
    case 10 => Drop(8, s)
    case 11 =>
      (match ReadInt(4, s)
       case Some((n, rest)) => if n < 0 then None else Drop(n, rest)
       case None => None)
    case 12 => SkipFields(s)
    case 13 =>
      if |s| < 2 then None else
      (match ReadInt(4, s[2..])
       case Some((n, rest)) => if n < 0 then None else SkipPairs(s[0], s[1], n, rest)
       case None => None)
    case 14 => SkipContainer(s)
    case 15 => SkipContainer(s)
    case _ => None
  }

  function Drop(n: nat, s: bytes): (r: Option<bytes>)
    ensures r.Some? ==> |r.value| <= |s|
  {
    if |s| < n then None else Some(s[n..])
  }

  function SkipContainer(s: bytes): (r: Option<bytes>)
    ensures r.Some? ==> |r.value| <= |s|
    decreases |s|, 0, 0
  {
    if s == [] then None else
    match ReadInt(4, s[1..])
    case Some((n, rest)) => if n < 0 then None else SkipItems(s[0], n, rest)
    case None => None
  }

  function SkipFields(s: bytes): (r: Option<bytes>)
    ensures r.Some? ==> |r.value| <= |s|
    decreases |s|, 0, 0
  {
    if s == [] then None
    else if s[0] == STOP then Some(s[1..])
    else match ReadInt(2, s[1..])
      case Some((_, rest)) =>
        (match Skip(s[0], rest)
         case Some(rest') => SkipFields(rest')
         case None => None)
      case None => None
  }

  function SkipItems(code: byte, n: nat, s: bytes): (r: Option<bytes>)
    ensures r.Some? ==> |r.value| <= |s|
    decreases |s|, 2, n
  {
    if n == 0 then Some(s) else
    match Skip(code, s)
    case Some(rest) => SkipItems(code, n - 1, rest)
    case None => None
  }

  function SkipPairs(key: byte, value: byte, n: nat, s: bytes): (r: Option<bytes>)
    ensures r.Some? ==> |r.value| <= |s|
    decreases |s|, 2, n
  {
    if n == 0 then Some(s) else
    match Skip(key, s)
    case Some(rest) =>
      (match Skip(value, rest)
       case Some(rest') => SkipPairs(key, value, n - 1, rest')
       case None => None)
    case None => None
  }

  // ---------------------------------------------------------------- containers

  /** Position of the first element that is not less than `e`. */
  function LowerBound(less: (Val, Val) -> bool, items: seq<Val>, e: Val): (p: nat)
    ensures p <= |items|
    ensures forall i :: 0 <= i < p ==> less(items[i], e)
    ensures p < |items| ==> !less(items[p], e)
  {
    if items == [] || !less(items[0], e) then 0 else 1 + LowerBound(less, items[1..], e)
  }

  /** `set::insert`: an element equivalent to `e` stays. */
  function Insert(less: (Val, Val) -> bool, items: seq<Val>, e: Val): (r: seq<Val>)
    ensures forall i :: 0 <= i < |r| ==> r[i] in items || r[i] == e
  {
    var p := LowerBound(less, items, e);
    if p < |items| && !less(e, items[p]) then items else items[..p] + [e] + items[p..]
  }

  function Keys(pairs: seq<(Val, Val)>): (ks: seq<Val>)
    ensures |ks| == |pairs| && forall i :: 0 <= i < |ks| ==> ks[i] == pairs[i].0
  {
    seq(|pairs|, i requires 0 <= i < |pairs| => pairs[i].0)
  }

  /** `map::operator[]`: where `key` is, and the map with a fresh value for it when it was not there. */
  function Access(less: (Val, Val) -> bool, pairs: seq<(Val, Val)>, key: Val, blank: Val): (r: (nat, seq<(Val, Val)>))
    ensures r.0 < |r.1|
    ensures forall i :: 0 <= i < |r.1| ==> r.1[i] in pairs || r.1[i] == (key, blank)
  {
    var p := LowerBound(less, Keys(pairs), key);
    if p < |pairs| && !less(key, pairs[p].0) then (p, pairs)
    else (p, pairs[..p] + [(key, blank)] + pairs[p..])
  }

  lemma InsertKeepsType(elem: Type, less: (Val, Val) -> bool, items: seq<Val>, e: Val)
    requires HasType(elem, e) && forall i :: 0 <= i < |items| ==> HasType(elem, items[i])
    ensures var r := Insert(less, items, e); forall i :: 0 <= i < |r| ==> HasType(elem, r[i])
  {
  }

  lemma AccessKeepsTypes(key: Type, value: Type, less: (Val, Val) -> bool, pairs: seq<(Val, Val)>, k: Val)
    requires HasType(key, k) && forall i :: 0 <= i < |pairs| ==> HasType(key, pairs[i].0) && HasType(value, pairs[i].1)
    ensures var r := Access(less, pairs, k, Fresh(value)).1;
            forall i :: 0 <= i < |r| ==> HasType(key, r[i].0) && HasType(value, r[i].1)
  {
  }

  // ---------------------------------------------------------------- reading

  /** The field with this id, or the number of fields. */
  function Find(fields: seq<Field>, id: int): (i: nat)
    ensures i <= |fields| && (i < |fields| ==> fields[i].id == id)
    ensures forall k :: 0 <= k < i ==> fields[k].id != id
  {
    if fields == [] || fields[0].id == id then 0 else 1 + Find(fields[1..], id)
  }

  ghost predicate SlotsOk(fields: seq<Field>, slots: seq<Slot>) {
    |slots| == |fields| && forall i :: 0 <= i < |fields| ==>
      HasType(fields[i].t, slots[i].val) && (!fields[i].req.Optional? ==> slots[i].isset)
  }

  predicate AllRequired(fields: seq<Field>, seen: set<int>) {
    forall i :: 0 <= i < |fields| && fields[i].req.Required? ==> fields[i].id in seen
  }

  /** The value read from the front of `s` into the target `x`, and what follows it; None is an exception. */
  function Read(t: Type, x: Val, s: bytes): (r: Option<(Val, bytes)>)
    requires HasType(t, x)
    ensures r.Some? ==> HasType(t, r.value.0) && |r.value.1| < |s|
    decreases |s|, 1, 0
  {
    match t
    case TBool => if s == [] then None else Some((VBool(s[0] != 0), s[1..]))
    case TDouble => if |s| < 8 then None else Some((VDouble(DecNat(s[..8])), s[8..]))
    case TString =>
      (match ReadInt(4, s)
       case Some((n, rest)) => if n < 0 || |rest| < n then None else Some((VString(rest[..n]), rest[n..]))
       case None => None)
    case TStruct(fields) =>
      (match ReadFields(fields, x.slots, {}, s)
       case Some((slots, seen, rest)) => if AllRequired(fields, seen) then Some((VStruct(slots), rest)) else None
       case None => None)
    case TList(elem) =>
      if s == [] then None else
      (match ReadInt(4, s[1..])
       case Some((n, rest)) => if n < 0 then None else ReadItems(elem, [], n, rest)
       case None => None)
    case TSet(elem, less, clears) =>
      if s == [] then None else
      (match ReadInt(4, s[1..])
       case Some((n, rest)) => if n < 0 then None else ReadSet(elem, less, if clears then [] else x.items, n, rest)
       case None => None)
    case TMap(key, value, less) =>
      if |s| < 2 then None else
      (match ReadInt(4, s[2..])
       case Some((n, rest)) => if n < 0 then None else ReadPairs(key, value, less, [], n, rest)
       case None => None)
    case _ =>
      (match ReadInt(Width(t), s)
       case Some((i, rest)) => Some((VInt(i), rest))
       case None => None)
  }

  /** The field loop: unknown fields, and fields of another wire type than declared, are skipped. */
  function ReadFields(fields: seq<Field>, slots: seq<Slot>, seen: set<int>, s: bytes):
      (r: Option<(seq<Slot>, set<int>, bytes)>)
    requires SlotsOk(fields, slots)
    ensures r.Some? ==> SlotsOk(fields, r.value.0) && |r.value.2| < |s|
    decreases |s|, 0, 0
  {
    if s == [] then None
    else if s[0] == STOP then Some((slots, seen, s[1..]))
    else match ReadInt(2, s[1..])
      case Some((id, rest)) =>
        var i := Find(fields, id);
        if i < |fields| && Code(fields[i].t) == s[0] then
          (match Read(fields[i].t, slots[i].val, rest)
           case Some((v, rest')) => ReadFields(fields, slots[i := Slot(true, v)], seen + {id}, rest')
           case None => None)
        else
          (match Skip(s[0], rest)
           case Some(rest') => ReadFields(fields, slots, seen, rest')
           case None => None)
      case None => None
  }

  /** The loop of a list: each element is read into a fresh one. */
  function ReadItems(elem: Type, done: seq<Val>, n: nat, s: bytes): (r: Option<(Val, bytes)>)
    requires forall i :: 0 <= i < |done| ==> HasType(elem, done[i])
    ensures r.Some? ==> |r.value.1| <= |s| && HasType(TList(elem), r.value.0)
    decreases |s|, 2, n
  {
    if n == 0 then Some((VSeq(done), s)) else
    match Read(elem, Fresh(elem), s)
    case Some((v, rest)) => ReadItems(elem, done + [v], n - 1, rest)
    case None => None
  }

  function ReadSet(elem: Type, less: (Val, Val) -> bool, done: seq<Val>, n: nat, s: bytes): (r: Option<(Val, bytes)>)
    requires forall i :: 0 <= i < |done| ==> HasType(elem, done[i])
    ensures r.Some? ==> |r.value.1| <= |s| && HasType(TList(elem), r.value.0)
    decreases |s|, 2, n
  {
    if n == 0 then Some((VSeq(done), s)) else
    match Read(elem, Fresh(elem), s)
    case Some((v, rest)) => ReadSet(elem, less, Insert(less, done, v), n - 1, rest)
    case None => None
  }

  ghost predicate PairsOk(key: Type, value: Type, pairs: seq<(Val, Val)>) {
    forall i :: 0 <= i < |pairs| ==> HasType(key, pairs[i].0) && HasType(value, pairs[i].1)
  }

  /** One entry of a map: its value is read into the one that the key has already. */
  function ReadPair(key: Type, value: Type, less: (Val, Val) -> bool, done: seq<(Val, Val)>, s: bytes):
      (r: Option<(seq<(Val, Val)>, bytes)>)
    requires PairsOk(key, value, done)
    ensures r.Some? ==> PairsOk(key, value, r.value.0) && |r.value.1| <= |s|
    decreases |s|, 2, 0
  {
    match Read(key, Fresh(key), s)
    case Some((k, rest)) =>
      (var (p, done') := Access(less, done, k, Fresh(value));
       match Read(value, done'[p].1, rest)
       case Some((v, rest')) => Some((done'[p := (done'[p].0, v)], rest'))
       case None => None)
    case None => None
  }

  function ReadPairs(key: Type, value: Type, less: (Val, Val) -> bool, done: seq<(Val, Val)>, n: nat, s: bytes):
      (r: Option<(Val, bytes)>)
    requires PairsOk(key, value, done)
    ensures r.Some? ==> |r.value.1| <= |s| && HasType(TMap(key, value, less), r.value.0)
    decreases |s|, 3, n
  {
    if n == 0 then Some((VMap(done), s)) else
    match ReadPair(key, value, less, done, s)
    case Some((done', rest)) => ReadPairs(key, value, less, done', n - 1, rest)
    case None => None
  }
}
