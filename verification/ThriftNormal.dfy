/**
 * Values of normal form: readers make no others, and exactly they survive being written and read. What happens
 * outside: targets that were used before, struct orders that ignore set bits, other element types on the wire.
 */
module ThriftNormal {
  import opened Arithmetic
  import opened RpcTypes
  import opened ThriftWire
  import opened ThriftCodec
  import opened ThriftEvolution
  import opened ThriftLaws

  ghost predicate IsNormal(t: Type, v: Val) { HasType(t, v) && Normal(t, v) }

  ghost predicate AreNormal(t: Type, items: seq<Val>) { forall i :: 0 <= i < |items| ==> IsNormal(t, items[i]) }

  /** `less` orders the values of normal form, as far as it does: no two of them both ways, and transitively. */
  ghost predicate StrictOrder(less: (Val, Val) -> bool, t: Type) {
    && (forall a, b :: IsNormal(t, a) && IsNormal(t, b) ==> !(less(a, b) && less(b, a)))
    && (forall a, b, c :: IsNormal(t, a) && IsNormal(t, b) && IsNormal(t, c) && less(a, b) && less(b, c) ==> less(a, c))
  }

  /** The sets and maps of the schema are ordered by such orders, which every strict weak order is. */
  ghost predicate Ordered(t: Type) {
    match t
    case TStruct(fields) => forall i :: 0 <= i < |fields| ==> Ordered(fields[i].t)
    case TList(elem) => Ordered(elem)
    case TSet(elem, less, _) => StrictOrder(less, elem) && Ordered(elem)
    case TMap(key, value, less) => StrictOrder(less, key) && Ordered(key) && Ordered(value)
    case _ => true
  }

  lemma {:induction false} FreshIsNormal(t: Type)
    ensures Normal(t, Fresh(t))
  {
    match t
    case TStruct(fields) =>
      forall i | 0 <= i < |fields| ensures Normal(fields[i].t, FreshSlot(fields[i]).val) {
        FreshIsNormal(fields[i].t);
      }
    case _ =>
  }

  // ---------------------------------------------------------------- what readers make

  lemma InsertedAscending(less: (Val, Val) -> bool, items: seq<Val>, p: nat, e: Val)
    requires p <= |items| && Ascending(less, items)
    requires forall i :: 0 <= i < p ==> less(items[i], e) && !less(e, items[i])
    requires forall i :: p <= i < |items| ==> less(e, items[i]) && !less(items[i], e)
    ensures Ascending(less, items[..p] + [e] + items[p..])
  {
  }

  /** Where a new element goes, or that an equivalent one is there. */
  lemma PlaceOf(less: (Val, Val) -> bool, t: Type, items: seq<Val>, e: Val)
    requires StrictOrder(less, t) && AreNormal(t, items) && IsNormal(t, e) && Ascending(less, items)
    ensures var p := LowerBound(less, items, e);
            (p == |items| || less(e, items[p])) ==>
              && (forall i :: 0 <= i < p ==> less(items[i], e) && !less(e, items[i]))
              && (forall i :: p <= i < |items| ==> less(e, items[i]) && !less(items[i], e))
  {
    hide IsNormal;
    var p := LowerBound(less, items, e);
    if p == |items| || less(e, items[p]) {
      forall i | p <= i < |items| ensures less(e, items[i]) && !less(items[i], e) {
        assert i > p ==> less(items[p], items[i]);
      }
      forall i | 0 <= i < p ensures !less(e, items[i]) {
        assert IsNormal(t, items[i]);
      }
    }
  }

  lemma InsertKeepsNormal(less: (Val, Val) -> bool, t: Type, items: seq<Val>, e: Val)
    requires StrictOrder(less, t) && AreNormal(t, items) && IsNormal(t, e) && Ascending(less, items)
    ensures AreNormal(t, Insert(less, items, e)) && Ascending(less, Insert(less, items, e))
  {
    hide IsNormal, StrictOrder, Ascending;
    PlaceOf(less, t, items, e);
    var p := LowerBound(less, items, e);
    if p == |items| || less(e, items[p]) {
      InsertedAscending(less, items, p, e);
    }
  }

  ghost predicate PairsNormal(t: Type, pairs: seq<(Val, Val)>)
    requires t.TMap?
  {
    && AreNormal(t.key, Keys(pairs)) && Ascending(t.less, Keys(pairs))
    && forall i :: 0 <= i < |pairs| ==> IsNormal(t.value, pairs[i].1)
  }

  lemma AccessKeepsNormal(t: Type, pairs: seq<(Val, Val)>, k: Val)
    requires t.TMap? && StrictOrder(t.less, t.key) && PairsNormal(t, pairs) && IsNormal(t.key, k)
    ensures PairsNormal(t, Access(t.less, pairs, k, Fresh(t.value)).1)
  {
    FreshIsNormal(t.value);
    assert IsNormal(t.value, Fresh(t.value));
    hide IsNormal, StrictOrder, Ascending, Fresh, LowerBound;
    PlaceOf(t.less, t.key, Keys(pairs), k);
    var p := LowerBound(t.less, Keys(pairs), k);
    if p == |pairs| || t.less(k, pairs[p].0) {
      InsertedAscending(t.less, Keys(pairs), p, k);
      InsertedKeys(pairs, p, k, Fresh(t.value));
    }
  }

  lemma InsertedKeys(pairs: seq<(Val, Val)>, p: nat, k: Val, v: Val)
    requires p <= |pairs|
    ensures Keys(pairs[..p] + [(k, v)] + pairs[p..]) == Keys(pairs)[..p] + [k] + Keys(pairs)[p..]
  {
  }

  ghost predicate SlotsNormal(fields: seq<Field>, slots: seq<Slot>) {
    SlotsOk(fields, slots) && forall i :: 0 <= i < |fields| ==>
      IsNormal(fields[i].t, slots[i].val) && (!slots[i].isset ==> slots[i].val == Fresh(fields[i].t))
  }

  /** Readers make values of normal form from any bytes at all, when the target was one. */
  lemma {:induction false} ReadIsNormal(t: Type, x: Val, s: bytes)
    requires IsNormal(t, x) && Ordered(t)
    ensures Read(t, x, s).Some? ==> IsNormal(t, Read(t, x, s).value.0)
    decreases |s|, 1, 0
  {
    hide ReadFields, ReadItems, ReadSet, ReadPairs;
    match t
    case TStruct(fields) =>
      FieldsAreNormal(fields, x.slots, {}, s);
    case TList(elem) =>
      if s != [] && ReadInt(4, s[1..]).Some? && ReadInt(4, s[1..]).value.0 >= 0 {
        ItemsAreNormal(elem, [], ReadInt(4, s[1..]).value.0, ReadInt(4, s[1..]).value.1);
      }
    case TSet(elem, less, clears) =>
      if s != [] && ReadInt(4, s[1..]).Some? && ReadInt(4, s[1..]).value.0 >= 0 {
        SetIsNormal(elem, less, if clears then [] else x.items, ReadInt(4, s[1..]).value.0, ReadInt(4, s[1..]).value.1);
      }
    case TMap(key, value, less) =>
      if |s| >= 2 && ReadInt(4, s[2..]).Some? && ReadInt(4, s[2..]).value.0 >= 0 {
        PairsAreNormal(t, [], ReadInt(4, s[2..]).value.0, ReadInt(4, s[2..]).value.1);
      }
    case _ =>
  }

  lemma {:induction false} FieldsAreNormal(fields: seq<Field>, slots: seq<Slot>, seen: set<int>, s: bytes)
    requires SlotsNormal(fields, slots) && forall i :: 0 <= i < |fields| ==> Ordered(fields[i].t)
    ensures var y := ReadFields(fields, slots, seen, s); y.Some? ==> SlotsNormal(fields, y.value.0)
    decreases |s|, 0, 0
  {
    hide Read, Skip, Normal, HasType, Fresh, Ordered, Code;
    if s != [] && s[0] != STOP && ReadInt(2, s[1..]).Some? {
      var (id, rest) := ReadInt(2, s[1..]).value;
      var i := Find(fields, id);
      if i < |fields| && Code(fields[i].t) == s[0] {
        ReadIsNormal(fields[i].t, slots[i].val, rest);
        match Read(fields[i].t, slots[i].val, rest)
        case Some((v, rest')) => FieldsAreNormal(fields, slots[i := Slot(true, v)], seen + {id}, rest');
        case None =>
      } else if Skip(s[0], rest).Some? {
        FieldsAreNormal(fields, slots, seen, Skip(s[0], rest).value);
      }
    }
  }

  lemma {:induction false} ItemsAreNormal(elem: Type, done: seq<Val>, n: nat, s: bytes)
    requires AreNormal(elem, done) && Ordered(elem)
    ensures var y := ReadItems(elem, done, n, s); y.Some? ==> IsNormal(TList(elem), y.value.0)
    decreases |s|, 2, n
  {
    hide Read;
    if n > 0 {
      FreshIsNormal(elem);
      ReadIsNormal(elem, Fresh(elem), s);
      match Read(elem, Fresh(elem), s)
      case Some((v, rest)) => ItemsAreNormal(elem, done + [v], n - 1, rest);
      case None =>
    }
  }

  lemma {:induction false} SetIsNormal(elem: Type, less: (Val, Val) -> bool, done: seq<Val>, n: nat, s: bytes)
    requires AreNormal(elem, done) && Ascending(less, done) && Ordered(elem) && StrictOrder(less, elem)
    ensures var y := ReadSet(elem, less, done, n, s); y.Some? ==> IsNormal(TSet(elem, less, false), y.value.0)
    decreases |s|, 2, n
  {
    hide Read, StrictOrder, Insert;
    if n > 0 {
      FreshIsNormal(elem);
      ReadIsNormal(elem, Fresh(elem), s);
      match Read(elem, Fresh(elem), s)
      case Some((v, rest)) =>
        InsertKeepsNormal(less, elem, done, v);
        SetIsNormal(elem, less, Insert(less, done, v), n - 1, rest);
      case None =>
    }
  }

  lemma {:induction false} PairIsNormal(t: Type, done: seq<(Val, Val)>, s: bytes)
    requires Ordered(t) && t.TMap? && PairsNormal(t, done) && PairsOk(t.key, t.value, done)
    ensures var y := ReadPair(t.key, t.value, t.less, done, s); y.Some? ==> PairsNormal(t, y.value.0)
    decreases |s|, 2, 0
  {
    FreshIsNormal(t.key);
    ReadIsNormal(t.key, Fresh(t.key), s);
    match Read(t.key, Fresh(t.key), s)
    case Some((k, rest)) =>
      AccessKeepsNormal(t, done, k);
      AccessKeepsTypes(t.key, t.value, t.less, done, k);
      var (p, done') := Access(t.less, done, k, Fresh(t.value));
      ReadIsNormal(t.value, done'[p].1, rest);
      hide Read, Normal, HasType, StrictOrder, Ascending, Access, Fresh;
      match Read(t.value, done'[p].1, rest) {
        case Some((v, _)) => assert Keys(done'[p := (done'[p].0, v)]) == Keys(done');
        case None =>
      }
    case None =>
  }

  lemma {:induction false} PairsAreNormal(t: Type, done: seq<(Val, Val)>, n: nat, s: bytes)
    requires Ordered(t) && t.TMap? && PairsNormal(t, done) && PairsOk(t.key, t.value, done)
    ensures var y := ReadPairs(t.key, t.value, t.less, done, n, s); y.Some? ==> IsNormal(t, y.value.0)
    decreases |s|, 3, n
  {
    hide ReadPair, StrictOrder;
    if n == 0 {
      assert forall i :: 0 <= i < |done| ==> IsNormal(t.key, Keys(done)[i]);
    } else {
      PairIsNormal(t, done, s);
      match ReadPair(t.key, t.value, t.less, done, s)
      case Some((done', rest)) => PairsAreNormal(t, done', n - 1, rest);
      case None =>
    }
  }

  /** The values that survive being written and read into a fresh target are exactly those of normal form. */
  lemma RoundTripIffNormal(t: Type, v: Val, rest: bytes)
    requires WellFormed(t) && Ordered(t) && HasType(t, v) && Fits(v)
    ensures Read(t, Fresh(t), Enc(t, v) + rest) == Some((v, rest)) <==> Normal(t, v)
  {
    if Normal(t, v) {
      RoundTrip(t, v, rest);
    } else {
      FreshIsNormal(t);
      ReadIsNormal(t, Fresh(t), Enc(t, v) + rest);
    }
  }

  ghost predicate ReadsBack(g: Type, m: Type, y: Val, rest: bytes)
    requires HasType(g, y) && Fits(y)
  {
    Read(m, Fresh(m), Enc(g, y) + rest) == Some((y, rest))
  }

  /**
   * Interoperability the other way: what the macro codec writes, generated code reads, if at all, as a value that the
   * macro codec reads back. It is the value that was written if and only if that sets every field that generated
   * code always writes.
   */
  lemma InteroperableBack(g: Type, m: Type, v: Val, rest: bytes)
    requires SameShape(g, m) && WellFormed(g) && WellFormed(m) && Ordered(g)
    requires HasType(m, v) && Normal(m, v) && Fits(v)
    ensures var r := Read(g, Fresh(g), Enc(m, v) + rest);
            && (r.Some? && Fits(r.value.0) ==> ReadsBack(g, m, r.value.0, rest))
            && (r.Some? && r.value.0 == v <==> HasType(g, v))
  {
    hide HasType, Normal, Fits, Enc, Read, SameShape, Fresh, WellFormed, Ordered, ReadsBack;
    if HasType(g, v) {
      SetFieldsComeBack(g, m, v, rest);
    }
    FreshIsNormal(g);
    ReadIsNormal(g, Fresh(g), Enc(m, v) + rest);
    var r := Read(g, Fresh(g), Enc(m, v) + rest);
    if r.Some? && Fits(r.value.0) {
      RewrittenComesBack(g, m, r.value.0, rest);
    }
  }

  lemma SetFieldsComeBack(g: Type, m: Type, v: Val, rest: bytes)
    requires SameShape(g, m) && WellFormed(g) && WellFormed(m)
    requires HasType(g, v) && HasType(m, v) && Normal(m, v) && Fits(v)
    ensures Read(g, Fresh(g), Enc(m, v) + rest) == Some((v, rest))
  {
    hide Read, Enc, Fits, Fresh;
    NormalBack(g, m, v);
    Interoperable(g, m, v, rest);
  }

  lemma RewrittenComesBack(g: Type, m: Type, y: Val, rest: bytes)
    requires SameShape(g, m) && WellFormed(g) && WellFormed(m) && IsNormal(g, y) && Fits(y)
    ensures ReadsBack(g, m, y, rest)
  {
    hide Read, Enc, Fits, Fresh;
    Interoperable(g, m, y, rest);
  }

  lemma {:induction false} NormalBack(g: Type, m: Type, v: Val)
    requires SameShape(g, m) && HasType(g, v) && HasType(m, v) && Normal(m, v)
    ensures Normal(g, v)
  {
    match g
    case TStruct(fg) =>
      forall i | 0 <= i < |fg| ensures Normal(fg[i].t, v.slots[i].val) {
        NormalBack(fg[i].t, m.fields[i].t, v.slots[i].val);
      }
    case TList(elem) =>
      forall i | 0 <= i < |v.items| ensures Normal(elem, v.items[i]) { NormalBack(elem, m.elem, v.items[i]); }
    case TSet(elem, _, _) =>
      forall i | 0 <= i < |v.items| ensures Normal(elem, v.items[i]) { NormalBack(elem, m.elem, v.items[i]); }
    case TMap(key, value, _) =>
      forall i | 0 <= i < |v.pairs| ensures Normal(key, v.pairs[i].0) && Normal(value, v.pairs[i].1) {
        NormalBack(key, m.key, v.pairs[i].0);
        NormalBack(value, m.value, v.pairs[i].1);
      }
    case _ =>
  }

  // ---------------------------------------------------------------- sets that were used before

  ghost predicate Within(items: seq<Val>, all: seq<Val>) { forall e :: e in items ==> e in all }

  ghost predicate Irreflexive(less: (Val, Val) -> bool, t: Type) { forall e :: IsNormal(t, e) ==> !less(e, e) }

  lemma AscendingPair(less: (Val, Val) -> bool, v: seq<Val>, a: Val, b: Val)
    requires Ascending(less, v) && a in v && b in v
    ensures a == b || (less(a, b) && !less(b, a)) || (less(b, a) && !less(a, b))
  {
  }

  lemma AscendingChain(less: (Val, Val) -> bool, v: seq<Val>, a: Val, b: Val, c: Val)
    requires Ascending(less, v) && a in v && b in v && c in v && a != b && b != c && less(a, b) && less(b, c)
    ensures less(a, c) && !less(c, a)
  {
    var i, j, k :| 0 <= i < |v| && 0 <= j < |v| && 0 <= k < |v| && v[i] == a && v[j] == b && v[k] == c;
    assert i < j < k;
  }

  lemma AscendingAt(less: (Val, Val) -> bool, items: seq<Val>, i: nat, j: nat)
    requires Ascending(less, items) && i < j < |items|
    ensures less(items[i], items[j]) && !less(items[j], items[i])
  {
  }

  /** Among the elements of one ascending sequence, whatever the order, insertion adds what is not there. */
  lemma InsertWithin(less: (Val, Val) -> bool, v: seq<Val>, items: seq<Val>, e: Val)
    requires Ascending(less, v) && Ascending(less, items) && Within(items, v) && e in v
    requires forall x :: x in v ==> !less(x, x)
    ensures var r := Insert(less, items, e); Ascending(less, r) && forall x :: x in r <==> x in items || x == e
  {
    hide Ascending;
    var p := LowerBound(less, items, e);
    if p < |items| && !less(e, items[p]) {
      AscendingPair(less, v, e, items[p]);
    } else {
      forall i | 0 <= i < p ensures less(items[i], e) && !less(e, items[i]) {
        AscendingPair(less, v, items[i], e);
      }
      forall i | p <= i < |items| ensures less(e, items[i]) && !less(items[i], e) {
        AscendingPair(less, v, e, items[p]);
        if i > p {
          AscendingAt(less, items, p, i);
          AscendingChain(less, v, e, items[p], items[i]);
        }
      }
      InsertedAscending(less, items, p, e);
      assert forall x :: x in items ==> x in items[..p] || x in items[p..];
    }
  }

  lemma InsertKeeps(less: (Val, Val) -> bool, items: seq<Val>, e: Val)
    ensures Within(items, Insert(less, items, e))
  {
    var p := LowerBound(less, items, e);
    assert forall x :: x in items ==> x in items[..p] || x in items[p..];
  }

  lemma NormalTypes(t: Type, items: seq<Val>)
    requires AreNormal(t, items)
    ensures forall i :: 0 <= i < |items| ==> HasType(t, items[i])
  {
    hide HasType, Normal;
  }

  ghost function SetRead(less: (Val, Val) -> bool, t: Type, done: seq<Val>, items: seq<Val>): (y: Option<Val>)
    requires Compatible(t, t) && AreNormal(t, done) && AreNormal(t, items)
    ensures y.Some? ==> y.value.VSeq?
  {
    NormalTypes(t, done);
    NormalTypes(t, items);
    ProjectSet(t, t, less, done, items)
  }

  lemma InsertStaysNormal(less: (Val, Val) -> bool, t: Type, items: seq<Val>, e: Val)
    requires AreNormal(t, items) && IsNormal(t, e)
    ensures AreNormal(t, Insert(less, items, e))
  {
    hide IsNormal;
  }

  /** Whatever is read into a set, nothing that was in it is lost. */
  lemma {:induction false} TargetStays(less: (Val, Val) -> bool, t: Type, done: seq<Val>, items: seq<Val>)
    requires WellFormed(t) && Compatible(t, t) && AreNormal(t, done) && AreNormal(t, items)
    ensures var y := SetRead(less, t, done, items); y.Some? && Within(done, y.value.items)
    decreases |items|
  {
    hide Insert, Project, Compatible, WellFormed, HasType, Normal;
    if items != [] {
      assert IsNormal(t, items[0]);
      ProjectSelf(t, items[0]);
      InsertStaysNormal(less, t, done, items[0]);
      InsertKeeps(less, done, items[0]);
      TargetStays(less, t, Insert(less, done, items[0]), items[1..]);
    }
  }

  /** What a target becomes that holds nothing but elements of the set read into it. */
  lemma {:induction false} WithinIsUnion(less: (Val, Val) -> bool, t: Type, v: seq<Val>, done: seq<Val>,
                                         items: seq<Val>)
    requires WellFormed(t) && Compatible(t, t) && AreNormal(t, done) && AreNormal(t, items) && Ascending(less, v)
    requires Ascending(less, done) && Within(done, v) && Within(items, v) && forall x :: x in v ==> !less(x, x)
    ensures var y := SetRead(less, t, done, items);
            y.Some? && Ascending(less, y.value.items) && forall x :: x in y.value.items <==> x in done || x in items
    decreases |items|
  {
    hide Insert, Ascending, LowerBound, Project, Compatible, WellFormed, HasType, Normal;
    if items != [] {
      assert IsNormal(t, items[0]);
      ProjectSelf(t, items[0]);
      InsertStaysNormal(less, t, done, items[0]);
      InsertWithin(less, v, done, items[0]);
      WithinIsUnion(less, t, v, Insert(less, done, items[0]), items[1..]);
      assert items == [items[0]] + items[1..];
    }
  }

  lemma LastIsGreatest(less: (Val, Val) -> bool, items: seq<Val>, x: Val)
    requires Ascending(less, items) && x in items
    ensures x == items[|items| - 1] || (less(x, items[|items| - 1]) && !less(items[|items| - 1], x))
  {
  }

  lemma NotLast(less: (Val, Val) -> bool, items: seq<Val>, x: Val)
    requires Ascending(less, items) && items != [] && x in items[..|items| - 1]
    ensures x in items && x != items[|items| - 1]
  {
  }

  lemma {:induction false} SameElementsSameSet(less: (Val, Val) -> bool, a: seq<Val>, b: seq<Val>)
    requires Ascending(less, a) && Ascending(less, b) && forall x :: x in a <==> x in b
    ensures a == b
    decreases |a|
  {
    assert b != [] ==> b[0] in b;
    if a != [] {
      var i, j := |a| - 1, |b| - 1;
      assert a[i] in b && |b| > 0;
      assert b[j] in a;
      LastIsGreatest(less, a, b[j]);
      LastIsGreatest(less, b, a[i]);
      forall x ensures x in a[..i] <==> x in b[..j] {
        if x in a[..i] { NotLast(less, a, x); assert x in b; }
        if x in b[..j] { NotLast(less, b, x); assert x in a; }
      }
      SameElementsSameSet(less, a[..i], b[..j]);
      assert a == a[..i] + [a[i]] && b == b[..j] + [b[j]];
    }
  }

  /**
   * The macro reader does not clear a set. Reading a set into a target that was used before gives what was written
   * if and only if the target holds nothing else, whatever the order of the elements.
   */
  lemma UsedSetTarget(elem: Type, less: (Val, Val) -> bool, x: Val, v: Val, rest: bytes)
    requires Irreflexive(less, elem) && WellFormed(elem) && Fits(v)
    requires IsNormal(TSet(elem, less, false), x) && IsNormal(TSet(elem, less, false), v)
    ensures Read(TSet(elem, less, false), x, Enc(TSet(elem, less, false), v) + rest) == Some((v, rest)) <==>
              Within(x.items, v.items)
  {
    var t := TSet(elem, less, false);
    CompatibleSelf(elem);
    ReadIsProjection(t, t, x, v, rest);
    hide Read, Enc, ProjectSet;
    TargetStays(less, elem, x.items, v.items);
    if Within(x.items, v.items) {
      assert forall e :: e in v.items ==> IsNormal(elem, e);
      WithinIsUnion(less, elem, v.items, x.items, v.items);
      SameElementsSameSet(less, SetRead(less, elem, x.items, v.items).value.items, v.items);
    }
  }

  // ---------------------------------------------------------------- a struct whose order ignores set bits

  /** EmbeddedStruct: a required byte and an optional i16, ordered by their raw values. */
  function EmbeddedLess(a: Val, b: Val): bool {
    && a.VStruct? && b.VStruct? && |a.slots| == |b.slots| == 2
    && a.slots[0].val.VInt? && b.slots[0].val.VInt? && a.slots[1].val.VInt? && b.slots[1].val.VInt?
    && (a.slots[0].val.i < b.slots[0].val.i
        || (a.slots[0].val.i == b.slots[0].val.i && a.slots[1].val.i < b.slots[1].val.i))
  }

  const EMBEDDED := TStruct([Field(1, Required, TByte), Field(2, Optional, TI16)])

  lemma EmbeddedIsOrdered()
    ensures StrictOrder(EmbeddedLess, EMBEDDED) && Irreflexive(EmbeddedLess, EMBEDDED)
    ensures Ordered(EMBEDDED) && WellFormed(EMBEDDED)
    ensures forall a, p, x, b, q, y ::
              EmbeddedLess(Embedded(a, p, x), Embedded(b, q, y)) <==> a < b || (a == b && x < y)
  {
    hide IsNormal;
  }

  /** Nothing is written of an unset field, which the constructor, the setters and the reader leave at 0. */
  predicate UnsetAreZero(items: seq<Val>) {
    forall i :: 0 <= i < |items| && items[i].VStruct? && |items[i].slots| == 2 ==>
      items[i].slots[1].isset || items[i].slots[1].val == VInt(0)
  }

  lemma EmbeddedIsNormal(v: Val)
    requires HasType(EMBEDDED, v)
    ensures Normal(EMBEDDED, v) <==> v.slots[1].isset || v.slots[1].val == VInt(0)
  {
    var fields := EMBEDDED.fields;
    assert HasType(fields[0].t, v.slots[0].val) && HasType(fields[1].t, v.slots[1].val);
    assert Fresh(TI16) == VInt(0);
  }

  /** A set of these structs survives being written and read exactly when the unset fields of its elements are 0. */
  lemma EmbeddedSetRoundTrip(v: Val, rest: bytes)
    requires HasType(TSet(EMBEDDED, EmbeddedLess, false), v) && Fits(v) && Ascending(EmbeddedLess, v.items)
    ensures var t := TSet(EMBEDDED, EmbeddedLess, false);
            Read(t, Fresh(t), Enc(t, v) + rest) == Some((v, rest)) <==> UnsetAreZero(v.items)
  {
    var t := TSet(EMBEDDED, EmbeddedLess, false);
    EmbeddedIsOrdered();
    RoundTripIffNormal(t, v, rest);
    hide Read, Enc, Ordered, WellFormed;
    forall i | 0 <= i < |v.items|
      ensures Normal(EMBEDDED, v.items[i]) <==> v.items[i].slots[1].isset || v.items[i].slots[1].val == VInt(0)
    {
      EmbeddedIsNormal(v.items[i]);
    }
  }

  /** Two's complement in 8 and in 16 bits. */
  function Word8(i: int): (u: byte)
    requires InWidth(1, i)
  {
    Widths();
    if i < 0 then i + 0x100 else i
  }

  function Word16(i: int): (u: nat)
    requires InWidth(2, i)
    ensures u < 0x1_0000
  {
    Widths();
    if i < 0 then i + 0x1_0000 else i
  }

  function Embedded(i8: int, isset: bool, i16: int): Val { VStruct([Slot(true, VInt(i8)), Slot(isset, VInt(i16))]) }

  /** The bytes of these structs: field type and id, big-endian values, and the stop byte. */
  lemma EmbeddedOnTheWire(i8: int, isset: bool, i16: int)
    requires InWidth(1, i8) && InWidth(2, i16)
    ensures var v := Embedded(i8, isset, i16);
            && HasType(EMBEDDED, v) && Fits(v)
            && Enc(EMBEDDED, v) == [3, 0, 1, Word8(i8)]
                                   + (if isset then [6, 0, 2, Word16(i16) / 0x100, Word16(i16) % 0x100] else []) + [0]
  {
    Widths();
    var f, sw := EMBEDDED.fields, Embedded(i8, isset, i16).slots;
    TwoBytes(1);
    TwoBytes(2);
    TwoBytes(i16);
    var head := [3, 0, 1, Word8(i8)];
    var tail := if isset then [6, 0, 2, Word16(i16) / 0x100, Word16(i16) % 0x100] else [];
    assert EncInt(1, i8) == [Word8(i8)] by { assert EncNat(0, 0) == []; }
    assert EncField(f[0], sw[0]) == head;
    assert EncField(f[1], sw[1]) == tail;
    assert EncFields(f, sw, 2) == [];
    assert EncFields(f, sw, 1) == tail;
  }

  lemma TwoBytes(i: int)
    requires InWidth(2, i)
    ensures EncInt(2, i) == [Word16(i) / 0x100, Word16(i) % 0x100]
  {
    Widths();
    assert EncNat(1, Word16(i) / 0x100) == [Word16(i) / 0x100] by { assert EncNat(0, 0) == []; }
  }

  // ---------------------------------------------------------------- elements of another type on the wire

  /** Bytes of a value of a fixed-width type; 0 for the others. */
  function Size(t: Type): nat {
    match t
    case TBool => 1
    case TDouble => 8
    case _ => Width(t)
  }

  lemma FixedSize(t: Type, v: Val)
    requires Size(t) > 0 && HasType(t, v) && Fits(v)
    ensures |Enc(t, v)| == Size(t)
  {
  }

  lemma {:induction false} ItemsSize(t: Type, items: seq<Val>)
    requires Size(t) > 0 && forall i :: 0 <= i < |items| ==> HasType(t, items[i]) && Fits(items[i])
    ensures |EncItems(t, items)| == |items| * Size(t)
  {
    hide Enc, Size;
    if items != [] {
      FixedSize(t, items[0]);
      ItemsSize(t, items[1..]);
      OneMore(|items|, Size(t));
    }
  }

  lemma OneMore(n: nat, k: nat)
    requires n > 0
    ensures n * k == (n - 1) * k + k && (n - 1) * k >= 0
  {
  }

  lemma ReadFixed(t: Type, x: Val, s: bytes)
    requires Size(t) > 0 && HasType(t, x)
    ensures Read(t, x, s).Some? <==> |s| >= Size(t)
    ensures Read(t, x, s).Some? ==> Read(t, x, s).value.1 == s[Size(t)..]
  {
  }

  lemma {:induction false} ReadFixedItems(t: Type, done: seq<Val>, n: nat, s: bytes)
    requires Size(t) > 0 && forall i :: 0 <= i < |done| ==> HasType(t, done[i])
    ensures n * Size(t) >= 0
    ensures ReadItems(t, done, n, s).Some? <==> |s| >= n * Size(t)
    ensures ReadItems(t, done, n, s).Some? ==> ReadItems(t, done, n, s).value.1 == s[n * Size(t)..]
    decreases n
  {
    hide Size, HasType, Fresh, Read;
    if n > 0 {
      OneMore(n, Size(t));
      ReadFixed(t, Fresh(t), s);
      match Read(t, Fresh(t), s)
      case Some((v, rest)) =>
        ReadFixedItems(t, done + [v], n - 1, rest);
        assert |s| >= n * Size(t) ==> rest[(n - 1) * Size(t)..] == s[n * Size(t)..];
      case None =>
    }
  }

  /** Reading as a list of `r` what was written as a list of `w` consumes what was written. */
  ghost predicate Consumed(w: Type, r: Type, items: seq<Val>, rest: bytes)
    requires HasType(TList(w), VSeq(items)) && Fits(VSeq(items))
  {
    var y := Read(TList(r), VSeq([]), Enc(TList(w), VSeq(items)) + rest);
    y.Some? && y.value.1 == rest
  }

  lemma ConsumedIff(w: Type, r: Type, items: seq<Val>, rest: bytes)
    requires Size(w) > 0 && Size(r) > 0 && HasType(TList(w), VSeq(items)) && Fits(VSeq(items))
    ensures Consumed(w, r, items, rest) <==> items == [] || Size(w) == Size(r)
  {
    hide EncItems, ReadItems, Size, Consumed;
    var body := EncItems(w, items);
    ConsumedBody(w, r, items, rest);
    ItemsSize(w, items);
    ReadFixedItems(r, [], |items|, body + rest);
    var needed := |items| * Size(r);
    Products(|items|, Size(w), Size(r));
    if needed <= |body + rest| {
      DropsBody(body, rest, needed);
    }
  }

  lemma ConsumedBody(w: Type, r: Type, items: seq<Val>, rest: bytes)
    requires HasType(TList(w), VSeq(items)) && Fits(VSeq(items))
    ensures var y := ReadItems(r, [], |items|, EncItems(w, items) + rest);
            Consumed(w, r, items, rest) <==> y.Some? && y.value.1 == rest
  {
    hide EncItems, ReadItems, EncInt, ReadInt, Fresh, Code;
    Widths();
    var body := EncItems(w, items);
    SizeAfter([Code(w)], |items|, body, rest);
    assert Enc(TList(w), VSeq(items)) + rest == [Code(w)] + EncInt(4, |items|) + body + rest;
  }

  lemma DropsBody(body: bytes, rest: bytes, n: nat)
    requires n <= |body + rest|
    ensures (body + rest)[n..] == rest <==> n == |body|
  {
    assert |(body + rest)[n..]| == |body| + |rest| - n;
  }

  lemma Products(n: nat, a: nat, b: nat)
    ensures n * a == n * b <==> n == 0 || a == b
    ensures n * b >= 0
  {
    assert n * b - n * a == n * (b - a);
    MultipleGrows(n, b - a);
  }

  lemma FreshFitsAlone(w: Type)
    requires Size(w) > 0
    ensures HasType(TList(w), VSeq([Fresh(w)])) && Fits(VSeq([Fresh(w)]))
  {
  }

  /**
   * Readers ignore the element type on the wire. Between fixed-width types, a list with other elements than declared
   * is consumed exactly for all lists, whatever follows, if and only if the widths agree.
   */
  lemma ElementWidthsMustAgree(w: Type, r: Type)
    requires Size(w) > 0 && Size(r) > 0
    ensures (forall items, rest :: HasType(TList(w), VSeq(items)) && Fits(VSeq(items)) ==> Consumed(w, r, items, rest))
            <==> Size(w) == Size(r)
  {
    hide Consumed, Size;
    var one := [Fresh(w)];
    FreshFitsAlone(w);
    ConsumedIff(w, r, one, []);
    hide HasType, Fits;
    if Size(w) == Size(r) {
      forall items, rest | HasType(TList(w), VSeq(items)) && Fits(VSeq(items)) ensures Consumed(w, r, items, rest) {
        ConsumedIff(w, r, items, rest);
      }
    }
  }
}
