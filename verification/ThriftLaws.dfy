/** The laws of the codec that follow: round trips, acceptance, independence of field order, interoperability. */
module ThriftLaws {
  import opened RpcTypes
  import opened ThriftWire
  import opened ThriftCodec
  import opened ThriftEvolution

  ghost predicate DistinctIds(fields: seq<Field>) {
    forall i, j :: 0 <= i < j < |fields| ==> fields[i].id != fields[j].id
  }

  /** A schema that compiles: the fields of each struct have different ids. */
  ghost predicate WellFormed(t: Type) {
    match t
    case TStruct(fields) => DistinctIds(fields) && forall i :: 0 <= i < |fields| ==> WellFormed(fields[i].t)
    case TList(elem) => WellFormed(elem)
    case TSet(elem, _, _) => WellFormed(elem)
    case TMap(key, value, _) => WellFormed(key) && WellFormed(value)
    case _ => true
  }

  ghost predicate Ascending(less: (Val, Val) -> bool, items: seq<Val>) {
    forall i, j :: 0 <= i < j < |items| ==> less(items[i], items[j]) && !less(items[j], items[i])
  }

  /**
   * The values that constructors, setters and readers make: a field that is not set holds its default, sets and
   * maps are in order and without equivalent elements.
   */
  ghost predicate Normal(t: Type, v: Val)
    requires HasType(t, v)
  {
    match t
    case TStruct(fields) => forall i :: 0 <= i < |fields| ==>
        Normal(fields[i].t, v.slots[i].val) && (!v.slots[i].isset ==> v.slots[i].val == Fresh(fields[i].t))
    case TList(elem) => forall i :: 0 <= i < |v.items| ==> Normal(elem, v.items[i])
    case TSet(elem, less, _) => Ascending(less, v.items) && forall i :: 0 <= i < |v.items| ==> Normal(elem, v.items[i])
    case TMap(key, value, less) =>
      && Ascending(less, Keys(v.pairs))
      && forall i :: 0 <= i < |v.pairs| ==> Normal(key, v.pairs[i].0) && Normal(value, v.pairs[i].1)
    case _ => true
  }

  // ---------------------------------------------------------------- round trip

  lemma {:induction false} CompatibleSelf(t: Type)
    requires WellFormed(t)
    ensures Compatible(t, t)
  {
    match t
    case TStruct(fields) =>
      forall i, j | 0 <= i < |fields| && 0 <= j < |fields| && SameField(fields[i], fields[j])
        ensures Compatible(fields[i].t, fields[j].t)
      {
        CompatibleSelf(fields[i].t);
      }
    case TList(elem) => CompatibleSelf(elem);
    case TSet(elem, _, _) => CompatibleSelf(elem);
    case TMap(key, value, _) => CompatibleSelf(key); CompatibleSelf(value);
    case _ =>
  }

  lemma FindOwn(fields: seq<Field>, i: nat)
    requires DistinctIds(fields) && i < |fields|
    ensures Find(fields, fields[i].id) == i
  {
  }

  lemma {:induction false} AllLess(less: (Val, Val) -> bool, items: seq<Val>, e: Val)
    requires forall i :: 0 <= i < |items| ==> less(items[i], e)
    ensures LowerBound(less, items, e) == |items|
  {
  }

  /** Reading back a value of normal form into a fresh target gives the value. */
  lemma {:induction false} ProjectSelf(t: Type, v: Val)
    requires WellFormed(t) && HasType(t, v) && Normal(t, v)
    ensures Compatible(t, t) && Project(t, t, Fresh(t), v) == Some(v)
    decreases t, 1, 0
  {
    CompatibleSelf(t);
    match t
    case TStruct(fields) =>
      ProjectSelfFields(fields, v.slots, 0, Fresh(t).slots, {});
    case TList(elem) =>
      ProjectSelfItems(elem, v.items, 0);
      assert v.items[0..] == v.items;
    case TSet(elem, less, clears) =>
      ProjectSelfSet(elem, less, v.items, 0);
      assert v.items[0..] == v.items;
    case TMap(_, _, _) =>
      ProjectSelfPairs(t, v.pairs, 0);
      assert v.pairs[0..] == v.pairs;
    case _ =>
  }

  ghost predicate IsWritten(f: Field, slot: Slot) { !f.req.Optional? || slot.isset }

  lemma {:induction false} ProjectSelfFields(fields: seq<Field>, slots: seq<Slot>, i: nat, acc: seq<Slot>,
                                             seen: set<int>)
    requires i <= |fields| == |slots| && SlotsOk(fields, slots) && SlotsOk(fields, acc)
    requires WellFormed(TStruct(fields)) && Normal(TStruct(fields), VStruct(slots))
    requires Compatible(TStruct(fields), TStruct(fields))
    requires forall k :: 0 <= k < |fields| ==> acc[k] == if k < i then slots[k] else FreshSlot(fields[k])
    requires forall k :: 0 <= k < i && IsWritten(fields[k], slots[k]) ==> fields[k].id as int in seen
    ensures var y := ProjectFields(fields, slots, i, fields, acc, seen);
            y.Some? && y.value.0 == slots && AllRequired(fields, y.value.1)
    decreases TStruct(fields), 0, |fields| - i
  {
    if i == |fields| {
      assert acc == slots;
    } else {
      FindOwn(fields, i);
      if IsWritten(fields[i], slots[i]) {
        ProjectSelf(fields[i].t, slots[i].val);
        assert acc[i].val == Fresh(fields[i].t);
        ProjectSelfFields(fields, slots, i + 1, acc[i := Slot(true, slots[i].val)], seen + {fields[i].id as int});
      } else {
        ProjectSelfFields(fields, slots, i + 1, acc, seen);
      }
    }
  }

  lemma {:induction false} ProjectSelfItems(elem: Type, items: seq<Val>, i: nat)
    requires i <= |items| && WellFormed(elem) && Compatible(elem, elem)
    requires forall k :: 0 <= k < |items| ==> HasType(elem, items[k]) && Normal(elem, items[k])
    ensures ProjectItems(elem, elem, items[..i], items[i..]) == Some(VSeq(items))
    decreases elem, 2, |items| - i
  {
    if i == |items| {
      assert items[..i] == items;
    } else {
      ProjectSelf(elem, items[i]);
      assert items[..i] + [items[i]] == items[..i + 1] && items[i..][1..] == items[i + 1..];
      ProjectSelfItems(elem, items, i + 1);
    }
  }

  lemma {:induction false} ProjectSelfSet(elem: Type, less: (Val, Val) -> bool, items: seq<Val>, i: nat)
    requires i <= |items| && WellFormed(elem) && Compatible(elem, elem) && Ascending(less, items)
    requires forall k :: 0 <= k < |items| ==> HasType(elem, items[k]) && Normal(elem, items[k])
    ensures ProjectSet(elem, elem, less, items[..i], items[i..]) == Some(VSeq(items))
    decreases elem, 2, |items| - i
  {
    if i == |items| {
      assert items[..i] == items;
    } else {
      ProjectSelf(elem, items[i]);
      AppendElement(less, items, i);
      assert items[i..][1..] == items[i + 1..];
      ProjectSelfSet(elem, less, items, i + 1);
    }
  }

  lemma AppendElement(less: (Val, Val) -> bool, items: seq<Val>, i: nat)
    requires i < |items| && Ascending(less, items)
    ensures Insert(less, items[..i], items[i]) == items[..i + 1]
  {
    AllLess(less, items[..i], items[i]);
    assert items[..i] + [items[i]] == items[..i + 1];
  }

  lemma {:induction false} ProjectSelfPairs(t: Type, pairs: seq<(Val, Val)>, i: nat)
    requires i <= |pairs| && t.TMap? && WellFormed(t) && Compatible(t, t) && Ascending(t.less, Keys(pairs))
    requires forall k :: 0 <= k < |pairs| ==>
        && HasType(t.key, pairs[k].0) && Normal(t.key, pairs[k].0)
        && HasType(t.value, pairs[k].1) && Normal(t.value, pairs[k].1)
    ensures ProjectPairs(t, t, pairs[..i], pairs[i..]) == Some(VMap(pairs))
    decreases t, 0, |pairs| - i
  {
    if i == |pairs| {
      assert pairs[..i] == pairs;
    } else {
      var (k, e) := pairs[i];
      ProjectSelf(t.key, k);
      ProjectSelf(t.value, e);
      AppendKey(t.less, pairs, i, Fresh(t.value));
      assert pairs[i..][1..] == pairs[i + 1..];
      ProjectSelfPairs(t, pairs, i + 1);
    }
  }

  lemma AppendKey(less: (Val, Val) -> bool, pairs: seq<(Val, Val)>, i: nat, blank: Val)
    requires i < |pairs| && Ascending(less, Keys(pairs))
    ensures var (p, done) := Access(less, pairs[..i], pairs[i].0, blank);
            && p == i && |done| == i + 1 && done[p] == (pairs[i].0, blank)
            && done[p := (done[p].0, pairs[i].1)] == pairs[..i + 1]
  {
    var ks := Keys(pairs);
    assert Keys(pairs[..i]) == ks[..i] && pairs[i].0 == ks[i];
    forall j | 0 <= j < i ensures less(Keys(pairs[..i])[j], pairs[i].0) {
      assert less(ks[j], ks[i]);
    }
    AllLess(less, Keys(pairs[..i]), pairs[i].0);
  }

  /**
   * Round trip: reading the bytes of a value of normal form, followed by anything, into a fresh target gives the
   * value, and leaves what follows untouched.
   */
  lemma RoundTrip(t: Type, v: Val, rest: bytes)
    requires WellFormed(t) && HasType(t, v) && Normal(t, v) && Fits(v)
    ensures Read(t, Fresh(t), Enc(t, v) + rest) == Some((v, rest))
  {
    ProjectSelf(t, v);
    ReadIsProjection(t, t, Fresh(t), v, rest);
  }

  // ---------------------------------------------------------------- what each field becomes

  /**
   * The `k`-th field of the stream is for reader field `f`: it is written, has f's id and f's wire type. Every
   * well-formed field stream is what some schema `fw` writes for some slots `sw`, in the order of `fw`.
   */
  ghost predicate Delivers(fw: seq<Field>, sw: seq<Slot>, k: nat, f: Field)
    requires k < |fw| == |sw|
  {
    IsWritten(fw[k], sw[k]) && SameField(fw[k], f)
  }

  ghost predicate StreamOk(fw: seq<Field>, sw: seq<Slot>, fr: seq<Field>, slots: seq<Slot>) {
    && SlotsOk(fw, sw) && SlotsOk(fr, slots) && DistinctIds(fr)
    && forall i, j :: 0 <= i < |fw| && 0 <= j < |fr| && SameField(fw[i], fr[j]) ==> Compatible(fw[i].t, fr[j].t)
  }

  /** The value that the `k`-th field of the stream becomes in reader field `j`; None when it cannot be read. */
  ghost function Becomes(fw: seq<Field>, sw: seq<Slot>, fr: seq<Field>, slots: seq<Slot>, k: nat, j: nat): Option<Val>
    requires StreamOk(fw, sw, fr, slots) && k < |fw| && j < |fr| && SameField(fw[k], fr[j])
  {
    Project(fw[k].t, fr[j].t, slots[j].val, sw[k].val)
  }

  /** The fields seen are those before, and those that the stream delivers. */
  lemma {:induction false} SeenExactly(fw: seq<Field>, sw: seq<Slot>, i: nat, fr: seq<Field>, slots: seq<Slot>,
                                       seen: set<int>, j: nat)
    requires i <= |fw| && StreamOk(fw, sw, fr, slots) && j < |fr|
    ensures var y := ProjectFields(fw, sw, i, fr, slots, seen);
            y.Some? ==> (fr[j].id as int in y.value.1 <==>
              fr[j].id as int in seen || exists k :: i <= k < |fw| && Delivers(fw, sw, k, fr[j]))
    decreases |fw| - i
  {
    hide Project, Compatible, HasType, Find;
    if i < |fw| {
      var m := Find(fr, fw[i].id);
      FindOwn(fr, j);
      if !IsWritten(fw[i], sw[i]) || m == |fr| || !SameField(fw[i], fr[m]) {
        SeenExactly(fw, sw, i + 1, fr, slots, seen, j);
      } else {
        assert Delivers(fw, sw, i, fr[m]);
        assert Delivers(fw, sw, i, fr[j]) ==> j == m;
        match Project(fw[i].t, fr[m].t, slots[m].val, sw[i].val)
        case Some(y) =>
          SeenExactly(fw, sw, i + 1, fr, slots[m := Slot(true, y)], seen + {fw[i].id as int}, j);
        case None =>
      }
    }
  }

  // Fields that come more than once

  /** A stream whose fields with the id and wire type of `f` are of types that `f` can be read from. */
  ghost predicate FitsField(fw: seq<Field>, sw: seq<Slot>, f: Field) {
    SlotsOk(fw, sw) && forall k :: 0 <= k < |fw| && SameField(fw[k], f) ==> Compatible(fw[k].t, f.t)
  }

  /** What reader field `f`, holding `x`, becomes by the fields of the stream from the `i`-th on, one after another. */
  ghost function FieldAfter(fw: seq<Field>, sw: seq<Slot>, i: nat, f: Field, x: Slot): (y: Option<Slot>)
    requires i <= |fw| && FitsField(fw, sw, f) && HasType(f.t, x.val)
    ensures y.Some? ==> HasType(f.t, y.value.val)
    decreases |fw| - i
  {
    if i == |fw| then Some(x)
    else if !Delivers(fw, sw, i, f) then FieldAfter(fw, sw, i + 1, f, x)
    else match Project(fw[i].t, f.t, x.val, sw[i].val)
      case Some(y) => FieldAfter(fw, sw, i + 1, f, Slot(true, y))
      case None => None
  }

  /** A field that comes more than once is read each time, into what it has become before. */
  lemma {:induction false} RepeatedFields(fw: seq<Field>, sw: seq<Slot>, i: nat, fr: seq<Field>, slots: seq<Slot>,
                                          seen: set<int>)
    requires i <= |fw| && StreamOk(fw, sw, fr, slots)
    ensures var y := ProjectFields(fw, sw, i, fr, slots, seen);
            && (y.Some? <==> forall j :: 0 <= j < |fr| ==> FieldAfter(fw, sw, i, fr[j], slots[j]).Some?)
            && (y.Some? ==> forall j :: 0 <= j < |fr| ==> Some(y.value.0[j]) == FieldAfter(fw, sw, i, fr[j], slots[j]))
    decreases |fw| - i
  {
    hide Project, Compatible, HasType, Find, DistinctIds;
    if i < |fw| {
      var m := Find(fr, fw[i].id);
      OnlyFound(fr, fw[i], m);
      if !IsWritten(fw[i], sw[i]) || m == |fr| || !SameField(fw[i], fr[m]) {
        RepeatedFields(fw, sw, i + 1, fr, slots, seen);
      } else {
        assert Delivers(fw, sw, i, fr[m]);
        match Project(fw[i].t, fr[m].t, slots[m].val, sw[i].val)
        case Some(y) =>
          RepeatedFields(fw, sw, i + 1, fr, slots[m := Slot(true, y)], seen + {fw[i].id as int});
        case None =>
      }
    }
  }

  /** Reading a value of this type does not depend on what the target held, unlike structs and uncleared sets. */
  predicate Replaces(t: Type) { !t.TStruct? && (t.TSet? ==> t.clears) }

  /** Of fields of such a type that come more than once, the last one counts. */
  lemma {:induction false} LastOneCounts(fw: seq<Field>, sw: seq<Slot>, i: nat, f: Field, x: Slot, k: nat)
    requires i <= k < |fw| && FitsField(fw, sw, f) && HasType(f.t, x.val) && Replaces(f.t)
    requires Delivers(fw, sw, k, f) && forall l :: k < l < |fw| ==> !Delivers(fw, sw, l, f)
    ensures var y := FieldAfter(fw, sw, i, f, x);
            y.Some? ==> Project(fw[k].t, f.t, x.val, sw[k].val).Some?
                        && y.value == Slot(true, Project(fw[k].t, f.t, x.val, sw[k].val).value)
    decreases |fw| - i
  {
    if i == k {
      match Project(fw[k].t, f.t, x.val, sw[k].val)
      case Some(y) => NothingMore(fw, sw, k + 1, f, Slot(true, y));
      case None =>
    } else if !Delivers(fw, sw, i, f) {
      LastOneCounts(fw, sw, i + 1, f, x, k);
    } else {
      match Project(fw[i].t, f.t, x.val, sw[i].val)
      case Some(y) =>
        LastOneCounts(fw, sw, i + 1, f, Slot(true, y), k);
        assert Project(fw[k].t, f.t, y, sw[k].val) == Project(fw[k].t, f.t, x.val, sw[k].val);
      case None =>
    }
  }

  lemma {:induction false} NothingMore(fw: seq<Field>, sw: seq<Slot>, i: nat, f: Field, x: Slot)
    requires i <= |fw| && FitsField(fw, sw, f) && HasType(f.t, x.val)
    requires forall l :: i <= l < |fw| ==> !Delivers(fw, sw, l, f)
    ensures FieldAfter(fw, sw, i, f, x) == Some(x)
    decreases |fw| - i
  {
    if i < |fw| {
      NothingMore(fw, sw, i + 1, f, x);
    }
  }

  /** Each reader field ends as what its field in the stream becomes, or as it was when there is none. */
  lemma {:induction false} EachField(fw: seq<Field>, sw: seq<Slot>, i: nat, fr: seq<Field>, slots: seq<Slot>,
                                     seen: set<int>)
    requires i <= |fw| && StreamOk(fw, sw, fr, slots) && DistinctIds(fw)
    ensures var y := ProjectFields(fw, sw, i, fr, slots, seen);
            && (y.Some? <==> forall k, j :: i <= k < |fw| && 0 <= j < |fr| && Delivers(fw, sw, k, fr[j]) ==>
                               Becomes(fw, sw, fr, slots, k, j).Some?)
            && (y.Some? ==> forall j :: 0 <= j < |fr| ==>
                  && (forall k :: i <= k < |fw| && Delivers(fw, sw, k, fr[j]) ==>
                        y.value.0[j] == Slot(true, Becomes(fw, sw, fr, slots, k, j).value))
                  && ((forall k :: i <= k < |fw| ==> !Delivers(fw, sw, k, fr[j])) ==> y.value.0[j] == slots[j]))
    decreases |fw| - i
  {
    hide Project, Compatible, HasType, Find, DistinctIds;
    if i < |fw| {
      var m := Find(fr, fw[i].id);
      if !IsWritten(fw[i], sw[i]) || m == |fr| || !SameField(fw[i], fr[m]) {
        assert forall j :: 0 <= j < |fr| ==> !Delivers(fw, sw, i, fr[j]) by { OnlyFound(fr, fw[i], m); }
        EachField(fw, sw, i + 1, fr, slots, seen);
      } else {
        assert forall j :: 0 <= j < |fr| && j != m ==> !Delivers(fw, sw, i, fr[j]) by { OnlyFound(fr, fw[i], m); }
        assert forall k :: i < k < |fw| ==> !Delivers(fw, sw, k, fr[m]) by { OthersDiffer(fw, i); }
        assert Delivers(fw, sw, i, fr[m]);
        match Becomes(fw, sw, fr, slots, i, m)
        case Some(y) =>
          EachField(fw, sw, i + 1, fr, slots[m := Slot(true, y)], seen + {fw[i].id as int});
        case None =>
      }
    }
  }

  lemma OthersDiffer(fw: seq<Field>, i: nat)
    requires DistinctIds(fw) && i < |fw|
    ensures forall k :: i < k < |fw| ==> fw[k].id != fw[i].id
  {
  }

  lemma OnlyFound(fr: seq<Field>, f: Field, m: nat)
    requires DistinctIds(fr) && m == Find(fr, f.id)
    ensures forall j :: 0 <= j < |fr| && SameField(f, fr[j]) ==> j == m
  {
  }

  // ---------------------------------------------------------------- acceptance

  lemma {:induction false} SetFailsAlike(w: Type, r: Type, less: (Val, Val) -> bool, done: seq<Val>, other: seq<Val>,
                                         items: seq<Val>)
    requires Compatible(w, r) && forall i :: 0 <= i < |items| ==> HasType(w, items[i])
    requires forall i :: 0 <= i < |done| ==> HasType(r, done[i])
    requires forall i :: 0 <= i < |other| ==> HasType(r, other[i])
    ensures ProjectSet(w, r, less, done, items).Some? <==> ProjectSet(w, r, less, other, items).Some?
    decreases |items|
  {
    hide Project, Compatible, HasType, Insert;
    if items != [] {
      match Project(w, r, Fresh(r), items[0])
      case Some(e) =>
        InsertKeepsType(r, less, done, e);
        InsertKeepsType(r, less, other, e);
        SetFailsAlike(w, r, less, Insert(less, done, e), Insert(less, other, e), items[1..]);
      case None =>
    }
  }

  /** Whether a value can be read does not depend on the target that it is read into. */
  lemma {:induction false} FailsAlike(w: Type, r: Type, x: Val, y: Val, v: Val)
    requires HasType(w, v) && HasType(r, x) && HasType(r, y) && Compatible(w, r)
    ensures Project(w, r, x, v).Some? <==> Project(w, r, y, v).Some?
    decreases w, 1, 0
  {
    match w
    case TStruct(fw) => FieldsFailAlike(fw, v.slots, 0, r.fields, x.slots, y.slots, {});
    case TSet(elem, _, _) =>
      SetFailsAlike(elem, r.elem, r.less, if r.clears then [] else x.items, if r.clears then [] else y.items, v.items);
    case _ =>
  }

  lemma {:induction false} FieldsFailAlike(fw: seq<Field>, sw: seq<Slot>, i: nat, fr: seq<Field>, slots: seq<Slot>,
                                           other: seq<Slot>, seen: set<int>)
    requires i <= |fw| && SlotsOk(fw, sw) && SlotsOk(fr, slots) && SlotsOk(fr, other)
    requires forall i, j :: 0 <= i < |fw| && 0 <= j < |fr| && SameField(fw[i], fr[j]) ==> Compatible(fw[i].t, fr[j].t)
    ensures var a, b := ProjectFields(fw, sw, i, fr, slots, seen), ProjectFields(fw, sw, i, fr, other, seen);
            (a.Some? <==> b.Some?) && (a.Some? ==> a.value.1 == b.value.1)
    decreases TStruct(fw), 0, |fw| - i
  {
    hide Project, Compatible, HasType;
    if i < |fw| {
      var j := Find(fr, fw[i].id);
      if (fw[i].req.Optional? && !sw[i].isset) || j == |fr| || !SameField(fw[i], fr[j]) {
        FieldsFailAlike(fw, sw, i + 1, fr, slots, other, seen);
      } else {
        FailsAlike(fw[i].t, fr[j].t, slots[j].val, other[j].val, sw[i].val);
        var a := Project(fw[i].t, fr[j].t, slots[j].val, sw[i].val);
        var b := Project(fw[i].t, fr[j].t, other[j].val, sw[i].val);
        if a.Some? {
          FieldsFailAlike(fw, sw, i + 1, fr, slots[j := Slot(true, a.value)], other[j := Slot(true, b.value)],
                          seen + {fw[i].id as int});
        }
      }
    }
  }

  /** The field loop fails exactly when some field that the reader takes cannot be read. */
  lemma {:induction false} EachIsReadable(fw: seq<Field>, sw: seq<Slot>, i: nat, fr: seq<Field>, slots: seq<Slot>,
                                          start: seq<Slot>, seen: set<int>)
    requires i <= |fw| && StreamOk(fw, sw, fr, slots) && StreamOk(fw, sw, fr, start)
    ensures ProjectFields(fw, sw, i, fr, slots, seen).Some? <==>
              forall k, j :: i <= k < |fw| && 0 <= j < |fr| && Delivers(fw, sw, k, fr[j]) ==>
                Becomes(fw, sw, fr, start, k, j).Some?
    decreases |fw| - i
  {
    hide Project, Compatible, HasType, DistinctIds;
    if i < |fw| {
      var m := Find(fr, fw[i].id);
      OnlyFound(fr, fw[i], m);
      if !IsWritten(fw[i], sw[i]) || m == |fr| || !SameField(fw[i], fr[m]) {
        assert forall j :: 0 <= j < |fr| ==> !Delivers(fw, sw, i, fr[j]);
        EachIsReadable(fw, sw, i + 1, fr, slots, start, seen);
      } else {
        assert forall j :: 0 <= j < |fr| && Delivers(fw, sw, i, fr[j]) ==> j == m;
        assert Delivers(fw, sw, i, fr[m]);
        FailsAlike(fw[i].t, fr[m].t, slots[m].val, start[m].val, sw[i].val);
        match Project(fw[i].t, fr[m].t, slots[m].val, sw[i].val)
        case Some(y) =>
          EachIsReadable(fw, sw, i + 1, fr, slots[m := Slot(true, y)], start, seen + {fw[i].id as int});
        case None =>
      }
    }
  }

  /** The check that every required field has come. */
  function Checked(fr: seq<Field>, y: Option<(seq<Slot>, set<int>)>, rest: bytes): Option<(Val, bytes)> {
    match y
    case Some((slots, seen)) => if AllRequired(fr, seen) then Some((VStruct(slots), rest)) else None
    case None => None
  }

  lemma ReadStream(fw: seq<Field>, sw: seq<Slot>, fr: seq<Field>, slots: seq<Slot>, rest: bytes)
    requires StreamOk(fw, sw, fr, slots) && Fits(VStruct(sw))
    ensures HasType(TStruct(fw), VStruct(sw)) && HasType(TStruct(fr), VStruct(slots))
    ensures Read(TStruct(fr), VStruct(slots), Enc(TStruct(fw), VStruct(sw)) + rest)
            == Checked(fr, ProjectFields(fw, sw, 0, fr, slots, {}), rest)
  {
    hide ProjectFields, Read, Enc;
    ReadIsProjection(TStruct(fw), TStruct(fr), VStruct(slots), VStruct(sw), rest);
  }

  ghost predicate AllRequiredCome(fw: seq<Field>, sw: seq<Slot>, fr: seq<Field>)
    requires |fw| == |sw|
  {
    forall j :: 0 <= j < |fr| && fr[j].req.Required? ==> exists k :: 0 <= k < |fw| && Delivers(fw, sw, k, fr[j])
  }

  /**
   * A struct is read from a well-formed field stream, repeated ids included, exactly when each required field appears
   * with its declared wire type, and what is nested in the fields can be read.
   */
  lemma ReadAccepts(fw: seq<Field>, sw: seq<Slot>, fr: seq<Field>, slots: seq<Slot>, rest: bytes)
    requires StreamOk(fw, sw, fr, slots) && Fits(VStruct(sw))
    ensures Read(TStruct(fr), VStruct(slots), Enc(TStruct(fw), VStruct(sw)) + rest).Some? <==>
              && AllRequiredCome(fw, sw, fr)
              && (forall k, j :: 0 <= k < |fw| && 0 <= j < |fr| && Delivers(fw, sw, k, fr[j]) ==>
                    Becomes(fw, sw, fr, slots, k, j).Some?)
  {
    hide ProjectFields, Project, Read, Enc, Compatible, HasType, Fits, DistinctIds;
    ReadStream(fw, sw, fr, slots, rest);
    EachIsReadable(fw, sw, 0, fr, slots, slots, {});
    forall j | 0 <= j < |fr|
      ensures var y := ProjectFields(fw, sw, 0, fr, slots, {});
              y.Some? ==> (fr[j].id as int in y.value.1 <==>
                fr[j].id as int in {} || exists k :: 0 <= k < |fw| && Delivers(fw, sw, k, fr[j]))
    {
      SeenExactly(fw, sw, 0, fr, slots, {}, j);
    }
  }

  /** When the shared fields are scalars, reading fails exactly for want of a required field. */
  lemma FlatStructAccepts(fw: seq<Field>, sw: seq<Slot>, fr: seq<Field>, slots: seq<Slot>, rest: bytes)
    requires StreamOk(fw, sw, fr, slots) && Fits(VStruct(sw))
    requires forall k, j :: 0 <= k < |fw| && 0 <= j < |fr| && Delivers(fw, sw, k, fr[j]) ==> IsScalar(fw[k].t)
    ensures Read(TStruct(fr), VStruct(slots), Enc(TStruct(fw), VStruct(sw)) + rest).Some? <==>
              AllRequiredCome(fw, sw, fr)
  {
    ReadAccepts(fw, sw, fr, slots, rest);
    hide Read, Enc, AllRequiredCome, StreamOk, Fits;
    forall k, j | 0 <= k < |fw| && 0 <= j < |fr| && Delivers(fw, sw, k, fr[j])
      ensures Becomes(fw, sw, fr, slots, k, j).Some?
    {
      ScalarBecomesItself(fw, sw, fr, slots, k, j);
    }
  }

  lemma ScalarBecomesItself(fw: seq<Field>, sw: seq<Slot>, fr: seq<Field>, slots: seq<Slot>, k: nat, j: nat)
    requires StreamOk(fw, sw, fr, slots) && k < |fw| && j < |fr| && Delivers(fw, sw, k, fr[j])
    requires IsScalar(fw[k].t)
    ensures Becomes(fw, sw, fr, slots, k, j) == Some(sw[k].val)
  {
  }

  // ---------------------------------------------------------------- order

  ghost predicate Occurs(f: Field, slot: Slot, fw: seq<Field>, sw: seq<Slot>) {
    exists k :: 0 <= k < |fw| && k < |sw| && fw[k] == f && sw[k] == slot
  }

  /** The same fields in another order. */
  ghost predicate SameStream(fw: seq<Field>, sw: seq<Slot>, gw: seq<Field>, tw: seq<Slot>) {
    && |fw| == |sw| && |gw| == |tw|
    && (forall k :: 0 <= k < |fw| ==> Occurs(fw[k], sw[k], gw, tw))
    && (forall k :: 0 <= k < |gw| ==> Occurs(gw[k], tw[k], fw, sw))
  }

  lemma DeliveredElsewhere(fw: seq<Field>, sw: seq<Slot>, gw: seq<Field>, tw: seq<Slot>, k: nat, f: Field)
    returns (k': nat)
    requires SameStream(fw, sw, gw, tw) && k < |fw| && Delivers(fw, sw, k, f)
    ensures k' < |gw| && gw[k'] == fw[k] && tw[k'] == sw[k] && Delivers(gw, tw, k', f)
  {
    assert Occurs(fw[k], sw[k], gw, tw);
    k' :| 0 <= k' < |gw| && k' < |tw| && gw[k'] == fw[k] && tw[k'] == sw[k];
  }

  lemma SameFieldsHalf(fw: seq<Field>, sw: seq<Slot>, gw: seq<Field>, tw: seq<Slot>, fr: seq<Field>, slots: seq<Slot>)
    requires StreamOk(fw, sw, fr, slots) && StreamOk(gw, tw, fr, slots) && DistinctIds(fw) && DistinctIds(gw)
    requires SameStream(fw, sw, gw, tw) && ProjectFields(gw, tw, 0, fr, slots, {}).Some?
    ensures var a, b := ProjectFields(fw, sw, 0, fr, slots, {}), ProjectFields(gw, tw, 0, fr, slots, {});
            a.Some? && a.value.0 == b.value.0
            && forall j :: 0 <= j < |fr| ==> (fr[j].id as int in a.value.1 <==> fr[j].id as int in b.value.1)
  {
    hide ProjectFields, Project, Compatible, HasType, DistinctIds, AllRequired;
    EachField(fw, sw, 0, fr, slots, {});
    EachField(gw, tw, 0, fr, slots, {});
    var a, b := ProjectFields(fw, sw, 0, fr, slots, {}), ProjectFields(gw, tw, 0, fr, slots, {});
    forall k, j | 0 <= k < |fw| && 0 <= j < |fr| && Delivers(fw, sw, k, fr[j])
      ensures Becomes(fw, sw, fr, slots, k, j).Some?
    {
      var k' := DeliveredElsewhere(fw, sw, gw, tw, k, fr[j]);
      assert Becomes(gw, tw, fr, slots, k', j).Some?;
    }
    forall j | 0 <= j < |fr|
      ensures a.value.0[j] == b.value.0[j] && (fr[j].id as int in a.value.1 <==> fr[j].id as int in b.value.1)
    {
      SeenExactly(fw, sw, 0, fr, slots, {}, j);
      SeenExactly(gw, tw, 0, fr, slots, {}, j);
      if k :| 0 <= k < |fw| && Delivers(fw, sw, k, fr[j]) {
        var k' := DeliveredElsewhere(fw, sw, gw, tw, k, fr[j]);
      } else if k :| 0 <= k < |gw| && Delivers(gw, tw, k, fr[j]) {
        var k' := DeliveredElsewhere(gw, tw, fw, sw, k, fr[j]);
        assert false;
      }
    }
  }

  /** Reading does not depend on the order of the fields in the stream. */
  lemma FieldOrderIsIrrelevant(fw: seq<Field>, sw: seq<Slot>, gw: seq<Field>, tw: seq<Slot>, fr: seq<Field>,
                               slots: seq<Slot>, rest: bytes)
    requires StreamOk(fw, sw, fr, slots) && StreamOk(gw, tw, fr, slots) && DistinctIds(fw) && DistinctIds(gw)
    requires SameStream(fw, sw, gw, tw) && Fits(VStruct(sw)) && Fits(VStruct(tw))
    ensures Read(TStruct(fr), VStruct(slots), Enc(TStruct(fw), VStruct(sw)) + rest)
            == Read(TStruct(fr), VStruct(slots), Enc(TStruct(gw), VStruct(tw)) + rest)
  {
    hide ProjectFields, Project, Read, Enc, Compatible, HasType, Fits, DistinctIds;
    ReadStream(fw, sw, fr, slots, rest);
    ReadStream(gw, tw, fr, slots, rest);
    var a, b := ProjectFields(fw, sw, 0, fr, slots, {}), ProjectFields(gw, tw, 0, fr, slots, {});
    if b.Some? {
      SameFieldsHalf(fw, sw, gw, tw, fr, slots);
    } else if a.Some? {
      SameFieldsHalf(gw, tw, fw, sw, fr, slots);
    }
  }

  // ---------------------------------------------------------------- interoperability

  /**
   * The same ids in the same order with the same types and orderings. Sets may be cleared by one and not by the
   * other, and `m` may make optional what `g` always writes.
   */
  ghost predicate SameShape(g: Type, m: Type) {
    match g
    case TStruct(fg) =>
      && m.TStruct? && |fg| == |m.fields|
      && forall i :: 0 <= i < |fg| ==>
           fg[i].id == m.fields[i].id && SameShape(fg[i].t, m.fields[i].t)
           && (fg[i].req.Optional? ==> m.fields[i].req.Optional? && Fresh(fg[i].t) == Fresh(m.fields[i].t))
    case TList(elem) => m.TList? && SameShape(elem, m.elem)
    case TSet(elem, less, _) => m.TSet? && less == m.less && SameShape(elem, m.elem)
    case TMap(key, value, less) => m.TMap? && less == m.less && SameShape(key, m.key) && SameShape(value, m.value)
    case _ => Code(g) == Code(m)
  }

  /** A value of both schemas has the same bytes under both. */
  lemma {:induction false} SameBytes(g: Type, m: Type, v: Val)
    requires SameShape(g, m) && HasType(g, v) && HasType(m, v) && Fits(v)
    ensures Enc(g, v) == Enc(m, v)
    decreases g, 1, 0
  {
    hide EncFields, EncItems, EncPairs;
    match g
    case TStruct(fg) => SameFieldBytes(fg, m.fields, v.slots, 0);
    case TList(elem) => SameItemBytes(elem, m.elem, v.items);
    case TSet(elem, _, _) => SameItemBytes(elem, m.elem, v.items);
    case TMap(_, _, _) => SamePairBytes(g, m, v.pairs);
    case _ =>
  }

  lemma {:induction false} SameFieldBytes(fg: seq<Field>, fm: seq<Field>, slots: seq<Slot>, i: nat)
    requires SameShape(TStruct(fg), TStruct(fm)) && i <= |fg| && SlotsOk(fg, slots) && SlotsOk(fm, slots)
    requires forall k :: 0 <= k < |slots| ==> Fits(slots[k].val)
    ensures EncFields(fg, slots, i) == EncFields(fm, slots, i)
    decreases TStruct(fg), 0, |fg| - i
  {
    hide Enc, HasType, Fits, Fresh;
    if i < |fg| {
      SameBytes(fg[i].t, fm[i].t, slots[i].val);
      SameFieldBytes(fg, fm, slots, i + 1);
    }
  }

  lemma {:induction false} SameItemBytes(g: Type, m: Type, items: seq<Val>)
    requires SameShape(g, m)
    requires forall i :: 0 <= i < |items| ==> HasType(g, items[i]) && HasType(m, items[i]) && Fits(items[i])
    ensures EncItems(g, items) == EncItems(m, items)
    decreases g, 2, |items|
  {
    if items != [] {
      SameBytes(g, m, items[0]);
      SameItemBytes(g, m, items[1..]);
    }
  }

  lemma {:induction false} SamePairBytes(g: Type, m: Type, pairs: seq<(Val, Val)>)
    requires g.TMap? && SameShape(g, m)
    requires forall i :: 0 <= i < |pairs| ==>
        && HasType(g.key, pairs[i].0) && HasType(g.value, pairs[i].1) && Fits(pairs[i].0) && Fits(pairs[i].1)
        && HasType(m.key, pairs[i].0) && HasType(m.value, pairs[i].1)
    ensures EncPairs(g, pairs) == EncPairs(m, pairs)
    decreases g, 0, |pairs|
  {
    if pairs != [] {
      SameBytes(g.key, m.key, pairs[0].0);
      SameBytes(g.value, m.value, pairs[0].1);
      SamePairBytes(g, m, pairs[1..]);
    }
  }

  /** A normal value of the one schema is a normal value of the other. */
  lemma {:induction false} SameValues(g: Type, m: Type, v: Val)
    requires SameShape(g, m) && HasType(g, v) && Normal(g, v)
    ensures HasType(m, v) && Normal(m, v)
  {
    match g
    case TStruct(fg) =>
      forall i | 0 <= i < |fg|
        ensures HasType(m.fields[i].t, v.slots[i].val) && Normal(m.fields[i].t, v.slots[i].val)
      {
        SameValues(fg[i].t, m.fields[i].t, v.slots[i].val);
      }
    case TList(elem) =>
      forall i | 0 <= i < |v.items| ensures HasType(m.elem, v.items[i]) && Normal(m.elem, v.items[i]) {
        SameValues(elem, m.elem, v.items[i]);
      }
    case TSet(elem, _, _) =>
      forall i | 0 <= i < |v.items| ensures HasType(m.elem, v.items[i]) && Normal(m.elem, v.items[i]) {
        SameValues(elem, m.elem, v.items[i]);
      }
    case TMap(key, value, _) =>
      forall i | 0 <= i < |v.pairs|
        ensures HasType(m.key, v.pairs[i].0) && Normal(m.key, v.pairs[i].0)
        ensures HasType(m.value, v.pairs[i].1) && Normal(m.value, v.pairs[i].1)
      {
        SameValues(key, m.key, v.pairs[i].0);
        SameValues(value, m.value, v.pairs[i].1);
      }
    case _ =>
  }

  /**
   * Interoperability: what generated code writes, the macro codec reads and rewrites to the same bytes, which
   * generated code reads as the value it started from.
   */
  lemma Interoperable(g: Type, m: Type, v: Val, rest: bytes)
    requires SameShape(g, m) && WellFormed(g) && WellFormed(m) && HasType(g, v) && Normal(g, v) && Fits(v)
    ensures HasType(m, v) && Enc(m, v) == Enc(g, v)
    ensures Read(m, Fresh(m), Enc(g, v) + rest) == Some((v, rest))
    ensures Read(g, Fresh(g), Enc(m, v) + rest) == Some((v, rest))
  {
    SameValues(g, m, v);
    SameBytes(g, m, v);
    RoundTrip(g, v, rest);
    RoundTrip(m, v, rest);
  }
}
