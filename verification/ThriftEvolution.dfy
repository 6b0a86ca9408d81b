/**
 * Schema evolution: what reading with one schema makes of what was written with another, at any nesting depth.
 */
module ThriftEvolution {
  import opened RpcTypes
  import opened ThriftWire
  import opened ThriftCodec

  // ---------------------------------------------------------------- skipping what was written

  /** Skipping consumes exactly one written value. */
  lemma {:induction false} SkipEnc(t: Type, v: Val, rest: bytes)
    requires HasType(t, v) && Fits(v)
    ensures Skip(Code(t), Enc(t, v) + rest) == Some(rest)
    decreases t, 1, 0
  {
    hide EncFields, EncItems, EncPairs, SkipFields, SkipContainer, SkipPairs, SkipItems, EncInt, EncNat;
    Widths();
    var s := Enc(t, v) + rest;
    match t
    case TStruct(fields) =>
      SkipEncFields(fields, v.slots, 0, rest);
      assert s == EncFields(fields, v.slots, 0) + ([STOP] + rest);
    case TString =>
      ReadEncInt(4, |v.s|, v.s + rest);
      assert s == EncInt(4, |v.s|) + (v.s + rest);
    case TList(elem) =>
      SkipEncContainer(elem, v.items, rest);
    case TSet(elem, _, _) =>
      SkipEncContainer(elem, v.items, rest);
    case TMap(key, value, _) =>
      var tail := EncPairs(t, v.pairs) + rest;
      ReadEncInt(4, |v.pairs|, tail);
      assert s[2..] == EncInt(4, |v.pairs|) + tail;
      SkipEncPairs(t, v.pairs, rest);
    case _ =>
  }

  lemma {:induction false} SkipEncContainer(elem: Type, items: seq<Val>, rest: bytes)
    requires |items| < 0x8000_0000 && forall i :: 0 <= i < |items| ==> HasType(elem, items[i]) && Fits(items[i])
    ensures InWidth(4, |items|)
    ensures SkipContainer([Code(elem)] + EncInt(4, |items|) + EncItems(elem, items) + rest) == Some(rest)
    decreases elem, 3, 0
  {
    Widths();
    var s := [Code(elem)] + EncInt(4, |items|) + EncItems(elem, items) + rest;
    var tail := EncItems(elem, items) + rest;
    ReadEncInt(4, |items|, tail);
    assert s[1..] == EncInt(4, |items|) + tail;
    SkipEncItems(elem, items, rest);
  }

  lemma {:induction false} SkipEncItems(elem: Type, items: seq<Val>, rest: bytes)
    requires forall i :: 0 <= i < |items| ==> HasType(elem, items[i]) && Fits(items[i])
    ensures SkipItems(Code(elem), |items|, EncItems(elem, items) + rest) == Some(rest)
    decreases elem, 2, |items|
  {
    hide Enc, Skip, Code;
    if items == [] {
      assert EncItems(elem, items) + rest == rest;
    } else {
      var tail := EncItems(elem, items[1..]) + rest;
      assert EncItems(elem, items) + rest == Enc(elem, items[0]) + tail;
      SkipEnc(elem, items[0], tail);
      SkipEncItems(elem, items[1..], rest);
    }
  }

  lemma {:induction false} SkipEncPairs(t: Type, pairs: seq<(Val, Val)>, rest: bytes)
    requires t.TMap? && forall i :: 0 <= i < |pairs| ==>
        HasType(t.key, pairs[i].0) && HasType(t.value, pairs[i].1) && Fits(pairs[i].0) && Fits(pairs[i].1)
    ensures SkipPairs(Code(t.key), Code(t.value), |pairs|, EncPairs(t, pairs) + rest) == Some(rest)
    decreases t, 0, |pairs|
  {
    hide Enc, Skip, Code;
    if pairs == [] {
      assert EncPairs(t, pairs) + rest == rest;
    } else {
      var tail := EncPairs(t, pairs[1..]) + rest;
      var mid := Enc(t.value, pairs[0].1) + tail;
      assert EncPairs(t, pairs) + rest == Enc(t.key, pairs[0].0) + mid;
      SkipEnc(t.key, pairs[0].0, mid);
      SkipEnc(t.value, pairs[0].1, tail);
      SkipEncPairs(t, pairs[1..], rest);
    }
  }

  /** The bytes from the `i`-th field on: the field's header, its value, and the rest. */
  lemma FieldsFrom(fields: seq<Field>, slots: seq<Slot>, i: nat, rest: bytes)
    requires i < |fields| == |slots|
    requires forall k :: 0 <= k < |fields| ==> HasType(fields[k].t, slots[k].val) && Fits(slots[k].val)
    ensures var s := EncFields(fields, slots, i) + ([STOP] + rest);
            var tail := EncFields(fields, slots, i + 1) + ([STOP] + rest);
            if fields[i].req.Optional? && !slots[i].isset then s == tail
            else
              && |s| >= 3 && s[0] == Code(fields[i].t)
              && ReadInt(2, s[1..]) == Some((fields[i].id as int, Enc(fields[i].t, slots[i].val) + tail))
  {
    hide Enc, HasType, Fits;
    Widths();
    var s := EncFields(fields, slots, i) + ([STOP] + rest);
    var tail := EncFields(fields, slots, i + 1) + ([STOP] + rest);
    assert s == EncField(fields[i], slots[i]) + tail;
    if !fields[i].req.Optional? || slots[i].isset {
      assert s[1..] == EncInt(2, fields[i].id) + (Enc(fields[i].t, slots[i].val) + tail);
      ReadEncInt(2, fields[i].id, Enc(fields[i].t, slots[i].val) + tail);
    }
  }

  lemma {:induction false} SkipEncFields(fields: seq<Field>, slots: seq<Slot>, i: nat, rest: bytes)
    requires i <= |fields| == |slots|
    requires forall k :: 0 <= k < |fields| ==> HasType(fields[k].t, slots[k].val) && Fits(slots[k].val)
    ensures SkipFields(EncFields(fields, slots, i) + ([STOP] + rest)) == Some(rest)
    decreases TStruct(fields), 0, |fields| - i
  {
    var s := EncFields(fields, slots, i) + ([STOP] + rest);
    if i == |fields| {
      assert s == [STOP] + rest;
    } else {
      FieldsFrom(fields, slots, i, rest);
      SkipEncFields(fields, slots, i + 1, rest);
      if !fields[i].req.Optional? || slots[i].isset {
        SkipEnc(fields[i].t, slots[i].val, EncFields(fields, slots, i + 1) + ([STOP] + rest));
      }
    }
  }

  // ---------------------------------------------------------------- projection

  ghost predicate SameField(f: Field, g: Field) { f.id == g.id && Code(f.t) == Code(g.t) }

  /**
   * The schemas agree wherever the reader does not look at the wire type: on the elements of lists and sets and
   * on the keys and values of maps, within the fields they share.
   */
  ghost predicate Compatible(w: Type, r: Type) {
    && Code(w) == Code(r)
    && match w
       case TStruct(fw) => forall i, j :: 0 <= i < |fw| && 0 <= j < |r.fields| && SameField(fw[i], r.fields[j]) ==>
           Compatible(fw[i].t, r.fields[j].t)
       case TList(elem) => Compatible(elem, r.elem)
       case TSet(elem, _, _) => Compatible(elem, r.elem)
       case TMap(key, value, _) => Compatible(key, r.key) && Compatible(value, r.value)
       case _ => true
  }

  /** What a value written with schema `w` becomes when `r` reads it into `x`; None: a required field is missing. */
  ghost function Project(w: Type, r: Type, x: Val, v: Val): (y: Option<Val>)
    requires HasType(w, v) && HasType(r, x) && Compatible(w, r)
    ensures y.Some? ==> HasType(r, y.value)
    decreases w, 1, 0
  {
    match w
    case TStruct(fw) =>
      (match ProjectFields(fw, v.slots, 0, r.fields, x.slots, {})
       case Some((slots, seen)) => if AllRequired(r.fields, seen) then Some(VStruct(slots)) else None
       case None => None)
    case TList(elem) => ProjectItems(elem, r.elem, [], v.items)
    case TSet(elem, _, _) => ProjectSet(elem, r.elem, r.less, if r.clears then [] else x.items, v.items)
    case TMap(_, _, _) => ProjectPairs(w, r, [], v.pairs)
    case _ => Some(v)
  }

  /** The fields from the `i`-th on, as they arrive: those that `fr` declares alike go to their slots. */
  ghost function ProjectFields(fw: seq<Field>, sw: seq<Slot>, i: nat, fr: seq<Field>, slots: seq<Slot>,
                               seen: set<int>): (y: Option<(seq<Slot>, set<int>)>)
    requires i <= |fw| && SlotsOk(fw, sw) && SlotsOk(fr, slots)
    requires forall i, j :: 0 <= i < |fw| && 0 <= j < |fr| && SameField(fw[i], fr[j]) ==>
        Compatible(fw[i].t, fr[j].t)
    ensures y.Some? ==> SlotsOk(fr, y.value.0)
    decreases TStruct(fw), 0, |fw| - i
  {
    if i == |fw| then Some((slots, seen))
    else
      var j := Find(fr, fw[i].id);
      if (fw[i].req.Optional? && !sw[i].isset) || j == |fr| || !SameField(fw[i], fr[j])
      then ProjectFields(fw, sw, i + 1, fr, slots, seen)
      else
        match Project(fw[i].t, fr[j].t, slots[j].val, sw[i].val)
        case Some(y) => ProjectFields(fw, sw, i + 1, fr, slots[j := Slot(true, y)], seen + {fw[i].id as int})
        case None => None
  }

  ghost function ProjectItems(w: Type, r: Type, done: seq<Val>, items: seq<Val>): (y: Option<Val>)
    requires Compatible(w, r) && forall i :: 0 <= i < |items| ==> HasType(w, items[i])
    requires forall i :: 0 <= i < |done| ==> HasType(r, done[i])
    ensures y.Some? ==> HasType(TList(r), y.value)
    decreases w, 2, |items|
  {
    if items == [] then Some(VSeq(done)) else
    match Project(w, r, Fresh(r), items[0])
    case Some(e) => ProjectItems(w, r, done + [e], items[1..])
    case None => None
  }

  ghost function ProjectSet(w: Type, r: Type, less: (Val, Val) -> bool, done: seq<Val>, items: seq<Val>):
      (y: Option<Val>)
    requires Compatible(w, r) && forall i :: 0 <= i < |items| ==> HasType(w, items[i])
    requires forall i :: 0 <= i < |done| ==> HasType(r, done[i])
    ensures y.Some? ==> HasType(TList(r), y.value)
    decreases w, 2, |items|
  {
    if items == [] then Some(VSeq(done)) else
    match Project(w, r, Fresh(r), items[0])
    case Some(e) => ProjectSet(w, r, less, Insert(less, done, e), items[1..])
    case None => None
  }

  ghost function ProjectPairs(w: Type, r: Type, done: seq<(Val, Val)>, pairs: seq<(Val, Val)>): (y: Option<Val>)
    requires w.TMap? && r.TMap? && Compatible(w, r)
    requires forall i :: 0 <= i < |pairs| ==> HasType(w.key, pairs[i].0) && HasType(w.value, pairs[i].1)
    requires forall i :: 0 <= i < |done| ==> HasType(r.key, done[i].0) && HasType(r.value, done[i].1)
    ensures y.Some? ==> HasType(r, y.value)
    decreases w, 0, |pairs|
  {
    if pairs == [] then Some(VMap(done)) else
    match Project(w.key, r.key, Fresh(r.key), pairs[0].0)
    case Some(k) =>
      (var (p, done') := Access(r.less, done, k, Fresh(r.value));
       match Project(w.value, r.value, done'[p].1, pairs[0].1)
       case Some(e) => ProjectPairs(w, r, done'[p := (done'[p].0, e)], pairs[1..])
       case None => None)
    case None => None
  }

  // ---------------------------------------------------------------- reading is projecting

  predicate IsScalar(t: Type) {
    !t.TStruct? && !t.TList? && !t.TSet? && !t.TMap?
  }

  lemma ReadScalar(t: Type, x: Val, v: Val, rest: bytes)
    requires IsScalar(t) && HasType(t, v) && Fits(v) && HasType(t, x)
    ensures Read(t, x, Enc(t, v) + rest) == Some((v, rest))
  {
    Widths();
    var s := Enc(t, v) + rest;
    if t.TDouble? {
      DecEncNat(8, v.bits);
      assert s[..8] == EncNat(8, v.bits);
    } else if t.TString? {
      ReadEncInt(4, |v.s|, v.s + rest);
      assert s == EncInt(4, |v.s|) + (v.s + rest);
    } else if v.VInt? {
      ReadEncInt(Width(t), v.i, rest);
    }
  }

  /** The size of a container follows its one or two element types. */
  lemma SizeAfter(types: bytes, n: nat, body: bytes, rest: bytes)
    requires n < 0x8000_0000
    ensures InWidth(4, n)
    ensures var s := types + EncInt(4, n) + body + rest;
            s[|types|..] == EncInt(4, n) + (body + rest) && ReadInt(4, s[|types|..]) == Some((n as int, body + rest))
  {
    Widths();
    ReadEncInt(4, n, body + rest);
    assert (types + EncInt(4, n) + body + rest)[|types|..] == EncInt(4, n) + (body + rest);
  }

  /**
   * Schema evolution: reading what was written gives the projection, and consumes exactly what was written; it
   * fails exactly when the projection does, for want of a required field.
   */
  lemma {:induction false} ReadIsProjection(w: Type, r: Type, x: Val, v: Val, rest: bytes)
    requires HasType(w, v) && Fits(v) && HasType(r, x) && Compatible(w, r)
    ensures Read(r, x, Enc(w, v) + rest) == match Project(w, r, x, v)
                                            case Some(y) => Some((y, rest))
                                            case None => None
    decreases w, 1, 0
  {
    hide EncFields, EncItems, EncPairs, ReadFields, ReadItems, ReadSet, ReadPairs, ProjectFields, ProjectItems,
         ProjectSet, ProjectPairs, EncInt, ReadInt;
    Widths();
    var s := Enc(w, v) + rest;
    match w
    case TBool =>
      ReadScalar(w, x, v, rest);
    case TDouble =>
      ReadScalar(w, x, v, rest);
    case TString =>
      ReadScalar(w, x, v, rest);
    case TStruct(fw) =>
      ReadFieldsIsProjection(fw, v.slots, 0, r.fields, x.slots, {}, rest);
      assert s == EncFields(fw, v.slots, 0) + ([STOP] + rest);
    case TList(elem) =>
      SizeAfter([Code(elem)], |v.items|, EncItems(elem, v.items), rest);
      ReadItemsIsProjection(elem, r.elem, [], v.items, rest);
    case TSet(elem, _, _) =>
      SizeAfter([Code(elem)], |v.items|, EncItems(elem, v.items), rest);
      ReadSetIsProjection(elem, r.elem, r.less, if r.clears then [] else x.items, v.items, rest);
    case TMap(key, value, _) =>
      SizeAfter([Code(key), Code(value)], |v.pairs|, EncPairs(w, v.pairs), rest);
      ReadPairsIsProjection(w, r, [], v.pairs, rest);
    case _ =>
      ReadScalar(w, x, v, rest);
  }

  lemma {:induction false} ReadFieldsIsProjection(fw: seq<Field>, sw: seq<Slot>, i: nat, fr: seq<Field>,
                                                  slots: seq<Slot>, seen: set<int>, rest: bytes)
    requires i <= |fw| && SlotsOk(fw, sw) && SlotsOk(fr, slots)
    requires forall k :: 0 <= k < |fw| ==> Fits(sw[k].val)
    requires forall i, j :: 0 <= i < |fw| && 0 <= j < |fr| && SameField(fw[i], fr[j]) ==>
        Compatible(fw[i].t, fr[j].t)
    ensures ReadFields(fr, slots, seen, EncFields(fw, sw, i) + ([STOP] + rest))
            == match ProjectFields(fw, sw, i, fr, slots, seen)
               case Some((slots', seen')) => Some((slots', seen', rest))
               case None => None
    decreases TStruct(fw), 0, |fw| - i
  {
    hide Enc, EncField, Skip, Read, Project, Compatible, EncInt, ReadInt, Code, HasType, Fits;
    if i == |fw| {
      assert EncFields(fw, sw, i) + ([STOP] + rest) == [STOP] + rest;
    } else {
      FieldsFrom(fw, sw, i, rest);
      var tail := EncFields(fw, sw, i + 1) + ([STOP] + rest);
      var j := Find(fr, fw[i].id);
      if fw[i].req.Optional? && !sw[i].isset {
        ReadFieldsIsProjection(fw, sw, i + 1, fr, slots, seen, rest);
      } else if j == |fr| || !SameField(fw[i], fr[j]) {
        SkipEnc(fw[i].t, sw[i].val, tail);
        ReadFieldsIsProjection(fw, sw, i + 1, fr, slots, seen, rest);
      } else {
        ReadIsProjection(fw[i].t, fr[j].t, slots[j].val, sw[i].val, tail);
        match Project(fw[i].t, fr[j].t, slots[j].val, sw[i].val)
        case Some(y) =>
          ReadFieldsIsProjection(fw, sw, i + 1, fr, slots[j := Slot(true, y)], seen + {fw[i].id as int}, rest);
        case None =>
      }
    }
  }

  lemma {:induction false} ReadItemsIsProjection(w: Type, r: Type, done: seq<Val>, items: seq<Val>, rest: bytes)
    requires Compatible(w, r) && forall i :: 0 <= i < |items| ==> HasType(w, items[i]) && Fits(items[i])
    requires forall i :: 0 <= i < |done| ==> HasType(r, done[i])
    ensures ReadItems(r, done, |items|, EncItems(w, items) + rest) == match ProjectItems(w, r, done, items)
                                                                      case Some(y) => Some((y, rest))
                                                                      case None => None
    decreases w, 2, |items|
  {
    hide Enc, Read, Project, Compatible, Code, HasType, Fits, Fresh, Insert, EncInt;
    if items == [] {
      assert EncItems(w, items) + rest == rest;
    } else {
      var tail := EncItems(w, items[1..]) + rest;
      assert EncItems(w, items) + rest == Enc(w, items[0]) + tail;
      ReadIsProjection(w, r, Fresh(r), items[0], tail);
      match Project(w, r, Fresh(r), items[0])
      case Some(e) => ReadItemsIsProjection(w, r, done + [e], items[1..], rest);
      case None =>
    }
  }

  lemma {:induction false} ReadSetIsProjection(w: Type, r: Type, less: (Val, Val) -> bool, done: seq<Val>,
                                               items: seq<Val>, rest: bytes)
    requires Compatible(w, r) && forall i :: 0 <= i < |items| ==> HasType(w, items[i]) && Fits(items[i])
    requires forall i :: 0 <= i < |done| ==> HasType(r, done[i])
    ensures ReadSet(r, less, done, |items|, EncItems(w, items) + rest) == match ProjectSet(w, r, less, done, items)
                                                                          case Some(y) => Some((y, rest))
                                                                          case None => None
    decreases w, 2, |items|
  {
    hide Enc, Read, Project, Compatible, Code, HasType, Fits, Fresh, Insert, EncInt;
    if items == [] {
      assert EncItems(w, items) + rest == rest;
    } else {
      var tail := EncItems(w, items[1..]) + rest;
      assert EncItems(w, items) + rest == Enc(w, items[0]) + tail;
      ReadIsProjection(w, r, Fresh(r), items[0], tail);
      match Project(w, r, Fresh(r), items[0])
      case Some(e) => ReadSetIsProjection(w, r, less, Insert(less, done, e), items[1..], rest);
      case None =>
    }
  }

  lemma {:induction false} ReadPairsIsProjection(w: Type, r: Type, done: seq<(Val, Val)>, pairs: seq<(Val, Val)>,
                                                 rest: bytes)
    requires w.TMap? && r.TMap? && Compatible(w, r)
    requires forall i :: 0 <= i < |pairs| ==>
        HasType(w.key, pairs[i].0) && HasType(w.value, pairs[i].1) && Fits(pairs[i].0) && Fits(pairs[i].1)
    requires forall i :: 0 <= i < |done| ==> HasType(r.key, done[i].0) && HasType(r.value, done[i].1)
    ensures ReadPairs(r.key, r.value, r.less, done, |pairs|, EncPairs(w, pairs) + rest)
            == match ProjectPairs(w, r, done, pairs)
               case Some(y) => Some((y, rest))
               case None => None
    decreases w, 0, |pairs|
  {
    hide Enc, Read, Project, Code, Access, Fresh, EncInt, HasType, Fits;
    if pairs == [] {
      assert EncPairs(w, pairs) + rest == rest;
    } else {
      var tail := EncPairs(w, pairs[1..]) + rest;
      var mid := Enc(w.value, pairs[0].1) + tail;
      assert EncPairs(w, pairs) + rest == Enc(w.key, pairs[0].0) + mid;
      ReadIsProjection(w.key, r.key, Fresh(r.key), pairs[0].0, mid);
      match Project(w.key, r.key, Fresh(r.key), pairs[0].0)
      case Some(k) =>
        var (p, done') := Access(r.less, done, k, Fresh(r.value));
        ReadIsProjection(w.value, r.value, done'[p].1, pairs[0].1, tail);
        match Project(w.value, r.value, done'[p].1, pairs[0].1) {
          case Some(e) => ReadPairsIsProjection(w, r, done'[p := (done'[p].0, e)], pairs[1..], rest);
          case None =>
        }
      case None =>
    }
  }
}
