/** The slice of Go's `types` package the translator inspects: struct fields,
    named types, pointers, and the bit-field view types (`bfType`) that
    `buildVStruct` synthesises. Layout (`Sizeof`, `Offsetsof`) is not computed
    here: it is passed in as a function. */
module CTypes {
  import opened Wrappers

  /** A `gox.BitField`: bit-field `name` stored in the real struct field `fldName`. */
  datatype BitField = BitField(name: string, fldName: string, off: int, bits: int)

  datatype Ty =
    | Basic(name: string)
    | Pointer(elem: Ty)
    | Func
    | Named(name: string, under: Ty)
    | Struct(fields: seq<Field>)
      /** `bfType`: the storage type, the bit-field, and whether it is the first of its run */
    | Bf(base: Ty, bf: BitField, first: bool)

  datatype Field = Field(name: string, typ: Ty)

  /** `gox.VFields`: either a list of bit-fields, or some other virtual-field
      description that `buildVStruct` leaves alone. */
  datatype VFields = BitFields(items: seq<BitField>) | OtherVFields

  /** `Package.Offsetsof`: one offset per field of the list it is given. */
  type Offsets = f: seq<Field> -> seq<int> | forall fs :: |f(fs)| == |fs|
    witness (fs: seq<Field>) => seq(|fs|, i => 0)

  // ---------------------------------------------------------------------------
  // getFld

  /** Index of the first field named `name` at or after `from`. */
  function FieldIndex(fs: seq<Field>, name: string, from: nat): (r: Option<nat>)
    ensures r.Some? ==> from <= r.value < |fs| && fs[r.value].name == name
    ensures r.Some? ==> forall j :: from <= j < r.value ==> fs[j].name != name
    ensures r.None? <==> forall j :: from <= j < |fs| ==> fs[j].name != name
    decreases |fs| - from
  {
    if from >= |fs| then None
    else if fs[from].name == name then Some(from)
    else FieldIndex(fs, name, from + 1)
  }

  /** `getFld`: the fields from `from` up to and including the first one named
      `name`, and that field's absolute index; `([], -1)` when there is none. */
  method GetFld(t: seq<Field>, name: string, from: nat) returns (flds: seq<Field>, i: int)
    ensures FieldIndex(t, name, from).None? ==> flds == [] && i == -1
    ensures FieldIndex(t, name, from).Some? ==>
              i == FieldIndex(t, name, from).value && flds == t[from..i + 1]
  {
    flds := [];
    i := from;
    while i < |t|
      invariant from <= i
      invariant i <= |t| ==> flds == t[from..i]
      invariant forall j :: from <= j < i && j < |t| ==> t[j].name != name
    {
      var f := t[i];
      flds := flds + [f];
      if f.name == name {
        return;
      }
      i := i + 1;
    }
    return [], -1;
  }

  // ---------------------------------------------------------------------------
  // offsetof

  /** The type that remains once every `Named` wrapper is removed. */
  function Underlying(t: Ty): (u: Ty)
    ensures !u.Named?
  {
    if t.Named? then Underlying(t.under) else t
  }

  /** `offsetof`: the byte offset of field `name`, unwrapping named types;
      any other type, or a missing field, panics. */
  function Offsetof(t: Ty, name: string, layout: Offsets): Result<int> {
    match t
    case Struct(fs) =>
      (match FieldIndex(fs, name, 0)
       case Some(idx) => Ok(layout(fs[..idx + 1])[idx])
       case None => Panic)
    case Named(_, u) => Offsetof(u, name, layout)
    case _ => Panic
  }

  /** `offsetof` succeeds exactly when the underlying type is a struct that has
      the field, and then returns the layout offset of its first occurrence. */
  lemma {:induction false} OffsetofFound(t: Ty, name: string, layout: Offsets)
    ensures Offsetof(t, name, layout).Ok? <==>
              Underlying(t).Struct? && FieldIndex(Underlying(t).fields, name, 0).Some?
    ensures Offsetof(t, name, layout).Ok? ==>
              var fs := Underlying(t).fields;
              var idx := FieldIndex(fs, name, 0).value;
              Offsetof(t, name, layout).value == layout(fs[..idx + 1])[idx]
  {
    if t.Named? {
      OffsetofFound(t.under, name, layout);
    }
  }

  // ---------------------------------------------------------------------------
  // buildVStruct

  function SubField(bf: BitField, base: Ty, first: bool): Field {
    Field(bf.name, Bf(base, bf, first))
  }

  /** End (exclusive) of the run of bit-fields after `i` that share the real field `name`. */
  function RunEnd(bs: seq<BitField>, i: nat, name: string): (e: nat)
    requires i < |bs|
    ensures i < e <= |bs|
    ensures forall k :: i < k < e ==> bs[k].fldName == name
    ensures e < |bs| ==> bs[e].fldName != name
    decreases |bs| - i
  {
    if i + 1 < |bs| && bs[i + 1].fldName == name then RunEnd(bs, i + 1, name) else i + 1
  }

  /** The non-first views of bit-fields `bs[lo..hi]`, all stored in `base`. */
  function Subs(bs: seq<BitField>, lo: nat, hi: nat, base: Ty): (r: seq<Field>)
    requires lo <= hi <= |bs|
    ensures |r| == hi - lo
    ensures forall k :: 0 <= k < |r| ==> r[k] == SubField(bs[lo + k], base, false)
    decreases hi
  {
    if hi == lo then [] else Subs(bs, lo, hi - 1, base) + [SubField(bs[hi - 1], base, false)]
  }

  function Prepend(p: seq<Field>, r: Result<seq<Field>>): Result<seq<Field>> {
    match r
    case Ok(x) => Ok(p + x)
    case Panic => Panic
  }

  /** The view of `fs[from..]` once bit-fields `bs[i..]` are expanded. */
  function BuildFrom(fs: seq<Field>, bs: seq<BitField>, i: nat, from: nat): Result<seq<Field>>
    requires i <= |bs| && from <= |fs|
    decreases |bs| - i
  {
    if i == |bs| then Ok(fs[from..])
    else
      var name := bs[i].fldName;
      match FieldIndex(fs, name, from)
      case None => Panic
      case Some(idx) =>
        var e := RunEnd(bs, i, name);
        var head := fs[from..idx] + ([SubField(bs[i], fs[idx].typ, true)] + Subs(bs, i + 1, e, fs[idx].typ));
        Prepend(head, BuildFrom(fs, bs, e, idx + 1))
  }

  /** What `types.NewStruct` demands of its fields: no two share a name,
      except the blank name `_`. */
  predicate DistinctNames(fs: seq<Field>) {
    forall i, j :: 0 <= i < j < |fs| && fs[i].name != "_" ==> fs[i].name != fs[j].name
  }

  /** The struct `buildVStruct` returns: the expanded field list, which
      `types.NewStruct` refuses (a panic) when two fields share a name. */
  function VStruct(struc: seq<Field>, vfs: VFields): Result<seq<Field>> {
    match vfs
    case BitFields(bs) =>
      (match BuildFrom(struc, bs, 0, 0)
       case Panic => Panic
       case Ok(v) => if DistinctNames(v) then Ok(v) else Panic)
    case OtherVFields => Ok(struc)
  }

  lemma PrependAssoc(a: seq<Field>, b: seq<Field>, r: Result<seq<Field>>)
    ensures Prepend(a, Prepend(b, r)) == Prepend(a + b, r)
  {
    if r.Ok? {
      assert a + (b + r.value) == (a + b) + r.value;
    }
  }

  lemma BuildFromStep(fs: seq<Field>, bs: seq<BitField>, i: nat, from: nat, idx: nat)
    requires i < |bs| && from <= |fs|
    requires FieldIndex(fs, bs[i].fldName, from) == Some(idx)
    ensures BuildFrom(fs, bs, i, from) ==
              Prepend(fs[from..idx] + ([SubField(bs[i], fs[idx].typ, true)] +
                      Subs(bs, i + 1, RunEnd(bs, i, bs[i].fldName), fs[idx].typ)),
                      BuildFrom(fs, bs, RunEnd(bs, i, bs[i].fldName), idx + 1))
  {
  }

  lemma BuildFromMissing(fs: seq<Field>, bs: seq<BitField>, i: nat, from: nat)
    requires i < |bs| && from <= |fs|
    requires FieldIndex(fs, bs[i].fldName, from).None?
    ensures BuildFrom(fs, bs, i, from) == Panic
  {
  }

  lemma BuildFromDone(fs: seq<Field>, bs: seq<BitField>, from: nat)
    requires from <= |fs|
    ensures BuildFrom(fs, bs, |bs|, from) == Ok(fs[from..])
  {
  }

  /** What one pass of the outer loop of `buildVStruct` adds, in terms of
      what `getFld` and the inner loop return. */
  lemma RunPiece(struc: seq<Field>, bs: seq<BitField>, i: nat, from: nat, idx: nat,
                 flds: seq<Field>, views: seq<Field>, last: nat, p: (seq<Field>, nat, nat))
    requires i < |bs| && from <= |struc|
    requires FieldIndex(struc, bs[i].fldName, from) == Some(idx)
    requires flds == struc[from..idx + 1]
    requires last + 1 == RunEnd(bs, i, bs[i].fldName)
    requires views == [SubField(bs[i], flds[idx - from].typ, true)] + Subs(bs, i + 1, last + 1, flds[idx - from].typ)
    requires p == (flds[..idx - from] + views, last + 1, idx + 1)
    ensures i < p.1 <= |bs| && p.2 <= |struc|
    ensures BuildFrom(struc, bs, i, from) == Prepend(p.0, BuildFrom(struc, bs, p.1, p.2))
  {
    SliceOfSlice(struc, from, idx, flds);
    BuildFromStep(struc, bs, i, from, idx);
  }

  lemma SliceOfSlice(s: seq<Field>, lo: nat, k: nat, t: seq<Field>)
    requires lo <= k < |s| && t == s[lo..k + 1]
    ensures t[..k - lo] == s[lo..k] && t[k - lo] == s[k]
  {
  }

  /** The views of the run of bit-fields that starts at `i`, all stored in `base`:
      the inner loop of `buildVStruct`. Returns the index of the run's last bit-field. */
  method RunViews(bs: seq<BitField>, i: nat, base: Ty) returns (views: seq<Field>, last: nat)
    requires i < |bs|
    ensures last + 1 == RunEnd(bs, i, bs[i].fldName)
    ensures views == [SubField(bs[i], base, true)] + Subs(bs, i + 1, last + 1, base)
  {
    var name := bs[i].fldName;
    views := [SubField(bs[i], base, true)];
    last := i;
    while last + 1 < |bs|
      invariant i <= last < |bs|
      invariant RunEnd(bs, i, name) == RunEnd(bs, last, name)
      invariant views == [SubField(bs[i], base, true)] + Subs(bs, i + 1, last + 1, base)
    {
      var nextf := bs[last + 1];
      if nextf.fldName != name {
        break;
      }
      views := views + [SubField(nextf, base, false)];
      last := last + 1;
    }
  }

  /** The final loop of `buildVStruct`: copy the real fields from `from` on. */
  method AppendRest(acc: seq<Field>, struc: seq<Field>, from: nat) returns (r: seq<Field>)
    requires from <= |struc|
    ensures r == acc + struc[from..]
  {
    r := acc;
    var k := from;
    while k < |struc|
      invariant from <= k <= |struc|
      invariant r == acc + struc[from..k]
    {
      r := r + [struc[k]];
      k := k + 1;
    }
  }

  /** `buildVStruct`: a struct with bit-field metadata gets its view, any
      other struct is returned as it is. */
  method BuildVStruct(struc: seq<Field>, vfs: VFields) returns (r: Result<seq<Field>>)
    ensures r == VStruct(struc, vfs)
  {
    match vfs
    case OtherVFields =>
      r := Ok(struc);
    case BitFields(bs) =>
      r := ExpandBitFields(struc, bs);
      if r.Ok? && !DistinctNames(r.value) {
        r := Panic;
      }
  }

  /** The `*gox.BitFields` case of `buildVStruct`: the outer loop over the
      bit-fields, then the copy of the remaining real fields. */
  method ExpandBitFields(struc: seq<Field>, bs: seq<BitField>) returns (r: Result<seq<Field>>)
    ensures r == BuildFrom(struc, bs, 0, 0)
  {
    ghost var goal := BuildFrom(struc, bs, 0, 0);
    var from, n := 0, |bs|;
    var vFlds: seq<Field> := [];
    var i := 0;
    if goal.Ok? {
      assert [] + goal.value == goal.value;
    }
    while i < n
      invariant 0 <= i <= n && from <= |struc|
      invariant goal == Prepend(vFlds, BuildFrom(struc, bs, i, from))
    {
      var pass := ExpandRun(struc, bs, i, from);
      if pass.Panic? {
        return Panic;
      }
      var (piece, nextI, nextFrom) := pass.value;
      PrependAssoc(vFlds, piece, BuildFrom(struc, bs, nextI, nextFrom));
      vFlds, i, from := vFlds + piece, nextI, nextFrom;
    }
    BuildFromDone(struc, bs, from);
    vFlds := AppendRest(vFlds, struc, from);
    return Ok(vFlds);
  }

  /** One pass of the outer loop of `buildVStruct`: the real fields before
      the one that stores `bs[i]`, then the views of the run of bit-fields
      stored in it; also where the next pass starts. A missing real field
      panics. */
  method ExpandRun(struc: seq<Field>, bs: seq<BitField>, i: nat, from: nat)
    returns (r: Result<(seq<Field>, nat, nat)>)
    requires i < |bs| && from <= |struc|
    ensures r.Panic? ==> BuildFrom(struc, bs, i, from) == Panic
    ensures r.Ok? ==>
              && i < r.value.1 <= |bs| && r.value.2 <= |struc|
              && BuildFrom(struc, bs, i, from) == Prepend(r.value.0, BuildFrom(struc, bs, r.value.1, r.value.2))
  {
    var flds, idx := GetFld(struc, bs[i].fldName, from);
    if idx < 0 {
      BuildFromMissing(struc, bs, i, from);
      return Panic;
    }
    var realf := flds[idx - from];
    var views, last := RunViews(bs, i, realf.typ);
    var piece := (flds[..idx - from] + views, last + 1, idx + 1);
    RunPiece(struc, bs, i, from, idx, flds, views, last, piece);
    r := Ok(piece);
  }

  // ---------------------------------------------------------------------------
  // What the view promises

  /** The bit-field views of a field list, in order, with their `first` flags. */
  function Views(fs: seq<Field>): seq<(BitField, bool)> {
    if fs == [] then []
    else (if fs[0].typ.Bf? then [(fs[0].typ.bf, fs[0].typ.first)] else []) + Views(fs[1..])
  }

  /** No field of a real struct is itself a view. */
  predicate NoViews(fs: seq<Field>) {
    forall j :: 0 <= j < |fs| ==> !fs[j].typ.Bf?
  }

  /** Bit-field `k` starts a run: it is the first one, or it lives in a
      different real field than the bit-field before it. */
  predicate RunStart(bs: seq<BitField>, k: nat)
    requires k < |bs|
  {
    k == 0 || bs[k].fldName != bs[k - 1].fldName
  }

  /** One view per bit-field from `i` on, flagged first exactly at run starts. */
  function ExpectedViews(bs: seq<BitField>, i: nat): seq<(BitField, bool)>
    requires i <= |bs|
  {
    seq(|bs| - i, k requires 0 <= k < |bs| - i => (bs[i + k], RunStart(bs, i + k)))
  }

  lemma {:induction false} ViewsAppend(a: seq<Field>, b: seq<Field>)
    ensures Views(a + b) == Views(a) + Views(b)
    decreases |a|
  {
    if a != [] {
      assert (a + b)[1..] == a[1..] + b;
      ViewsAppend(a[1..], b);
    } else {
      assert a + b == b;
    }
  }

  lemma {:induction false} ViewsOfPlain(fs: seq<Field>)
    requires NoViews(fs)
    ensures Views(fs) == []
    decreases |fs|
  {
    if fs != [] {
      ViewsOfPlain(fs[1..]);
    }
  }

  function FalseViews(bs: seq<BitField>, lo: nat, hi: nat): seq<(BitField, bool)>
    requires lo <= hi <= |bs|
  {
    seq(hi - lo, k requires 0 <= k < hi - lo => (bs[lo + k], false))
  }

  lemma {:induction false} ViewsOfSubs(bs: seq<BitField>, lo: nat, hi: nat, base: Ty)
    requires lo <= hi <= |bs|
    ensures Views(Subs(bs, lo, hi, base)) == FalseViews(bs, lo, hi)
    decreases hi
  {
    if hi > lo {
      var x := SubField(bs[hi - 1], base, false);
      ViewsOfSubs(bs, lo, hi - 1, base);
      ViewsAppend(Subs(bs, lo, hi - 1, base), [x]);
      assert Views([x]) == [(bs[hi - 1], false)] by {
        assert [x][1..] == [];
      }
    }
  }

  /** The expected views split at the end of the run that starts at `i`. */
  lemma ExpectedSplit(bs: seq<BitField>, i: nat)
    requires i < |bs| && RunStart(bs, i)
    ensures var e := RunEnd(bs, i, bs[i].fldName);
            ExpectedViews(bs, i) == [(bs[i], true)] + FalseViews(bs, i + 1, e) + ExpectedViews(bs, e)
  {
    var name := bs[i].fldName;
    var e := RunEnd(bs, i, name);
    var rhs := [(bs[i], true)] + FalseViews(bs, i + 1, e) + ExpectedViews(bs, e);
    forall k | 0 <= k < |bs| - i
      ensures ExpectedViews(bs, i)[k] == rhs[k]
    {
      if 0 < k < e - i {
        assert bs[i + k - 1].fldName == name;
      }
    }
  }

  /** The views of the fields one run contributes. */
  lemma HeadViews(plain: seq<Field>, bs: seq<BitField>, i: nat, e: nat, base: Ty)
    requires NoViews(plain) && i < e <= |bs|
    ensures Views(plain + ([SubField(bs[i], base, true)] + Subs(bs, i + 1, e, base))) ==
            [(bs[i], true)] + FalseViews(bs, i + 1, e)
  {
    var first := SubField(bs[i], base, true);
    ViewsAppend(plain, [first] + Subs(bs, i + 1, e, base));
    ViewsAppend([first], Subs(bs, i + 1, e, base));
    ViewsOfPlain(plain);
    ViewsOfSubs(bs, i + 1, e, base);
    assert Views([first]) == [(bs[i], true)] by {
      assert [first][1..] == [];
    }
  }

  lemma {:induction false} BuildFromViews(fs: seq<Field>, bs: seq<BitField>, i: nat, from: nat)
    requires i <= |bs| && from <= |fs| && NoViews(fs)
    requires i < |bs| ==> RunStart(bs, i)
    requires BuildFrom(fs, bs, i, from).Ok?
    ensures Views(BuildFrom(fs, bs, i, from).value) == ExpectedViews(bs, i)
    decreases |bs| - i
  {
    if i == |bs| {
      ViewsOfPlain(fs[from..]);
    } else {
      var name := bs[i].fldName;
      var idx := FieldIndex(fs, name, from).value;
      var e := RunEnd(bs, i, name);
      var base := fs[idx].typ;
      var head := fs[from..idx] + ([SubField(bs[i], base, true)] + Subs(bs, i + 1, e, base));
      var rest := BuildFrom(fs, bs, e, idx + 1).value;
      BuildFromViews(fs, bs, e, idx + 1);
      assert BuildFrom(fs, bs, i, from).value == head + rest;
      ViewsAppend(head, rest);
      HeadViews(fs[from..idx], bs, i, e, base);
      ExpectedSplit(bs, i);
    }
  }

  /** `buildVStruct` on a real struct yields exactly one view per bit-field, in
      the bit-fields' order, and only the first of each run of bit-fields
      sharing one real field is flagged `first`. */
  lemma VStructViews(struc: seq<Field>, bs: seq<BitField>)
    requires NoViews(struc)
    requires VStruct(struc, BitFields(bs)).Ok?
    ensures Views(VStruct(struc, BitFields(bs)).value) == ExpectedViews(bs, 0)
  {
    BuildFromViews(struc, bs, 0, 0);
  }

  /** The real (non-view) fields of a field list, in order. */
  function Plains(fs: seq<Field>): seq<Field> {
    if fs == [] then []
    else (if fs[0].typ.Bf? then [] else [fs[0]]) + Plains(fs[1..])
  }

  /** The fields of `fs` from index `lo` on whose index is not in `drop`, in order. */
  function Omit(fs: seq<Field>, drop: set<nat>, lo: nat): seq<Field>
    requires lo <= |fs|
    decreases |fs| - lo
  {
    if lo == |fs| then []
    else (if lo in drop then [] else [fs[lo]]) + Omit(fs, drop, lo + 1)
  }

  /** The indices of the real fields that store the runs of `bs[i..]`: for each
      run, the first field at or after the previous one named by the run. */
  ghost function StorageIdx(fs: seq<Field>, bs: seq<BitField>, i: nat, from: nat): (s: set<nat>)
    requires i <= |bs| && from <= |fs|
    ensures forall j :: j in s ==> from <= j < |fs|
    decreases |bs| - i
  {
    if i == |bs| then {}
    else
      match FieldIndex(fs, bs[i].fldName, from)
      case None => {}
      case Some(idx) => {idx} + StorageIdx(fs, bs, RunEnd(bs, i, bs[i].fldName), idx + 1)
  }

  lemma {:induction false} PlainsAppend(a: seq<Field>, b: seq<Field>)
    ensures Plains(a + b) == Plains(a) + Plains(b)
    decreases |a|
  {
    if a != [] {
      assert (a + b)[1..] == a[1..] + b;
      PlainsAppend(a[1..], b);
    } else {
      assert a + b == b;
    }
  }

  /** A list of views has no real fields. */
  lemma {:induction false} PlainsOfViews(fs: seq<Field>)
    requires forall k :: 0 <= k < |fs| ==> fs[k].typ.Bf?
    ensures Plains(fs) == []
    decreases |fs|
  {
    if fs != [] {
      PlainsOfViews(fs[1..]);
    }
  }

  /** The real fields of a real struct in which some fields are replaced by
      views are the fields that were not replaced, in order. */
  lemma {:induction false} PlainsOfReplace(fs: seq<Field>, m: map<nat, seq<Field>>, lo: nat)
    requires lo <= |fs| && NoViews(fs)
    requires forall j, k :: j in m && 0 <= k < |m[j]| ==> m[j][k].typ.Bf?
    ensures Plains(Replace(fs, m, lo)) == Omit(fs, m.Keys, lo)
    decreases |fs| - lo
  {
    if lo < |fs| {
      var piece := if lo in m then m[lo] else [fs[lo]];
      PlainsOfReplace(fs, m, lo + 1);
      PlainsAppend(piece, Replace(fs, m, lo + 1));
      if lo in m {
        PlainsOfViews(m[lo]);
      } else {
        assert [fs[lo]][1..] == [];
      }
    }
  }

  lemma StorageIdxStep(fs: seq<Field>, bs: seq<BitField>, i: nat, from: nat, idx: nat)
    requires i < |bs| && from <= |fs|
    requires FieldIndex(fs, bs[i].fldName, from) == Some(idx)
    ensures StorageIdx(fs, bs, i, from) == {idx} + StorageIdx(fs, bs, RunEnd(bs, i, bs[i].fldName), idx + 1)
  {
  }

  lemma BuildFromPlains(fs: seq<Field>, bs: seq<BitField>, i: nat, from: nat)
    requires i <= |bs| && from <= |fs| && NoViews(fs)
    requires BuildFrom(fs, bs, i, from).Ok?
    ensures Plains(BuildFrom(fs, bs, i, from).value) == Omit(fs, StorageIdx(fs, bs, i, from), from)
  {
    BuildFromPlaced(fs, bs, i, from);
    StorageViewsKeys(fs, bs, i, from);
    PlainsOfReplace(fs, StorageViews(fs, bs, i, from), from);
  }

  /** The real fields of the view of a real struct are the struct's fields, in
      order, less the field that stores each run of bit-fields. */
  lemma VStructPlains(struc: seq<Field>, bs: seq<BitField>)
    requires NoViews(struc)
    requires VStruct(struc, BitFields(bs)).Ok?
    ensures Plains(VStruct(struc, BitFields(bs)).value) == Omit(struc, StorageIdx(struc, bs, 0, 0), 0)
  {
    BuildFromPlains(struc, bs, 0, 0);
  }

  // ---------------------------------------------------------------------------
  // Where the views sit

  /** The fields of `fs` from index `lo` on, each field whose index is a key of
      `repl` replaced by the fields `repl` maps it to. */
  function Replace(fs: seq<Field>, repl: map<nat, seq<Field>>, lo: nat): seq<Field>
    requires lo <= |fs|
    decreases |fs| - lo
  {
    if lo == |fs| then []
    else (if lo in repl then repl[lo] else [fs[lo]]) + Replace(fs, repl, lo + 1)
  }

  /** The views of the run `bs[i..e]`, all stored in a field of type `base`. */
  function RunFields(bs: seq<BitField>, i: nat, e: nat, base: Ty): (r: seq<Field>)
    requires i < e <= |bs|
    ensures |r| == e - i
    ensures forall k :: 0 <= k < |r| ==> r[k] == SubField(bs[i + k], base, k == 0)
  {
    [SubField(bs[i], base, true)] + Subs(bs, i + 1, e, base)
  }

  /** For each run of `bs[i..]`, the index of the real field that stores it,
      mapped to the run's views. */
  ghost function StorageViews(fs: seq<Field>, bs: seq<BitField>, i: nat, from: nat): (m: map<nat, seq<Field>>)
    requires i <= |bs| && from <= |fs|
    ensures forall j :: j in m ==> from <= j < |fs| && |m[j]| > 0
    ensures forall j, k :: j in m && 0 <= k < |m[j]| ==>
              && m[j][k].typ.Bf? && m[j][k].name == m[j][k].typ.bf.name
              && m[j][k].typ.base == fs[j].typ && (m[j][k].typ.first <==> k == 0)
    decreases |bs| - i
  {
    if i == |bs| then map[]
    else
      match FieldIndex(fs, bs[i].fldName, from)
      case None => map[]
      case Some(idx) =>
        var e := RunEnd(bs, i, bs[i].fldName);
        StorageViews(fs, bs, e, idx + 1)[idx := RunFields(bs, i, e, fs[idx].typ)]
  }

  lemma StorageViewsStep(fs: seq<Field>, bs: seq<BitField>, i: nat, from: nat, idx: nat)
    requires i < |bs| && from <= |fs|
    requires FieldIndex(fs, bs[i].fldName, from) == Some(idx)
    ensures StorageViews(fs, bs, i, from) ==
              StorageViews(fs, bs, RunEnd(bs, i, bs[i].fldName), idx + 1)
                [idx := RunFields(bs, i, RunEnd(bs, i, bs[i].fldName), fs[idx].typ)]
  {
  }

  /** The fields replaced are exactly those that store a run. */
  lemma {:induction false} StorageViewsKeys(fs: seq<Field>, bs: seq<BitField>, i: nat, from: nat)
    requires i <= |bs| && from <= |fs|
    ensures StorageViews(fs, bs, i, from).Keys == StorageIdx(fs, bs, i, from)
    decreases |bs| - i
  {
    if i < |bs| {
      match FieldIndex(fs, bs[i].fldName, from)
      case None =>
      case Some(idx) =>
        StorageViewsStep(fs, bs, i, from, idx);
        StorageIdxStep(fs, bs, i, from, idx);
        StorageViewsKeys(fs, bs, RunEnd(bs, i, bs[i].fldName), idx + 1);
    }
  }

  /** `Replace` keeps every field of a stretch that replaces nothing. */
  lemma {:induction false} ReplaceKeeps(fs: seq<Field>, repl: map<nat, seq<Field>>, lo: nat, hi: nat)
    requires lo <= hi <= |fs|
    requires forall j :: lo <= j < hi ==> j !in repl
    ensures Replace(fs, repl, lo) == fs[lo..hi] + Replace(fs, repl, hi)
    decreases hi - lo
  {
    var t := Replace(fs, repl, hi);
    if lo < hi {
      ReplaceKeeps(fs, repl, lo + 1, hi);
      assert Replace(fs, repl, lo) == [fs[lo]] + (fs[lo + 1..hi] + t);
      assert fs[lo..hi] == [fs[lo]] + fs[lo + 1..hi];
    } else {
      assert fs[lo..hi] + t == t;
    }
  }

  /** `Replace` depends only on the replacements of the indices it reaches. */
  lemma {:induction false} ReplaceSame(fs: seq<Field>, r1: map<nat, seq<Field>>, r2: map<nat, seq<Field>>, lo: nat)
    requires lo <= |fs|
    requires forall j :: lo <= j < |fs| ==> (j in r1 <==> j in r2)
    requires forall j :: lo <= j < |fs| && j in r1 ==> r1[j] == r2[j]
    ensures Replace(fs, r1, lo) == Replace(fs, r2, lo)
    decreases |fs| - lo
  {
    if lo < |fs| {
      ReplaceSame(fs, r1, r2, lo + 1);
    }
  }

  /** Replacing `idx`, and then only indices past it. */
  lemma ReplaceStep(fs: seq<Field>, later: map<nat, seq<Field>>, from: nat, idx: nat, v: seq<Field>)
    requires from <= idx < |fs|
    requires forall j :: j in later ==> idx < j
    ensures Replace(fs, later[idx := v], from) == fs[from..idx] + (v + Replace(fs, later, idx + 1))
  {
    var m := later[idx := v];
    ReplaceKeeps(fs, m, from, idx);
    ReplaceSame(fs, m, later, idx + 1);
  }

  lemma BuildFromRunStep(fs: seq<Field>, bs: seq<BitField>, i: nat, from: nat, idx: nat)
    requires i < |bs| && from <= |fs|
    requires FieldIndex(fs, bs[i].fldName, from) == Some(idx)
    ensures BuildFrom(fs, bs, i, from) ==
              Prepend(fs[from..idx] + RunFields(bs, i, RunEnd(bs, i, bs[i].fldName), fs[idx].typ),
                      BuildFrom(fs, bs, RunEnd(bs, i, bs[i].fldName), idx + 1))
  {
    BuildFromStep(fs, bs, i, from, idx);
  }

  lemma PrependOk(p: seq<Field>, r: Result<seq<Field>>)
    requires Prepend(p, r).Ok?
    ensures r.Ok? && Prepend(p, r).value == p + r.value
  {
  }

  lemma {:induction false} BuildFromPlaced(fs: seq<Field>, bs: seq<BitField>, i: nat, from: nat)
    requires i <= |bs| && from <= |fs|
    requires BuildFrom(fs, bs, i, from).Ok?
    ensures BuildFrom(fs, bs, i, from).value == Replace(fs, StorageViews(fs, bs, i, from), from)
    decreases |bs| - i
  {
    if i == |bs| {
      ReplaceKeeps(fs, map[], from, |fs|);
    } else {
      var idx := FieldIndex(fs, bs[i].fldName, from).value;
      var e := RunEnd(bs, i, bs[i].fldName);
      var run := RunFields(bs, i, e, fs[idx].typ);
      var rest := BuildFrom(fs, bs, e, idx + 1);
      BuildFromRunStep(fs, bs, i, from, idx);
      PrependOk(fs[from..idx] + run, rest);
      BuildFromPlaced(fs, bs, e, idx + 1);
      StorageViewsStep(fs, bs, i, from, idx);
      ReplaceStep(fs, StorageViews(fs, bs, e, idx + 1), from, idx, run);
      assert (fs[from..idx] + run) + rest.value == fs[from..idx] + (run + rest.value);
    }
  }

  /** The view of a struct is the struct with the field that stores each run
      of bit-fields replaced, in place, by that run's views: each named after
      its bit-field, stored in that field's type, the first one flagged. */
  lemma VStructPlaced(struc: seq<Field>, bs: seq<BitField>)
    requires VStruct(struc, BitFields(bs)).Ok?
    ensures VStruct(struc, BitFields(bs)).value == Replace(struc, StorageViews(struc, bs, 0, 0), 0)
    ensures StorageViews(struc, bs, 0, 0).Keys == StorageIdx(struc, bs, 0, 0)
  {
    BuildFromPlaced(struc, bs, 0, 0);
    StorageViewsKeys(struc, bs, 0, 0);
  }
}
