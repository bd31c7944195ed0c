/** Per-function bookkeeping (`funcCtx`) and the parts of the code builder it
    talks to: label creation and placement, virtual blocks, and the hoisted
    variable definitions (`gox.VarDefs`) of a function. */
module Funcs {
  import opened Wrappers
  import opened Names
  import opened CTypes

  /** A `*gox.Label`; labels are told apart by their names. */
  datatype Label = Label(name: string)

  /** A variable declared through `VarDefs.New`. */
  datatype VarDecl = VarDecl(name: string, typ: Ty)

  /** A scope entry: a real variable, a substitution alias that redirects a C
      name to a hoisted variable (`gox.NewSubstVar`), or anything else. */
  datatype Obj = VarObj(name: string, typ: Ty) | SubstVar(name: string, target: Obj) | OtherObj(name: string)

  /** The code builder, reduced to what the flow and storage code asks of it. */
  class CodeBuilder {
    /** labels made by `NewLabel`, in order */
    var created: seq<Label>
    /** labels bound to a program point by `Label`, in order */
    var placed: seq<Label>
    /** number of virtual blocks (`VBlock`) not yet closed by `End` */
    var vdepth: nat

    constructor ()
      ensures created == [] && placed == [] && vdepth == 0
    {
      created, placed, vdepth := [], [], 0;
    }

    predicate InVBlock()
      reads this
    {
      vdepth > 0
    }

    method NewLabel(name: string) returns (l: Label)
      modifies this
      ensures l == Label(name)
      ensures created == old(created) + [l] && placed == old(placed) && vdepth == old(vdepth)
    {
      l := Label(name);
      created := created + [l];
    }

    method PlaceLabel(l: Label)
      modifies this
      ensures placed == old(placed) + [l] && created == old(created) && vdepth == old(vdepth)
    {
      placed := placed + [l];
    }

    method VBlock()
      modifies this
      ensures vdepth == old(vdepth) + 1
      ensures created == old(created) && placed == old(placed)
    {
      vdepth := vdepth + 1;
    }

    /** Closes the innermost virtual block. */
    method End()
      modifies this
      ensures vdepth == if old(vdepth) > 0 then old(vdepth) - 1 else 0
      ensures created == old(created) && placed == old(placed)
    {
      if vdepth > 0 {
        vdepth := vdepth - 1;
      }
    }
  }

  /** `funcCtx`: the state kept while one C function is translated. */
  class FuncCtx {
    /** source label name to its label, filled on first use */
    var labels: map<string, Label>
    /** whether the function has hoisted-variable definitions (`vdefs != nil`) */
    var complicated: bool
    /** the hoisted variables declared so far, in order */
    var hoisted: seq<VarDecl>
    var basel: nat
    var basev: nat
    /** every label `newLabel` has made, in order */
    ghost var madeLabels: seq<Label>
    /** the C names the hoisted variables were made for, in order */
    ghost var origins: seq<string>

    ghost predicate Valid()
      reads this
    {
      && |madeLabels| == basel
      && (forall i :: 0 <= i < basel ==> madeLabels[i] == Label(LabelName(i + 1)))
      && |hoisted| == |origins|
      && (complicated ==> |hoisted| == basev)
      && (forall i :: 0 <= i < |hoisted| ==> hoisted[i].name == AutoVarName(origins[i], i + 1))
    }

    /** `newFuncCtx`. */
    constructor (complicated: bool)
      ensures Valid()
      ensures labels == map[] && hoisted == [] && basel == 0 && basev == 0
      ensures this.complicated == complicated
    {
      labels := map[];
      this.complicated := complicated;
      hoisted := [];
      basel, basev := 0, 0;
      madeLabels, origins := [], [];
    }

    /** `newLabel`: the next synthetic label `_cgol_<n>`. */
    method NewLabel(cb: CodeBuilder) returns (l: Label)
      requires Valid()
      modifies this, cb
      ensures Valid()
      ensures basel == old(basel) + 1 && l == Label(LabelName(basel))
      ensures madeLabels == old(madeLabels) + [l]
      ensures cb.created == old(cb.created) + [l] && cb.placed == old(cb.placed) && cb.vdepth == old(cb.vdepth)
      ensures labels == old(labels) && hoisted == old(hoisted) && basev == old(basev)
      ensures complicated == old(complicated) && origins == old(origins)
    {
      basel := basel + 1;
      l := cb.NewLabel(LabelName(basel));
      madeLabels := madeLabels + [l];
    }

    /** `label`: a new synthetic label, bound at the current point. */
    method PlaceNewLabel(cb: CodeBuilder) returns (l: Label)
      requires Valid()
      modifies this, cb
      ensures Valid()
      ensures basel == old(basel) + 1 && l == Label(LabelName(basel))
      ensures madeLabels == old(madeLabels) + [l]
      ensures cb.created == old(cb.created) + [l] && cb.placed == old(cb.placed) + [l]
      ensures cb.vdepth == old(cb.vdepth)
      ensures labels == old(labels) && hoisted == old(hoisted) && basev == old(basev)
      ensures complicated == old(complicated) && origins == old(origins)
    {
      l := NewLabel(cb);
      cb.PlaceLabel(l);
    }

    /** `newAutoVar`: a hoisted variable `<name>_cgo<n>` in the function's
        variable definitions. A function without them (`vdefs == nil`) panics,
        after the counter has moved. */
    method NewAutoVar(typ: Ty, name: string) returns (r: Result<(VarDecl, Obj)>)
      requires Valid()
      modifies this
      ensures Valid()
      ensures basev == old(basev) + 1
      ensures r.Panic? <==> !complicated
      ensures r.Ok? ==>
                var renamed := AutoVarName(name, basev);
                && r.value == (VarDecl(renamed, typ), VarObj(renamed, typ))
                && hoisted == old(hoisted) + [r.value.0]
                && origins == old(origins) + [name]
      ensures r.Panic? ==> hoisted == old(hoisted) && origins == old(origins)
      ensures labels == old(labels) && basel == old(basel) && madeLabels == old(madeLabels)
      ensures complicated == old(complicated)
    {
      basev := basev + 1;
      var realName := AutoVarName(name, basev);
      if !complicated {
        return Panic;
      }
      var decl := VarDecl(realName, typ);
      hoisted := hoisted + [decl];
      origins := origins + [name];
      r := Ok((decl, VarObj(realName, typ)));
    }
  }

  /** No two labels made in one function share a name. */
  lemma MadeLabelsDistinct(f: FuncCtx)
    requires f.Valid()
    ensures forall i, j :: 0 <= i < j < |f.madeLabels| ==> f.madeLabels[i].name != f.madeLabels[j].name
  {
    forall i, j | 0 <= i < j < |f.madeLabels|
      ensures f.madeLabels[i].name != f.madeLabels[j].name
    {
      LabelNameInjective(i + 1, j + 1);
    }
  }

  /** No two hoisted variables of one function share a name, even when they
      were made for the same C name. */
  lemma HoistedDistinct(f: FuncCtx)
    requires f.Valid()
    ensures forall i, j :: 0 <= i < j < |f.hoisted| ==> f.hoisted[i].name != f.hoisted[j].name
  {
    forall i, j | 0 <= i < j < |f.hoisted|
      ensures f.hoisted[i].name != f.hoisted[j].name
    {
      AutoVarNameInjective(f.origins[i], i + 1, f.origins[j], j + 1);
    }
  }
}
