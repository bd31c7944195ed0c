/** The flow-context stack (`baseFlowCtx`, `ifCtx`, `switchCtx`, `loopCtx`)
    and the translation state `blockCtx`: entering and leaving flow contexts,
    break/continue target resolution, source labels, variable declaration and
    anonymous struct names. */
module Block {
  import opened Wrappers
  import opened Names
  import opened CTypes
  import opened Funcs

  /** The `flowKind*` bits a plain `baseFlowCtx` carries. */
  const FlowKindIf: bv64 := 1
  const FlowKindSwitch: bv64 := 2
  const FlowKindLoop: bv64 := 4

  /** Which of the four flow-context types a context is; a plain context
      keeps its kind bits. */
  datatype FlowKind = IfFlow | SwitchFlow | LoopFlow | BaseFlow(bits: bv64)

  /** Where a break or continue request ends up: a context that owns the
      target, a nil label, or a call through a nil parent (a Go panic). */
  datatype Target = Owner(ctx: FlowCtx) | NoTarget | Fault

  /** The kinds of context at which the walk of `ContinueLabel` stops: a loop
      context, or a plain context whose kind bits include the loop bit. */
  predicate StopsContinue(k: FlowKind) {
    k.LoopFlow? || (k.BaseFlow? && k.bits & FlowKindLoop != 0)
  }

  /** The kinds of context at which the walk of `EndLabel` stops: an if,
      switch or loop context, or a plain context whose kind bits include the
      loop or the switch bit. */
  predicate StopsEnd(k: FlowKind) {
    !k.BaseFlow? || k.bits & (FlowKindLoop | FlowKindSwitch) != 0
  }

  /** One flow context. Its kind and parent never change; the labels are
      filled in lazily. */
  class FlowCtx {
    const kind: FlowKind
    const parent: FlowCtx?
    ghost const depth: nat
    /** end label (break target, or the join label of an if) */
    var done: Option<Label>
    /** switch: label of the next case */
    var next: Option<Label>
    /** switch: label of `default:` */
    var defau: Option<Label>
    /** loop: label at the continue point */
    var start: Option<Label>

    /** The parent chain is finite: depth decreases towards the root. */
    ghost predicate Linked()
      decreases depth
    {
      parent != null ==> parent.depth < depth && parent.Linked()
    }

    /** This context and all its ancestors. */
    ghost function Line(): (s: set<FlowCtx>)
      requires Linked()
      ensures this in s
      ensures forall x :: x in s ==> x.depth <= depth
      ensures parent != null ==> s == {this} + parent.Line() && this !in parent.Line()
      decreases depth
    {
      {this} + (if parent == null then {} else parent.Line())
    }

    constructor (kind: FlowKind, parent: FlowCtx?)
      requires parent != null ==> parent.Linked()
      ensures Linked()
      ensures this.kind == kind && this.parent == parent
      ensures done == None && next == None && defau == None && start == None
    {
      this.kind := kind;
      this.parent := parent;
      depth := if parent == null then 0 else parent.depth + 1;
      done, next, defau, start := None, None, None, None;
    }

    /** The context whose end label `EndLabel` returns. An if, switch or loop
        context owns its own end label; a plain context of loop or switch kind
        answers nil, any other plain context asks its parent. */
    ghost function EndOwner(): (t: Target)
      requires Linked()
      ensures t.Owner? ==> t.ctx in Line() && !t.ctx.kind.BaseFlow?
      ensures t.Owner? ==> forall x :: x in Line() && x.depth > t.ctx.depth ==> !StopsEnd(x.kind)
      ensures t.Fault? <==> forall x :: x in Line() ==> !StopsEnd(x.kind)
      decreases depth
    {
      match kind
      case BaseFlow(bits) =>
        if bits & (FlowKindLoop | FlowKindSwitch) != 0 then NoTarget
        else if parent == null then Fault
        else parent.EndOwner()
      case _ => Owner(this)
    }

    /** `ContinueLabel`, for all four context types. */
    function ContinueLabel(): Result<Option<Label>>
      reads Line()
      requires Linked()
      decreases depth
    {
      match kind
      case LoopFlow => Ok(start)
      case BaseFlow(bits) =>
        if bits & FlowKindLoop != 0 then Ok(None)
        else if parent == null then Panic
        else parent.ContinueLabel()
      case _ => if parent == null then Panic else parent.ContinueLabel()
    }

    /** The objects `EndLabel` may update: its owner, if any. */
    ghost function Owned(): set<FlowCtx>
      requires Linked()
    {
      if EndOwner().Owner? then {EndOwner().ctx} else {}
    }

    /** `EndLabel`, for all four context types: lazy on the owning context. */
    method EndLabel(ctx: BlockCtx) returns (r: Result<Option<Label>>)
      requires Linked()
      requires ctx.curfn != null ==> ctx.curfn.Valid()
      modifies Owned(), ctx.curfn, ctx.cb
      ensures ctx.curfn != null ==> ctx.curfn.Valid()
      ensures EndOwner().Fault? ==> r.Panic?
      ensures EndOwner().NoTarget? ==> r == Ok(None)
      ensures EndOwner().Owner? ==>
                var o := EndOwner().ctx;
                && o.start == old(o.start) && o.next == old(o.next) && o.defau == old(o.defau)
                && (old(o.done).Some? ==> r == Ok(old(o.done)) && o.done == old(o.done))
                && (old(o.done).None? && ctx.curfn == null ==> r.Panic? && o.done == None)
                && (old(o.done).None? && ctx.curfn != null ==>
                      && ctx.curfn.basel == old(ctx.curfn.basel) + 1
                      && r == Ok(Some(Label(LabelName(ctx.curfn.basel))))
                      && o.done == r.value
                      && ctx.cb.created == old(ctx.cb.created) + [r.value.value])
      ensures !(EndOwner().Owner? && old(EndOwner().ctx.done).None?) && ctx.curfn != null ==>
                && ctx.curfn.basel == old(ctx.curfn.basel) && ctx.cb.created == old(ctx.cb.created)
                && ctx.curfn.madeLabels == old(ctx.curfn.madeLabels)
      ensures EndOwner().Owner? && old(EndOwner().ctx.done).None? && ctx.curfn != null ==>
                r.Ok? && r.value.Some? && ctx.curfn.madeLabels == old(ctx.curfn.madeLabels) + [r.value.value]
      ensures ctx.curfn != null ==>
                && ctx.curfn.labels == old(ctx.curfn.labels) && ctx.curfn.hoisted == old(ctx.curfn.hoisted)
                && ctx.curfn.origins == old(ctx.curfn.origins) && ctx.curfn.basev == old(ctx.curfn.basev)
                && ctx.curfn.complicated == old(ctx.curfn.complicated)
      ensures ctx.curfn == null ==> ctx.cb.created == old(ctx.cb.created)
      ensures ctx.cb.placed == old(ctx.cb.placed) && ctx.cb.vdepth == old(ctx.cb.vdepth)
      decreases depth
    {
      if kind.BaseFlow? {
        if kind.bits & (FlowKindLoop | FlowKindSwitch) != 0 {
          return Ok(None);
        }
        if parent == null {
          return Panic;
        }
        r := parent.EndLabel(ctx);
      } else {
        r := OwnEndLabel(ctx);
      }
    }

    /** The end label of an if, switch or loop context, made on first use. */
    method OwnEndLabel(ctx: BlockCtx) returns (r: Result<Option<Label>>)
      requires ctx.curfn != null ==> ctx.curfn.Valid()
      modifies this, ctx.curfn, ctx.cb
      ensures ctx.curfn != null ==> ctx.curfn.Valid()
      ensures start == old(start) && next == old(next) && defau == old(defau)
      ensures old(done).Some? ==> r == Ok(old(done)) && done == old(done)
      ensures old(done).None? && ctx.curfn == null ==> r.Panic? && done == None
      ensures old(done).None? && ctx.curfn != null ==>
                && ctx.curfn.basel == old(ctx.curfn.basel) + 1
                && r == Ok(Some(Label(LabelName(ctx.curfn.basel))))
                && done == r.value
                && ctx.cb.created == old(ctx.cb.created) + [r.value.value]
      ensures old(done).Some? && ctx.curfn != null ==>
                && ctx.curfn.basel == old(ctx.curfn.basel) && ctx.cb.created == old(ctx.cb.created)
                && ctx.curfn.madeLabels == old(ctx.curfn.madeLabels)
      ensures old(done).None? && ctx.curfn != null ==>
                r.Ok? && r.value.Some? && ctx.curfn.madeLabels == old(ctx.curfn.madeLabels) + [r.value.value]
      ensures ctx.curfn != null ==>
                && ctx.curfn.labels == old(ctx.curfn.labels) && ctx.curfn.hoisted == old(ctx.curfn.hoisted)
                && ctx.curfn.origins == old(ctx.curfn.origins) && ctx.curfn.basev == old(ctx.curfn.basev)
                && ctx.curfn.complicated == old(ctx.curfn.complicated)
      ensures ctx.curfn == null ==> ctx.cb.created == old(ctx.cb.created)
      ensures ctx.cb.placed == old(ctx.cb.placed) && ctx.cb.vdepth == old(ctx.cb.vdepth)
    {
      if done.None? {
        var fn := ctx.curfn;
        if fn == null {
          return Panic;
        }
        var l := fn.NewLabel(ctx.cb);
        done := Some(l);
      }
      r := Ok(done);
    }

    /** `switchCtx.nextCaseLabel`: a fresh label for the next case. */
    method NextCaseLabel(ctx: BlockCtx) returns (r: Result<Label>)
      requires kind.SwitchFlow?
      requires ctx.curfn != null ==> ctx.curfn.Valid()
      modifies this, ctx.curfn, ctx.cb
      ensures ctx.curfn == null <==> r.Panic?
      ensures r.Ok? ==> r.value == Label(LabelName(ctx.curfn.basel)) && next == Some(r.value)
      ensures r.Ok? ==> ctx.cb.created == old(ctx.cb.created) + [r.value] && ctx.cb.placed == old(ctx.cb.placed)
      ensures r.Ok? ==> ctx.curfn.Valid() && ctx.curfn.basel == old(ctx.curfn.basel) + 1
      ensures done == old(done) && defau == old(defau) && start == old(start)
      ensures ctx.curfn != null ==>
                && ctx.curfn.labels == old(ctx.curfn.labels) && ctx.curfn.hoisted == old(ctx.curfn.hoisted)
                && ctx.curfn.origins == old(ctx.curfn.origins) && ctx.curfn.basev == old(ctx.curfn.basev)
                && ctx.curfn.complicated == old(ctx.curfn.complicated)
      ensures r.Ok? ==> ctx.curfn.madeLabels == old(ctx.curfn.madeLabels) + [r.value]
      ensures r.Panic? ==> ctx.cb.created == old(ctx.cb.created) && ctx.cb.placed == old(ctx.cb.placed)
      ensures ctx.cb.vdepth == old(ctx.cb.vdepth)
    {
      if ctx.curfn == null {
        return Panic;
      }
      var l := ctx.curfn.NewLabel(ctx.cb);
      next := Some(l);
      r := Ok(l);
    }

    /** `switchCtx.labelDefault`: binds a fresh label here for `default:`. */
    method LabelDefault(ctx: BlockCtx) returns (r: Result<Label>)
      requires kind.SwitchFlow?
      requires ctx.curfn != null ==> ctx.curfn.Valid()
      modifies this, ctx.curfn, ctx.cb
      ensures ctx.curfn == null <==> r.Panic?
      ensures r.Ok? ==> r.value == Label(LabelName(ctx.curfn.basel)) && defau == Some(r.value)
      ensures r.Ok? ==> ctx.cb.created == old(ctx.cb.created) + [r.value] && ctx.cb.placed == old(ctx.cb.placed) + [r.value]
      ensures r.Ok? ==> ctx.curfn.Valid() && ctx.curfn.basel == old(ctx.curfn.basel) + 1
      ensures done == old(done) && next == old(next) && start == old(start)
      ensures ctx.curfn != null ==>
                && ctx.curfn.labels == old(ctx.curfn.labels) && ctx.curfn.hoisted == old(ctx.curfn.hoisted)
                && ctx.curfn.origins == old(ctx.curfn.origins) && ctx.curfn.basev == old(ctx.curfn.basev)
                && ctx.curfn.complicated == old(ctx.curfn.complicated)
      ensures r.Ok? ==> ctx.curfn.madeLabels == old(ctx.curfn.madeLabels) + [r.value]
      ensures r.Panic? ==> ctx.cb.created == old(ctx.cb.created) && ctx.cb.placed == old(ctx.cb.placed)
      ensures ctx.cb.vdepth == old(ctx.cb.vdepth)
    {
      if ctx.curfn == null {
        return Panic;
      }
      var l := ctx.curfn.PlaceNewLabel(ctx.cb);
      defau := Some(l);
      r := Ok(l);
    }

    /** `ifCtx.elseLabel`: a fresh label, not remembered by the context. */
    method ElseLabel(ctx: BlockCtx) returns (r: Result<Label>)
      requires kind.IfFlow?
      requires ctx.curfn != null ==> ctx.curfn.Valid()
      modifies ctx.curfn, ctx.cb
      ensures ctx.curfn == null <==> r.Panic?
      ensures r.Ok? ==> r.value == Label(LabelName(ctx.curfn.basel))
      ensures r.Ok? ==> ctx.cb.created == old(ctx.cb.created) + [r.value] && ctx.cb.placed == old(ctx.cb.placed)
      ensures r.Ok? ==> ctx.curfn.Valid() && ctx.curfn.basel == old(ctx.curfn.basel) + 1
      ensures ctx.curfn != null ==>
                && ctx.curfn.labels == old(ctx.curfn.labels) && ctx.curfn.hoisted == old(ctx.curfn.hoisted)
                && ctx.curfn.origins == old(ctx.curfn.origins) && ctx.curfn.basev == old(ctx.curfn.basev)
                && ctx.curfn.complicated == old(ctx.curfn.complicated)
      ensures r.Ok? ==> ctx.curfn.madeLabels == old(ctx.curfn.madeLabels) + [r.value]
      ensures r.Panic? ==> ctx.cb.created == old(ctx.cb.created) && ctx.cb.placed == old(ctx.cb.placed)
      ensures ctx.cb.vdepth == old(ctx.cb.vdepth)
    {
      if ctx.curfn == null {
        return Panic;
      }
      var l := ctx.curfn.NewLabel(ctx.cb);
      r := Ok(l);
    }

    /** `loopCtx.labelStart`: binds a fresh label here as the continue point. */
    method LabelStart(ctx: BlockCtx) returns (r: Result<Label>)
      requires kind.LoopFlow?
      requires ctx.curfn != null ==> ctx.curfn.Valid()
      modifies this, ctx.curfn, ctx.cb
      ensures ctx.curfn == null <==> r.Panic?
      ensures r.Ok? ==> r.value == Label(LabelName(ctx.curfn.basel)) && start == Some(r.value)
      ensures r.Ok? ==> ctx.cb.created == old(ctx.cb.created) + [r.value] && ctx.cb.placed == old(ctx.cb.placed) + [r.value]
      ensures r.Ok? ==> ctx.curfn.Valid() && ctx.curfn.basel == old(ctx.curfn.basel) + 1
      ensures done == old(done) && next == old(next) && defau == old(defau)
      ensures ctx.curfn != null ==>
                && ctx.curfn.labels == old(ctx.curfn.labels) && ctx.curfn.hoisted == old(ctx.curfn.hoisted)
                && ctx.curfn.origins == old(ctx.curfn.origins) && ctx.curfn.basev == old(ctx.curfn.basev)
                && ctx.curfn.complicated == old(ctx.curfn.complicated)
      ensures r.Ok? ==> ctx.curfn.madeLabels == old(ctx.curfn.madeLabels) + [r.value]
      ensures r.Panic? ==> ctx.cb.created == old(ctx.cb.created) && ctx.cb.placed == old(ctx.cb.placed)
      ensures ctx.cb.vdepth == old(ctx.cb.vdepth)
    {
      if ctx.curfn == null {
        return Panic;
      }
      var l := ctx.curfn.PlaceNewLabel(ctx.cb);
      start := Some(l);
      r := Ok(l);
    }
  }

  /** Whatever the chain looks like, `EndLabel` is decided by the nearest
      context `x` at which its walk stops: an if, switch or loop context owns
      the end label, a plain context with the loop or switch bit answers nil. */
  lemma {:induction false} EndOwnerNearest(f: FlowCtx, x: FlowCtx)
    requires f.Linked()
    requires x in f.Line() && StopsEnd(x.kind)
    requires forall y :: y in f.Line() && y.depth > x.depth ==> !StopsEnd(y.kind)
    ensures f.EndOwner() == if x.kind.BaseFlow? then NoTarget else Owner(x)
    decreases f.depth
  {
    if x != f {
      assert x in f.parent.Line();
      EndOwnerNearest(f.parent, x);
    }
  }

  /** Whatever the chain looks like, `ContinueLabel` answers for the nearest
      context `x` at which the walk stops: the start label of a loop, nil for
      a plain context with the loop bit. */
  lemma {:induction false} ContinueLabelNearest(f: FlowCtx, x: FlowCtx)
    requires f.Linked()
    requires x in f.Line() && StopsContinue(x.kind)
    requires forall y :: y in f.Line() && y.depth > x.depth ==> !StopsContinue(y.kind)
    ensures f.ContinueLabel() == if x.kind.LoopFlow? then Ok(x.start) else Ok(None)
    decreases f.depth
  {
    if x != f {
      assert x in f.parent.Line();
      ContinueLabelNearest(f.parent, x);
    }
  }

  /** `ContinueLabel` panics exactly when no context on the chain stops the walk. */
  lemma {:induction false} ContinueLabelPanics(f: FlowCtx)
    requires f.Linked()
    ensures f.ContinueLabel().Panic? <==> forall x :: x in f.Line() ==> !StopsContinue(x.kind)
    decreases f.depth
  {
    if f.parent != null {
      ContinueLabelPanics(f.parent);
    }
  }

  /** The nearest switch context on the parent chain of `f`, or null. */
  ghost function NearestSwitch(f: FlowCtx?): (sw: FlowCtx?)
    requires f != null ==> f.Linked()
    ensures sw != null ==> f != null && sw in f.Line() && sw.kind.SwitchFlow?
    ensures sw != null ==> forall x :: x in f.Line() && x.depth > sw.depth ==> !x.kind.SwitchFlow?
    ensures sw == null && f != null ==> forall x :: x in f.Line() ==> !x.kind.SwitchFlow?
    decreases if f == null then 0 else f.depth + 1
  {
    if f == null then null
    else if f.kind.SwitchFlow? then f
    else NearestSwitch(f.parent)
  }

  /** A scope's name table (`types.Scope`). */
  class Scope {
    var objs: map<string, Obj>

    constructor (objs: map<string, Obj>)
      ensures this.objs == objs
    {
      this.objs := objs;
    }
  }

  const SuNormal := 0
  const SuAnonymous := 1

  /** `blockCtx`: the translation state shared by statements and expressions. */
  class BlockCtx {
    const cb: CodeBuilder
    /** the package scope */
    const global: Scope
    var curfn: FuncCtx?
    var curflow: FlowCtx?
    /** global variables declared through `newVar`, by name */
    var gblvars: map<string, VarDecl>
    /** counter of anonymous structs and unions */
    var base: nat

    ghost predicate Valid()
      reads this, curfn, global
    {
      && (curflow != null ==> curflow.Linked())
      && (curfn != null ==> curfn.Valid())
      && (forall n :: n in gblvars ==> n in global.objs && global.objs[n] == VarObj(n, gblvars[n].typ))
    }

    constructor (cb: CodeBuilder, global: Scope)
      ensures Valid()
      ensures this.cb == cb && this.global == global
      ensures curfn == null && curflow == null && gblvars == map[] && base == 0
    {
      this.cb := cb;
      this.global := global;
      curfn, curflow := null, null;
      gblvars, base := map[], 0;
    }

    /** Pushes a new context of the given kind on top of `curflow`. */
    method Push(kind: FlowKind) returns (f: FlowCtx)
      requires Valid()
      modifies this
      ensures Valid()
      ensures fresh(f) && f.kind == kind && f.parent == old(curflow) && curflow == f
      ensures f.done == None && f.next == None && f.defau == None && f.start == None
      ensures curfn == old(curfn) && gblvars == old(gblvars) && base == old(base)
    {
      f := new FlowCtx(kind, curflow);
      curflow := f;
    }

    /** `enterIf`. */
    method EnterIf() returns (f: FlowCtx)
      requires Valid()
      modifies this, cb
      ensures Valid()
      ensures fresh(f) && f.kind == IfFlow && f.parent == old(curflow) && curflow == f
      ensures f.done == None
      ensures f.ContinueLabel() == if f.parent == null then Panic else f.parent.ContinueLabel()
      ensures cb.vdepth == old(cb.vdepth) + 1 && cb.created == old(cb.created) && cb.placed == old(cb.placed)
      ensures curfn == old(curfn) && gblvars == old(gblvars) && base == old(base)
    {
      f := Push(IfFlow);
      cb.VBlock();
    }

    /** `enterSwitch`. */
    method EnterSwitch() returns (f: FlowCtx)
      requires Valid()
      modifies this, cb
      ensures Valid()
      ensures fresh(f) && f.kind == SwitchFlow && f.parent == old(curflow) && curflow == f
      ensures f.done == None && f.next == None && f.defau == None
      ensures f.ContinueLabel() == if f.parent == null then Panic else f.parent.ContinueLabel()
      ensures cb.vdepth == old(cb.vdepth) + 1 && cb.created == old(cb.created) && cb.placed == old(cb.placed)
      ensures curfn == old(curfn) && gblvars == old(gblvars) && base == old(base)
    {
      f := Push(SwitchFlow);
      cb.VBlock();
    }

    /** `enterLoop`. */
    method EnterLoop() returns (f: FlowCtx)
      requires Valid()
      modifies this, cb
      ensures Valid()
      ensures fresh(f) && f.kind == LoopFlow && f.parent == old(curflow) && curflow == f
      ensures f.done == None && f.start == None
      ensures f.ContinueLabel() == Ok(None)
      ensures cb.vdepth == old(cb.vdepth) + 1 && cb.created == old(cb.created) && cb.placed == old(cb.placed)
      ensures curfn == old(curfn) && gblvars == old(gblvars) && base == old(base)
    {
      f := Push(LoopFlow);
      cb.VBlock();
    }

    /** `enterFlow`: a plain context, without a virtual block. */
    method EnterFlow(bits: bv64) returns (f: FlowCtx)
      requires Valid()
      modifies this
      ensures Valid()
      ensures fresh(f) && f.kind == BaseFlow(bits) && f.parent == old(curflow) && curflow == f
      ensures bits & FlowKindLoop != 0 ==> f.ContinueLabel() == Ok(None)
      ensures bits & FlowKindLoop == 0 ==>
                f.ContinueLabel() == if f.parent == null then Panic else f.parent.ContinueLabel()
      ensures curfn == old(curfn) && gblvars == old(gblvars) && base == old(base)
    {
      f := Push(BaseFlow(bits));
    }

    /** `leave`: the parent of `cur` becomes current; the virtual block is
        closed unless `cur` is a plain context. */
    method Leave(cur: FlowCtx)
      requires Valid() && cur.Linked()
      modifies this, cb
      ensures Valid()
      ensures curflow == cur.parent
      ensures cb.vdepth == if cur.kind.BaseFlow? || old(cb.vdepth) == 0 then old(cb.vdepth) else old(cb.vdepth) - 1
      ensures cb.created == old(cb.created) && cb.placed == old(cb.placed)
      ensures curfn == old(curfn) && gblvars == old(gblvars) && base == old(base)
    {
      if !cur.kind.BaseFlow? {
        cb.End();
      }
      curflow := cur.parent;
    }

    /** `getSwitchCtx`: walks the parent chain from `curflow`. */
    method GetSwitchCtx() returns (sw: FlowCtx?)
      requires Valid()
      ensures sw == NearestSwitch(curflow)
      ensures sw != null ==> curflow != null && sw in curflow.Line() && sw.kind.SwitchFlow?
      ensures sw != null ==> forall x :: x in curflow.Line() && x.depth > sw.depth ==> !x.kind.SwitchFlow?
      ensures sw == null && curflow != null ==> forall x :: x in curflow.Line() ==> !x.kind.SwitchFlow?
    {
      var f := curflow;
      while f != null
        invariant f != null ==> f.Linked()
        invariant NearestSwitch(curflow) == NearestSwitch(f)
        decreases if f == null then 0 else f.depth + 1
      {
        if f.kind.SwitchFlow? {
          return f;
        }
        f := f.parent;
      }
      return null;
    }

    /** `getLabel`: the label of a C source label, made on first use and
        remembered for the rest of the function. */
    method GetLabel(name: string) returns (r: Result<Label>)
      requires Valid()
      modifies curfn, cb
      ensures Valid()
      ensures r.Panic? <==> curfn == null
      ensures curfn != null && name in old(curfn.labels) ==>
                r == Ok(old(curfn.labels[name])) && curfn.labels == old(curfn.labels) &&
                cb.created == old(cb.created)
      ensures curfn != null && name !in old(curfn.labels) ==>
                r == Ok(Label(name)) && curfn.labels == old(curfn.labels)[name := Label(name)] &&
                cb.created == old(cb.created) + [Label(name)]
      ensures curfn != null ==> curfn.basel == old(curfn.basel) && curfn.basev == old(curfn.basev)
      ensures curfn != null ==>
                && curfn.hoisted == old(curfn.hoisted) && curfn.complicated == old(curfn.complicated)
                && curfn.origins == old(curfn.origins) && curfn.madeLabels == old(curfn.madeLabels)
      ensures cb.placed == old(cb.placed) && cb.vdepth == old(cb.vdepth)
    {
      var fn := curfn;
      if fn == null {
        return Panic;
      }
      if name in fn.labels {
        return Ok(fn.labels[name]);
      }
      var l := cb.NewLabel(name);
      fn.labels := fn.labels[name := l];
      return Ok(l);
    }

    /** `newVar`. Inside a virtual block the variable is hoisted under a new
        name and the C name becomes an alias for it in `scope`. Elsewhere it
        is declared as it is; a global replaces an earlier global of the same
        name. `VarDefs.New` refuses a name the scope already has. */
    method NewVar(scope: Scope, typ: Ty, name: string) returns (r: Result<(VarDecl, bool)>)
      requires Valid()
      modifies this, scope, global, curfn
      ensures Valid()
      ensures curfn == old(curfn) && curflow == old(curflow) && base == old(base)
      // inside a virtual block
      ensures cb.InVBlock() && (curfn == null || !curfn.complicated) ==> r.Panic?
      ensures cb.InVBlock() && curfn != null && curfn.complicated ==>
                var renamed := AutoVarName(name, curfn.basev);
                && curfn.basev == old(curfn.basev) + 1
                && (r.Ok? <==> name !in old(scope.objs))
                && (r.Ok? ==> r.value == (VarDecl(renamed, typ), true))
                && (r.Ok? ==> scope.objs == old(scope.objs)[name := SubstVar(name, VarObj(renamed, typ))])
                && curfn.hoisted == old(curfn.hoisted) + [VarDecl(renamed, typ)]
                && curfn.origins == old(curfn.origins) + [name]
                && gblvars == old(gblvars)
      ensures cb.InVBlock() && scope != global ==> global.objs == old(global.objs)
      // a global
      ensures !cb.InVBlock() && scope == global ==>
                && (r.Ok? <==> name !in old(global.objs) || name in old(gblvars))
                && (r.Ok? ==> r.value == (VarDecl(name, typ), false))
                && (r.Ok? ==> global.objs == old(global.objs)[name := VarObj(name, typ)])
                && (r.Ok? ==> gblvars == old(gblvars)[name := VarDecl(name, typ)])
      // any other scope
      ensures !cb.InVBlock() && scope != global ==>
                && (r.Ok? <==> name !in old(scope.objs))
                && (r.Ok? ==> r.value == (VarDecl(name, typ), false))
                && (r.Ok? ==> scope.objs == old(scope.objs)[name := VarObj(name, typ)])
                && global.objs == old(global.objs) && gblvars == old(gblvars)
      ensures !cb.InVBlock() && curfn != null ==>
                && curfn.hoisted == old(curfn.hoisted) && curfn.basev == old(curfn.basev)
                && curfn.origins == old(curfn.origins)
      ensures curfn != null ==>
                && curfn.labels == old(curfn.labels) && curfn.basel == old(curfn.basel)
                && curfn.madeLabels == old(curfn.madeLabels) && curfn.complicated == old(curfn.complicated)
    {
      if cb.InVBlock() {
        r := HoistVar(scope, typ, name);
      } else {
        r := DeclareVar(scope, typ, name);
      }
    }

    /** `newVar` inside a virtual block. */
    method HoistVar(scope: Scope, typ: Ty, name: string) returns (r: Result<(VarDecl, bool)>)
      requires Valid() && cb.InVBlock()
      modifies scope, curfn
      ensures Valid()
      ensures curfn == null || !curfn.complicated ==> r.Panic?
      ensures curfn != null && curfn.complicated ==>
                var renamed := AutoVarName(name, curfn.basev);
                && curfn.basev == old(curfn.basev) + 1
                && (r.Ok? <==> name !in old(scope.objs))
                && (r.Ok? ==> r.value == (VarDecl(renamed, typ), true))
                && (r.Ok? ==> scope.objs == old(scope.objs)[name := SubstVar(name, VarObj(renamed, typ))])
                && curfn.hoisted == old(curfn.hoisted) + [VarDecl(renamed, typ)]
                && curfn.origins == old(curfn.origins) + [name]
      ensures curfn != null && !curfn.complicated ==>
                curfn.hoisted == old(curfn.hoisted) && curfn.origins == old(curfn.origins)
      ensures curfn != null ==>
                && curfn.labels == old(curfn.labels) && curfn.basel == old(curfn.basel)
                && curfn.madeLabels == old(curfn.madeLabels) && curfn.complicated == old(curfn.complicated)
      ensures scope != global ==> global.objs == old(global.objs)
    {
      var fn := curfn;
      if fn == null {
        return Panic;
      }
      var res := fn.NewAutoVar(typ, name);
      if res.Panic? {
        return Panic;
      }
      var (decl, obj) := res.value;
      if name in scope.objs {
        return Panic;
      }
      scope.objs := scope.objs[name := SubstVar(name, obj)];
      return Ok((decl, true));
    }

    /** `newVar` outside virtual blocks. */
    method DeclareVar(scope: Scope, typ: Ty, name: string) returns (r: Result<(VarDecl, bool)>)
      requires Valid() && !cb.InVBlock()
      modifies this`gblvars, scope, global
      ensures Valid()
      ensures scope == global ==>
                && (r.Ok? <==> name !in old(global.objs) || name in old(gblvars))
                && (r.Ok? ==> r.value == (VarDecl(name, typ), false))
                && (r.Ok? ==> global.objs == old(global.objs)[name := VarObj(name, typ)])
                && (r.Ok? ==> gblvars == old(gblvars)[name := VarDecl(name, typ)])
      ensures scope != global ==>
                && (r.Ok? <==> name !in old(scope.objs))
                && (r.Ok? ==> r.value == (VarDecl(name, typ), false))
                && (r.Ok? ==> scope.objs == old(scope.objs)[name := VarObj(name, typ)])
                && global.objs == old(global.objs) && gblvars == old(gblvars)
    {
      var inGlobal := scope == global;
      if inGlobal && name in gblvars {
        global.objs := global.objs - {name};
        gblvars := gblvars - {name};
      }
      if name in scope.objs {
        return Panic;
      }
      var decl := VarDecl(name, typ);
      scope.objs := scope.objs[name := VarObj(name, typ)];
      if inGlobal {
        gblvars := gblvars[name := decl];
      }
      return Ok((decl, false));
    }

    /** `getSuName`: a named struct/union keeps its mangled name, an anonymous
        one gets the next `_cgoa_<n>`. */
    method GetSuName(name: string, tag: string, mangle: (string, string) -> string) returns (r: (string, int))
      modifies this
      ensures name != "" ==> r == (mangle(tag, name), SuNormal) && base == old(base)
      ensures name == "" ==> base == old(base) + 1 && r == (AnonName(base), SuAnonymous)
      ensures curfn == old(curfn) && curflow == old(curflow) && gblvars == old(gblvars)
    {
      if name != "" {
        return (mangle(tag, name), SuNormal);
      }
      base := base + 1;
      return (AnonName(base), SuAnonymous);
    }
  }
}
