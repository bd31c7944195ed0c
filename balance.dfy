/** Nesting of the builder calls the expression compiler makes: every
    closure body and every `if` it opens is closed by an `End`, in order. */
module Balance {
  import opened Wrappers
  import opened Tokens
  import opened Expr

  /** +1 for a call that opens a block, -1 for `End`. */
  function Delta(i: Instr): int
  {
    if i.ClosureStart? || i.ClosureStartT? || i.If? then 1
    else if i.End? then -1
    else 0
  }

  /** The nesting depth after running `s` from depth `d`; -1 once it has
      dropped below zero. */
  function Run(s: seq<Instr>, d: int): (r: int)
    ensures r >= -1
    ensures d < 0 ==> r == -1
  {
    if d < 0 then -1
    else if s == [] then d
    else Run(s[1..], d + Delta(s[0]))
  }

  /** Every block `s` opens is closed, and nothing is closed that `s` did
      not open. */
  predicate Balanced(s: seq<Instr>)
  {
    Run(s, 0) == 0
  }

  lemma {:induction false} RunConcat(a: seq<Instr>, b: seq<Instr>, d: int)
    ensures Run(a + b, d) == Run(b, Run(a, d))
    decreases |a|
  {
    if d >= 0 && a != [] {
      assert (a + b)[1..] == a[1..] + b;
      RunConcat(a[1..], b, d + Delta(a[0]));
    } else if a == [] {
      assert a + b == b;
    }
  }

  /** A run that never drops below zero runs the same from a higher start. */
  lemma {:induction false} RunShift(s: seq<Instr>, d: int, e: nat)
    requires Run(s, d) >= 0
    ensures Run(s, d + e) == Run(s, d) + e
    decreases |s|
  {
    if s != [] {
      RunShift(s[1..], d + Delta(s[0]), e);
    }
  }

  lemma BalancedConcat(a: seq<Instr>, b: seq<Instr>)
    requires Balanced(a) && Balanced(b)
    ensures Balanced(a + b)
  {
    RunConcat(a, b, 0);
  }

  /** A balanced body between an opening call and `End` is balanced. */
  lemma BalancedWrap(open: Instr, body: seq<Instr>)
    requires Delta(open) == 1 && Balanced(body)
    ensures Balanced([open] + body + [End])
  {
    RunConcat([open] + body, [End], 0);
    RunConcat([open], body, 0);
    RunShift(body, 0, 1);
  }

  /** Calls that neither open nor close a block. */
  predicate Flat(s: seq<Instr>)
  {
    forall i :: 0 <= i < |s| ==> Delta(s[i]) == 0
  }

  lemma {:induction false} FlatBalanced(s: seq<Instr>)
    requires Flat(s)
    ensures Balanced(s)
    decreases |s|
  {
    if s != [] {
      assert Flat(s[1..]);
      FlatBalanced(s[1..]);
    }
  }

  /** `a`, a flat tail: balanced when `a` is. */
  lemma BalancedThenFlat(a: seq<Instr>, t: seq<Instr>)
    requires Balanced(a) && Flat(t)
    ensures Balanced(a + t)
  {
    FlatBalanced(t);
    BalancedConcat(a, t);
  }

  /** Whatever `CompileExprEx` emits is balanced: each closure and `if` it
      opens is ended, and it ends nothing it did not open. */
  lemma {:induction false} ExprBalanced(env: Env, v: Node, flags: Flags)
    requires CompileExprEx(env, v, flags).Ok?
    ensures Balanced(CompileExprEx(env, v, flags).value)
    decreases v, 2, 0
  {
    match v.kind
    case BinaryOperator => BinaryBalanced(env, v, flags);
    case UnaryOperator => UnaryBalanced(env, v, flags);
    case DeclRefExpr => DeclRefBalanced(env, v, IsLHS(flags));
    case MemberExpr => MemberBalanced(env, v, IsLHS(flags));
    case CompoundAssignOperator => CompoundBalanced(env, v, flags);
    case _ => ExprBalancedRest(env, v, flags);
  }

  /** The node kinds `ExprBalanced` leaves to this lemma. */
  lemma {:induction false} ExprBalancedRest(env: Env, v: Node, flags: Flags)
    requires CompileExprEx(env, v, flags).Ok?
    requires !v.kind.BinaryOperator? && !v.kind.UnaryOperator? && !v.kind.DeclRefExpr?
    requires !v.kind.MemberExpr? && !v.kind.CompoundAssignOperator?
    ensures Balanced(CompileExprEx(env, v, flags).value)
    decreases v, 1, 1
  {
    match v.kind
    case CallExpr => CallBalanced(env, v);
    case ImplicitCastExpr => ImplicitCastBalanced(env, v);
    case IntegerLiteral => LiteralBalanced(env, v, flags);
    case StringLiteral => LiteralBalanced(env, v, flags);
    case CharacterLiteral => LiteralBalanced(env, v, flags);
    case FloatingLiteral => LiteralBalanced(env, v, flags);
    case ParenExpr => ExprBalanced(env, v.inner[0], flags);
    case ConstantExpr => ExprBalanced(env, v.inner[0], flags);
    case CStyleCastExpr => TypeCastBalanced(env, v);
    case ArraySubscriptExpr => SubscriptBalanced(env, v, flags);
    case UnaryExprOrTypeTraitExpr => SizeofBalanced(env, v);
    case ImplicitValueInitExpr => LeafBalanced(env, v, flags);
    case ConditionalOperator => ConditionalBalanced(env, v);
    case ImaginaryLiteral => ImaginaryBalanced(env, v, flags);
    case VAArgExpr => LeafBalanced(env, v, flags);
    case AtomicExpr => LeafBalanced(env, v, flags);
    case OffsetOfExpr => OffsetOfBalanced(env, v);
    case OtherKind(_) =>
  }

  /** One instruction that opens and ends nothing. */
  lemma OneBalanced(i: Instr)
    requires Delta(i) == 0
    ensures Balanced([i])
  {
    FlatBalanced([i]);
  }

  /** Literals compile to one instruction that pushes their value. */
  lemma LiteralBalanced(env: Env, v: Node, flags: Flags)
    requires v.kind in {IntegerLiteral, StringLiteral, CharacterLiteral, FloatingLiteral}
    requires CompileExprEx(env, v, flags).Ok?
    ensures |CompileExprEx(env, v, flags).value| == 1
    ensures Balanced(CompileExprEx(env, v, flags).value)
  {
    OneBalanced(CompileExprEx(env, v, flags).value[0]);
  }

  /** Zero values and the constructs compiled elsewhere are one instruction
      that opens no block. */
  lemma LeafBalanced(env: Env, v: Node, flags: Flags)
    requires v.kind in {ImplicitValueInitExpr, VAArgExpr, AtomicExpr}
    requires CompileExprEx(env, v, flags).Ok?
    ensures |CompileExprEx(env, v, flags).value| == 1
    ensures Balanced(CompileExprEx(env, v, flags).value)
  {
    OneBalanced(CompileExprEx(env, v, flags).value[0]);
  }

  /** A variable reference is one instruction. */
  lemma DeclRefBalanced(env: Env, v: Node, lhs: bool)
    requires CompileDeclRefExpr(env, v, lhs).Ok?
    ensures |CompileDeclRefExpr(env, v, lhs).value| == 1
    ensures Balanced(CompileDeclRefExpr(env, v, lhs).value)
  {
    OneBalanced(CompileDeclRefExpr(env, v, lhs).value[0]);
  }

  /** `offsetof` is one constant. */
  lemma OffsetOfBalanced(env: Env, v: Node)
    requires CompileOffsetOfExpr(env, v).Ok?
    ensures |CompileOffsetOfExpr(env, v).value| == 1
    ensures Balanced(CompileOffsetOfExpr(env, v).value)
  {
    OneBalanced(CompileOffsetOfExpr(env, v).value[0]);
  }

  lemma {:induction false} MemberBalanced(env: Env, v: Node, lhs: bool)
    requires CompileMemberExpr(env, v, lhs).Ok?
    ensures Balanced(CompileMemberExpr(env, v, lhs).value)
    decreases v, 1, 0
  {
    var rx := CompileExpr(env, v.inner[0]);
    assert rx.Ok?;
    ExprBalanced(env, v.inner[0], 0);
    BalancedThenFlat(rx.value, [MemberRef(env.avoid(v.name))]);
    BalancedThenFlat(rx.value, [MemberVal(env.avoid(v.name))]);
  }

  lemma {:induction false} CompoundBalanced(env: Env, v: Node, flags: Flags)
    requires CompileCompoundAssignOperator(env, v, flags).Ok?
    ensures Balanced(CompileCompoundAssignOperator(env, v, flags).value)
    decreases v, 1, 0
  {
    var op := AssignOps[v.opCode];
    if IgnoresResult(flags) {
      SimpleAssignBalanced(env, v, AssignOpHelper(op));
    } else {
      AssignBalanced(env, v, AssignOpHelper(op));
    }
  }

  lemma {:induction false} SubscriptBalanced(env: Env, v: Node, flags: Flags)
    requires v.kind == ArraySubscriptExpr && CompileExprEx(env, v, flags).Ok?
    ensures Balanced(CompileExprEx(env, v, flags).value)
    decreases v, 1, 0
  {
    var ra := CompileExpr(env, v.inner[0]);
    var ri := CompileExpr(env, v.inner[1]);
    assert ra.Ok? && ri.Ok?;
    ExprBalanced(env, v.inner[0], 0);
    ExprBalanced(env, v.inner[1], 0);
    BalancedConcat(ra.value, ri.value);
    BalancedThenFlat(ra.value + ri.value, [TypeCastIndex(IsLHS(flags))]);
  }

  lemma {:induction false} SizeofBalanced(env: Env, v: Node)
    requires CompileSizeof(env, v).Ok?
    ensures Balanced(CompileSizeof(env, v).value)
    decreases v, 1, 0
  {
    if |v.inner| > 0 {
      var re := CompileExpr(env, v.inner[0]);
      assert re.Ok?;
      ExprBalanced(env, v.inner[0], 0);
      BalancedThenFlat(re.value, [PopStack, ValInt(env.sizeof(env.typeOf(v.inner[0])))]);
    } else {
      FlatBalanced(CompileSizeof(env, v).value);
    }
  }

  lemma {:induction false} ImaginaryBalanced(env: Env, v: Node, flags: Flags)
    requires v.kind == ImaginaryLiteral && CompileExprEx(env, v, flags).Ok?
    ensures Balanced(CompileExprEx(env, v, flags).value)
    decreases v, 1, 0
  {
    var re := CompileExpr(env, v.inner[0]);
    assert re.Ok?;
    ExprBalanced(env, v.inner[0], 0);
    BalancedThenFlat(re.value, [MakeImag]);
  }

  lemma {:induction false} BinaryBalanced(env: Env, v: Node, flags: Flags)
    requires CompileBinaryExpr(env, v, flags).Ok?
    ensures Balanced(CompileBinaryExpr(env, v, flags).value)
    decreases v, 1, 0
  {
    if v.opCode in BinaryOps {
      var op := BinaryOps[v.opCode];
      var ra := CompileExpr(env, v.inner[0]);
      var rb := CompileExpr(env, v.inner[1]);
      assert ra.Ok? && rb.Ok?;
      ExprBalanced(env, v.inner[0], 0);
      ExprBalanced(env, v.inner[1], 0);
      var a, b := ra.value, rb.value;
      if op == LOR || op == LAND {
        BalancedThenFlat(a, [CastToBool]);
        BalancedConcat(a + [CastToBool], b);
        BalancedThenFlat(a + [CastToBool] + b, [CastToBool, BinaryOp(op)]);
      } else {
        BalancedConcat(a, b);
        BalancedThenFlat(a + b, [BinaryOpHelper(op)]);
      }
    } else if v.opCode == "," {
      CommaBalanced(env, v);
    } else if IgnoresResult(flags) {
      SimpleAssignBalanced(env, v, AssignHelper);
    } else {
      AssignBalanced(env, v, AssignHelper);
    }
  }

  lemma CommaShape(a: seq<Instr>, b: seq<Instr>)
    requires Balanced(a) && Balanced(b)
    ensures Balanced([ClosureStart("")] + a + [EndStmt] + b + [Return(1), End, Call(0)])
  {
    var body := a + [EndStmt] + b + [Return(1)];
    BalancedThenFlat(a, [EndStmt]);
    BalancedConcat(a + [EndStmt], b);
    BalancedThenFlat(a + [EndStmt] + b, [Return(1)]);
    BalancedWrap(ClosureStart(""), body);
    BalancedThenFlat([ClosureStart("")] + body + [End], [Call(0)]);
    assert [ClosureStart("")] + a + [EndStmt] + b + [Return(1), End, Call(0)]
        == [ClosureStart("")] + body + [End] + [Call(0)];
  }

  lemma {:induction false} CommaBalanced(env: Env, v: Node)
    requires CompileCommaExpr(env, v).Ok?
    ensures Balanced(CompileCommaExpr(env, v).value)
    decreases v, 0, 0
  {
    var ra := CompileExprEx(env, v.inner[0], FlagIgnoreResult);
    var rb := CompileExpr(env, v.inner[1]);
    assert ra.Ok? && rb.Ok?;
    ExprBalanced(env, v.inner[0], FlagIgnoreResult);
    ExprBalanced(env, v.inner[1], 0);
    CommaShape(ra.value, rb.value);
  }

  lemma {:induction false} SimpleAssignBalanced(env: Env, v: Node, store: Instr)
    requires Delta(store) == 0
    requires CompileSimpleAssign(env, v, store).Ok?
    ensures Balanced(CompileSimpleAssign(env, v, store).value)
    decreases v, 0, 0
  {
    var rl := CompileExprLHS(env, v.inner[0]);
    var rr := CompileExpr(env, v.inner[1]);
    assert rl.Ok? && rr.Ok?;
    ExprBalanced(env, v.inner[0], FlagLHS);
    ExprBalanced(env, v.inner[1], 0);
    BalancedConcat(rl.value, rr.value);
    BalancedThenFlat(rl.value + rr.value, [store]);
  }

  /** The closure that evaluates the address of `l` once, with `body` after
      it, is balanced. */
  lemma AddrClosureBalanced(l: seq<Instr>, body: seq<Instr>)
    requires Balanced(l) && Balanced(body)
    ensures Balanced(ClosureInitAddr(l) + body + [End, Call(0)])
  {
    var inner := [DefineAddrStart] + l + [UnaryOp(AND), EndInit(1)] + body;
    FlatBalanced([DefineAddrStart]);
    BalancedConcat([DefineAddrStart], l);
    BalancedThenFlat([DefineAddrStart] + l, [UnaryOp(AND), EndInit(1)]);
    BalancedConcat([DefineAddrStart] + l + [UnaryOp(AND), EndInit(1)], body);
    BalancedWrap(ClosureStart(RetName), inner);
    BalancedThenFlat([ClosureStart(RetName)] + inner + [End], [Call(0)]);
    assert ClosureInitAddr(l) + body + [End, Call(0)] == [ClosureStart(RetName)] + inner + [End] + [Call(0)];
  }

  lemma AssignShape(l: seq<Instr>, r: seq<Instr>, store: Instr)
    requires Balanced(l) && Balanced(r) && Delta(store) == 0
    ensures Balanced(ClosureInitAddr(l) + [ValAddr, ElemRef] + r + [store] + [ValAddr, Elem, Return(1), End, Call(0)])
  {
    var body := [ValAddr, ElemRef] + r + [store, ValAddr, Elem, Return(1)];
    FlatBalanced([ValAddr, ElemRef]);
    BalancedConcat([ValAddr, ElemRef], r);
    BalancedThenFlat([ValAddr, ElemRef] + r, [store, ValAddr, Elem, Return(1)]);
    AddrClosureBalanced(l, body);
    assert ClosureInitAddr(l) + [ValAddr, ElemRef] + r + [store] + [ValAddr, Elem, Return(1), End, Call(0)]
        == ClosureInitAddr(l) + body + [End, Call(0)];
  }

  lemma {:induction false} AssignBalanced(env: Env, v: Node, store: Instr)
    requires Delta(store) == 0
    requires CompileAssign(env, v, store).Ok?
    ensures Balanced(CompileAssign(env, v, store).value)
    decreases v, 0, 0
  {
    var rl := CompileExprLHS(env, v.inner[0]);
    var rr := CompileExpr(env, v.inner[1]);
    assert rl.Ok? && rr.Ok?;
    ExprBalanced(env, v.inner[0], FlagLHS);
    ExprBalanced(env, v.inner[1], 0);
    AssignShape(rl.value, rr.value, store);
  }

  lemma IncDecShape(l: seq<Instr>, body: seq<Instr>)
    requires Balanced(l) && Flat(body)
    ensures Balanced(ClosureInitAddr(l) + body + [End, Call(0)])
  {
    FlatBalanced(body);
    AddrClosureBalanced(l, body);
  }

  lemma {:induction false} IncDecBalanced(env: Env, tok: Token, v: Node)
    requires tok == INC || tok == DEC
    requires CompileIncDec(env, tok, v).Ok?
    ensures Balanced(CompileIncDec(env, tok, v).value)
    decreases v, 0, 0
  {
    var rl := CompileExprLHS(env, v.inner[0]);
    assert rl.Ok?;
    ExprBalanced(env, v.inner[0], FlagLHS);
    IncDecClosureBalanced(rl.value, tok, env.valOfAddr(env.typeOf(v.inner[0])), v.isPostfix);
  }

  lemma IncDecClosureBalanced(l: seq<Instr>, tok: Token, size: int, postfix: bool)
    requires tok == INC || tok == DEC
    requires Balanced(l)
    ensures Balanced(IncDecClosure(l, tok, size, postfix))
  {
    var inner := IncDecInner(tok, size, postfix);
    IncDecShape(l, inner);
    assert IncDecClosure(l, tok, size, postfix) == ClosureInitAddr(l) + inner + [End, Call(0)];
  }

  /** The closure body before its `End`: the save, the update and the
      return, none of which opens or ends a block. */
  lemma IncDecInner(tok: Token, size: int, postfix: bool) returns (inner: seq<Instr>)
    requires tok == INC || tok == DEC
    ensures Flat(inner) && IncDecBody(tok, size, postfix) == inner + [End, Call(0)]
  {
    IncDecBodyForms(tok, size, postfix);
    var step := Step(tok, size);
    assert Flat(step);
    var save := if postfix then [VarRefRet, ValAddr, Elem, Assign(1), ValOfAddr, ElemRef] else [ValOfAddr, ElemRef];
    var result := if postfix then [Return(0)] else [ValAddr, Elem, Return(1)];
    FlatConcat3(save, step, result);
    inner := save + step + result;
  }

  lemma FlatConcat3(a: seq<Instr>, b: seq<Instr>, c: seq<Instr>)
    requires Flat(a) && Flat(b) && Flat(c)
    ensures Flat(a + b + c)
  {
  }

  lemma {:induction false} SimpleIncDecBalanced(env: Env, tok: Token, v: Node)
    requires tok == INC || tok == DEC
    requires CompileSimpleIncDec(env, tok, v).Ok?
    ensures Balanced(CompileSimpleIncDec(env, tok, v).value)
    decreases v, 0, 0
  {
    var rl := CompileExprLHS(env, v.inner[0]);
    assert rl.Ok?;
    ExprBalanced(env, v.inner[0], FlagLHS);
    var typ := env.typeOf(v.inner[0]);
    if typ.Pointer? {
      var tail := [UnaryOp(AND), CastPtrToUintptrPtr, ElemRef] + Step(tok, env.sizeof(typ.elem));
      BalancedThenFlat(rl.value, tail);
      assert CompileSimpleIncDec(env, tok, v).value == rl.value + tail;
    } else {
      BalancedThenFlat(rl.value, [IncDec(tok)]);
    }
  }

  lemma {:induction false} UnaryBalanced(env: Env, v: Node, flags: Flags)
    requires CompileUnaryOperator(env, v, flags).Ok?
    ensures Balanced(CompileUnaryOperator(env, v, flags).value)
    decreases v, 1, 0
  {
    if v.opCode == "*" {
      var rx := CompileExpr(env, v.inner[0]);
      assert rx.Ok?;
      ExprBalanced(env, v.inner[0], 0);
      BalancedThenFlat(rx.value, [ElemRef]);
      BalancedThenFlat(rx.value, [Elem]);
    } else if v.opCode in UnaryOps {
      var rx := CompileExpr(env, v.inner[0]);
      assert rx.Ok?;
      ExprBalanced(env, v.inner[0], 0);
      BalancedThenFlat(rx.value, [UnaryOpHelper(UnaryOps[v.opCode])]);
    } else if v.opCode == "__extension__" || v.opCode == "+" {
      ExprBalanced(env, v.inner[0], 0);
    } else if v.opCode == "++" || v.opCode == "--" {
      var tok := if v.opCode == "++" then INC else DEC;
      if IgnoresResult(flags) {
        SimpleIncDecBalanced(env, tok, v);
      } else {
        IncDecBalanced(env, tok, v);
      }
    }
  }

  lemma {:induction false} ImplicitCastBalanced(env: Env, v: Node)
    requires CompileImplicitCastExpr(env, v).Ok?
    ensures Balanced(CompileImplicitCastExpr(env, v).value)
    decreases v, 1, 0
  {
    match v.castKind
    case LValueToRValue => ExprBalanced(env, v.inner[0], 0);
    case NoOp => ExprBalanced(env, v.inner[0], 0);
    case BuiltinFnToFnPtr => BuiltinFnBalanced(env, v);
    case FunctionToPointerDecay => ExprBalanced(env, v.inner[0], 0);
    case ArrayToPointerDecay => ArrayDecayBalanced(env, v);
    case NullToPointer => FlatBalanced([ValNil]);
    case IntegralCast => TypeCastBalanced(env, v);
    case FloatingCast => TypeCastBalanced(env, v);
    case BitCast => TypeCastBalanced(env, v);
    case IntegralToFloating => TypeCastBalanced(env, v);
    case FloatingToIntegral => TypeCastBalanced(env, v);
    case FloatingComplexCast => TypeCastBalanced(env, v);
    case FloatingRealToComplex => TypeCastBalanced(env, v);
    case _ =>
  }

  lemma {:induction false} BuiltinFnBalanced(env: Env, v: Node)
    requires v.castKind == BuiltinFnToFnPtr && CompileImplicitCastExpr(env, v).Ok?
    ensures Balanced(CompileImplicitCastExpr(env, v).value)
    decreases v, 0, 0
  {
    var re := CompileExpr(env, v.inner[0]);
    assert re.Ok?;
    ExprBalanced(env, v.inner[0], 0);
    var fn := GetBuiltinFn(v.inner[0]);
    var mark := if fn.Some? && env.inPkg(fn.value) then [ExtFn(fn.value)] else [];
    FlatBalanced(mark);
    BalancedConcat(mark, re.value);
  }

  lemma {:induction false} ArrayDecayBalanced(env: Env, v: Node)
    requires v.castKind == ArrayToPointerDecay && CompileImplicitCastExpr(env, v).Ok?
    ensures Balanced(CompileImplicitCastExpr(env, v).value)
    decreases v, 0, 0
  {
    var re := CompileExpr(env, v.inner[0]);
    assert re.Ok?;
    ExprBalanced(env, v.inner[0], 0);
    BalancedThenFlat(re.value, if env.isValist(env.typeOf(v.inner[0])) then [] else [ArrayToElemPtr]);
  }

  lemma ToVoidShape(e: seq<Instr>)
    requires Balanced(e)
    ensures Balanced([ClosureStartT("int"), VarRefNil] + e + [Assign(1), ValInt(0), Return(1), End, Call(0)])
  {
    var body := [VarRefNil] + e + [Assign(1), ValInt(0), Return(1)];
    FlatBalanced([VarRefNil]);
    BalancedConcat([VarRefNil], e);
    BalancedThenFlat([VarRefNil] + e, [Assign(1), ValInt(0), Return(1)]);
    BalancedWrap(ClosureStartT("int"), body);
    BalancedThenFlat([ClosureStartT("int")] + body + [End], [Call(0)]);
    assert [ClosureStartT("int"), VarRefNil] + e + [Assign(1), ValInt(0), Return(1), End, Call(0)]
        == [ClosureStartT("int")] + body + [End] + [Call(0)];
  }

  lemma {:induction false} TypeCastBalanced(env: Env, v: Node)
    requires CompileTypeCast(env, v).Ok?
    ensures Balanced(CompileTypeCast(env, v).value)
    decreases v, 0, 0
  {
    if v.castKind == ToVoid {
      var re := CompileExpr(env, v.inner[0]);
      assert re.Ok?;
      ExprBalanced(env, v.inner[0], 0);
      ToVoidShape(re.value);
    } else if v.castKind == NullToPointer {
      FlatBalanced(CompileTypeCast(env, v).value);
    } else {
      var re := CompileExpr(env, v.inner[0]);
      assert re.Ok?;
      ExprBalanced(env, v.inner[0], 0);
      FlatBalanced([Typ(v.qualType)]);
      BalancedConcat([Typ(v.qualType)], re.value);
      BalancedThenFlat([Typ(v.qualType)] + re.value, [TypeCastCall]);
    }
  }

  lemma {:induction false} ArgsBalanced(env: Env, v: Node, i: nat)
    requires i <= |v.inner|
    requires ArgsCode(env, v, i).Ok?
    ensures Balanced(ArgsCode(env, v, i).value)
    decreases v, 0, |v.inner| - i
  {
    if i == |v.inner| {
      FlatBalanced([]);
    } else {
      var re := CompileExpr(env, v.inner[i]);
      assert re.Ok?;
      ExprBalanced(env, v.inner[i], 0);
      ArgsBalanced(env, v, i + 1);
      BalancedConcat(re.value, ArgsCode(env, v, i + 1).value);
    }
  }

  lemma {:induction false} CallBalanced(env: Env, v: Node)
    requires CallExprCode(env, v).Ok?
    ensures Balanced(CallExprCode(env, v).value)
    decreases v, 1, 0
  {
    if |v.inner| == 0 || IsVaStartEnd(v).value {
      FlatBalanced([]);
    } else {
      ArgsBalanced(env, v, 0);
      var e := Ellipsis(env, v);
      var tail := (if e then [PopStack, ValValist] else []) + [CallWith(|v.inner| - 1, e)];
      BalancedThenFlat(ArgsCode(env, v, 0).value, tail);
      assert CallExprCode(env, v).value == ArgsCode(env, v, 0).value + tail;
    }
  }

  lemma ConditionalShape(qt: string, c: seq<Instr>, a: seq<Instr>, b: seq<Instr>)
    requires Balanced(c) && Balanced(a) && Balanced(b)
    ensures Balanced([ClosureStartT(qt), If] + c + [CastToBool, Then] + a + [Return(1), Else] + b
                     + [Return(1), End, End, Call(0)])
  {
    var open, p1, p2, p3 := [ClosureStartT(qt), If], [CastToBool, Then], [Return(1), Else], [Return(1), End, End, Call(0)];
    RunShift(c, 0, 2);
    RunShift(a, 0, 2);
    RunShift(b, 0, 2);
    FlatRun(p1, 2);
    FlatRun(p2, 2);
    ConditionalOpens(qt);
    ConditionalCloses();
    RunChain7(open, c, p1, a, p2, b, p3, 0, 2);
  }

  /** The closure and the `if` are two open blocks. */
  lemma ConditionalOpens(qt: string)
    ensures Run([ClosureStartT(qt), If], 0) == 2
  {
    RunCons(ClosureStartT(qt), [If], 0);
    RunCons(If, [], 1);
  }

  /** The last `return` then the two `End`s close them, and the call opens
      nothing. */
  lemma ConditionalCloses()
    ensures Run([Return(1), End, End, Call(0)], 2) == 0
  {
    RunCons(Return(1), [End, End, Call(0)], 2);
    RunCons(End, [End, Call(0)], 2);
    RunCons(End, [Call(0)], 1);
    RunCons(Call(0), [], 0);
  }

  /** Seven pieces, each of which starts and ends at the given depths. */
  lemma RunChain7(s1: seq<Instr>, s2: seq<Instr>, s3: seq<Instr>, s4: seq<Instr>, s5: seq<Instr>,
                  s6: seq<Instr>, s7: seq<Instr>, d: int, e: int)
    requires Run(s1, d) == e && Run(s2, e) == e && Run(s3, e) == e && Run(s4, e) == e
    requires Run(s5, e) == e && Run(s6, e) == e
    ensures Run(s1 + s2 + s3 + s4 + s5 + s6 + s7, d) == Run(s7, e)
  {
    RunConcat(s1 + s2 + s3 + s4 + s5 + s6, s7, d);
    RunConcat(s1 + s2 + s3 + s4 + s5, s6, d);
    RunConcat(s1 + s2 + s3 + s4, s5, d);
    RunConcat(s1 + s2 + s3, s4, d);
    RunConcat(s1 + s2, s3, d);
    RunConcat(s1, s2, d);
  }

  lemma RunCons(x: Instr, s: seq<Instr>, d: int)
    requires d >= 0
    ensures Run([x] + s, d) == Run(s, d + Delta(x))
  {
    assert ([x] + s)[1..] == s;
  }

  /** A flat run keeps the depth it starts from. */
  lemma FlatRun(s: seq<Instr>, d: nat)
    requires Flat(s)
    ensures Run(s, d) == d
  {
    FlatBalanced(s);
    RunShift(s, 0, d);
  }

  lemma {:induction false} ConditionalBalanced(env: Env, v: Node)
    requires CompileConditionalOperator(env, v).Ok?
    ensures Balanced(CompileConditionalOperator(env, v).value)
    decreases v, 1, 0
  {
    var rc := CompileExpr(env, v.inner[0]);
    var ra := CompileExpr(env, v.inner[1]);
    var rb := CompileExpr(env, v.inner[2]);
    assert rc.Ok? && ra.Ok? && rb.Ok?;
    ExprBalanced(env, v.inner[0], 0);
    ExprBalanced(env, v.inner[1], 0);
    ExprBalanced(env, v.inner[2], 0);
    ConditionalShape(v.qualType, rc.value, ra.value, rb.value);
  }
}
