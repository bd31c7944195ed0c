/** What the expression compiler promises about the code it emits, stated
    over `CompileExprEx` for a node in terms of the code of its children. */
module ExprProps {
  import opened Wrappers
  import opened CTypes
  import opened Scan
  import opened Tokens
  import opened Expr

  /** The number of times `x` occurs in `s`. */
  function Count(s: seq<Instr>, x: Instr): (n: nat)
    ensures n <= |s|
  {
    if s == [] then 0 else (if s[0] == x then 1 else 0) + Count(s[1..], x)
  }

  lemma {:induction false} CountConcat(a: seq<Instr>, b: seq<Instr>, x: Instr)
    ensures Count(a + b, x) == Count(a, x) + Count(b, x)
    decreases |a|
  {
    if a == [] {
      assert a + b == b;
    } else {
      assert (a + b)[1..] == a[1..] + b;
      CountConcat(a[1..], b, x);
    }
  }

  /** Parentheses and constant-expression wrappers are transparent: the
      inner node is compiled with the same flags. */
  lemma ParenTransparent(env: Env, v: Node, flags: Flags)
    requires v.kind == ParenExpr || v.kind == ConstantExpr
    requires |v.inner| > 0
    ensures CompileExprEx(env, v, flags) == CompileExprEx(env, v.inner[0], flags)
  {
  }

  /** The node under any number of parentheses and constant wrappers. */
  function Unwrap(v: Node): (u: Node)
    ensures !((u.kind == ParenExpr || u.kind == ConstantExpr) && |u.inner| > 0)
  {
    if (v.kind == ParenExpr || v.kind == ConstantExpr) && |v.inner| > 0 then Unwrap(v.inner[0]) else v
  }

  /** However deeply an expression is parenthesised, it compiles as the
      expression inside, with the same flags. */
  lemma {:induction false} ParensTransparent(env: Env, v: Node, flags: Flags)
    ensures CompileExprEx(env, v, flags) == CompileExprEx(env, Unwrap(v), flags)
  {
    if (v.kind == ParenExpr || v.kind == ConstantExpr) && |v.inner| > 0 {
      ParenTransparent(env, v, flags);
      ParensTransparent(env, v.inner[0], flags);
    }
  }

  /** Unknown node kinds, and `UnaryExprOrTypeTraitExpr` other than `sizeof`,
      are refused. */
  lemma UnknownPanics(env: Env, v: Node, flags: Flags)
    ensures v.kind.OtherKind? ==> CompileExprEx(env, v, flags).Panic?
    ensures v.kind == UnaryExprOrTypeTraitExpr && v.name != "sizeof" ==>
              CompileExprEx(env, v, flags).Panic?
  {
  }

  /** Implicit casts of a kind the switch does not list are refused. */
  lemma ImplicitCastPanics(env: Env, v: Node, flags: Flags)
    requires v.kind == ImplicitCastExpr
    ensures (v.castKind in {NoCast, ToVoid} || v.castKind.OtherCast?) ==> CompileExprEx(env, v, flags).Panic?
  {
  }

  /** Binary operators outside the table, `=` and `,` are refused. */
  lemma BinaryPanics(env: Env, v: Node, flags: Flags)
    requires v.kind == BinaryOperator
    ensures v.opCode !in BinaryOps && v.opCode != "=" && v.opCode != "," ==> CompileExprEx(env, v, flags).Panic?
  {
  }

  /** Compound assignments outside the table are refused. */
  lemma CompoundPanics(env: Env, v: Node, flags: Flags)
    requires v.kind == CompoundAssignOperator
    ensures v.opCode !in AssignOps ==> CompileExprEx(env, v, flags).Panic?
  {
  }

  /** Only `*` yields an lvalue, and unary operators outside the table and the
      special ones are refused. */
  lemma UnaryPanics(env: Env, v: Node, flags: Flags)
    requires v.kind == UnaryOperator
    ensures v.opCode != "*" && IsLHS(flags) ==> CompileExprEx(env, v, flags).Panic?
    ensures v.opCode !in UnaryOps && v.opCode !in {"*", "++", "--", "__extension__", "+"} ==>
              CompileExprEx(env, v, flags).Panic?
  {
  }

  lemma LogicalShape(a: seq<Instr>, b: seq<Instr>, tok: Token)
    ensures var r := a + [CastToBool] + b + [CastToBool, BinaryOp(tok)];
            && r[..|a|] == a && r[|a|] == CastToBool
            && r[|a| + 1..|a| + 1 + |b|] == b && r[|r| - 2] == CastToBool
            && Count(r, CastToBool) == Count(a, CastToBool) + Count(b, CastToBool) + 2
  {
    CountConcat(a, [CastToBool], CastToBool);
    CountConcat(a + [CastToBool], b, CastToBool);
    CountConcat(a + [CastToBool] + b, [CastToBool, BinaryOp(tok)], CastToBool);
    var r := a + [CastToBool] + b + [CastToBool, BinaryOp(tok)];
    assert r[..|a|] == a;
    assert r[|a| + 1..|a| + 1 + |b|] == b;
  }

  lemma ArithShape(a: seq<Instr>, b: seq<Instr>, tok: Token)
    ensures var r := a + b + [BinaryOpHelper(tok)];
            && r[..|a|] == a && r[|a|..|a| + |b|] == b
            && Count(r, CastToBool) == Count(a, CastToBool) + Count(b, CastToBool)
  {
    CountConcat(a, b, CastToBool);
    CountConcat(a + b, [BinaryOpHelper(tok)], CastToBool);
    var r := a + b + [BinaryOpHelper(tok)];
    assert r[..|a|] == a;
    assert r[|a|..|a| + |b|] == b;
  }

  /** A binary operator of the table compiles its left operand, then its
      right one, then the operator; `&&` and `||`, and only they, cast each
      operand to bool right after it and apply the Go operator directly. */
  lemma BinaryOperands(env: Env, v: Node, flags: Flags)
    requires v.kind == BinaryOperator && v.opCode in BinaryOps && |v.inner| >= 2
    requires CompileExpr(env, v.inner[0]).Ok? && CompileExpr(env, v.inner[1]).Ok?
    ensures var a, b := CompileExpr(env, v.inner[0]).value, CompileExpr(env, v.inner[1]).value;
            var tok := BinaryOps[v.opCode];
            var logical := v.opCode == "&&" || v.opCode == "||";
            var c := if logical then 1 else 0;
            var r := CompileExprEx(env, v, flags);
            && r.Ok? && |r.value| == |a| + |b| + 2 * c + 1
            && r.value[..|a|] == a
            && r.value[|a| + c..|a| + c + |b|] == b
            && (logical ==> r.value[|a|] == CastToBool && r.value[|r.value| - 2] == CastToBool)
            && Count(r.value, CastToBool) == Count(a, CastToBool) + Count(b, CastToBool) + (if logical then 2 else 0)
            && r.value[|r.value| - 1] == (if logical then BinaryOp(tok) else BinaryOpHelper(tok))
  {
    var a, b := CompileExpr(env, v.inner[0]).value, CompileExpr(env, v.inner[1]).value;
    var tok := BinaryOps[v.opCode];
    assert CompileExprEx(env, v, flags) == CompileBinaryExpr(env, v, flags);
    LogicalOperatorsOfTable(v.opCode);
    if tok == LOR || tok == LAND {
      assert CompileBinaryExpr(env, v, flags) == Ok(a + [CastToBool] + b + [CastToBool, BinaryOp(tok)]);
      LogicalShape(a, b, tok);
    } else {
      assert CompileBinaryExpr(env, v, flags) == Ok(a + b + [BinaryOpHelper(tok)]);
      ArithShape(a, b, tok);
    }
  }

  /** `a = b` and `a op= b`: as a statement, the target is compiled as an
      lvalue, then the value, then the store, with no closure; as an
      expression, a closure takes the target's address once into
      `_cgo_addr`, stores through it and returns `*_cgo_addr`, and is called
      at once with no arguments. */
  lemma AssignForms(env: Env, v: Node, flags: Flags)
    requires (v.kind == BinaryOperator && v.opCode == "=") ||
             (v.kind == CompoundAssignOperator && v.opCode in AssignOps)
    requires |v.inner| >= 2
    requires CompileExprLHS(env, v.inner[0]).Ok? && CompileExpr(env, v.inner[1]).Ok?
    ensures var l, r := CompileExprLHS(env, v.inner[0]).value, CompileExpr(env, v.inner[1]).value;
            var store := if v.kind == BinaryOperator then AssignHelper else AssignOpHelper(AssignOps[v.opCode]);
            CompileExprEx(env, v, flags) ==
              if IgnoresResult(flags) then Ok(l + r + [store])
              else Ok([ClosureStart(RetName), DefineAddrStart] + l + [UnaryOp(AND), EndInit(1)]
                      + [ValAddr, ElemRef] + r + [store]
                      + [ValAddr, Elem, Return(1), End, Call(0)])
  {
    var store := if v.kind == BinaryOperator then AssignHelper else AssignOpHelper(AssignOps[v.opCode]);
    AssignDispatch(env, v, flags, store);
    AssignCode(env, v, store);
  }

  /** The statement form of an assignment with target code `l`, value code
      `r` and store `store`: the target is compiled first, then the value,
      then the store, and nothing else; in particular no closure is opened. */
  ghost predicate AssignStmtForm(code: seq<Instr>, l: seq<Instr>, r: seq<Instr>, store: Instr)
  {
    && |code| == |l| + |r| + 1
    && code[..|l|] == l && code[|l|..|l| + |r|] == r && code[|l| + |r|] == store
    && multiset(code)[ClosureStart(RetName)] == multiset(l)[ClosureStart(RetName)] + multiset(r)[ClosureStart(RetName)]
  }

  /** The expression form: one closure is opened, which first takes the
      address of the target, so the target code is emitted once; then the
      value is stored through that address, and `*addr` is returned; the
      closure is called at once. */
  ghost predicate AssignExprForm(code: seq<Instr>, l: seq<Instr>, r: seq<Instr>, store: Instr)
  {
    var k := |ClosureInitAddr(l)|;
    && |code| == |l| + |r| + 12
    && code[..k] == ClosureInitAddr(l)
    && code[k..k + 2] == [ValAddr, ElemRef]
    && code[k + 2..k + 2 + |r|] == r
    && code[k + 2 + |r|..] == [store, ValAddr, Elem, Return(1), End, Call(0)]
    && multiset(code)[ClosureStart(RetName)] == multiset(l)[ClosureStart(RetName)] + multiset(r)[ClosureStart(RetName)] + 1
    && multiset(code)[UnaryOp(AND)] == multiset(l)[UnaryOp(AND)] + multiset(r)[UnaryOp(AND)] + 1
  }

  /** `a = b` and `a op= b` whose result is ignored take the statement form. */
  lemma AssignStatement(env: Env, v: Node, flags: Flags)
    requires (v.kind == BinaryOperator && v.opCode == "=") ||
             (v.kind == CompoundAssignOperator && v.opCode in AssignOps)
    requires IgnoresResult(flags) && |v.inner| >= 2
    requires CompileExprLHS(env, v.inner[0]).Ok? && CompileExpr(env, v.inner[1]).Ok?
    ensures var store := if v.kind == BinaryOperator then AssignHelper else AssignOpHelper(AssignOps[v.opCode]);
            var code := CompileExprEx(env, v, flags);
            && code.Ok?
            && AssignStmtForm(code.value, CompileExprLHS(env, v.inner[0]).value, CompileExpr(env, v.inner[1]).value, store)
  {
    var l, r := CompileExprLHS(env, v.inner[0]).value, CompileExpr(env, v.inner[1]).value;
    var store := if v.kind == BinaryOperator then AssignHelper else AssignOpHelper(AssignOps[v.opCode]);
    AssignForms(env, v, flags);
    AssignStmtShape(CompileExprEx(env, v, flags).value, l, r, store);
  }

  /** `a = b` and `a op= b` whose result is used take the expression form. */
  lemma AssignExpression(env: Env, v: Node, flags: Flags)
    requires (v.kind == BinaryOperator && v.opCode == "=") ||
             (v.kind == CompoundAssignOperator && v.opCode in AssignOps)
    requires !IgnoresResult(flags) && |v.inner| >= 2
    requires CompileExprLHS(env, v.inner[0]).Ok? && CompileExpr(env, v.inner[1]).Ok?
    ensures var store := if v.kind == BinaryOperator then AssignHelper else AssignOpHelper(AssignOps[v.opCode]);
            var code := CompileExprEx(env, v, flags);
            && code.Ok?
            && AssignExprForm(code.value, CompileExprLHS(env, v.inner[0]).value, CompileExpr(env, v.inner[1]).value, store)
  {
    var l, r := CompileExprLHS(env, v.inner[0]).value, CompileExpr(env, v.inner[1]).value;
    var store := if v.kind == BinaryOperator then AssignHelper else AssignOpHelper(AssignOps[v.opCode]);
    AssignForms(env, v, flags);
    AssignExprShape(CompileExprEx(env, v, flags).value, l, r, store);
  }

  lemma AssignStmtShape(code: seq<Instr>, l: seq<Instr>, r: seq<Instr>, store: Instr)
    requires store.AssignHelper? || store.AssignOpHelper?
    requires code == l + r + [store]
    ensures AssignStmtForm(code, l, r, store)
  {
    Front(l + r, [store]);
    Front(l, r);
    assert code[..|l|] == (l + r)[..|l|];
    assert multiset(code) == multiset(l) + multiset(r) + multiset([store]);
  }

  lemma AssignExprShape(code: seq<Instr>, l: seq<Instr>, r: seq<Instr>, store: Instr)
    requires store.AssignHelper? || store.AssignOpHelper?
    requires code == ClosureInitAddr(l) + [ValAddr, ElemRef] + r + [store]
                     + [ValAddr, Elem, Return(1), End, Call(0)]
    ensures AssignExprForm(code, l, r, store)
  {
    var c := ClosureInitAddr(l);
    var rest := [ValAddr, ElemRef] + r + [store, ValAddr, Elem, Return(1), End, Call(0)];
    AssignAssoc(code, c, r, store, rest);
    AssignSplit(code, l, r, store, c, rest);
  }

  lemma AssignSplit(code: seq<Instr>, l: seq<Instr>, r: seq<Instr>, store: Instr, c: seq<Instr>, rest: seq<Instr>)
    requires store.AssignHelper? || store.AssignOpHelper?
    requires c == ClosureInitAddr(l)
    requires rest == [ValAddr, ElemRef] + r + [store, ValAddr, Elem, Return(1), End, Call(0)]
    requires code == c + rest
    ensures AssignExprForm(code, l, r, store)
  {
    AssignRest(rest, r, store);
    AssignPositions(code, c, rest, r, store);
    AssignCounts(code, l, r, store, c, rest);
    AssignFormFrom(code, l, r, store, c);
  }

  lemma AssignFormFrom(code: seq<Instr>, l: seq<Instr>, r: seq<Instr>, store: Instr, c: seq<Instr>)
    requires c == ClosureInitAddr(l) && |code| == |c| + |r| + 8
    requires code[..|c|] == c && code[|c|..|c| + 2] == [ValAddr, ElemRef]
    requires code[|c| + 2..|c| + 2 + |r|] == r && code[|c| + 2 + |r|..] == [store, ValAddr, Elem, Return(1), End, Call(0)]
    requires multiset(code)[ClosureStart(RetName)] == multiset(l)[ClosureStart(RetName)] + multiset(r)[ClosureStart(RetName)] + 1
    requires multiset(code)[UnaryOp(AND)] == multiset(l)[UnaryOp(AND)] + multiset(r)[UnaryOp(AND)] + 1
    ensures AssignExprForm(code, l, r, store)
  {
  }

  lemma AssignPositions(code: seq<Instr>, c: seq<Instr>, rest: seq<Instr>, r: seq<Instr>, store: Instr)
    requires code == c + rest
    requires |rest| == |r| + 8 && rest[..2] == [ValAddr, ElemRef]
    requires rest[2..2 + |r|] == r && rest[2 + |r|..] == [store, ValAddr, Elem, Return(1), End, Call(0)]
    ensures code[..|c|] == c && code[|c|..|c| + 2] == [ValAddr, ElemRef]
    ensures code[|c| + 2..|c| + 2 + |r|] == r && code[|c| + 2 + |r|..] == [store, ValAddr, Elem, Return(1), End, Call(0)]
  {
    Front(c, rest);
    Shift(c, rest, 0, 2);
    Shift(c, rest, 2, 2 + |r|);
    Shift(c, rest, 2 + |r|, |rest|);
  }

  lemma AssignAssoc(code: seq<Instr>, c: seq<Instr>, r: seq<Instr>, store: Instr, rest: seq<Instr>)
    requires code == c + [ValAddr, ElemRef] + r + [store] + [ValAddr, Elem, Return(1), End, Call(0)]
    requires rest == [ValAddr, ElemRef] + r + [store, ValAddr, Elem, Return(1), End, Call(0)]
    ensures code == c + rest
  {
  }

  lemma AssignRest(rest: seq<Instr>, r: seq<Instr>, store: Instr)
    requires rest == [ValAddr, ElemRef] + r + [store, ValAddr, Elem, Return(1), End, Call(0)]
    ensures |rest| == |r| + 8 && rest[..2] == [ValAddr, ElemRef]
    ensures rest[2..2 + |r|] == r && rest[2 + |r|..] == [store, ValAddr, Elem, Return(1), End, Call(0)]
  {
    assert rest == [ValAddr, ElemRef] + (r + [store, ValAddr, Elem, Return(1), End, Call(0)]);
    Front([ValAddr, ElemRef], r + [store, ValAddr, Elem, Return(1), End, Call(0)]);
    Front(r, [store, ValAddr, Elem, Return(1), End, Call(0)]);
  }

  lemma AssignCounts(code: seq<Instr>, l: seq<Instr>, r: seq<Instr>, store: Instr, c: seq<Instr>, rest: seq<Instr>)
    requires store.AssignHelper? || store.AssignOpHelper?
    requires c == ClosureInitAddr(l)
    requires rest == [ValAddr, ElemRef] + r + [store, ValAddr, Elem, Return(1), End, Call(0)]
    requires code == c + rest
    ensures multiset(code)[ClosureStart(RetName)] == multiset(l)[ClosureStart(RetName)] + multiset(r)[ClosureStart(RetName)] + 1
    ensures multiset(code)[UnaryOp(AND)] == multiset(l)[UnaryOp(AND)] + multiset(r)[UnaryOp(AND)] + 1
  {
    AssignCountsInit(l);
    AssignCountsRest(r, store);
    assert multiset(code) == multiset(c) + multiset(rest);
  }

  lemma AssignCountsInit(l: seq<Instr>)
    ensures multiset(ClosureInitAddr(l))[ClosureStart(RetName)] == multiset(l)[ClosureStart(RetName)] + 1
    ensures multiset(ClosureInitAddr(l))[UnaryOp(AND)] == multiset(l)[UnaryOp(AND)] + 1
  {
    var lc := multiset([ClosureStart(RetName), DefineAddrStart]) + multiset([UnaryOp(AND), EndInit(1)]);
    assert multiset(ClosureInitAddr(l)) == multiset(l) + lc;
    assert lc[ClosureStart(RetName)] == 1 && lc[UnaryOp(AND)] == 1;
  }

  lemma AssignCountsRest(r: seq<Instr>, store: Instr)
    requires store.AssignHelper? || store.AssignOpHelper?
    ensures var rest := [ValAddr, ElemRef] + r + [store, ValAddr, Elem, Return(1), End, Call(0)];
            && multiset(rest)[ClosureStart(RetName)] == multiset(r)[ClosureStart(RetName)]
            && multiset(rest)[UnaryOp(AND)] == multiset(r)[UnaryOp(AND)]
  {
    var lr := multiset([ValAddr, ElemRef]) + multiset([store, ValAddr, Elem, Return(1), End, Call(0)]);
    assert multiset([ValAddr, ElemRef] + r + [store, ValAddr, Elem, Return(1), End, Call(0)]) == multiset(r) + lr;
    assert lr[ClosureStart(RetName)] == 0 && lr[UnaryOp(AND)] == 0;
  }

  /** Both assignment kinds pick the statement or the expression form by the
      flags, with the store their operator calls for. */
  lemma AssignDispatch(env: Env, v: Node, flags: Flags, store: Instr)
    requires (v.kind == BinaryOperator && v.opCode == "=") ||
             (v.kind == CompoundAssignOperator && v.opCode in AssignOps)
    requires store == if v.kind == BinaryOperator then AssignHelper else AssignOpHelper(AssignOps[v.opCode])
    ensures CompileExprEx(env, v, flags) ==
              if IgnoresResult(flags) then CompileSimpleAssign(env, v, store) else CompileAssign(env, v, store)
  {
    if v.kind == BinaryOperator {
      assert v.opCode !in BinaryOps;
      assert CompileExprEx(env, v, flags) == CompileBinaryExpr(env, v, flags);
      PlainAssignDispatch(env, v, flags);
    } else {
      assert CompileExprEx(env, v, flags) == CompileCompoundAssignOperator(env, v, flags);
      CompoundAssignDispatch(env, v, flags);
    }
  }

  lemma PlainAssignDispatch(env: Env, v: Node, flags: Flags)
    requires v.opCode == "="
    ensures CompileBinaryExpr(env, v, flags) ==
              if IgnoresResult(flags) then CompileSimpleAssign(env, v, AssignHelper) else CompileAssign(env, v, AssignHelper)
  {
    assert v.opCode !in BinaryOps;
  }

  lemma CompoundAssignDispatch(env: Env, v: Node, flags: Flags)
    requires v.opCode in AssignOps
    ensures var store := AssignOpHelper(AssignOps[v.opCode]);
            CompileCompoundAssignOperator(env, v, flags) ==
              if IgnoresResult(flags) then CompileSimpleAssign(env, v, store) else CompileAssign(env, v, store)
  {
  }

  lemma AssignCode(env: Env, v: Node, store: Instr)
    requires |v.inner| >= 2
    requires CompileExprLHS(env, v.inner[0]).Ok? && CompileExpr(env, v.inner[1]).Ok?
    ensures var l, r := CompileExprLHS(env, v.inner[0]).value, CompileExpr(env, v.inner[1]).value;
            && CompileSimpleAssign(env, v, store) == Ok(l + r + [store])
            && CompileAssign(env, v, store) ==
                 Ok([ClosureStart(RetName), DefineAddrStart] + l + [UnaryOp(AND), EndInit(1)]
                    + [ValAddr, ElemRef] + r + [store]
                    + [ValAddr, Elem, Return(1), End, Call(0)])
  {
  }

  /** `x++` and `x--` as statements: the operand's lvalue code comes first;
      a pointer is then viewed as a `uintptr` (`&x` cast to `*uintptr` and
      dereferenced) and moved by its element size with `+=`/`-=`, or by a
      plain `++`/`--` when that size is 1; anything else gets a plain
      `++`/`--`. */
  lemma IncDecStatement(env: Env, v: Node, flags: Flags)
    requires v.kind == UnaryOperator && (v.opCode == "++" || v.opCode == "--")
    requires IgnoresResult(flags) && !IsLHS(flags) && |v.inner| > 0
    requires CompileExprLHS(env, v.inner[0]).Ok?
    ensures var typ := env.typeOf(v.inner[0]);
            var tok := if v.opCode == "++" then INC else DEC;
            var scaled := typ.Pointer? && env.sizeof(typ.elem) != 1;
            var l := CompileExprLHS(env, v.inner[0]).value;
            var r := CompileExprEx(env, v, flags);
            && r.Ok? && |r.value| > |l| && r.value[..|l|] == l
            && (typ.Pointer? ==>
                  |r.value| >= |l| + 4 && r.value[|l|..|l| + 3] == [UnaryOp(AND), CastPtrToUintptrPtr, ElemRef])
            && (!typ.Pointer? ==> r.value == l + [IncDec(tok)])
            && (r.value[|r.value| - 1] == IncDec(tok) <==> !scaled)
            && (scaled ==>
                  |r.value| >= 2 &&
                  r.value[|r.value| - 2..] ==
                  [ValInt(env.sizeof(typ.elem)), AssignOp(if v.opCode == "++" then ADD_ASSIGN else SUB_ASSIGN)])
  {
    IncDecDispatch(env, v, flags);
    SimpleIncDecFacts(env, if v.opCode == "++" then INC else DEC, v);
  }

  lemma SimpleIncDecFacts(env: Env, tok: Token, v: Node)
    requires tok == INC || tok == DEC
    requires |v.inner| > 0 && CompileExprLHS(env, v.inner[0]).Ok?
    ensures var typ := env.typeOf(v.inner[0]);
            var scaled := typ.Pointer? && env.sizeof(typ.elem) != 1;
            var l := CompileExprLHS(env, v.inner[0]).value;
            var r := CompileSimpleIncDec(env, tok, v);
            && r.Ok? && |r.value| > |l| && r.value[..|l|] == l
            && (typ.Pointer? ==>
                  |r.value| >= |l| + 4 && r.value[|l|..|l| + 3] == [UnaryOp(AND), CastPtrToUintptrPtr, ElemRef])
            && (!typ.Pointer? ==> r.value == l + [IncDec(tok)])
            && (r.value[|r.value| - 1] == IncDec(tok) <==> !scaled)
            && (scaled ==>
                  |r.value| >= 2 &&
                  r.value[|r.value| - 2..] ==
                  [ValInt(env.sizeof(typ.elem)), AssignOp(if tok == INC then ADD_ASSIGN else SUB_ASSIGN)])
  {
    var l := CompileExprLHS(env, v.inner[0]).value;
    var typ := env.typeOf(v.inner[0]);
    if typ.Pointer? {
      var r := l + [UnaryOp(AND), CastPtrToUintptrPtr, ElemRef] + Step(tok, env.sizeof(typ.elem));
      assert CompileSimpleIncDec(env, tok, v) == Ok(r);
      PointerIncDecShape(r, l, tok, env.sizeof(typ.elem));
    } else {
      assert CompileSimpleIncDec(env, tok, v) == Ok(l + [IncDec(tok)]);
      Front(l, [IncDec(tok)]);
    }
  }

  lemma PointerIncDecShape(r: seq<Instr>, l: seq<Instr>, tok: Token, size: int)
    requires tok == INC || tok == DEC
    requires r == l + [UnaryOp(AND), CastPtrToUintptrPtr, ElemRef] + Step(tok, size)
    ensures |r| >= |l| + 4 && r[..|l|] == l && r[|l|..|l| + 3] == [UnaryOp(AND), CastPtrToUintptrPtr, ElemRef]
    ensures r[|r| - 1] == IncDec(tok) <==> size == 1
    ensures size != 1 ==> r[|r| - 2..] == [ValInt(size), AssignOp(if tok == INC then ADD_ASSIGN else SUB_ASSIGN)]
  {
    var view := [UnaryOp(AND), CastPtrToUintptrPtr, ElemRef];
    var step := Step(tok, size);
    assert r == l + (view + step);
    Front(l, view + step);
    Front(view, step);
    assert r[|r| - |step|..] == step;
  }

  /** What the `++`/`--` closure does once `_cgo_addr` is defined: postfix
      first saves `*addr` in the result; then `*addr` is updated through the
      address, by a plain `++`/`--` when the pointee size is 1 and by `+=`/`-=`
      of that size otherwise; then the closure returns the saved value
      (postfix) or the updated `*addr` (prefix) and is called at once. */
  ghost predicate IncDecBodyShape(t: seq<Instr>, tok: Token, size: int, postfix: bool)
  {
    var s := if postfix then 6 else 2;
    var n := if size == 1 then 1 else 2;
    && (tok == INC || tok == DEC)
    && |t| == s + n + (if postfix then 3 else 5)
    && (postfix ==> t[..4] == [VarRefRet, ValAddr, Elem, Assign(1)])
    && t[s - 2..s] == [ValOfAddr, ElemRef]
    && (size == 1 ==> t[s] == IncDec(tok))
    && (size != 1 ==> t[s..s + 2] == [ValInt(size), AssignOp(IncDecAssignOp(tok))])
    && (IncDec(tok) in t <==> size == 1)
    && (postfix ==> t[s + n..] == [Return(0), End, Call(0)])
    && (!postfix ==> t[s + n..] == [ValAddr, Elem, Return(1), End, Call(0)])
  }

  /** The `++`/`--` closure around the target code `l`: the address of the
      target is taken once, at the start, and the rest, which does not depend
      on `l`, has the shape above. */
  ghost predicate IncDecClosureShape(r: seq<Instr>, l: seq<Instr>, tok: Token, size: int, postfix: bool)
  {
    var k := |ClosureInitAddr(l)|;
    && |r| >= k
    && r[..k] == ClosureInitAddr(l)
    && IncDecBodyShape(r[k..], tok, size, postfix)
  }

  /** `x++` and `x--` as expressions compile to that closure. */
  lemma IncDecExpression(env: Env, v: Node, flags: Flags)
    requires v.kind == UnaryOperator && (v.opCode == "++" || v.opCode == "--")
    requires !IgnoresResult(flags) && !IsLHS(flags) && |v.inner| > 0
    requires CompileExprLHS(env, v.inner[0]).Ok?
    ensures var r := CompileExprEx(env, v, flags);
            && r.Ok?
            && IncDecClosureShape(r.value, CompileExprLHS(env, v.inner[0]).value,
                                  if v.opCode == "++" then INC else DEC,
                                  env.valOfAddr(env.typeOf(v.inner[0])), v.isPostfix)
  {
    var l := CompileExprLHS(env, v.inner[0]).value;
    var tok := if v.opCode == "++" then INC else DEC;
    var size := env.valOfAddr(env.typeOf(v.inner[0]));
    IncDecDispatch(env, v, flags);
    assert CompileIncDec(env, tok, v) == Ok(IncDecClosure(l, tok, size, v.isPostfix));
    IncDecClosureFacts(l, tok, size, v.isPostfix);
  }

  /** A read of `x++` or `x--` goes to `compileSimpleIncDec` as a statement
      and to `compileIncDec` otherwise. */
  lemma IncDecDispatch(env: Env, v: Node, flags: Flags)
    requires v.kind == UnaryOperator && (v.opCode == "++" || v.opCode == "--") && !IsLHS(flags)
    ensures var tok := if v.opCode == "++" then INC else DEC;
            CompileExprEx(env, v, flags) ==
              if IgnoresResult(flags) then CompileSimpleIncDec(env, tok, v) else CompileIncDec(env, tok, v)
  {
    assert v.opCode != "*" && v.opCode !in UnaryOps;
    assert CompileExprEx(env, v, flags) == CompileUnaryOperator(env, v, flags);
  }

  lemma IncDecClosureFacts(l: seq<Instr>, tok: Token, size: int, postfix: bool)
    requires tok == INC || tok == DEC
    ensures IncDecClosureShape(IncDecClosure(l, tok, size, postfix), l, tok, size, postfix)
  {
    var c, t := ClosureInitAddr(l), IncDecBody(tok, size, postfix);
    IncDecBodyFacts(tok, size, postfix);
    assert (c + t)[..|c|] == c && (c + t)[|c|..] == t;
  }

  lemma IncDecBodyFacts(tok: Token, size: int, postfix: bool)
    requires tok == INC || tok == DEC
    ensures IncDecBodyShape(IncDecBody(tok, size, postfix), tok, size, postfix)
  {
    IncDecBodyForms(tok, size, postfix);
    if size == 1 {
      IncDecStepOne(tok, postfix);
    } else {
      IncDecStepScaled(tok, size, postfix);
    }
  }

  lemma IncDecStepOne(tok: Token, postfix: bool)
    requires tok == INC || tok == DEC
    ensures var step := [IncDec(tok)];
            IncDecBodyShape(if postfix then [VarRefRet, ValAddr, Elem, Assign(1), ValOfAddr, ElemRef] + step + [Return(0), End, Call(0)]
                            else [ValOfAddr, ElemRef] + step + [ValAddr, Elem, Return(1), End, Call(0)], tok, 1, postfix)
  {
    var t := if postfix then [VarRefRet, ValAddr, Elem, Assign(1), ValOfAddr, ElemRef] + [IncDec(tok)] + [Return(0), End, Call(0)]
             else [ValOfAddr, ElemRef] + [IncDec(tok)] + [ValAddr, Elem, Return(1), End, Call(0)];
    var s := if postfix then 6 else 2;
    assert t[s] == IncDec(tok);
  }

  lemma IncDecStepScaled(tok: Token, size: int, postfix: bool)
    requires tok == INC || tok == DEC
    requires size != 1
    ensures var step := [ValInt(size), AssignOp(IncDecAssignOp(tok))];
            IncDecBodyShape(if postfix then [VarRefRet, ValAddr, Elem, Assign(1), ValOfAddr, ElemRef] + step + [Return(0), End, Call(0)]
                            else [ValOfAddr, ElemRef] + step + [ValAddr, Elem, Return(1), End, Call(0)], tok, size, postfix)
  {
    var op := AssignOp(IncDecAssignOp(tok));
    if postfix {
      var t := [VarRefRet, ValAddr, Elem, Assign(1), ValOfAddr, ElemRef, ValInt(size), op, Return(0), End, Call(0)];
      assert [VarRefRet, ValAddr, Elem, Assign(1), ValOfAddr, ElemRef] + [ValInt(size), op] + [Return(0), End, Call(0)] == t;
      IncDecScaledPostfix(t, tok, size);
    } else {
      var t := [ValOfAddr, ElemRef, ValInt(size), op, ValAddr, Elem, Return(1), End, Call(0)];
      assert [ValOfAddr, ElemRef] + [ValInt(size), op] + [ValAddr, Elem, Return(1), End, Call(0)] == t;
      IncDecScaledPrefix(t, tok, size);
    }
  }

  lemma IncDecScaledPostfix(t: seq<Instr>, tok: Token, size: int)
    requires tok == INC || tok == DEC
    requires size != 1
    requires t == [VarRefRet, ValAddr, Elem, Assign(1), ValOfAddr, ElemRef, ValInt(size), AssignOp(IncDecAssignOp(tok)),
                   Return(0), End, Call(0)]
    ensures IncDecBodyShape(t, tok, size, true)
  {
    assert forall j :: 0 <= j < |t| ==> t[j] != IncDec(tok);
  }

  lemma IncDecScaledPrefix(t: seq<Instr>, tok: Token, size: int)
    requires tok == INC || tok == DEC
    requires size != 1
    requires t == [ValOfAddr, ElemRef, ValInt(size), AssignOp(IncDecAssignOp(tok)), ValAddr, Elem, Return(1), End, Call(0)]
    ensures IncDecBodyShape(t, tok, size, false)
  {
    assert forall j :: 0 <= j < |t| ==> t[j] != IncDec(tok);
  }

  /** `*p`: the operand is compiled once, as an rvalue, and at most one call
      follows it: an element reference as an lvalue, a dereference when read,
      and none when a function is read. */
  lemma StarOperand(env: Env, v: Node, flags: Flags)
    requires v.kind == UnaryOperator && v.opCode == "*" && |v.inner| > 0
    requires CompileExpr(env, v.inner[0]).Ok?
    ensures var x := CompileExpr(env, v.inner[0]).value;
            var fn := env.isFunc(env.typeOf(v.inner[0]));
            var code := CompileExprEx(env, v, flags);
            && code.Ok? && |code.value| == |x| + (if !IsLHS(flags) && fn then 0 else 1)
            && code.value[..|x|] == x
            && (IsLHS(flags) ==> code.value[|x|] == ElemRef)
            && (!IsLHS(flags) && !fn ==> code.value[|x|] == Elem)
  {
    var x := CompileExpr(env, v.inner[0]).value;
    assert CompileExprEx(env, v, flags) == CompileUnaryOperator(env, v, flags);
    assert CompileUnaryOperator(env, v, flags) == CompileStarExpr(env, v, IsLHS(flags));
    assert (x + [ElemRef])[..|x|] == x && (x + [Elem])[..|x|] == x;
  }

  /** The comma closure around the code `a` of the left operand, compiled
      with its result ignored, and the code `b` of the right one: one closure
      with no result name is opened; `a` comes first and is ended as a
      statement; the closure returns `b` and is called at once. */
  ghost predicate CommaForm(code: seq<Instr>, a: seq<Instr>, b: seq<Instr>)
  {
    && |code| == |a| + |b| + 5
    && code[0] == ClosureStart("")
    && code[1..1 + |a|] == a && code[1 + |a|] == EndStmt
    && code[2 + |a|..2 + |a| + |b|] == b && code[2 + |a| + |b|..] == [Return(1), End, Call(0)]
    && multiset(code)[ClosureStart("")] == multiset(a)[ClosureStart("")] + multiset(b)[ClosureStart("")] + 1
  }

  /** `a, b` compiles to that closure, whatever the flags. */
  lemma CommaOperands(env: Env, v: Node, flags: Flags)
    requires v.kind == BinaryOperator && v.opCode == "," && |v.inner| >= 2
    requires CompileExprEx(env, v.inner[0], FlagIgnoreResult).Ok? && CompileExpr(env, v.inner[1]).Ok?
    ensures var code := CompileExprEx(env, v, flags);
            && code.Ok?
            && CommaForm(code.value, CompileExprEx(env, v.inner[0], FlagIgnoreResult).value,
                         CompileExpr(env, v.inner[1]).value)
  {
    CommaDispatch(env, v, flags);
    CommaCode(env, v);
  }

  lemma CommaDispatch(env: Env, v: Node, flags: Flags)
    requires v.kind == BinaryOperator && v.opCode == ","
    ensures CompileExprEx(env, v, flags) == CompileCommaExpr(env, v)
  {
    assert v.opCode !in BinaryOps;
    assert CompileExprEx(env, v, flags) == CompileBinaryExpr(env, v, flags);
  }

  lemma CommaCode(env: Env, v: Node)
    requires |v.inner| >= 2
    requires CompileExprEx(env, v.inner[0], FlagIgnoreResult).Ok? && CompileExpr(env, v.inner[1]).Ok?
    ensures var code := CompileCommaExpr(env, v);
            && code.Ok?
            && CommaForm(code.value, CompileExprEx(env, v.inner[0], FlagIgnoreResult).value,
                         CompileExpr(env, v.inner[1]).value)
  {
    var a, b := CompileExprEx(env, v.inner[0], FlagIgnoreResult).value, CompileExpr(env, v.inner[1]).value;
    CommaShape(CompileCommaExpr(env, v).value, a, b);
  }

  lemma CommaShape(code: seq<Instr>, a: seq<Instr>, b: seq<Instr>)
    requires code == [ClosureStart("")] + a + [EndStmt] + b + [Return(1), End, Call(0)]
    ensures CommaForm(code, a, b)
  {
    var rest := [EndStmt] + b + [Return(1), End, Call(0)];
    CommaAssoc(code, a, b, rest);
    CommaRest(rest, b);
    CommaCounts(code, a, b);
    CommaSplit(code, a, b, rest);
  }

  lemma CommaSplit(code: seq<Instr>, a: seq<Instr>, b: seq<Instr>, rest: seq<Instr>)
    requires code == [ClosureStart("")] + (a + rest)
    requires |rest| == |b| + 4 && rest[0] == EndStmt
    requires rest[1..1 + |b|] == b && rest[1 + |b|..] == [Return(1), End, Call(0)]
    requires multiset(code)[ClosureStart("")] == multiset(a)[ClosureStart("")] + multiset(b)[ClosureStart("")] + 1
    ensures CommaForm(code, a, b)
  {
    var tail := a + rest;
    Shift([ClosureStart("")], tail, 0, |a|);
    Shift(a, rest, 0, 1);
    Shift([ClosureStart("")], tail, |a| + 1, |a| + 1 + |b|);
    Shift(a, rest, 1, 1 + |b|);
    Shift([ClosureStart("")], tail, |a| + 1 + |b|, |tail|);
    Shift(a, rest, 1 + |b|, |rest|);
    Front(a, rest);
  }

  /** A slice of `p + y` past `p` is a slice of `y`. */
  lemma Shift(p: seq<Instr>, y: seq<Instr>, i: nat, j: nat)
    requires i <= j <= |y|
    ensures (p + y)[|p| + i..|p| + j] == y[i..j]
  {
  }

  lemma CommaAssoc(code: seq<Instr>, a: seq<Instr>, b: seq<Instr>, rest: seq<Instr>)
    requires code == [ClosureStart("")] + a + [EndStmt] + b + [Return(1), End, Call(0)]
    requires rest == [EndStmt] + b + [Return(1), End, Call(0)]
    ensures code == [ClosureStart("")] + (a + rest)
  {
  }

  lemma CommaRest(rest: seq<Instr>, b: seq<Instr>)
    requires rest == [EndStmt] + b + [Return(1), End, Call(0)]
    ensures |rest| == |b| + 4 && rest[0] == EndStmt
    ensures rest[1..1 + |b|] == b && rest[1 + |b|..] == [Return(1), End, Call(0)]
  {
    assert rest == [EndStmt] + (b + [Return(1), End, Call(0)]);
    Front([EndStmt], b + [Return(1), End, Call(0)]);
    Front(b, [Return(1), End, Call(0)]);
  }

  lemma CommaCounts(code: seq<Instr>, a: seq<Instr>, b: seq<Instr>)
    requires code == [ClosureStart("")] + a + [EndStmt] + b + [Return(1), End, Call(0)]
    ensures multiset(code)[ClosureStart("")] == multiset(a)[ClosureStart("")] + multiset(b)[ClosureStart("")] + 1
  {
    var lits := multiset([ClosureStart("")]) + multiset([EndStmt]) + multiset([Return(1), End, Call(0)]);
    assert multiset(code) == multiset(a) + multiset(b) + lits;
    assert lits[ClosureStart("")] == 1;
  }

  /** `c ? a : b`: exactly one closure of the result type and one `if` are
      opened; the test `c` comes first and is the only operand cast to bool;
      each branch returns its value. */
  lemma ConditionalBranches(env: Env, v: Node, flags: Flags)
    requires v.kind == ConditionalOperator && |v.inner| >= 3
    requires CompileExpr(env, v.inner[0]).Ok? && CompileExpr(env, v.inner[1]).Ok? &&
             CompileExpr(env, v.inner[2]).Ok?
    ensures var c, a, b := CompileExpr(env, v.inner[0]).value, CompileExpr(env, v.inner[1]).value,
                           CompileExpr(env, v.inner[2]).value;
            var code := CompileExprEx(env, v, flags);
            code.Ok? && ConditionalForm(code.value, c, a, b, v.qualType)
  {
    var c, a, b := CompileExpr(env, v.inner[0]).value, CompileExpr(env, v.inner[1]).value,
                   CompileExpr(env, v.inner[2]).value;
    assert CompileExprEx(env, v, flags) == CompileConditionalOperator(env, v);
    ConditionalShape3(CompileExprEx(env, v, flags).value, c, a, b, v.qualType);
  }

  /** The code of `c ? a : b` with result type `typ`: a closure and an `if`
      are opened, the test `c` comes first and is cast to bool, and the
      branches and the counts are as below. */
  ghost predicate ConditionalForm(code: seq<Instr>, c: seq<Instr>, a: seq<Instr>, b: seq<Instr>, typ: string)
  {
    && |code| == |c| + |a| + |b| + 10
    && code[..2] == [ClosureStartT(typ), If]
    && code[2..2 + |c|] == c && code[2 + |c|..4 + |c|] == [CastToBool, Then]
    && ConditionalBranchPlaces(code, c, a, b)
    && ConditionalCounts(code, c, a, b, typ)
  }

  /** Where the branches go: after the test, the `then` operand and its
      return, then `Else`, the `else` operand and its return, and the ends of
      the `if` and of the closure, which is called at once. */
  ghost predicate ConditionalBranchPlaces(code: seq<Instr>, c: seq<Instr>, a: seq<Instr>, b: seq<Instr>)
  {
    var p := 4 + |c|;
    && |code| == |c| + |a| + |b| + 10
    && code[p..p + |a|] == a && code[p + |a|..p + |a| + 2] == [Return(1), Else]
    && code[p + |a| + 2..p + |a| + 2 + |b|] == b
    && code[|code| - 4..] == [Return(1), End, End, Call(0)]
  }

  /** The calls a conditional adds to those of its three operands. */
  ghost predicate ConditionalCounts(code: seq<Instr>, c: seq<Instr>, a: seq<Instr>, b: seq<Instr>, typ: string)
  {
    var m := multiset(c) + multiset(a) + multiset(b);
    && multiset(code)[ClosureStartT(typ)] == m[ClosureStartT(typ)] + 1
    && multiset(code)[If] == m[If] + 1
    && multiset(code)[CastToBool] == m[CastToBool] + 1
    && multiset(code)[Return(1)] == m[Return(1)] + 2
  }

  lemma ConditionalShape3(code: seq<Instr>, c: seq<Instr>, a: seq<Instr>, b: seq<Instr>, typ: string)
    requires code == [ClosureStartT(typ), If] + c + [CastToBool, Then] + a + [Return(1), Else] + b
                     + [Return(1), End, End, Call(0)]
    ensures ConditionalForm(code, c, a, b, typ)
  {
    var rest := [CastToBool, Then] + a + [Return(1), Else] + b + [Return(1), End, End, Call(0)];
    ConditionalAssoc(c, a, b, typ, rest);
    ConditionalFront(code, c, rest, typ);
    ConditionalRest(rest, a, b);
    ConditionalPlaces(code, c, a, b, rest, typ);
    ConditionalCountsOf(code, c, a, b, typ);
  }

  lemma ConditionalRest(rest: seq<Instr>, a: seq<Instr>, b: seq<Instr>)
    requires rest == [CastToBool, Then] + a + [Return(1), Else] + b + [Return(1), End, End, Call(0)]
    ensures |rest| == |a| + |b| + 8
    ensures rest[2..2 + |a|] == a && rest[2 + |a|..4 + |a|] == [Return(1), Else]
    ensures rest[4 + |a|..4 + |a| + |b|] == b && rest[4 + |a| + |b|..] == [Return(1), End, End, Call(0)]
  {
    var t := [Return(1), End, End, Call(0)];
    assert rest == [CastToBool, Then] + (a + ([Return(1), Else] + (b + t)));
    Front([CastToBool, Then], a + ([Return(1), Else] + (b + t)));
    Front(a, [Return(1), Else] + (b + t));
    Front([Return(1), Else], b + t);
    Front(b, t);
  }

  lemma ConditionalPlaces(code: seq<Instr>, c: seq<Instr>, a: seq<Instr>, b: seq<Instr>, rest: seq<Instr>, typ: string)
    requires code == [ClosureStartT(typ), If] + (c + rest)
    requires |rest| == |a| + |b| + 8
    requires rest[2..2 + |a|] == a && rest[2 + |a|..4 + |a|] == [Return(1), Else]
    requires rest[4 + |a|..4 + |a| + |b|] == b && rest[4 + |a| + |b|..] == [Return(1), End, End, Call(0)]
    ensures ConditionalBranchPlaces(code, c, a, b)
  {
    var h := [ClosureStartT(typ), If];
    var n := |a| + |b|;
    Shift(h, c + rest, |c| + 2, |c| + 2 + |a|);
    Shift(c, rest, 2, 2 + |a|);
    Shift(h, c + rest, |c| + 2 + |a|, |c| + 4 + |a|);
    Shift(c, rest, 2 + |a|, 4 + |a|);
    Shift(h, c + rest, |c| + 4 + |a|, |c| + 4 + n);
    Shift(c, rest, 4 + |a|, 4 + n);
    Shift(h, c + rest, |c| + 4 + n, |c| + |rest|);
    Shift(c, rest, 4 + n, |rest|);
  }

  lemma ConditionalAssoc(c: seq<Instr>, a: seq<Instr>, b: seq<Instr>, typ: string, rest: seq<Instr>)
    requires rest == [CastToBool, Then] + a + [Return(1), Else] + b + [Return(1), End, End, Call(0)]
    ensures [ClosureStartT(typ), If] + c + [CastToBool, Then] + a + [Return(1), Else] + b
            + [Return(1), End, End, Call(0)] == [ClosureStartT(typ), If] + (c + rest)
    ensures |rest| >= 2 && rest[..2] == [CastToBool, Then]
  {
  }

  lemma ConditionalFront(code: seq<Instr>, c: seq<Instr>, rest: seq<Instr>, typ: string)
    requires code == [ClosureStartT(typ), If] + (c + rest)
    requires |rest| >= 2 && rest[..2] == [CastToBool, Then]
    ensures code[..2] == [ClosureStartT(typ), If]
    ensures code[2..2 + |c|] == c && code[2 + |c|..4 + |c|] == [CastToBool, Then]
  {
    Front([ClosureStartT(typ), If], c + rest);
    Front(c, rest);
  }

  lemma ConditionalCountsOf(code: seq<Instr>, c: seq<Instr>, a: seq<Instr>, b: seq<Instr>, typ: string)
    requires code == [ClosureStartT(typ), If] + c + [CastToBool, Then] + a + [Return(1), Else] + b
                     + [Return(1), End, End, Call(0)]
    ensures ConditionalCounts(code, c, a, b, typ)
  {
    var lits := multiset([ClosureStartT(typ), If]) + multiset([CastToBool, Then]) + multiset([Return(1), Else])
                + multiset([Return(1), End, End, Call(0)]);
    assert multiset(code) == multiset(c) + multiset(a) + multiset(b) + lits;
    assert lits[ClosureStartT(typ)] == 1 && lits[If] == 1 && lits[CastToBool] == 1 && lits[Return(1)] == 2;
  }

  lemma Front(x: seq<Instr>, y: seq<Instr>)
    ensures (x + y)[..|x|] == x && (x + y)[|x|..] == y
  {
  }

  /** Calls to `__builtin_va_start` and `__builtin_va_end` emit nothing;
      a call emits nothing only then, or when the node has no children. */
  lemma CallEmitsNothing(env: Env, v: Node, flags: Flags)
    requires v.kind == CallExpr
    requires CompileExprEx(env, v, flags).Ok?
    ensures CompileExprEx(env, v, flags).value == [] <==>
              |v.inner| == 0 || IsVaStartEnd(v) == Ok(true)
  {
    assert CompileExprEx(env, v, flags) == CallExprCode(env, v);
  }

  /** A call compiles the callee and every argument in order and calls with
      `n - 1` arguments; the last argument is replaced by the `va_list`
      with the ellipsis flag exactly when there are more than two children
      and the last one has `va_list` type. */
  lemma CallArguments(env: Env, v: Node, flags: Flags)
    requires v.kind == CallExpr && |v.inner| > 0
    requires IsVaStartEnd(v) == Ok(false)
    requires ArgsCode(env, v, 0).Ok?
    ensures var args := ArgsCode(env, v, 0).value;
            var n := |v.inner|;
            var ellipsis := n > 2 && env.isValist(env.typeOf(v.inner[n - 1]));
            var r := CompileExprEx(env, v, flags);
            && r.Ok? && |r.value| == |args| + (if ellipsis then 3 else 1)
            && r.value[..|args|] == args
            && r.value[|r.value| - 1] == CallWith(n - 1, ellipsis)
            && (ellipsis ==> r.value[|args|..|args| + 2] == [PopStack, ValValist])
  {
    var args := ArgsCode(env, v, 0).value;
    var e := Ellipsis(env, v);
    var tail := (if e then [PopStack, ValValist] else []) + [CallWith(|v.inner| - 1, e)];
    assert CompileExprEx(env, v, flags) == CallExprCode(env, v);
    assert CallExprCode(env, v)
        == Ok(args + (if e then [PopStack, ValValist] else []) + [CallWith(|v.inner| - 1, e)]);
    assert args + (if e then [PopStack, ValValist] else []) + [CallWith(|v.inner| - 1, e)] == args + tail;
    assert (args + tail)[..|args|] == args;
    assert (args + tail)[|args|..] == tail;
  }

  /** The argument code is the code of each child, in order. */
  lemma {:induction false} ArgsInOrder(env: Env, v: Node, i: nat)
    requires i < |v.inner|
    requires ArgsCode(env, v, i).Ok?
    ensures CompileExpr(env, v.inner[i]).Ok? && ArgsCode(env, v, i + 1).Ok?
    ensures ArgsCode(env, v, i).value == CompileExpr(env, v.inner[i]).value + ArgsCode(env, v, i + 1).value
  {
  }

  /** If any child panics, so does the argument code. */
  lemma {:induction false} ArgsPanic(env: Env, v: Node, i: nat, j: nat)
    requires i <= j < |v.inner|
    requires CompileExpr(env, v.inner[j]).Panic?
    ensures ArgsCode(env, v, i).Panic?
    decreases j - i
  {
    if i < j {
      ArgsPanic(env, v, i + 1, j);
    }
  }

  /** The argument code exists exactly when every child from `i` on compiles. */
  lemma {:induction false} ArgsSucceed(env: Env, v: Node, i: nat)
    requires i <= |v.inner|
    ensures ArgsCode(env, v, i).Ok? <==> forall j :: i <= j < |v.inner| ==> CompileExpr(env, v.inner[j]).Ok?
  {
    if ArgsCode(env, v, i).Ok? {
      ArgsOkAll(env, v, i);
    }
    if !ArgsCode(env, v, i).Ok? {
      var j := FailingArg(env, v, i);
    }
  }

  lemma ArgsOkAll(env: Env, v: Node, i: nat)
    requires i <= |v.inner| && ArgsCode(env, v, i).Ok?
    ensures forall j :: i <= j < |v.inner| ==> CompileExpr(env, v.inner[j]).Ok?
  {
    forall j | i <= j < |v.inner|
      ensures CompileExpr(env, v.inner[j]).Ok?
    {
      if CompileExpr(env, v.inner[j]).Panic? {
        ArgsPanic(env, v, i, j);
      }
    }
  }

  /** A failing argument list has an argument that fails to compile. */
  lemma {:induction false} FailingArg(env: Env, v: Node, i: nat) returns (j: nat)
    requires i <= |v.inner| && !ArgsCode(env, v, i).Ok?
    ensures i <= j < |v.inner| && !CompileExpr(env, v.inner[j]).Ok?
    decreases |v.inner| - i
  {
    ArgsStep(env, v, i);
    if CompileExpr(env, v.inner[i]).Ok? {
      j := FailingArg(env, v, i + 1);
    } else {
      j := i;
    }
  }

  lemma ArgsStep(env: Env, v: Node, i: nat)
    requires i < |v.inner|
    ensures ArgsCode(env, v, i).Ok? <==> CompileExpr(env, v.inner[i]).Ok? && ArgsCode(env, v, i + 1).Ok?
  {
  }

  /** A builtin function reference is recorded among the external functions
      exactly when it refers by name to a declaration the package has; the
      reference itself is compiled after that, unchanged. */
  lemma BuiltinFnMark(env: Env, v: Node, flags: Flags)
    requires v.kind == ImplicitCastExpr && v.castKind == BuiltinFnToFnPtr && |v.inner| > 0
    requires CompileExpr(env, v.inner[0]).Ok?
    ensures var e := CompileExpr(env, v.inner[0]).value;
            var fn := v.inner[0];
            var known := fn.kind == DeclRefExpr && fn.ref.Some? && env.inPkg(fn.ref.value);
            var code := CompileExprEx(env, v, flags);
            && code.Ok? && |code.value| == |e| + (if known then 1 else 0)
            && code.value[|code.value| - |e|..] == e
            && (known ==> code.value[0] == ExtFn(fn.ref.value))
  {
    var e := CompileExpr(env, v.inner[0]).value;
    var fn := GetBuiltinFn(v.inner[0]);
    var mark := if fn.Some? && env.inPkg(fn.value) then [ExtFn(fn.value)] else [];
    BuiltinFnCode(env, v, flags);
    Front(mark, e);
  }

  lemma BuiltinFnCode(env: Env, v: Node, flags: Flags)
    requires v.kind == ImplicitCastExpr && v.castKind == BuiltinFnToFnPtr && |v.inner| > 0
    requires CompileExpr(env, v.inner[0]).Ok?
    ensures var fn := GetBuiltinFn(v.inner[0]);
            var mark := if fn.Some? && env.inPkg(fn.value) then [ExtFn(fn.value)] else [];
            CompileExprEx(env, v, flags) == Ok(mark + CompileExpr(env, v.inner[0]).value)
  {
    assert CompileExprEx(env, v, flags) == CompileImplicitCastExpr(env, v);
  }

  /** A unary operator of the table, read, compiles its operand and then the
      helper for its Go token; `__extension__` and unary `+` compile the
      operand alone. */
  lemma UnaryOperand(env: Env, v: Node, flags: Flags)
    requires v.kind == UnaryOperator && !IsLHS(flags) && |v.inner| > 0
    requires v.opCode in UnaryOps || v.opCode == "__extension__" || v.opCode == "+"
    requires CompileExpr(env, v.inner[0]).Ok?
    ensures var x := CompileExpr(env, v.inner[0]).value;
            var code := CompileExprEx(env, v, flags);
            && code.Ok?
            && (v.opCode in UnaryOps ==>
                  |code.value| == |x| + 1 && code.value[..|x|] == x &&
                  code.value[|x|] == UnaryOpHelper(UnaryOps[v.opCode]))
            && (v.opCode !in UnaryOps ==> code.value == x)
  {
    var x := CompileExpr(env, v.inner[0]).value;
    assert v.opCode != "*";
    assert CompileExprEx(env, v, flags) == CompileUnaryOperator(env, v, flags);
    if v.opCode in UnaryOps {
      assert (x + [UnaryOpHelper(UnaryOps[v.opCode])])[..|x|] == x;
    }
  }

  /** A member access compiles the object once, then selects the member by
      its keyword-safe name, as a reference for an lvalue and as a value
      otherwise; an anonymous member selects nothing. */
  lemma MemberSelect(env: Env, v: Node, flags: Flags)
    requires v.kind == MemberExpr && |v.inner| > 0
    requires CompileExpr(env, v.inner[0]).Ok?
    ensures var x := CompileExpr(env, v.inner[0]).value;
            var name := env.avoid(v.name);
            var code := CompileExprEx(env, v, flags);
            && code.Ok?
            && (name == "" ==> code.value == x)
            && (name != "" ==>
                  |code.value| == |x| + 1 && code.value[..|x|] == x &&
                  code.value[|x|] == if IsLHS(flags) then MemberRef(name) else MemberVal(name))
  {
    var x := CompileExpr(env, v.inner[0]).value;
    var name := env.avoid(v.name);
    assert CompileExprEx(env, v, flags) == CompileMemberExpr(env, v, IsLHS(flags));
    assert (x + [MemberRef(name)])[..|x|] == x && (x + [MemberVal(name)])[..|x|] == x;
  }

  /** A variable reference succeeds exactly when the node names a declaration
      whose keyword-safe name the scope chain has; it is one call, a reference
      for an lvalue and a value otherwise. */
  lemma DeclRefResolves(env: Env, v: Node, flags: Flags)
    requires v.kind == DeclRefExpr
    ensures var code := CompileExprEx(env, v, flags);
            && (code.Ok? <==> v.ref.Some? && env.lookup(env.avoid(v.ref.value)))
            && (code.Ok? ==>
                  var name := env.avoid(v.ref.value);
                  code.value == [if IsLHS(flags) then VarRefObj(name) else ValObj(name)])
  {
    assert CompileExprEx(env, v, flags) == CompileDeclRefExpr(env, v, IsLHS(flags));
  }

  /** `offsetof(T, f)` succeeds exactly when the source text names a struct
      type `T` (under any named wrappers) that has a field `f`, and then
      pushes the layout offset of the first such field. */
  lemma OffsetOfValue(env: Env, v: Node)
    ensures var p := ParamsOfOffsetof(env.src, v.range);
            var code := CompileOffsetOfExpr(env, v);
            && (code.Ok? <==>
                  p.Ok? && Underlying(env.toType(p.value.0)).Struct? &&
                  FieldIndex(Underlying(env.toType(p.value.0)).fields, p.value.1, 0).Some?)
            && (code.Ok? ==>
                  var fs := Underlying(env.toType(p.value.0)).fields;
                  var idx := FieldIndex(fs, p.value.1, 0).value;
                  code.value == [ValInt(env.layout(fs[..idx + 1])[idx])])
  {
    var p := ParamsOfOffsetof(env.src, v.range);
    if p.Ok? {
      OffsetofFound(env.toType(p.value.0), p.value.1, env.layout);
    }
  }

  /** `sizeof e` compiles `e`, drops its value and pushes the size of its
      type; `sizeof(T)` pushes the size of the type written in the source. */
  lemma SizeofValue(env: Env, v: Node, flags: Flags)
    requires v.kind == UnaryExprOrTypeTraitExpr && v.name == "sizeof"
    ensures var code := CompileExprEx(env, v, flags);
            && (|v.inner| > 0 && CompileExpr(env, v.inner[0]).Ok? ==>
                  var e := CompileExpr(env, v.inner[0]).value;
                  && code.Ok? && |code.value| == |e| + 2 && code.value[..|e|] == e
                  && code.value[|e|..] == [PopStack, ValInt(env.sizeof(env.typeOf(v.inner[0])))])
            && (|v.inner| == 0 ==>
                  var t := ParamOfSizeof(env.src, v.range);
                  && (code.Ok? <==> t.Ok?)
                  && (code.Ok? ==> code.value == [ValInt(env.sizeof(env.toType(t.value)))]))
  {
    assert CompileExprEx(env, v, flags) == CompileSizeof(env, v);
    if |v.inner| > 0 && CompileExpr(env, v.inner[0]).Ok? {
      var e := CompileExpr(env, v.inner[0]).value;
      Front(e, [PopStack, ValInt(env.sizeof(env.typeOf(v.inner[0])))]);
    }
  }
}
