/** The expression compiler: from a C AST node to the sequence of code
    builder calls it makes. The builder itself is opaque; each call it
    receives is one `Instr`, and helpers outside this model (`binaryOp`,
    `assign`, `castToBoolExpr`, ...) are one `Instr` each. */
module Expr {
  import opened Wrappers
  import opened CTypes
  import opened Scan
  import opened Tokens

  datatype Kind =
    | BinaryOperator | UnaryOperator | DeclRefExpr | MemberExpr | CallExpr
    | CompoundAssignOperator | ImplicitCastExpr | IntegerLiteral | StringLiteral
    | CharacterLiteral | FloatingLiteral | ParenExpr | ConstantExpr | CStyleCastExpr
    | ArraySubscriptExpr | UnaryExprOrTypeTraitExpr | ImplicitValueInitExpr
    | ConditionalOperator | ImaginaryLiteral | VAArgExpr | AtomicExpr | OffsetOfExpr
    | OtherKind(name: string)

  datatype CastKind =
    | NoCast | LValueToRValue | NoOp | BuiltinFnToFnPtr | FunctionToPointerDecay
    | ArrayToPointerDecay | IntegralCast | FloatingCast | BitCast | IntegralToFloating
    | FloatingToIntegral | FloatingComplexCast | FloatingRealToComplex | NullToPointer
    | ToVoid | OtherCast(name: string)

  /** The JSON value of a literal node: a string, or a number (character
      literals carry their code point). */
  datatype Value = NoValue | Str(s: string) | Num(n: int)

  /** A clang AST node, reduced to the fields the compiler reads. `ref` is
      the name of the referenced declaration, `qualType` the node's type
      string, `range` its extent in the source text. */
  datatype Node = Node(kind: Kind, opCode: OpCode, name: string, value: Value,
                       castKind: CastKind, isPostfix: bool, ref: Option<string>,
                       qualType: string, range: Range, inner: seq<Node>)

  /** `flagLHS` and `flagIgnoreResult`. */
  type Flags = bv8
  const FlagLHS: Flags := 1
  const FlagIgnoreResult: Flags := 2

  predicate IsLHS(flags: Flags) { flags & FlagLHS != 0 }
  predicate IgnoresResult(flags: Flags) { flags & FlagIgnoreResult != 0 }

  /** What the compiler consults but does not compute: scope lookup, keyword
      renaming, literal unquoting, the Go type of the value a node leaves on
      the builder's stack, type predicates and sizes, type-string parsing,
      struct layout and the source text. */
  datatype Env = Env(
    lookup: string -> bool,
    inPkg: string -> bool,
    avoid: string -> string,
    unquote: string -> Option<string>,
    typeOf: Node -> Ty,
    isValist: Ty -> bool,
    isFunc: Ty -> bool,
    sizeof: Ty -> int,
    valOfAddr: Ty -> int,
    toType: string -> Ty,
    layout: Offsets,
    src: string)

  const RetName := "_cgo_ret"
  const AddrVarName := "_cgo_addr"

  /** One call on the code builder (or on a helper that drives it). */
  datatype Instr =
    | Lit(tok: Token, text: string)     // cb.Val(&BasicLit{...})
    | CharLit(code: int)                // cb.Val(rune(...))
    | StringLit(text: string)           // stringLit
    | MakeImag                          // turn the literal on top into an imaginary one
    | ValObj(obj: string) | VarRefObj(obj: string)
    | VarRefNil | VarRefRet             // cb.VarRef(nil), cb.VarRef(ret)
    | ValAddr                           // cb.Val(addr)
    | ValOfAddr                         // valOfAddr
    | ValInt(n: int) | ValNil | ValValist
    | PopStack
    | ElemRef | Elem
    | MemberRef(member: string) | MemberVal(member: string)
    | BinaryOp(op: Token)               // cb.BinaryOp
    | BinaryOpHelper(op: Token)         // binaryOp(ctx, op, v)
    | UnaryOp(op: Token)                // cb.UnaryOp
    | UnaryOpHelper(op: Token)          // unaryOp(ctx, op, v)
    | CastToBool
    | Assign(n: int)                    // cb.Assign
    | AssignHelper                      // assign(ctx, ...)
    | AssignOp(op: Token)               // cb.AssignOp
    | AssignOpHelper(op: Token)         // assignOp(ctx, op, ...)
    | IncDec(op: Token)
    | CastPtrToUintptrPtr
    | ClosureStart(ret: string)         // closureStart: NewClosure(...).BodyStart
    | ClosureStartT(typ: string)        // closureStartT
    | DefineAddrStart | EndInit(n: int)
    | Return(n: int) | End | Call(n: int) | CallWith(n: int, ellipsis: bool) | EndStmt
    | If | Then | Else
    | Typ(typ: string) | TypeCastCall | TypeCastIndex(lhs: bool) | ArrayToElemPtr
    | ZeroLit(typ: string)
    | ExtFn(fn: string)                 // ctx.extfns[fn] = none{}
    | External(what: string)            // compiled by code outside this model

  /** `compileExprEx`: dispatch on the node kind. */
  function CompileExprEx(env: Env, v: Node, flags: Flags): Result<seq<Instr>>
    decreases v, 2, 0
  {
    match v.kind
    case BinaryOperator => CompileBinaryExpr(env, v, flags)
    case UnaryOperator => CompileUnaryOperator(env, v, flags)
    case DeclRefExpr => CompileDeclRefExpr(env, v, IsLHS(flags))
    case MemberExpr => CompileMemberExpr(env, v, IsLHS(flags))
    case CallExpr => CallExprCode(env, v)
    case CompoundAssignOperator => CompileCompoundAssignOperator(env, v, flags)
    case ImplicitCastExpr => CompileImplicitCastExpr(env, v)
    case IntegerLiteral => CompileLiteral(INT, v)
    case StringLiteral =>
      if !v.value.Str? then Panic
      else (match env.unquote(v.value.s)
            case None => Panic
            case Some(s) => Ok([StringLit(s)]))
    case CharacterLiteral => if v.value.Num? then Ok([CharLit(v.value.n)]) else Panic
    case FloatingLiteral => CompileLiteral(FLOAT, v)
    case ParenExpr => if |v.inner| == 0 then Panic else CompileExprEx(env, v.inner[0], flags)
    case ConstantExpr => if |v.inner| == 0 then Panic else CompileExprEx(env, v.inner[0], flags)
    case CStyleCastExpr => CompileTypeCast(env, v)
    case ArraySubscriptExpr =>
      if |v.inner| < 2 then Panic
      else
        var a :- CompileExpr(env, v.inner[0]);
        var i :- CompileExpr(env, v.inner[1]);
        Ok(a + i + [TypeCastIndex(IsLHS(flags))])
    case UnaryExprOrTypeTraitExpr =>
      if v.name == "sizeof" then CompileSizeof(env, v) else Panic
    case ImplicitValueInitExpr => Ok([ZeroLit(v.qualType)])
    case ConditionalOperator => CompileConditionalOperator(env, v)
    case ImaginaryLiteral =>
      if |v.inner| == 0 then Panic
      else
        var lit :- CompileExpr(env, v.inner[0]);
        Ok(lit + [MakeImag])
    case VAArgExpr => Ok([External("VAArgExpr")])
    case AtomicExpr => Ok([External("AtomicExpr")])
    case OffsetOfExpr => CompileOffsetOfExpr(env, v)
    case OtherKind(_) => Panic
  }

  /** `compileExpr`. */
  function CompileExpr(env: Env, v: Node): Result<seq<Instr>>
    decreases v, 3, 0
  {
    CompileExprEx(env, v, 0)
  }

  /** `compileExprLHS`. */
  function CompileExprLHS(env: Env, v: Node): Result<seq<Instr>>
    decreases v, 3, 0
  {
    CompileExprEx(env, v, FlagLHS)
  }

  /** `compileLiteral`: the value must be the literal's text. */
  function CompileLiteral(tok: Token, v: Node): Result<seq<Instr>>
  {
    if v.value.Str? then Ok([Lit(tok, v.value.s)]) else Panic
  }

  /** `compileOffsetOfExpr`: the offset of the named field in the struct type
      written in the source. */
  function CompileOffsetOfExpr(env: Env, v: Node): (r: Result<seq<Instr>>)
    ensures r.Ok? ==> |r.value| == 1 && r.value[0].ValInt?
  {
    var (tyStruct, name) :- ParamsOfOffsetof(env.src, v.range);
    var off :- Offsetof(env.toType(tyStruct), name, env.layout);
    Ok([ValInt(off)])
  }

  /** `compileSizeof`: of an expression's type, or of a type written in the
      source. */
  function CompileSizeof(env: Env, v: Node): Result<seq<Instr>>
    decreases v, 1, 0
  {
    if |v.inner| > 0 then
      var e :- CompileExpr(env, v.inner[0]);
      Ok(e + [PopStack, ValInt(env.sizeof(env.typeOf(v.inner[0])))])
    else
      var qualType :- ParamOfSizeof(env.src, v.range);
      Ok([ValInt(env.sizeof(env.toType(qualType)))])
  }

  /** `getBuiltinFn`: the referenced name of a declaration reference. */
  function GetBuiltinFn(fn: Node): (r: Option<string>)
    ensures r.Some? <==> fn.kind == DeclRefExpr && fn.ref.Some?
    ensures r.Some? ==> r.value == fn.ref.value
  {
    if fn.kind == DeclRefExpr && fn.ref.Some? then Some(fn.ref.value) else None
  }

  /** `isBuiltinFn`. */
  predicate IsBuiltinFn(fn: Node)
  {
    fn.castKind == BuiltinFnToFnPtr
  }

  /** `compileImplicitCastExpr`. */
  function CompileImplicitCastExpr(env: Env, v: Node): Result<seq<Instr>>
    decreases v, 1, 0
  {
    match v.castKind
    case LValueToRValue => if |v.inner| == 0 then Panic else CompileExpr(env, v.inner[0])
    case NoOp => if |v.inner| == 0 then Panic else CompileExpr(env, v.inner[0])
    case BuiltinFnToFnPtr =>
      if |v.inner| == 0 then Panic
      else
        var fn := GetBuiltinFn(v.inner[0]);
        var mark := if fn.Some? && env.inPkg(fn.value) then [ExtFn(fn.value)] else [];
        var e :- CompileExpr(env, v.inner[0]);
        Ok(mark + e)
    case FunctionToPointerDecay => if |v.inner| == 0 then Panic else CompileExpr(env, v.inner[0])
    case ArrayToPointerDecay =>
      if |v.inner| == 0 then Panic
      else
        var e :- CompileExpr(env, v.inner[0]);
        Ok(e + if env.isValist(env.typeOf(v.inner[0])) then [] else [ArrayToElemPtr])
    case IntegralCast => CompileTypeCast(env, v)
    case FloatingCast => CompileTypeCast(env, v)
    case BitCast => CompileTypeCast(env, v)
    case IntegralToFloating => CompileTypeCast(env, v)
    case FloatingToIntegral => CompileTypeCast(env, v)
    case FloatingComplexCast => CompileTypeCast(env, v)
    case FloatingRealToComplex => CompileTypeCast(env, v)
    case NullToPointer => Ok([ValNil])
    case _ => Panic
  }

  /** `compileTypeCast`: `(void)e` becomes a closure assigning `e` to `_`. */
  function CompileTypeCast(env: Env, v: Node): Result<seq<Instr>>
    decreases v, 0, 0
  {
    if v.castKind == ToVoid then
      if |v.inner| == 0 then Panic
      else
        var e :- CompileExpr(env, v.inner[0]);
        Ok([ClosureStartT("int"), VarRefNil] + e + [Assign(1), ValInt(0), Return(1), End, Call(0)])
    else if v.castKind == NullToPointer then
      Ok([Typ(v.qualType), ValNil, Call(1)])
    else if |v.inner| == 0 then Panic
    else
      var e :- CompileExpr(env, v.inner[0]);
      Ok([Typ(v.qualType)] + e + [TypeCastCall])
  }

  /** `compileDeclRefExpr`. */
  function CompileDeclRefExpr(env: Env, v: Node, lhs: bool): Result<seq<Instr>>
  {
    if v.ref.None? then Panic
    else
      var name := env.avoid(v.ref.value);
      if !env.lookup(name) then Panic
      else if lhs then Ok([VarRefObj(name)])
      else Ok([ValObj(name)])
  }

  /** The code of the children from index `i` on, each compiled as an
      rvalue, in order. */
  function ArgsCode(env: Env, v: Node, i: nat): Result<seq<Instr>>
    requires i <= |v.inner|
    decreases v, 0, |v.inner| - i
  {
    if i == |v.inner| then Ok([])
    else
      var e :- CompileExpr(env, v.inner[i]);
      var rest :- ArgsCode(env, v, i + 1);
      Ok(e + rest)
  }

  /** Whether the call passes its last argument as the `va_list` of the
      enclosing variadic function. */
  predicate Ellipsis(env: Env, v: Node)
  {
    |v.inner| > 2 && env.isValist(env.typeOf(v.inner[|v.inner| - 1]))
  }

  /** Whether the callee is `__builtin_va_start` or `__builtin_va_end`;
      panics where Go would index or dereference nil. */
  function IsVaStartEnd(v: Node): Result<bool>
    requires |v.inner| > 0
  {
    var fn := v.inner[0];
    if !IsBuiltinFn(fn) then Ok(false)
    else if |fn.inner| == 0 || fn.inner[0].ref.None? then Panic
    else
      var name := fn.inner[0].ref.value;
      Ok(name == "__builtin_va_start" || name == "__builtin_va_end")
  }

  /** The code of `compileCallExpr`. */
  function CallExprCode(env: Env, v: Node): Result<seq<Instr>>
    decreases v, 1, 0
  {
    var n := |v.inner|;
    if n == 0 then Ok([])
    else
      var skip :- IsVaStartEnd(v);
      if skip then Ok([])
      else
        var args :- ArgsCode(env, v, 0);
        var e := Ellipsis(env, v);
        Ok(args + (if e then [PopStack, ValValist] else []) + [CallWith(n - 1, e)])
  }

  /** `compileMemberExpr`: an anonymous member selects nothing. */
  function CompileMemberExpr(env: Env, v: Node, lhs: bool): Result<seq<Instr>>
    decreases v, 1, 0
  {
    var name := env.avoid(v.name);
    if |v.inner| == 0 then Panic
    else
      var x :- CompileExpr(env, v.inner[0]);
      if name == "" then Ok(x)
      else if lhs then Ok(x + [MemberRef(name)])
      else Ok(x + [MemberVal(name)])
  }

  /** `compileCommaExpr`: a closure running the left operand as a statement
      and returning the right one. */
  function CompileCommaExpr(env: Env, v: Node): Result<seq<Instr>>
    decreases v, 0, 0
  {
    if |v.inner| < 2 then Panic
    else
      var a :- CompileExprEx(env, v.inner[0], FlagIgnoreResult);
      var b :- CompileExpr(env, v.inner[1]);
      Ok([ClosureStart("")] + a + [EndStmt] + b + [Return(1), End, Call(0)])
  }

  /** `compileBinaryExpr`. */
  function CompileBinaryExpr(env: Env, v: Node, flags: Flags): Result<seq<Instr>>
    decreases v, 1, 0
  {
    if v.opCode in BinaryOps then
      var op := BinaryOps[v.opCode];
      var isBoolOp := op == LOR || op == LAND;
      if |v.inner| < 2 then Panic
      else
        var a :- CompileExpr(env, v.inner[0]);
        var b :- CompileExpr(env, v.inner[1]);
        if isBoolOp then Ok(a + [CastToBool] + b + [CastToBool, BinaryOp(op)])
        else Ok(a + b + [BinaryOpHelper(op)])
    else if v.opCode == "," then CompileCommaExpr(env, v)
    else if v.opCode != "=" then Panic
    else if IgnoresResult(flags) then CompileSimpleAssign(env, v, AssignHelper)
    else CompileAssign(env, v, AssignHelper)
  }

  /** `compileCompoundAssignOperator`. */
  function CompileCompoundAssignOperator(env: Env, v: Node, flags: Flags): Result<seq<Instr>>
    decreases v, 1, 0
  {
    if v.opCode !in AssignOps then Panic
    else
      var op := AssignOps[v.opCode];
      if IgnoresResult(flags) then CompileSimpleAssign(env, v, AssignOpHelper(op))
      else CompileAssign(env, v, AssignOpHelper(op))
  }

  /** `compileSimpleAssignExpr` (`store` is `AssignHelper`) and
      `compileSimpleAssignOpExpr` (`store` is `AssignOpHelper(op)`). */
  function CompileSimpleAssign(env: Env, v: Node, store: Instr): Result<seq<Instr>>
    decreases v, 0, 0
  {
    if |v.inner| < 2 then Panic
    else
      var l :- CompileExprLHS(env, v.inner[0]);
      var r :- CompileExpr(env, v.inner[1]);
      Ok(l + r + [store])
  }

  /** `closureStartInitAddr`: opens a closure with result `_cgo_ret` and
      defines `_cgo_addr := &lhs`. */
  function ClosureInitAddr(l: seq<Instr>): seq<Instr>
  {
    [ClosureStart(RetName), DefineAddrStart] + l + [UnaryOp(AND), EndInit(1)]
  }

  /** `compileAssignExpr` and `compileAssignOpExpr`: `*addr` is assigned and
      then returned from the closure, which is called at once. */
  function CompileAssign(env: Env, v: Node, store: Instr): Result<seq<Instr>>
    decreases v, 0, 0
  {
    if |v.inner| < 2 then Panic
    else
      var l :- CompileExprLHS(env, v.inner[0]);
      var r :- CompileExpr(env, v.inner[1]);
      Ok(ClosureInitAddr(l) + [ValAddr, ElemRef] + r + [store] + [ValAddr, Elem, Return(1), End, Call(0)])
  }

  /** The update `x++`/`x--` makes once the target is on the stack: a
      plain increment, or an add of the element size. */
  function Step(op: Token, elemSize: int): seq<Instr>
    requires op == INC || op == DEC
  {
    if elemSize == 1 then [IncDec(op)] else [ValInt(elemSize), AssignOp(IncDecAssignOp(op))]
  }

  /** `compileSimpleIncDec`: a pointer operand is updated as a `uintptr`. */
  function CompileSimpleIncDec(env: Env, op: Token, v: Node): Result<seq<Instr>>
    requires op == INC || op == DEC
    decreases v, 0, 0
  {
    if |v.inner| == 0 then Panic
    else
      var l :- CompileExprLHS(env, v.inner[0]);
      var typ := env.typeOf(v.inner[0]);
      if typ.Pointer? then
        Ok(l + [UnaryOp(AND), CastPtrToUintptrPtr, ElemRef] + Step(op, env.sizeof(typ.elem)))
      else
        Ok(l + [IncDec(op)])
  }

  /** `compileIncDec`: the closure form; postfix saves `*addr` in the result
      first and returns it, prefix returns the updated `*addr`. */
  function CompileIncDec(env: Env, op: Token, v: Node): Result<seq<Instr>>
    requires op == INC || op == DEC
    decreases v, 0, 0
  {
    if |v.inner| == 0 then Panic
    else
      var l :- CompileExprLHS(env, v.inner[0]);
      Ok(IncDecClosure(l, op, env.valOfAddr(env.typeOf(v.inner[0])), v.isPostfix))
  }

  /** The closure `compileIncDec` builds around the target code `l`. */
  function IncDecClosure(l: seq<Instr>, op: Token, elemSize: int, postfix: bool): seq<Instr>
    requires op == INC || op == DEC
  {
    ClosureInitAddr(l) + IncDecBody(op, elemSize, postfix)
  }

  /** The rest of that closure once `_cgo_addr` is defined: postfix saves
      `*addr` in the result, then `*addr` is updated, then the closure
      returns and is called. */
  function IncDecBody(op: Token, elemSize: int, postfix: bool): seq<Instr>
    requires op == INC || op == DEC
  {
    var save := if postfix then [VarRefRet, ValAddr, Elem, Assign(1)] else [];
    var result := if postfix then [Return(0)] else [ValAddr, Elem, Return(1)];
    save + [ValOfAddr, ElemRef] + Step(op, elemSize) + result + [End, Call(0)]
  }

  /** The four forms of that body, written out. */
  lemma IncDecBodyForms(op: Token, elemSize: int, postfix: bool)
    requires op == INC || op == DEC
    ensures var b := IncDecBody(op, elemSize, postfix);
            var step := if elemSize == 1 then [IncDec(op)] else [ValInt(elemSize), AssignOp(IncDecAssignOp(op))];
            b == if postfix then [VarRefRet, ValAddr, Elem, Assign(1), ValOfAddr, ElemRef] + step + [Return(0), End, Call(0)]
                 else [ValOfAddr, ElemRef] + step + [ValAddr, Elem, Return(1), End, Call(0)]
  {
  }

  /** `compileConditionalOperator`: a closure of the result type with an if
      statement returning either branch. */
  function CompileConditionalOperator(env: Env, v: Node): Result<seq<Instr>>
    decreases v, 1, 0
  {
    if |v.inner| < 3 then Panic
    else
      var c :- CompileExpr(env, v.inner[0]);
      var a :- CompileExpr(env, v.inner[1]);
      var b :- CompileExpr(env, v.inner[2]);
      Ok([ClosureStartT(v.qualType), If] + c + [CastToBool, Then] + a + [Return(1), Else] + b
         + [Return(1), End, End, Call(0)])
  }

  /** `compileStarExpr`: `*fn` is `fn` when read. */
  function CompileStarExpr(env: Env, v: Node, lhs: bool): Result<seq<Instr>>
    decreases v, 0, 0
  {
    if |v.inner| == 0 then Panic
    else
      var x :- CompileExpr(env, v.inner[0]);
      if lhs then Ok(x + [ElemRef])
      else if env.isFunc(env.typeOf(v.inner[0])) then Ok(x)
      else Ok(x + [Elem])
  }

  /** `compileUnaryOperator`. */
  function CompileUnaryOperator(env: Env, v: Node, flags: Flags): Result<seq<Instr>>
    decreases v, 1, 0
  {
    if v.opCode == "*" then CompileStarExpr(env, v, IsLHS(flags))
    else if IsLHS(flags) then Panic
    else if v.opCode in UnaryOps then
      if |v.inner| == 0 then Panic
      else
        var x :- CompileExpr(env, v.inner[0]);
        Ok(x + [UnaryOpHelper(UnaryOps[v.opCode])])
    else if v.opCode == "__extension__" || v.opCode == "+" then
      if |v.inner| == 0 then Panic else CompileExpr(env, v.inner[0])
    else if v.opCode == "++" || v.opCode == "--" then
      var tok := if v.opCode == "++" then INC else DEC;
      if IgnoresResult(flags) then CompileSimpleIncDec(env, tok, v)
      else CompileIncDec(env, tok, v)
    else Panic
  }

  /** `acc` followed by the code `r`, or the panic of `r`. */
  function Prefixed(acc: seq<Instr>, r: Result<seq<Instr>>): Result<seq<Instr>>
  {
    if r.Panic? then Panic else Ok(acc + r.value)
  }

  /** `compileCallExpr`: the loop over the children (callee first), then the
      call with `n - 1` arguments, passing the `va_list` on when the last
      argument has that type. */
  method CompileCallExpr(env: Env, v: Node) returns (r: Result<seq<Instr>>)
    ensures r == CallExprCode(env, v)
  {
    var n := |v.inner|;
    if n == 0 {
      return Ok([]);
    }
    var skip :- IsVaStartEnd(v);
    if skip {
      return Ok([]);
    }
    var code: seq<Instr> := [];
    var i := 0;
    assert ArgsCode(env, v, 0).Ok? ==> [] + ArgsCode(env, v, 0).value == ArgsCode(env, v, 0).value;
    while i < n
      invariant 0 <= i <= n
      invariant ArgsCode(env, v, 0) == Prefixed(code, ArgsCode(env, v, i))
    {
      var e := CompileExpr(env, v.inner[i]);
      if e.Panic? {
        return Panic;
      }
      ghost var rest := ArgsCode(env, v, i + 1);
      if rest.Ok? {
        assert code + (e.value + rest.value) == code + e.value + rest.value;
      }
      code := code + e.value;
      i := i + 1;
    }
    assert code == ArgsCode(env, v, 0).value;
    var ellipsis := Ellipsis(env, v);
    if ellipsis {
      code := code + [PopStack, ValValist];
    }
    r := Ok(code + [CallWith(n - 1, ellipsis)]);
  }
}
