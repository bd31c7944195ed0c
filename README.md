# c2go `cl` core in Dafny

This project models the core of the C-to-Go translator `c2go`. The package
`cl` takes a clang JSON AST and drives the `gox` code builder to emit Go code.
The model covers two files:

- `cl/blockctx.go`: per-function and per-block translation state.
  - Flow contexts (`if`, `switch`, loops and plain flows) and their lazily
    made labels.
  - Synthetic label, variable and struct names.
  - Variable declaration inside and outside virtual blocks.
  - Scanning of the C source text behind `goto`, `sizeof` and
    `__builtin_offsetof`.
  - Field lookup, `offsetof` and the bit-field view of a struct.
- `cl/expr.go`: the expression compiler. For each AST node kind it decides
  which builder calls to make and in what order.

Modules, in dependency order:

| module | file | contents |
|---|---|---|
| `Wrappers` | `wrappers.dfy` | `Result` (a Go panic is `Panic`) and `Option` |
| `Names` | `names.dfy` | `strconv.Itoa` and the names `_cgol_<n>`, `<name>_cgo<n>`, `_cgoa_<n>`; their injectivity |
| `CTypes` | `ctypes.dfy` | the part of `go/types` the core reads; `getFld`, `offsetof`, `buildVStruct` |
| `Scan` | `scan.dfy` | `ident`, `paramsOf`, `labelOfGoto`, `paramsOfOfsetof`, `paramOfSizeof` over the source text |
| `Funcs` | `funcs.dfy` | the code builder's label and virtual-block state; class `FuncCtx` (`funcCtx`) |
| `Block` | `block.dfy` | class `FlowCtx` (every flow-context kind) and class `BlockCtx` (`blockCtx`) |
| `Tokens` | `tokens.dfy` | `go/token` values and the tables `binaryOps`, `assignOps`, `unaryOps` |
| `Expr` | `expr.dfy` | the AST node, the builder calls as an `Instr` sequence, and one function per `compile…` routine |
| `Balance` | `balance.dfy` | every builder block the compiler opens (closure, `if`) is closed by `End`, in order |
| `ExprProps` | `exprprops.dfy` | what each node kind emits: operand order, the statement and expression forms of assignment and `++`/`--`, calls |

State that `blockctx.go` changes in place is modelled with classes:
`FuncCtx`, `FlowCtx`, `BlockCtx`, `Scope` and the builder's `CodeBuilder`.
Their methods have `modifies` frames. Their `ensures` state the fields they
set and the fields they leave alone.

The expression compiler only calls the builder, so it is modelled as pure
functions. Each returns the sequence of builder calls (`Instr`) that the Go
code makes, or `Panic`. The exception is `compileCallExpr`, whose argument
loop is a method (`Expr.CompileCallExpr`). That method is proved equal to
the recursive `CallExprCode`.

Each Go flow-context type is one `FlowCtx` with a `FlowKind` tag:

- `ifCtx`: `IfFlow`
- `switchCtx`: `SwitchFlow`
- `loopCtx`: `LoopFlow`
- `baseFlowCtx`: `BaseFlow(bits)`

`EndLabel` and `ContinueLabel` dispatch on that tag the way Go's method sets
do. Because `ifCtx` embeds `endLabelCtx`, an `if` context owns its own
lazily made end label: the label where the `if` statement joins.

## Model

| member | source | states |
|---|---|---|
| Names.LabelNameInjective | cl/blockctx.go:43-47 | two label counters give the same `_cgol_<n>` name exactly when they are equal |
| Names.AutoVarNameInjective | cl/blockctx.go:55-60 | `<name>_cgo<n>` determines both the C name and the counter |
| Names.AnonNameInjective | cl/blockctx.go:449-455 | two anonymous struct counters give the same `_cgoa_<n>` exactly when they are equal |
| Funcs.FuncCtx.constructor | cl/blockctx.go:33-41 | a new function context has no labels, no hoisted variables and both counters at 0; it is complicated as requested |
| Funcs.FuncCtx.NewLabel | cl/blockctx.go:43-47 | the label counter goes up by one; the new label is named `_cgol_<counter>` and is created in the builder; nothing else changes |
| Funcs.FuncCtx.PlaceNewLabel | cl/blockctx.go:49-53 | as `NewLabel`, and the label is also placed at the current point |
| Funcs.FuncCtx.NewAutoVar | cl/blockctx.go:55-60 | the variable counter always moves; with variable definitions the result is `<name>_cgo<counter>`, appended to the hoisted list; without them the call panics |
| Funcs.MadeLabelsDistinct | cl/blockctx.go:43-47 | no two labels made in one function share a name |
| Funcs.HoistedDistinct | cl/blockctx.go:55-60 | no two hoisted variables of one function share a name, even when made for the same C name |
| Block.FlowCtx.EndLabel | cl/blockctx.go:87-92 | a plain flow with a loop or switch bit answers nil; otherwise it asks its parent, and panics at the root; `if`, `switch` and loop contexts answer their own end label, made on first use: then the label counter moves, the label is created in the builder and recorded among the function's made labels. Nothing is created otherwise or on a panic; the owner's other labels, the function's C labels, hoisted variables, variable counter and the builder's placed labels and depth are unchanged |
| Block.FlowCtx.EndOwner | cl/blockctx.go:87-92 | the context that answers is the nearest one on the parent chain that stops the search (an `if`, switch or loop context, or a plain flow with the loop or switch bit); the search fails exactly when there is none |
| Block.EndOwnerNearest | cl/blockctx.go:87-92 | for any context on the chain that stops the search with none nearer, `EndLabel` is answered by it: its own end label, or nil for a plain flow |
| Block.FlowCtx.OwnEndLabel | cl/blockctx.go:107-114 | an existing end label is returned unchanged and nothing is made; otherwise a new `_cgol_<n>` is made, stored, created in the builder, recorded among the function's made labels and returned; no function context means a panic that creates nothing; the context's other labels and the function's other state are unchanged |
| Block.ContinueLabelNearest | cl/blockctx.go:94-99 | `FlowCtx.ContinueLabel` is decided by the nearest context on the parent chain that stops a `continue`: a loop gives its start label and a plain flow with the loop bit gives nil; `if` and switch contexts defer to their parent (lines 131-133, 156-158, 176-178) |
| Block.ContinueLabelPanics | cl/blockctx.go:94-99 | `FlowCtx.ContinueLabel` panics exactly when no context on the parent chain is a loop or a plain flow with the loop bit |
| Block.FlowCtx.NextCaseLabel | cl/blockctx.go:135-139 | a new label is made, not placed, becomes the switch's next-case label and is returned; the switch's other labels, the function's C labels and hoisted variables and the virtual-block depth are unchanged; without a function context it panics and makes nothing |
| Block.FlowCtx.LabelDefault | cl/blockctx.go:141-143 | a new label is made and placed, so it is appended to both the created and the placed labels, and becomes the switch's default label; the other labels and the function's other state are unchanged; without a function context it panics and makes nothing |
| Block.FlowCtx.ElseLabel | cl/blockctx.go:160-162 | a new label is made, not placed, and returned; the `if` context and the function's C labels and hoisted variables are unchanged; without a function context it panics and makes nothing |
| Block.FlowCtx.LabelStart | cl/blockctx.go:180-182 | a new label is made and placed, so it is appended to both the created and the placed labels, and becomes the loop's start label; the loop's end label and the function's other state are unchanged; without a function context it panics and makes nothing |
| Block.BlockCtx.GetSwitchCtx | cl/blockctx.go:234-241 | the switch context nearest the current flow: it is on the parent chain, and no context between it and the current flow is a switch; null exactly when the chain has no switch |
| Block.BlockCtx.EnterIf | cl/blockctx.go:243-248 | opens a virtual block and pushes a fresh `if` context whose parent is the old current flow; `continue` inside it goes where it went outside |
| Block.BlockCtx.EnterSwitch | cl/blockctx.go:250-255 | opens a virtual block and pushes a fresh switch context with no labels; `continue` inside it goes where it went outside |
| Block.BlockCtx.EnterLoop | cl/blockctx.go:257-262 | opens a virtual block and pushes a fresh loop context with no labels; `continue` inside it resolves to the loop's (not yet made) start label |
| Block.BlockCtx.EnterFlow | cl/blockctx.go:264-268 | pushes a plain flow context of the given kind bits, with no virtual block; with the loop bit `continue` resolves to nil, without it `continue` goes where it went outside |
| Block.BlockCtx.Leave | cl/blockctx.go:270-275 | the current flow becomes the parent of the one left, so it undoes an `Enter…`; the virtual block is closed except for plain flows |
| Block.BlockCtx.GetLabel | cl/blockctx.go:289-300 | a C label is made once, under its own name, and the same label is returned on every later use; the counters, hoisted variables and virtual blocks are unchanged; without a function context it panics |
| Block.BlockCtx.NewVar | cl/blockctx.go:209-232 | in a virtual block the variable is hoisted as `<name>_cgo<n>` and the C name becomes an alias for it, and a global scope other than `scope` is untouched; outside one, a global replaces an earlier global of the same name and the hoisted variables are unchanged; a name the scope already has panics; the function's C labels, label counter, made labels and flag are unchanged |
| Block.BlockCtx.HoistVar | cl/blockctx.go:211-216 | inside a virtual block: the next `<name>_cgo<n>` is hoisted into the function and the C name is aliased to it, unless the scope has the name already (the counter and hoisted list move even then); a function that is not complicated panics and hoists nothing; the function's labels and the global scope are unchanged |
| Block.BlockCtx.DeclareVar | cl/blockctx.go:218-229 | outside virtual blocks: the variable is declared under its own name; in the package scope an earlier global of that name is removed first and the new one recorded |
| Block.BlockCtx.GetSuName | cl/blockctx.go:449-455 | a named struct keeps its mangled name (`suNormal`); an anonymous one gets the next `_cgoa_<n>` (`suAnonymous`) |
| Scan.IdentSound | cl/blockctx.go:348-357 | `Scan.Ident` (`ident`) returns a non-empty run of symbol characters that a non-symbol character follows |
| Scan.IdentFails | cl/blockctx.go:348-357 | `Scan.Ident` (`ident`) panics exactly when the text has no identifier first, or the identifier runs to the end |
| Scan.IdentRoundTrip | cl/blockctx.go:348-357 | spaces, an identifier and a terminator read back as that identifier |
| Scan.KeywordMismatchPanics | cl/blockctx.go:302-312 | a node whose first token is not `goto` (likewise `__builtin_offsetof`, lines 314-324, and `sizeof`, lines 330-339) panics |
| Scan.LabelOfGotoRoundTrip | cl/blockctx.go:302-312 | `Scan.LabelOfGoto`: `goto` then spaces then a label reads back as that label |
| Scan.ParamsOfOpenParen | cl/blockctx.go:326-328 | `Scan.ParamsOf` removes leading spaces and one `(` |
| Scan.SplitAtFirstComma | cl/blockctx.go:314-324 | the parameter text splits at its first comma |
| Scan.OffsetofRoundTrip | cl/blockctx.go:314-324 | `Scan.ParamsOfOffsetof`: `__builtin_offsetof(T, f)` reads back as `T` and the trimmed `f` |
| Scan.ParamOfSizeofRoundTrip | cl/blockctx.go:330-339 | `Scan.ParamOfSizeof`: `sizeof(T…` reads back as the text after the parenthesis, up to the node's end |
| CTypes.GetFld | cl/blockctx.go:378-388 | returns the fields from `from` through the first field named `name`, with its index, or `([], -1)` when there is none |
| CTypes.FieldIndex | cl/blockctx.go:378-388 | the index `getFld` stops at: the first field at or after `from` with the name; none exactly when no field from `from` on has it |
| CTypes.OffsetofFound | cl/blockctx.go:363-376 | `CTypes.Offsetof` succeeds exactly when the underlying type is a struct with that field, and then gives the layout offset of its first occurrence |
| CTypes.BuildVStruct | cl/blockctx.go:390-424 | equals the view-struct specification `VStruct`, described by `VStructPlaced`, `VStructViews` and `VStructPlains`; a struct without bit-field metadata is returned unchanged; a missing storage field, or two fields of the result sharing a non-blank name (refused by `types.NewStruct`), panics |
| CTypes.VStructPlaced | cl/blockctx.go:390-424 | the built struct is the struct with each field that stores a run of bit-fields replaced, at its own position, by that run's views; each view is named after its bit-field, has the storage field's type as base, and only the first of a run is flagged; the replaced fields are exactly `StorageIdx` |
| CTypes.BuildFromPlaced | cl/blockctx.go:394-421 | `BuildFrom` is the struct from `from` on with each storage field replaced in place by its run's views |
| CTypes.StorageViews | cl/blockctx.go:397-416 | each storage field lies at or after `from` and maps to a non-empty run of views named after their bit-fields, based on that field's type, only the first flagged |
| CTypes.RunFields | cl/blockctx.go:403-415 | the k-th view of a run is the k-th bit-field's view on the storage type, flagged first exactly when k is 0 |
| CTypes.ExpandBitFields | cl/blockctx.go:394-421 | the outer bit-field loop and the copy of the remaining fields compute `CTypes.BuildFrom`, whose content `BuildFromViews` and `BuildFromPlains` describe |
| CTypes.ExpandRun | cl/blockctx.go:397-416 | one pass of the outer loop: the real fields up to the one that stores the bit-field, then the run's views; a missing field panics; the rest of the struct is built from where the pass stops |
| CTypes.RunViews | cl/blockctx.go:404-415 | the inner loop collects one view per bit-field of a run that shares one real field; only the first is flagged |
| CTypes.AppendRest | cl/blockctx.go:418-420 | the remaining real fields from `from` on are appended in order |
| CTypes.VStructViews | cl/blockctx.go:390-424 | the built struct has exactly one view per bit-field, in order, and only the first of each run is flagged `first` |
| CTypes.BuildFromPlains | cl/blockctx.go:394-421 | the real fields that `BuildFrom` keeps are the struct's fields from `from` on, in order, less the one field that stores each run |
| CTypes.VStructPlains | cl/blockctx.go:390-424 | the real (non-view) fields of the built struct are the struct's fields, in order, less the field that stores each run of bit-fields |
| Tokens.IncDecAssignOp | cl/expr.go:417-432 | a scaled `++` becomes `+=` and `--` becomes `-=` |
| Tokens.BinaryOpsInjective | cl/expr.go:321-345 | different C binary operators map to different Go tokens |
| Tokens.AssignOpsMatchBinaryOps | cl/expr.go:361-375 | each `op=` maps to the token of `op` shifted by `ADD_ASSIGN - ADD` |
| Tokens.CmpOperatorsOfTable | cl/expr.go:317-319 | among the table's tokens, the comparison tokens are exactly the six comparison operators |
| Tokens.LogicalOperatorsOfTable | cl/expr.go:321-345 | `&&` and `||` are the only operators mapped to `LAND`/`LOR` |
| Expr.CompileCallExpr | cl/expr.go:226-249 | the loop's builder calls equal `CallExprCode`: callee and arguments in order, then the call |
| ExprProps.ParensTransparent | cl/expr.go:49-50 | `Expr.CompileExprEx`: an expression under any number of parentheses and constant wrappers compiles as the expression inside, with the same flags |
| ExprProps.UnknownPanics | cl/expr.go:69-70 | `Expr.CompileExprEx`: an unknown node kind panics, and so does a type trait other than `sizeof` |
| ExprProps.ImplicitCastPanics | cl/expr.go:163-187 | an implicit cast whose kind the switch does not list (absent, `ToVoid` or unknown) panics |
| ExprProps.BinaryPanics | cl/expr.go:286-315 | a binary operator outside the operator table, other than `=` and `,`, panics |
| ExprProps.CompoundPanics | cl/expr.go:349-359 | a compound assignment outside the assignment table panics |
| ExprProps.UnaryPanics | cl/expr.go:506-541 | a unary operator other than `*` used as an lvalue panics, and so does one outside the table and the special cases |
| ExprProps.BinaryOperands | cl/expr.go:286-315 | `Expr.CompileBinaryExpr`: the left operand's code comes first and the right operand's follows it; `&&`/`||`, and only they, cast each operand to bool right after it and end with the Go operator; the other operators end with the helper call for their token |
| ExprProps.AssignStatement | cl/expr.go:383-387 | `Expr.CompileSimpleAssign`, reached from `=` (lines 302-315) and `op=` (lines 349-359, 400-404) whose result is ignored: the lvalue code, the value code, then the store; no closure is opened beyond those in the operands |
| ExprProps.AssignExpression | cl/expr.go:389-398 | `Expr.CompileAssign`, reached from `=` and `op=` (lines 406-415) whose result is used: one closure is opened, which takes the address of the lvalue (so its code is emitted once), stores the value through the address and returns `*addr`; the closure is called at once |
| ExprProps.IncDecStatement | cl/expr.go:417-432 | `Expr.CompileSimpleIncDec`: the operand's lvalue code comes first; a pointer then takes its `uintptr` view (`UnaryOp(AND)`, `CastPtrToUintptrPtr`, `ElemRef`) and, when its element size is not 1, ends with that size and `+=`/`-=`; anything else is the lvalue code and a plain `++`/`--` |
| ExprProps.IncDecExpression | cl/expr.go:434-453 | `Expr.CompileIncDec`: one closure takes the address of the operand, whose code is emitted once; for postfix it saves the old value before the update; the update is a plain `++`/`--` exactly when the pointee size is 1 and otherwise the size followed by `+=`/`-=`, at the same place; postfix returns the saved value and prefix the updated one |
| ExprProps.StarOperand | cl/expr.go:493-504 | `Expr.CompileStarExpr`: the operand's code comes first; as an lvalue it is followed by an element reference, for a function read as a value by nothing, and otherwise by a dereference |
| ExprProps.CommaOperands | cl/expr.go:278-284 | `Expr.CompileCommaExpr`: one closure is opened; the left operand is compiled with its result ignored and ended as a statement, then the right operand is returned; the closure is called at once |
| ExprProps.ConditionalBranches | cl/expr.go:477-489 | `Expr.CompileConditionalOperator`: a closure of the result type and an `if` are opened; the test comes first and is cast to bool, then `Then`, the first branch's code and its return, `Else`, the second branch's code and its return, and the two ends and the call of the closure; exactly one closure and one `if` are opened |
| ExprProps.CallEmitsNothing | cl/expr.go:226-249 | a call emits nothing exactly for `__builtin_va_start`/`__builtin_va_end` or a node without children |
| ExprProps.CallArguments | cl/expr.go:226-249 | `Expr.CallExprCode`: the arguments come first and the call passes `n-1` arguments; after the arguments there is only the call, or, with the ellipsis, a pop, the `va_list` and the call; the last argument is replaced by the `va_list`, with the ellipsis flag, exactly when a `va_list` is passed after other arguments |
| ExprProps.ArgsPanic | cl/expr.go:236-238 | any child that panics makes the call panic |
| ExprProps.ArgsSucceed | cl/expr.go:236-238 | the argument code exists exactly when every child compiles |
| ExprProps.BuiltinFnMark | cl/expr.go:154-171 | `Expr.CompileImplicitCastExpr` on a builtin function: the function is recorded as external, before its reference is compiled, exactly when the reference names a declaration the package has; `getBuiltinFn` finds a name only for a declaration reference |
| ExprProps.UnaryOperand | cl/expr.go:506-541 | `Expr.CompileUnaryOperator`: a table operator compiles its operand and then the helper for its Go token; `__extension__` and unary `+` compile the operand alone |
| ExprProps.MemberSelect | cl/expr.go:261-274 | `Expr.CompileMemberExpr`: the object's code once, then the member selected by its keyword-safe name, as a reference for an lvalue and as a value otherwise; an anonymous member selects nothing |
| ExprProps.DeclRefResolves | cl/expr.go:210-222 | `Expr.CompileDeclRefExpr` succeeds exactly when the node names a declaration whose keyword-safe name is in scope, and is then one reference or value call |
| ExprProps.OffsetOfValue | cl/expr.go:108-115 | `Expr.CompileOffsetOfExpr` succeeds exactly when the source text names a struct type with that field, and pushes that field's layout offset |
| ExprProps.SizeofValue | cl/expr.go:117-130 | `Expr.CompileSizeof`: `sizeof e` compiles `e`, drops its value and pushes the size of its type; `sizeof(T)` succeeds exactly when the source text gives `T`, and pushes its size |
| Balance.ExprBalanced | cl/expr.go:25-72 | every builder call sequence `Expr.CompileExprEx` emits closes each closure and `if` it opens, in order, and closes nothing else |
| Balance.BinaryBalanced | cl/expr.go:286-315 | binary operators, including comma and assignment, emit balanced code |
| Balance.CommaBalanced | cl/expr.go:278-284 | the comma closure is balanced |
| Balance.SimpleAssignBalanced | cl/expr.go:383-387 | statement assignment is balanced |
| Balance.AssignBalanced | cl/expr.go:389-398 | the assignment closure is balanced |
| Balance.CompoundBalanced | cl/expr.go:349-359 | compound assignment is balanced |
| Balance.SimpleIncDecBalanced | cl/expr.go:417-432 | statement `++`/`--` is balanced |
| Balance.IncDecBalanced | cl/expr.go:434-453 | the `++`/`--` closure is balanced |
| Balance.UnaryBalanced | cl/expr.go:506-541 | unary operators emit balanced code |
| Balance.ImplicitCastBalanced | cl/expr.go:163-187 | implicit casts emit balanced code |
| Balance.TypeCastBalanced | cl/expr.go:189-206 | `Expr.CompileTypeCast`: explicit casts, including the `(void)` closure, are balanced |
| Balance.ArgsBalanced | cl/expr.go:236-238 | argument code is balanced |
| Balance.CallBalanced | cl/expr.go:226-249 | calls emit balanced code |
| Balance.ConditionalBalanced | cl/expr.go:477-489 | the conditional closure with its `if`/`else` is balanced |
| Balance.MemberBalanced | cl/expr.go:261-274 | member access is balanced |
| Balance.SubscriptBalanced | cl/expr.go:146-150 | array subscripts are balanced |
| Balance.SizeofBalanced | cl/expr.go:117-130 | `sizeof` emits balanced code |
| Balance.ImaginaryBalanced | cl/expr.go:98-104 | imaginary literals are balanced |
| Balance.LiteralBalanced | cl/expr.go:82-96 | a literal emits exactly one instruction, which opens and closes nothing |
| Balance.LeafBalanced | cl/expr.go:141-144 | zero values and the constructs compiled outside this model emit exactly one instruction, which opens and closes nothing |
| Balance.DeclRefBalanced | cl/expr.go:210-222 | a variable reference emits exactly one instruction, which opens and closes nothing |
| Balance.OffsetOfBalanced | cl/expr.go:108-115 | `offsetof` emits exactly one constant |

## Left out

- Reading the C source file (`getSource`) is left out. The source text is `Env.src`.
- The `gox` builder is not part of this model. Each call the compiler makes is one `Instr`; the helpers from other files are single instructions too (`binaryOp`, `unaryOp`, `assign`, `castToBoolExpr`, `valOfAddr`, `typeCast…`).
- Type conversion, sizes and layouts come in as parameters of `Env`: `toType`, `typeOf`, `sizeof`, `valOfAddr`, `layout`, `isValist`, `isFunc`. So do scope lookup (`lookupParent`, the parameter `Env.lookup`: a name it does not find makes `compileDeclRefExpr` panic) and `avoidKeyword`.
- `strconv.Unquote` is the parameter `Env.unquote`. Floating-point literal values are kept as text.
- `log` messages and the position arguments are not modelled. A panic is `Panic`.
- `compileVAArgExpr` and `compileAtomicExpr`/`getCaller` are not part of this model. Their nodes emit the single instruction `External`.
- Not modelled: `initCTypes`, `initValist`, `aliasType`, `aliasCType`, `getVStruct`, `getInstr` and `bfType.String`. They set up or print types and make no translation decisions.
- Block.BlockCtx.NewVar: `VarDefs.New` comes from `gox` and is not part of this model. It is taken to panic when the scope already has the name. The deletion of an earlier global before the call depends on that.
- Block.BlockCtx.GetSuName: the mangling of a named struct is the parameter `mangle`.
- Funcs.CodeBuilder: the builder's virtual-block depth is a counter. `InVBlock` is "depth > 0".
- Tokens: the sizes of the operator tables are not stated as lemmas. Membership and the token of each entry are.
- The C source text `Env.src` is a string of characters. The Go scanners work on the bytes of the file, so multi-byte characters are not modelled.
- `compileImaginaryLiteral` asserts that the value on the builder's stack is a basic literal (cl/expr.go:101). That type assertion, and its panic, is not modelled: the builder's values are not part of this model.
- `compileMemberExpr` rewrites the node's member name in place through `avoidKeyword` (cl/expr.go:262). The model uses the rewritten name and does not model the change to the node.
