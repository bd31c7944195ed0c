/** The operator tables of the expression compiler, over the integer values
    of the Go `go/token` constants they name. */
module Tokens {
  type Token = int

  const INT: Token := 5
  const FLOAT: Token := 6
  const ADD: Token := 12
  const SUB: Token := 13
  const MUL: Token := 14
  const QUO: Token := 15
  const REM: Token := 16
  const AND: Token := 17
  const OR: Token := 18
  const XOR: Token := 19
  const SHL: Token := 20
  const SHR: Token := 21
  const ADD_ASSIGN: Token := 23
  const SUB_ASSIGN: Token := 24
  const MUL_ASSIGN: Token := 25
  const QUO_ASSIGN: Token := 26
  const REM_ASSIGN: Token := 27
  const AND_ASSIGN: Token := 28
  const OR_ASSIGN: Token := 29
  const XOR_ASSIGN: Token := 30
  const SHL_ASSIGN: Token := 31
  const SHR_ASSIGN: Token := 32
  const LAND: Token := 34
  const LOR: Token := 35
  const INC: Token := 37
  const DEC: Token := 38
  const EQL: Token := 39
  const LSS: Token := 40
  const GTR: Token := 41
  const ASSIGN: Token := 42
  const NOT: Token := 43
  const NEQ: Token := 44
  const LEQ: Token := 45
  const GEQ: Token := 46

  type OpCode = string

  /** `binaryOps`: C binary operators with a Go counterpart. */
  const BinaryOps: map<OpCode, Token> := map[
    "+" := ADD, "-" := SUB, "*" := MUL, "/" := QUO, "%" := REM,
    "&" := AND, "|" := OR, "^" := XOR, "<<" := SHL, ">>" := SHR,
    "==" := EQL, "<" := LSS, ">" := GTR, "!=" := NEQ, "<=" := LEQ, ">=" := GEQ,
    "||" := LOR, "&&" := LAND]

  /** `assignOps`: C compound assignment operators. */
  const AssignOps: map<OpCode, Token> := map[
    "+=" := ADD_ASSIGN, "-=" := SUB_ASSIGN, "*=" := MUL_ASSIGN, "/=" := QUO_ASSIGN,
    "%=" := REM_ASSIGN, "&=" := AND_ASSIGN, "|=" := OR_ASSIGN, "^=" := XOR_ASSIGN,
    "<<=" := SHL_ASSIGN, ">>=" := SHR_ASSIGN]

  /** `unaryOps`: C unary operators with a Go counterpart. */
  const UnaryOps: map<OpCode, Token> := map["-" := SUB, "&" := AND, "~" := XOR, "!" := NOT]

  /** The arithmetic opcodes: those that have a compound assignment form. */
  const ArithOps: set<OpCode> := {"+", "-", "*", "/", "%", "&", "|", "^", "<<", ">>"}

  /** The comparison opcodes. */
  const CmpOps: set<OpCode> := {"==", "<", ">", "!=", "<=", ">="}

  /** `isCmpOperator`: the token range from EQL to GEQ. */
  predicate IsCmpOperator(op: Token)
  {
    EQL <= op <= GEQ
  }

  /** `op + (ADD_ASSIGN - INC)`: the compound assignment an increment or
      decrement by a scaled amount turns into. */
  function IncDecAssignOp(op: Token): (r: Token)
    requires op == INC || op == DEC
    ensures op == INC ==> r == ADD_ASSIGN
    ensures op == DEC ==> r == SUB_ASSIGN
  {
    op + (ADD_ASSIGN - INC)
  }

  /** Different binary opcodes give different tokens. */
  lemma BinaryOpsInjective(a: OpCode, b: OpCode)
    requires a in BinaryOps && b in BinaryOps
    ensures BinaryOps[a] == BinaryOps[b] <==> a == b
  {
  }

  /** The compound assignment `op=` carries the token of the binary `op`
      shifted by `ADD_ASSIGN - ADD`, for every arithmetic operator. */
  lemma AssignOpsMatchBinaryOps(op: OpCode)
    requires op in ArithOps
    ensures op in BinaryOps && op + "=" in AssignOps
    ensures AssignOps[op + "="] == BinaryOps[op] + (ADD_ASSIGN - ADD)
  {
    if op in {"+", "-", "*", "/", "%"} {
      ArithAssignLow(op);
    } else {
      ArithAssignHigh(op);
    }
  }

  lemma ArithAssignLow(op: OpCode)
    requires op in {"+", "-", "*", "/", "%"}
    ensures op in BinaryOps && op + "=" in AssignOps
    ensures AssignOps[op + "="] == BinaryOps[op] + (ADD_ASSIGN - ADD)
  {
    if op == "+" {
      assert op + "=" == "+=";
    } else if op == "-" {
      assert op + "=" == "-=";
    } else if op == "*" {
      assert op + "=" == "*=";
    } else if op == "/" {
      assert op + "=" == "/=";
    } else {
      assert op + "=" == "%=";
    }
  }

  lemma ArithAssignHigh(op: OpCode)
    requires op in {"&", "|", "^", "<<", ">>"}
    ensures op in BinaryOps && op + "=" in AssignOps
    ensures AssignOps[op + "="] == BinaryOps[op] + (ADD_ASSIGN - ADD)
  {
    if op == "&" {
      assert op + "=" == "&=";
    } else if op == "|" {
      assert op + "=" == "|=";
    } else if op == "^" {
      assert op + "=" == "^=";
    } else if op == "<<" {
      assert op + "=" == "<<=";
    } else {
      assert op + "=" == ">>=";
    }
  }

  /** Among the binary operators, exactly the six comparisons are
      comparison tokens. */
  lemma CmpOperatorsOfTable(op: OpCode)
    requires op in BinaryOps
    ensures IsCmpOperator(BinaryOps[op]) <==> op in CmpOps
  {
  }

  /** `&&` and `||` are the only logical tokens of the table. */
  lemma LogicalOperatorsOfTable(op: OpCode)
    requires op in BinaryOps
    ensures BinaryOps[op] == LAND || BinaryOps[op] == LOR <==> op == "&&" || op == "||"
  {
  }
}
