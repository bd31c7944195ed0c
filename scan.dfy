/** The three places where the translator reads raw C source text instead of
    the AST: the label after `goto`, the two arguments of `__builtin_offsetof`,
    and the argument text of `sizeof`. The source buffer is a given string; the
    C-symbol character class is a parameter. */
module Scan {
  import opened Wrappers

  /** The `space` constant: blank, tab, carriage return, newline. */
  predicate IsSpace(c: char) {
    c == ' ' || c == '\t' || c == '\r' || c == '\n'
  }

  predicate AllSpace(s: string) {
    forall i :: 0 <= i < |s| ==> IsSpace(s[i])
  }

  /** `strings.TrimLeft(s, space)` / `bytes.TrimLeft`. */
  function TrimLeft(s: string): (r: string)
    ensures |r| <= |s| && r == s[|s| - |r|..]
    ensures AllSpace(s[..|s| - |r|])
    ensures r != [] ==> !IsSpace(r[0])
  {
    if s != [] && IsSpace(s[0]) then TrimLeft(s[1..]) else s
  }

  /** Removes trailing spaces. */
  function TrimRight(s: string): (r: string)
    ensures |r| <= |s| && r == s[..|r|]
    ensures AllSpace(s[|r|..])
    ensures r != [] ==> !IsSpace(r[|r| - 1])
  {
    if s != [] && IsSpace(s[|s| - 1]) then TrimRight(s[..|s| - 1]) else s
  }

  /** `strings.Trim(s, space)`. */
  function Trim(s: string): string {
    TrimRight(TrimLeft(s))
  }

  /** `strings.TrimPrefix`. */
  function TrimPrefix(s: string, prefix: string): string {
    if prefix <= s then s[|prefix|..] else s
  }

  /** `paramsOf`: leading spaces and then one `(` are dropped. */
  function ParamsOf(v: string): string {
    TrimPrefix(TrimLeft(v), "(")
  }

  /** `bytes.IndexFunc(b, f)` with `f` = "not a C-symbol character": index of
      the first character that cannot continue an identifier, or -1. */
  function IndexNonSym(b: string, isSym: char -> bool): (r: int)
    ensures -1 <= r < |b|
    ensures r >= 0 ==> !isSym(b[r]) && forall j :: 0 <= j < r ==> isSym(b[j])
    ensures r == -1 <==> forall j :: 0 <= j < |b| ==> isSym(b[j])
  {
    if b == [] then -1
    else if !isSym(b[0]) then 0
    else
      var k := IndexNonSym(b[1..], isSym);
      if k < 0 then -1 else k + 1
  }

  /** `strings.Index(s, string(ch))`: first position of `ch`, or -1. */
  function IndexOf(s: string, ch: char): (r: int)
    ensures -1 <= r < |s|
    ensures r >= 0 ==> s[r] == ch && forall j :: 0 <= j < r ==> s[j] != ch
    ensures r == -1 <==> forall j :: 0 <= j < |s| ==> s[j] != ch
  {
    if s == [] then -1
    else if s[0] == ch then 0
    else
      var k := IndexOf(s[1..], ch);
      if k < 0 then -1 else k + 1
  }

  /** `ident`: the C identifier at the start of `b` after leading spaces. It
      panics when no identifier character comes first, and also when the
      identifier runs to the very end of `b`. */
  function Ident(b: string, isSym: char -> bool): Result<string> {
    var t := TrimLeft(b);
    var idx := IndexNonSym(t, isSym);
    if idx <= 0 then Panic else Ok(t[..idx])
  }

  /** What `ident` returns: the leading spaces, the identifier, then a
      character that cannot continue it. */
  lemma IdentSound(b: string, isSym: char -> bool)
    requires Ident(b, isSym).Ok?
    ensures var id := Ident(b, isSym).value;
            var t := TrimLeft(b);
            && id != []
            && (forall i :: 0 <= i < |id| ==> isSym(id[i]))
            && id < t && !isSym(t[|id|])
  {
  }

  /** `ident` fails exactly in the two documented cases. */
  lemma IdentFails(b: string, isSym: char -> bool)
    ensures Ident(b, isSym).Panic? <==>
              var t := TrimLeft(b);
              t == [] || !isSym(t[0]) || forall i :: 0 <= i < |t| ==> isSym(t[i])
  {
  }

  lemma {:induction false} TrimLeftSpaces(ws: string, s: string)
    requires AllSpace(ws)
    requires s == [] || !IsSpace(s[0])
    ensures TrimLeft(ws + s) == s
    decreases |ws|
  {
    if ws == [] {
      assert ws + s == s;
    } else {
      assert (ws + s)[1..] == ws[1..] + s;
      TrimLeftSpaces(ws[1..], s);
    }
  }

  lemma IndexNonSymAfter(id: string, c: char, rest: string, isSym: char -> bool)
    requires forall i :: 0 <= i < |id| ==> isSym(id[i])
    requires !isSym(c)
    ensures IndexNonSym(id + [c] + rest, isSym) == |id|
  {
    var t := id + [c] + rest;
    assert forall j :: 0 <= j < |id| ==> t[j] == id[j];
    assert t[|id|] == c;
  }

  /** Reading back an identifier written after any leading spaces. */
  lemma IdentRoundTrip(ws: string, id: string, c: char, rest: string, isSym: char -> bool)
    requires AllSpace(ws)
    requires id != [] && !IsSpace(id[0]) && forall i :: 0 <= i < |id| ==> isSym(id[i])
    requires !isSym(c)
    ensures Ident(ws + (id + [c] + rest), isSym) == Ok(id)
  {
    var t := id + [c] + rest;
    TrimLeftSpaces(ws, t);
    IndexNonSymAfter(id, c, rest, isSym);
    assert t[..|id|] == id;
  }

  // ---------------------------------------------------------------------------
  // Text of a node

  /** Byte range of an AST node: where its first token starts, that token's
      length, and where the node ends. */
  datatype Range = Range(begin: int, tokLen: int, end: int)

  /** `src[off : off+n]`, which panics when the bounds leave the buffer. */
  function Slice(src: string, lo: int, hi: int): (r: Result<string>)
    ensures r.Ok? <==> 0 <= lo <= hi <= |src|
    ensures r.Ok? ==> r.value == src[lo..hi]
  {
    if 0 <= lo <= hi <= |src| then Ok(src[lo..hi]) else Panic
  }

  /** The first token of a node. */
  function FirstToken(src: string, r: Range): Result<string> {
    Slice(src, r.begin, r.begin + r.tokLen)
  }

  /** `labelOfGoto`: the node must start with `goto`; the label is the
      identifier that follows. */
  function LabelOfGoto(src: string, r: Range, isSym: char -> bool): Result<string> {
    var op :- FirstToken(src, r);
    if op != "goto" then Panic
    else
      var after :- Slice(src, r.begin + r.tokLen, |src|);
      Ident(after, isSym)
  }

  /** `strings.SplitN(s, ",", 2)`. */
  function SplitComma(s: string): (parts: seq<string>)
    ensures 1 <= |parts| <= 2
  {
    var k := IndexOf(s, ',');
    if k < 0 then [s] else [s[..k], s[k + 1..]]
  }

  /** `paramsOfOfsetof`: the type text before the first comma, and the trimmed
      field text after it. */
  function ParamsOfOffsetof(src: string, r: Range): Result<(string, string)> {
    var op :- FirstToken(src, r);
    if op != "__builtin_offsetof" then Panic
    else
      var args :- Slice(src, r.begin + r.tokLen, r.end);
      var params := SplitComma(ParamsOf(args));
      if |params| < 2 then Panic else Ok((params[0], Trim(params[1])))
  }

  /** `paramOfSizeof`: the text after `sizeof` and its opening parenthesis. */
  function ParamOfSizeof(src: string, r: Range): Result<string> {
    var op :- FirstToken(src, r);
    if op != "sizeof" then Panic
    else
      var args :- Slice(src, r.begin + r.tokLen, r.end);
      Ok(ParamsOf(args))
  }

  /** A node that does not start with the expected keyword is an internal
      consistency failure. */
  lemma KeywordMismatchPanics(src: string, r: Range, isSym: char -> bool)
    requires FirstToken(src, r).Ok?
    ensures FirstToken(src, r).value != "goto" ==> LabelOfGoto(src, r, isSym).Panic?
    ensures FirstToken(src, r).value != "__builtin_offsetof" ==> ParamsOfOffsetof(src, r).Panic?
    ensures FirstToken(src, r).value != "sizeof" ==> ParamOfSizeof(src, r).Panic?
  {
  }

  lemma SliceOfConcat(a: string, b: string, c: string)
    ensures (a + b + c)[|a|..|a| + |b|] == b
    ensures (a + b + c)[|a| + |b|..] == c
  {
  }

  /** `goto` followed by spaces and a label is read back as that label. */
  lemma LabelOfGotoRoundTrip(pre: string, ws: string, lbl: string, c: char, post: string,
                             isSym: char -> bool)
    requires AllSpace(ws)
    requires lbl != [] && !IsSpace(lbl[0]) && forall i :: 0 <= i < |lbl| ==> isSym(lbl[i])
    requires !isSym(c)
    ensures LabelOfGoto(pre + "goto" + (ws + (lbl + [c] + post)), Range(|pre|, 4, |pre| + 4), isSym)
              == Ok(lbl)
  {
    var after := ws + (lbl + [c] + post);
    var src := pre + "goto" + after;
    SliceOfConcat(pre, "goto", after);
    assert FirstToken(src, Range(|pre|, 4, |pre| + 4)) == Ok("goto");
    assert |"goto"| == 4;
    assert src[|pre| + 4..|src|] == src[|pre| + 4..] == after;
    IdentRoundTrip(ws, lbl, c, post, isSym);
  }

  lemma ParamsOfOpenParen(ws: string, inner: string)
    requires AllSpace(ws)
    ensures ParamsOf(ws + "(" + inner) == inner
  {
    assert ws + "(" + inner == ws + ("(" + inner);
    TrimLeftSpaces(ws, "(" + inner);
  }

  lemma SplitAtFirstComma(ty: string, field: string)
    requires forall i :: 0 <= i < |ty| ==> ty[i] != ','
    ensures SplitComma(ty + "," + field) == [ty, field]
  {
    var inner := ty + "," + field;
    var k := IndexOf(inner, ',');
    assert forall j :: 0 <= j < |ty| ==> inner[j] == ty[j];
    assert inner[|ty|] == ',';
    assert k == |ty|;
    assert inner[..k] == ty && inner[k + 1..] == field;
  }

  /** `__builtin_offsetof(T, f)`: the type text up to the comma and the field
      name without its surrounding spaces. */
  lemma OffsetofRoundTrip(pre: string, ws: string, ty: string, field: string, post: string)
    requires AllSpace(ws)
    requires forall i :: 0 <= i < |ty| ==> ty[i] != ','
    ensures var args := ws + "(" + (ty + "," + field);
            ParamsOfOffsetof(pre + "__builtin_offsetof" + (args + post), Range(|pre|, 18, |pre| + 18 + |args|))
              == Ok((ty, Trim(field)))
  {
    var kw := "__builtin_offsetof";
    var args := ws + "(" + (ty + "," + field);
    SliceOfConcat(pre, kw, args + post);
    SliceOfConcat(pre + kw, args, post);
    assert pre + kw + (args + post) == pre + kw + args + post;
    ParamsOfOpenParen(ws, ty + "," + field);
    SplitAtFirstComma(ty, field);
  }

  /** `sizeof(T)`: the text after the opening parenthesis, up to the node's end. */
  lemma ParamOfSizeofRoundTrip(pre: string, ws: string, inner: string, post: string)
    requires AllSpace(ws)
    ensures var args := ws + "(" + inner;
            ParamOfSizeof(pre + "sizeof" + (args + post), Range(|pre|, 6, |pre| + 6 + |args|)) == Ok(inner)
  {
    var args := ws + "(" + inner;
    SliceOfConcat(pre, "sizeof", args + post);
    SliceOfConcat(pre + "sizeof", args, post);
    assert pre + "sizeof" + (args + post) == pre + "sizeof" + args + post;
    ParamsOfOpenParen(ws, inner);
  }
}
