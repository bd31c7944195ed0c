/** Decimal rendering (`strconv.Itoa`) and the synthetic names the translator
    invents: labels `_cgol_<n>`, hoisted variables `<name>_cgo<n>` and
    anonymous structs/unions `_cgoa_<n>`. */
module Names {

  predicate IsDigit(c: char) {
    '0' <= c <= '9'
  }

  function DigitChar(d: nat): (c: char)
    requires d < 10
    ensures IsDigit(c)
  {
    ['0', '1', '2', '3', '4', '5', '6', '7', '8', '9'][d]
  }

  /** `strconv.Itoa` restricted to the non-negative counters it is applied to. */
  function Itoa(n: nat): (s: string)
    ensures |s| > 0
    ensures forall i :: 0 <= i < |s| ==> IsDigit(s[i])
    decreases n
  {
    if n < 10 then [DigitChar(n)] else Itoa(n / 10) + [DigitChar(n % 10)]
  }

  lemma DigitCharInjective(a: nat, b: nat)
    requires a < 10 && b < 10
    ensures DigitChar(a) == DigitChar(b) ==> a == b
  {
  }

  /** Two different counters never render to the same text. */
  lemma {:induction false} ItoaInjective(a: nat, b: nat)
    requires Itoa(a) == Itoa(b)
    ensures a == b
    decreases a
  {
    var sa, sb := Itoa(a), Itoa(b);
    if a < 10 && b < 10 {
      DigitCharInjective(a, b);
    } else if a >= 10 && b >= 10 {
      assert sa[..|sa| - 1] == Itoa(a / 10);
      assert sb[..|sb| - 1] == Itoa(b / 10);
      ItoaInjective(a / 10, b / 10);
      assert sa[|sa| - 1] == DigitChar(a % 10);
      assert sb[|sb| - 1] == DigitChar(b % 10);
      DigitCharInjective(a % 10, b % 10);
    }
  }

  const LabelPrefix: string := "_cgol_"
  const AutoVarInfix: string := "_cgo"
  const AnonPrefix: string := "_cgoa_"

  /** Name of the n-th label made by `funcCtx.newLabel`. */
  function LabelName(n: nat): string {
    LabelPrefix + Itoa(n)
  }

  /** Name of the n-th hoisted variable made by `funcCtx.newAutoVar`. */
  function AutoVarName(name: string, n: nat): string {
    name + AutoVarInfix + Itoa(n)
  }

  /** Name of the n-th anonymous struct/union made by `blockCtx.getSuName`. */
  function AnonName(n: nat): string {
    AnonPrefix + Itoa(n)
  }

  lemma LabelNameInjective(a: nat, b: nat)
    ensures LabelName(a) == LabelName(b) <==> a == b
  {
    if LabelName(a) == LabelName(b) {
      assert Itoa(a) == LabelName(a)[|LabelPrefix|..];
      assert Itoa(b) == LabelName(b)[|LabelPrefix|..];
      ItoaInjective(a, b);
    }
  }

  lemma AnonNameInjective(a: nat, b: nat)
    ensures AnonName(a) == AnonName(b) <==> a == b
  {
    if AnonName(a) == AnonName(b) {
      assert Itoa(a) == AnonName(a)[|AnonPrefix|..];
      assert Itoa(b) == AnonName(b)[|AnonPrefix|..];
      ItoaInjective(a, b);
    }
  }

  /** Number of decimal digits at the end of `s`. */
  function TrailingDigits(s: string): (n: nat)
    ensures n <= |s|
  {
    if |s| == 0 || !IsDigit(s[|s| - 1]) then 0 else 1 + TrailingDigits(s[..|s| - 1])
  }

  lemma {:induction false} TrailingDigitsOfSuffix(p: string, d: string)
    requires |p| > 0 && !IsDigit(p[|p| - 1])
    requires forall i :: 0 <= i < |d| ==> IsDigit(d[i])
    ensures TrailingDigits(p + d) == |d|
    decreases |d|
  {
    if |d| > 0 {
      assert (p + d)[..|p + d| - 1] == p + d[..|d| - 1];
      TrailingDigitsOfSuffix(p, d[..|d| - 1]);
    } else {
      assert p + d == p;
    }
  }

  /** A hoisted name determines both the original name and the counter, so
      hoisted variables of one function never collide, whatever their C names. */
  lemma AutoVarNameInjective(x: string, a: nat, y: string, b: nat)
    ensures AutoVarName(x, a) == AutoVarName(y, b) <==> x == y && a == b
  {
    if AutoVarName(x, a) == AutoVarName(y, b) {
      var s := AutoVarName(x, a);
      var da, db := Itoa(a), Itoa(b);
      // the character just before the digits is the 'o' of "_cgo", never a
      // digit, so both renderings have the same length
      TrailingDigitsOfSuffix(x + AutoVarInfix, da);
      TrailingDigitsOfSuffix(y + AutoVarInfix, db);
      assert da == s[|s| - |da|..];
      assert db == s[|s| - |db|..];
      ItoaInjective(a, b);
      assert x == s[..|s| - |da| - |AutoVarInfix|];
      assert y == s[..|s| - |db| - |AutoVarInfix|];
    }
  }
}
