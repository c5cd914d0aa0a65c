/** Text as the proxies handle it: `str.strip` and decimal numbers. */
module Strings {
  /** The characters `str.strip` removes. */
  predicate White(c: char) {
    || ('\t' <= c <= '\r') || ('\U{1c}' <= c <= ' ') || c == '\U{85}' || c == '\U{a0}' || c == '\U{1680}'
    || ('\U{2000}' <= c <= '\U{200a}') || c == '\U{2028}' || c == '\U{2029}' || c == '\U{202f}'
    || c == '\U{205f}' || c == '\U{3000}'
  }

  predicate Blank(s: string) {
    forall i | 0 <= i < |s| :: White(s[i])
  }

  function RStrip(s: string): (r: string)
    ensures r <= s
    ensures r != [] ==> !White(r[|r| - 1])
    ensures Blank(s) <==> r == []
  {
    if s != [] && White(s[|s| - 1]) then RStrip(s[..|s| - 1]) else s
  }

  function LStrip(s: string): (r: string)
    ensures |r| <= |s|
    ensures r != [] ==> !White(r[0])
    ensures Blank(s) <==> r == []
    ensures r != [] ==> s != [] && r[|r| - 1] == s[|s| - 1]
  {
    if s != [] && White(s[0]) then LStrip(s[1..]) else s
  }

  function Strip(s: string): string {
    RStrip(LStrip(s))
  }

  lemma StripIsStable(s: string)
    ensures Strip(Strip(s)) == Strip(s)
    ensures Blank(s) <==> Strip(s) == []
  {
    var t := LStrip(s);
    if t != [] {
      assert RStrip(t)[0] == t[0];
    }
  }

  /** What is left of `xs` after the longest beginning that satisfies `p`. */
  function DropFirst<T>(xs: seq<T>, p: T -> bool): (r: seq<T>)
    ensures |r| <= |xs| && xs[|xs| - |r|..] == r && (forall i | 0 <= i < |xs| - |r| :: p(xs[i]))
  {
    if xs != [] && p(xs[0]) then DropFirst(xs[1..], p) else xs
  }

  /** What is left of `xs` before the longest end that satisfies `p`. */
  function DropLast<T>(xs: seq<T>, p: T -> bool): (r: seq<T>)
    ensures r <= xs && forall i | |r| <= i < |xs| :: p(xs[i])
  {
    if xs != [] && p(xs[|xs| - 1]) then DropLast(xs[..|xs| - 1], p) else xs
  }

  lemma {:induction false} LStripDropsFirst(s: string)
    ensures LStrip(s) == DropFirst(s, White)
  {
    if s != [] && White(s[0]) {
      LStripDropsFirst(s[1..]);
    }
  }

  lemma {:induction false} RStripDropsLast(s: string)
    ensures RStrip(s) == DropLast(s, White)
  {
    if s != [] && White(s[|s| - 1]) {
      RStripDropsLast(s[..|s| - 1]);
    }
  }

  /** Stripping removes white space from both ends and nothing else. */
  lemma StripTrims(s: string) returns (left: string, right: string)
    ensures s == left + (Strip(s) + right)
    ensures (forall i | 0 <= i < |left| :: White(left[i])) && forall i | 0 <= i < |right| :: White(right[i])
  {
    LStripDropsFirst(s);
    RStripDropsLast(LStrip(s));
    left, right := Ends(s, White);
  }

  lemma Ends<T>(xs: seq<T>, p: T -> bool) returns (left: seq<T>, right: seq<T>)
    ensures xs == left + (DropLast(DropFirst(xs, p), p) + right)
    ensures (forall i | 0 <= i < |left| :: p(left[i])) && forall i | 0 <= i < |right| :: p(right[i])
  {
    var t := DropFirst(xs, p);
    left := FirstEnd(xs, p);
    right := LastEnd(t, p);
  }

  lemma FirstEnd<T>(xs: seq<T>, p: T -> bool) returns (left: seq<T>)
    ensures xs == left + DropFirst(xs, p) && forall i | 0 <= i < |left| :: p(left[i])
  {
    left := xs[..|xs| - |DropFirst(xs, p)|];
  }

  lemma LastEnd<T>(xs: seq<T>, p: T -> bool) returns (right: seq<T>)
    ensures xs == DropLast(xs, p) + right && forall i | 0 <= i < |right| :: p(right[i])
  {
    right := xs[|DropLast(xs, p)|..];
  }

  function NumberOf(s: string): int {
    if s == "" then 0 else NumberOf(s[..|s| - 1]) * 10 + (s[|s| - 1] as int - '0' as int)
  }

  lemma DigitIs(n: nat)
    requires n < 10
    ensures "0123456789"[n] as int - '0' as int == n
  {
  }

  /** Reading the digits back gives the number, so no two numbers share them. */
  lemma {:induction false} DigitsReadBack(n: nat)
    ensures NumberOf(Digits(n)) == n
  {
    if n < 10 {
      DigitIs(n);
    } else {
      DigitsReadBack(n / 10);
      DigitIs(n % 10);
    }
  }

  function Digits(n: nat): string {
    if n < 10 then ["0123456789"[n]] else Digits(n / 10) + ["0123456789"[n % 10]]
  }

  function Decimal(n: int): string {
    if n < 0 then "-" + Digits(-n) else Digits(n)
  }
}
