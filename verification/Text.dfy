/** Text helpers shared by the models: white space and trimming as in Go's `strings.TrimSpace`,
    ASCII case folding, and decimal numbers as printed and read by Go's `strconv`. */
module Text {

  datatype Option<+T> = None | Some(value: T)

  /** Go's `unicode.IsSpace`. */
  predicate IsSpace(c: char) {
    || '\t' <= c <= '\r'
    || c == ' '
    || c == '\U{85}'
    || c == '\U{A0}'
    || c == '\U{1680}'
    || '\U{2000}' <= c <= '\U{200A}'
    || c == '\U{2028}'
    || c == '\U{2029}'
    || c == '\U{202F}'
    || c == '\U{205F}'
    || c == '\U{3000}'
  }

  ghost predicate AllSpaces(s: string) {
    forall i | 0 <= i < |s| :: IsSpace(s[i])
  }

  function TrimLeft(s: string): string {
    if s != "" && IsSpace(s[0]) then TrimLeft(s[1..]) else s
  }

  function TrimRight(s: string): string {
    if s != "" && IsSpace(s[|s| - 1]) then TrimRight(s[..|s| - 1]) else s
  }

  lemma {:induction false} TrimLeftCuts(s: string) returns (a: string)
    ensures s == a + TrimLeft(s) && AllSpaces(a)
    ensures TrimLeft(s) != "" ==> !IsSpace(TrimLeft(s)[0])
  {
    if s != "" && IsSpace(s[0]) {
      a := TrimLeftCuts(s[1..]);
      a := [s[0]] + a;
    } else {
      a := "";
    }
  }

  lemma {:induction false} TrimRightCuts(s: string) returns (b: string)
    ensures s == TrimRight(s) + b && AllSpaces(b)
    ensures TrimRight(s) != "" ==> !IsSpace(TrimRight(s)[|TrimRight(s)| - 1])
  {
    if s != "" && IsSpace(s[|s| - 1]) {
      b := TrimRightCuts(s[..|s| - 1]);
      b := b + [s[|s| - 1]];
    } else {
      b := "";
    }
  }

  /** Go's `strings.TrimSpace`. */
  function Trim(s: string): string {
    TrimRight(TrimLeft(s))
  }

  lemma {:induction false} TrimRightUnique(t: string, b: string)
    requires AllSpaces(b)
    requires t != "" ==> !IsSpace(t[|t| - 1])
    ensures TrimRight(t + b) == t
  {
    if b == "" {
      assert t + b == t;
    } else {
      assert (t + b)[..|t + b| - 1] == t + b[..|b| - 1];
      TrimRightUnique(t, b[..|b| - 1]);
    }
  }

  lemma {:induction false} TrimLeftUnique(a: string, t: string)
    requires AllSpaces(a)
    requires t != "" ==> !IsSpace(t[0])
    ensures TrimLeft(a + t) == t
  {
    if a == "" {
      assert a + t == t;
    } else {
      assert (a + t)[1..] == a[1..] + t;
      TrimLeftUnique(a[1..], t);
    }
  }

  /** White space around a text is invisible to `Trim`. */
  lemma TrimPadded(a: string, s: string, b: string)
    requires AllSpaces(a) && AllSpaces(b)
    ensures Trim(a + s + b) == Trim(s)
  {
    var pre := TrimLeftCuts(s);
    var l := TrimLeft(s);
    if l == "" {
      assert a + s + b == (a + pre + b) + "";
      TrimLeftUnique(a + pre + b, "");
    } else {
      assert a + s + b == (a + pre) + (l + b);
      TrimLeftUnique(a + pre, l + b);
      var post := TrimRightCuts(l);
      assert l + b == TrimRight(l) + (post + b);
      TrimRightUnique(TrimRight(l), post + b);
    }
  }

  /** A text with no white space at either end is its own trimming, and only such a text is. */
  lemma TrimFixed(s: string)
    ensures Trim(s) == s <==> (s == "" || (!IsSpace(s[0]) && !IsSpace(s[|s| - 1])))
  {
    var a := TrimLeftCuts(s);
    var b := TrimRightCuts(TrimLeft(s));
  }

  lemma TrimIdempotent(s: string)
    ensures Trim(Trim(s)) == Trim(s)
  {
    var a := TrimLeftCuts(s);
    var l := TrimLeft(s);
    var b := TrimRightCuts(l);
    var t := TrimRight(l);
    if t != "" {
      assert t[0] == l[0];
      TrimFixed(t);
    }
  }

  function LowerChar(c: char): char {
    if 'A' <= c <= 'Z' then c - 'A' + 'a' else c
  }

  /** Lower case, ASCII letters only. */
  function Lower(s: string): (r: string)
    ensures |r| == |s|
    ensures forall i | 0 <= i < |s| :: r[i] == LowerChar(s[i])
  {
    if s == "" then "" else [LowerChar(s[0])] + Lower(s[1..])
  }

  /** The key under which identifiers are compared: trimmed, and up to case. */
  function FoldKey(s: string): string {
    Lower(Trim(s))
  }

  lemma LowerCharKeepsSpaces(c: char)
    ensures IsSpace(LowerChar(c)) <==> IsSpace(c)
    ensures LowerChar(LowerChar(c)) == LowerChar(c)
  {
  }

  lemma LowerIsNotBlank(s: string)
    requires Lower(s) != "" && !IsSpace(Lower(s)[0]) && !IsSpace(Lower(s)[|s| - 1])
    ensures Trim(s) == s
  {
    LowerCharKeepsSpaces(s[0]);
    LowerCharKeepsSpaces(s[|s| - 1]);
    TrimFixed(s);
  }

  /** Identifiers are compared without their outer spaces and without upper and lower case. */
  lemma FoldKeyIgnores(a: string, s: string, b: string)
    requires AllSpaces(a) && AllSpaces(b)
    requires s == "" || (!IsSpace(s[0]) && !IsSpace(s[|s| - 1]))
    ensures FoldKey(a + s + b) == Lower(s)
    ensures |FoldKey(a + s + b)| == |s| && forall i | 0 <= i < |s| :: FoldKey(a + s + b)[i] == LowerChar(s[i])
  {
    TrimPadded(a, s, b);
    TrimFixed(s);
  }

  predicate IsDigit(c: char) {
    '0' <= c <= '9'
  }

  function DigitChar(d: nat): (c: char)
    requires d < 10
    ensures IsDigit(c) && DigitValue(c) == d
  {
    '0' + d as char
  }

  function DigitValue(c: char): (d: nat)
    requires IsDigit(c)
    ensures d < 10
  {
    (c - '0') as int
  }

  ghost predicate AllDigits(s: string) {
    forall i | 0 <= i < |s| :: IsDigit(s[i])
  }

  /** Go's `strconv.FormatInt(n, 10)` for a number that is not negative. */
  function Decimal(n: nat): (s: string)
    ensures s != "" && AllDigits(s)
  {
    if n < 10 then [DigitChar(n)] else Decimal(n / 10) + [DigitChar(n % 10)]
  }

  /** Digits only; None when some character is not a digit or there is none. */
  function ParseDigits(s: string): (r: Option<nat>)
  {
    if s == "" || !IsDigit(s[|s| - 1]) then None
    else if |s| == 1 then Some(DigitValue(s[0]))
    else match ParseDigits(s[..|s| - 1])
      case None => None
      case Some(high) => Some(10 * high + DigitValue(s[|s| - 1]))
  }

  /** Go's `strconv.ParseInt(s, 10, 64)` and `strconv.Atoi`, on unbounded integers. */
  function ParseInt(s: string): (r: Option<int>)
  {
    if s != "" && s[0] == '-' then
      var n := ParseDigits(s[1..]);
      if n.None? then None else
      var value: int := n.value;
      Some(-value)
    else if s != "" && s[0] == '+' then ParseDigits(s[1..])
    else ParseDigits(s)
  }

  lemma {:induction false} ParseDigitsOfDecimal(n: nat)
    ensures ParseDigits(Decimal(n)) == Some(n)
  {
    if n >= 10 {
      ParseDigitsOfDecimal(n / 10);
      var s := Decimal(n);
      assert s[..|s| - 1] == Decimal(n / 10);
    }
  }

  /** Reading a printed number gives the number back. */
  lemma ParseIntOfDecimal(n: nat)
    ensures ParseInt(Decimal(n)) == Some(n)
  {
    ParseDigitsOfDecimal(n);
    assert IsDigit(Decimal(n)[0]);
  }

  lemma DecimalInjective(a: nat, b: nat)
    requires Decimal(a) == Decimal(b)
    ensures a == b
  {
    ParseDigitsOfDecimal(a);
    ParseDigitsOfDecimal(b);
  }

  /* ----- The order of texts ----- */

  predicate TextBefore(a: string, b: string) {
    if |b| == 0 then false
    else if |a| == 0 then true
    else a[0] < b[0] || (a[0] == b[0] && TextBefore(a[1..], b[1..]))
  }

  lemma {:induction false} TextBeforeTotal(a: string, b: string)
    ensures !TextBefore(a, a)
    ensures a != b ==> TextBefore(a, b) || TextBefore(b, a)
    decreases |a|
  {
    if |a| > 0 {
      TextBeforeTotal(a[1..], if |b| > 0 then b[1..] else b);
      if |b| > 0 && a[0] == b[0] {
        assert a == [a[0]] + a[1..] && b == [b[0]] + b[1..];
      }
    }
  }

  lemma {:induction false} TextBeforeTransitive(a: string, b: string, c: string)
    requires TextBefore(a, b) && TextBefore(b, c)
    ensures TextBefore(a, c)
    decreases |a|
  {
    if |a| > 0 && a[0] == b[0] == c[0] {
      TextBeforeTransitive(a[1..], b[1..], c[1..]);
    }
  }
}
