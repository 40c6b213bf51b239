/** The two renderings of whole amounts of VND, one grouping from the right and one from the left. */
module Digits {

  function Digit(d: nat): char
    requires d < 10
  {
    ('0' as int + d) as char
  }

  function Decimal(n: nat): (s: string)
    ensures |s| >= 1 && forall i | 0 <= i < |s| :: '0' <= s[i] <= '9'
  {
    if n < 10 then [Digit(n)] else Decimal(n / 10) + [Digit(n % 10)]
  }

  /** A dot before every third digit from the right. */
  function Grouped(s: string): string {
    if |s| <= 3 then s else Grouped(s[..|s| - 3]) + "." + s[|s| - 3..]
  }

  function Signed(amount: int): string {
    (if amount < 0 then "-" else "") + Grouped(Decimal(if amount < 0 then -amount else amount)) + "₫"
  }

  function Reverse(s: string): (r: string)
    ensures |r| == |s|
  {
    if s == "" then "" else Reverse(s[1..]) + [s[0]]
  }

  lemma {:induction false} ReverseConcat(a: string, b: string)
    ensures Reverse(a + b) == Reverse(b) + Reverse(a)
  {
    if a == "" {
      assert a + b == b;
    } else {
      ReverseConcat(a[1..], b);
      assert (a + b)[1..] == a[1..] + b;
    }
  }

  // ----- grouping one digit at a time -----

  /** A dot, when one is due. */
  function Dot(due: bool): string { if due then "." else "" }

  lemma Assoc(a: string, b: string, c: string)
    ensures a + (b + c) == (a + b) + c
  {
  }

  lemma GroupedStep(s: string)
    requires |s| > 3
    ensures Grouped(s) == Grouped(s[..|s| - 3]) + "." + s[|s| - 3..]
  {
  }

  lemma GroupOnLeftShort(c: char, s: string)
    requires |s| <= 3
    ensures Grouped([c] + s) == [c] + Dot(|s| == 3) + s
  {
    var t := [c] + s;
    if |s| == 3 {
      assert t[..1] == [c] && t[1..] == s;
      GroupedStep(t);
    } else {
      assert [c] + "" + s == t;
    }
  }

  /** Whole groups of three to the right of a digit call for a dot. */
  predicate DotDue(n: nat) { 0 < n && n % 3 == 0 }

  lemma DotDueAgain(n: nat)
    requires n > 3
    ensures DotDue(n - 3) <==> DotDue(n)
  {
  }

  lemma LastThree(c: char, s: string)
    requires |s| > 3
    ensures var t := [c] + s; t[..|t| - 3] == [c] + s[..|s| - 3] && t[|t| - 3..] == s[|s| - 3..]
  {
  }

  lemma GroupOnLeftLong(c: char, s: string, dot: string)
    requires |s| > 3 && Grouped([c] + s[..|s| - 3]) == [c] + dot + Grouped(s[..|s| - 3])
    ensures Grouped([c] + s) == [c] + dot + Grouped(s)
  {
    LastThree(c, s);
    GroupedStep([c] + s);
    GroupedStep(s);
    Regroup([c] + dot, Grouped(s[..|s| - 3]), ".", s[|s| - 3..]);
  }

  /** One more digit on the left starts a new group when the digits so far fill whole groups. */
  lemma {:induction false} GroupOnLeft(c: char, s: string)
    ensures Grouped([c] + s) == [c] + Dot(DotDue(|s|)) + Grouped(s)
  {
    if |s| <= 3 {
      GroupOnLeftShort(c, s);
    } else {
      GroupOnLeft(c, s[..|s| - 3]);
      DotDueAgain(|s|);
      GroupOnLeftLong(c, s, Dot(DotDue(|s|)));
    }
  }

  lemma Regroup(a: string, b: string, c: string, d: string)
    ensures ((a + b) + c) + d == a + ((b + c) + d)
  {
    Assoc(a, b, c);
    Assoc(a, b + c, d);
  }

  /** The digits from `k` on, one digit and perhaps a dot longer than those from `k + 1` on. */
  lemma GroupedFrom(digits: string, k: nat)
    requires k < |digits|
    ensures Grouped(digits[k..])
         == [digits[k]] + Dot(0 < |digits| - (k + 1) && (|digits| - (k + 1)) % 3 == 0) + Grouped(digits[k + 1..])
  {
    GroupOnLeft(digits[k], digits[k + 1..]);
    assert digits[k..] == [digits[k]] + digits[k + 1..];
  }

  lemma ReverseTwo(grouped: string, dot: string, ch: char)
    requires |dot| <= 1
    ensures Reverse(grouped + dot + [ch]) == [ch] + dot + Reverse(grouped)
  {
    ReverseConcat(grouped + dot, [ch]);
    ReverseConcat(grouped, dot);
    assert Reverse([ch]) == [ch] && Reverse(dot) == dot;
    assert [ch] + (dot + Reverse(grouped)) == [ch] + dot + Reverse(grouped);
  }

  lemma RightStep(digits: string, index: nat, grouped: string)
    requires index < |digits| && Reverse(grouped) == Grouped(digits[|digits| - index..])
    ensures Reverse(grouped + Dot(index > 0 && index % 3 == 0) + [digits[|digits| - 1 - index]])
         == Grouped(digits[|digits| - (index + 1)..])
  {
    var k := |digits| - 1 - index;
    GroupedFrom(digits, k);
    ReverseTwo(grouped, Dot(index > 0 && index % 3 == 0), digits[k]);
  }

  /** Groups digits from the right, building the text backwards. */
  method FormatVnd(amount: int) returns (out: string)
    ensures out == Signed(amount)
  {
    var digits := Decimal(if amount < 0 then -amount else amount);
    var grouped := "";
    for index := 0 to |digits|
      invariant Reverse(grouped) == Grouped(digits[|digits| - index..])
    {
      RightStep(digits, index, grouped);
      grouped := grouped + Dot(index > 0 && index % 3 == 0);
      grouped := grouped + [digits[|digits| - 1 - index]];
    }
    assert digits[0..] == digits;
    var text := Reverse(grouped);
    out := (if amount < 0 then "-" else "") + text + "₫";
  }

  lemma LeftStep(digits: string, k: nat, before: string, dot: string)
    requires k < |digits| && before + Grouped(digits[k..]) == Grouped(digits)
    requires dot == Dot(k + 1 < |digits| && (|digits| - (k + 1)) % 3 == 0)
    ensures (before + [digits[k]]) + dot + Grouped(digits[k + 1..]) == Grouped(digits)
  {
    GroupedFrom(digits, k);
    var rest := Grouped(digits[k + 1..]);
    Assoc(before, [digits[k]] + dot, rest);
    Assoc(before, [digits[k]], dot);
  }

  /** Groups digits from the left, counting how many remain. */
  method FmtMoney(amount: int) returns (out: string)
    ensures out == Signed(amount)
  {
    var sign := if amount < 0 then "-" else "";
    var digits := Decimal(if amount < 0 then -amount else amount);
    var grouped := "";
    assert digits[0..] == digits;
    for index := 0 to |digits|
      invariant grouped + Dot(0 < index < |digits| && (|digits| - index) % 3 == 0) + Grouped(digits[index..])
                == Grouped(digits)
    {
      grouped := grouped + Dot(0 < index && (|digits| - index) % 3 == 0);
      LeftStep(digits, index, grouped, Dot(index + 1 < |digits| && (|digits| - (index + 1)) % 3 == 0));
      grouped := grouped + [digits[index]];
    }
    assert digits[|digits|..] == "" && Grouped("") == "";
    assert grouped + "" + "" == grouped;
    out := sign + grouped + "₫";
  }

  // ----- no information is lost -----

  function WithoutDots(s: string): string {
    if s == "" then "" else (if s[0] == '.' then "" else [s[0]]) + WithoutDots(s[1..])
  }

  lemma {:induction false} WithoutDotsConcat(a: string, b: string)
    ensures WithoutDots(a + b) == WithoutDots(a) + WithoutDots(b)
  {
    if a == "" {
      assert a + b == b;
    } else {
      WithoutDotsConcat(a[1..], b);
      assert (a + b)[1..] == a[1..] + b;
      Assoc(if a[0] == '.' then "" else [a[0]], WithoutDots(a[1..]), WithoutDots(b));
    }
  }

  lemma {:induction false} NoDots(s: string)
    requires '.' !in s
    ensures WithoutDots(s) == s
  {
    if s != "" { NoDots(s[1..]); }
  }

  lemma DotVanishes()
    ensures WithoutDots(".") == ""
  {
    assert "."[1..] == "";
  }

  lemma {:induction false} UngroupGrouped(s: string)
    requires '.' !in s
    ensures WithoutDots(Grouped(s)) == s
  {
    if |s| <= 3 {
      NoDots(s);
    } else {
      var front, back := s[..|s| - 3], s[|s| - 3..];
      UngroupGrouped(front);
      NoDots(back);
      WithoutDotsConcat(Grouped(front) + ".", back);
      WithoutDotsConcat(Grouped(front), ".");
      DotVanishes();
      assert front + "" + back == s;
    }
  }

  function DigitValue(c: char): nat { if '0' <= c <= '9' then c as int - '0' as int else 0 }

  function Parse(s: string): nat { if s == "" then 0 else 10 * Parse(s[..|s| - 1]) + DigitValue(s[|s| - 1]) }

  lemma {:induction false} ParseDecimal(n: nat)
    ensures Parse(Decimal(n)) == n
  {
    if n >= 10 {
      ParseDecimal(n / 10);
      assert Decimal(n)[..|Decimal(n)| - 1] == Decimal(n / 10);
    } else {
      assert Decimal(n)[..0] == "";
    }
  }

  /** Reads a rendered amount back. */
  function ParseMoney(s: string): int
    requires s != ""
  {
    if s[0] == '-' then 0 - Parse(WithoutDots(s[1..])) else Parse(WithoutDots(s))
  }

  lemma {:induction false} GroupedStarts(s: string)
    requires s != ""
    ensures Grouped(s) != "" && Grouped(s)[0] == s[0]
  {
    if |s| > 3 { GroupedStarts(s[..|s| - 3]); }
  }

  /** Reading back the rendered amount, without its currency sign, yields the amount: no two amounts look alike. */
  lemma RenderingRoundTrips(amount: int)
    ensures |Signed(amount)| >= 2 && ParseMoney(Signed(amount)[..|Signed(amount)| - 1]) == amount
  {
    var digits := Decimal(if amount < 0 then -amount else amount);
    ParseDecimal(if amount < 0 then -amount else amount);
    UngroupGrouped(digits);
    GroupedStarts(digits);
    var text := Signed(amount)[..|Signed(amount)| - 1];
    if amount < 0 {
      assert text == "-" + Grouped(digits) && text[1..] == Grouped(digits);
    } else {
      assert text == Grouped(digits);
    }
  }
}
