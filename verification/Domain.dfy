/** Source-independent voucher entities shared by planning, storage and claiming. */
module Domain {

  datatype Option<+T> = None | Some(value: T) {
    function GetOr(default: T): T {
      match this
      case Some(v) => v
      case None => default
    }
  }

  /** Exact decimal money. */
  type Money = real

  /** Seconds since an epoch. */
  type Instant = int

  datatype VoucherType = Platform | Shop | Freeship | Payment | Live | Video | Category | Unknown

  datatype DiscountType = FixedAmount | Percentage | Coins | FreeShipping

  datatype Scope =
    | PlatformScope
    | ShopScope(shopId: string)
    | CategoryScope(name: string)
    | PaymentScope(payMethod: string)
    | OtherScope(detail: string)

  datatype VoucherStatus =
    | Discovered | Validated | Eligible | Scheduled | Claiming
    | Saved | Exhausted | Ineligible | Expired | ReviewRequired

  /** The conditions a source publishes about a voucher. */
  datatype Terms = Terms(
    code: Option<string>,
    promotionId: Option<string>,
    signature: Option<string>,
    title: string,
    voucherType: VoucherType,
    discountType: Option<DiscountType>,
    discountAmount: Option<Money>,
    discountPercent: Option<Money>,
    maxDiscount: Option<Money>,
    minSpend: Option<Money>,
    startAt: Option<Instant>,
    endAt: Option<Instant>,
    scope: Option<Scope>,
    paymentMethod: Option<string>)

  datatype Voucher = Voucher(id: nat, terms: Terms, status: VoucherStatus)

  function Pow2(n: nat): (r: nat)
    ensures r >= 1
  {
    if n == 0 then 1 else 2 * Pow2(n - 1)
  }

  function MinMoney(a: Money, b: Money): Money { if a <= b then a else b }

  function MaxMoney(a: Money, b: Money): Money { if a >= b then a else b }
}

/** Integer division as the program does it. */
module Arithmetic {

  /** Integer division that truncates toward zero. */
  function Truncate(a: int, b: int): int
    requires b != 0
  {
    var q := (if a >= 0 then a else -a) / (if b > 0 then b else -b);
    if (a >= 0) == (b > 0) then q else -q
  }

  lemma TruncatePositive(a: int, b: int)
    requires a >= 0 && b > 0
    ensures Truncate(a, b) == a / b
  {
  }

  lemma DivBounds(a: int, b: int)
    requires a >= 0 && b > 0
    ensures a / b >= 0 && a / b * b <= a < (a / b + 1) * b
  {
    assert a == a / b * b + a % b;
  }
}

/** The string normalisation the planner applies before comparing names. */
module Text {

  predicate IsSpace(c: char) {
    var n := c as int;
    9 <= n <= 13 || n == 32 || n == 0x85 || n == 0xA0 || n == 0x1680 || 0x2000 <= n <= 0x200A
    || n == 0x2028 || n == 0x2029 || n == 0x202F || n == 0x205F || n == 0x3000
  }

  function TrimStart(s: string): string {
    if s != [] && IsSpace(s[0]) then TrimStart(s[1..]) else s
  }

  function TrimEnd(s: string): string {
    if s != [] && IsSpace(s[|s| - 1]) then TrimEnd(s[..|s| - 1]) else s
  }

  function Trim(s: string): string { TrimEnd(TrimStart(s)) }

  lemma {:induction false} TrimEndEnds(s: string)
    ensures TrimEnd(s) <= s
    ensures TrimEnd(s) == "" || !IsSpace(TrimEnd(s)[|TrimEnd(s)| - 1])
  {
    if s != [] && IsSpace(s[|s| - 1]) { TrimEndEnds(s[..|s| - 1]); }
  }

  lemma {:induction false} TrimStartStarts(s: string)
    ensures TrimStart(s) == "" || !IsSpace(TrimStart(s)[0])
  {
    if s != [] && IsSpace(s[0]) { TrimStartStarts(s[1..]); }
  }

  /** Trimmed text neither starts nor ends with a space. */
  lemma TrimTrims(s: string)
    requires Trim(s) != ""
    ensures !IsSpace(Trim(s)[0]) && !IsSpace(Trim(s)[|Trim(s)| - 1])
  {
    TrimStartStarts(s);
    TrimEndEnds(TrimStart(s));
  }

  /** Text that neither starts nor ends with a space is left alone. */
  lemma TrimKeeps(s: string)
    requires s != "" && !IsSpace(s[0]) && !IsSpace(s[|s| - 1])
    ensures Trim(s) == s
  {
  }

  function LowerChar(c: char): char {
    if 'A' <= c <= 'Z' then (c as int + 32) as char else c
  }

  function Lower(s: string): string { seq(|s|, i requires 0 <= i < |s| => LowerChar(s[i])) }

  /** The key under which names are compared: trimmed, lower case. */
  function Fold(s: string): string { Lower(Trim(s)) }
}
