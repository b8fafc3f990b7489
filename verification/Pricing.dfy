/**
  Prices of the billing package, over integers: bytes, nanoseconds and
  microcredits.  The source multiplies float64 values and rounds the product up;
  here the product is an exact fraction and the rounding is an exact ceiling.
 */
module Pricing {
  import opened Arithmetic

  const MB: int := 0x10_0000
  const GB: int := 0x4000_0000
  const MINUTE: int := 60 * 1_000_000_000
  const HOUR: int := 60 * MINUTE
  const DAY: int := 24 * HOUR
  const MONTH: int := 30 * DAY

  // One microcredit of storage is SCALE units of (byte * nanosecond * price).
  const SCALE: int := GB * MONTH

  datatype Prices = Prices(embedPer1k: nat, rerankPer1k: nat, storagePerGBMonth: nat, freeStorageMB: nat)

  const DEFAULT_PRICES := Prices(20_000, 50_000, 500_000, 500)

  datatype CallKind = Embed | Rerank

  /** The least integer r with r * d >= a. */
  function CeilDiv(a: int, d: int): (r: int)
    requires 0 < d
    ensures (r - 1) * d < a <= r * d
  {
    (a + d - 1) / d
  }

  function Per1k(p: Prices, kind: CallKind): nat {
    match kind
    case Embed => p.embedPer1k
    case Rerank => p.rerankPer1k
  }

  /** `r` microcredits are the price of `tokens` at `per1k` a thousand, rounded up; nothing costs nothing. */
  predicate RoundedUp(r: int, tokens: int, per1k: nat) {
    if tokens <= 0 then r == 0 else 1000 * (r - 1) < tokens * per1k <= 1000 * r
  }

  /** Price of one model call: the exact price of its kind rounded up, so that no priced call is free. */
  function Cost(p: Prices, kind: CallKind, tokens: int): (r: nat)
    ensures kind == Embed ==> RoundedUp(r, tokens, p.embedPer1k)
    ensures kind == Rerank ==> RoundedUp(r, tokens, p.rerankPer1k)
    ensures 0 < tokens && 0 < (if kind == Embed then p.embedPer1k else p.rerankPer1k) ==> 0 < r
  {
    if tokens <= 0 then 0 else
      assert 0 <= tokens * Per1k(p, kind);
      (tokens * Per1k(p, kind) + 999) / 1000
  }

  function FreeBytes(p: Prices): nat {
    p.freeStorageMB * MB
  }

  /** The bytes of `bytes` that are billed at all. */
  function Over(p: Prices, bytes: int): nat {
    if bytes <= FreeBytes(p) then 0 else bytes - FreeBytes(p)
  }

  predicate StorageBillable(p: Prices, bytes: int) {
    FreeBytes(p) < bytes
  }

  /** The exact, unrounded price of keeping `bytes` for `d` nanoseconds, in units of 1/SCALE microcredit. */
  function Exact(p: Prices, bytes: int, d: int): nat {
    if d <= 0 then 0 else
      MulNonNegative(Over(p, bytes) * d, p.storagePerGBMonth);
      Over(p, bytes) * d * p.storagePerGBMonth
  }

  /** Price of keeping `bytes` stored for `d` nanoseconds, rounded up to whole microcredits. */
  function StorageCost(p: Prices, bytes: int, d: int): (r: nat)
    ensures Exact(p, bytes, d) <= r * SCALE < Exact(p, bytes, d) + SCALE
    ensures !StorageBillable(p, bytes) || d <= 0 ==> r == 0
  {
    var over := bytes - FreeBytes(p);
    if over <= 0 || d <= 0 then 0 else CeilDiv(over * d * p.storagePerGBMonth, SCALE)
  }

  /** Every gigabyte over the free megabytes costs the advertised price for 30 days, exactly. */
  lemma GigabyteMonths(p: Prices, gb: nat)
    ensures StorageCost(p, p.freeStorageMB * 1024 * 1024 + gb * 1024 * 1024 * 1024, 30 * 24 * 3600 * 1_000_000_000)
         == gb * p.storagePerGBMonth
  {
    var bytes, price := FreeBytes(p) + gb * GB, gb * p.storagePerGBMonth;
    assert Over(p, bytes) == gb * GB;
    assert Exact(p, bytes, MONTH) == price * SCALE by {
      assert gb * GB * MONTH * p.storagePerGBMonth == gb * p.storagePerGBMonth * (GB * MONTH);
    }
    assert StorageCost(p, bytes, MONTH) * SCALE < (price + 1) * SCALE;
    assert (price - 1) * SCALE < StorageCost(p, bytes, MONTH) * SCALE;
  }

  // What the store asks of whoever sets the price: what `bytes` cost for so many nanoseconds.
  type Pricer = (int, int) -> nat

  function PricerOf(p: Prices): Pricer {
    (bytes: int, d: int) => StorageCost(p, bytes, d)
  }

  function SumDurations(ds: seq<nat>): nat {
    if ds == [] then 0 else ds[0] + SumDurations(ds[1..])
  }

  /** What a period costs when it is settled in the pieces `ds`, each rounded on its own. */
  function SumCosts(p: Prices, bytes: int, ds: seq<nat>): nat {
    if ds == [] then 0 else StorageCost(p, bytes, ds[0]) + SumCosts(p, bytes, ds[1..])
  }

  lemma ExactAdds(p: Prices, bytes: int, d: nat, e: nat)
    ensures Exact(p, bytes, d + e) == Exact(p, bytes, d) + Exact(p, bytes, e)
  {
    var over, rate := Over(p, bytes), p.storagePerGBMonth;
    assert over * (d + e) * rate == over * d * rate + over * e * rate by {
      assert over * (d + e) == over * d + over * e;
    }
  }

  lemma {:induction false} PiecesBracketExact(p: Prices, bytes: int, ds: seq<nat>)
    ensures var n, exact := |ds|, Exact(p, bytes, SumDurations(ds));
            exact <= SumCosts(p, bytes, ds) * SCALE <= exact + n * (SCALE - 1)
  {
    if ds != [] {
      PiecesBracketExact(p, bytes, ds[1..]);
      ExactAdds(p, bytes, ds[0], SumDurations(ds[1..]));
    }
  }

  /** Settling a period in any n pieces never lowers the bill and adds at most n - 1 microcredits. */
  lemma SettlementSchedule(p: Prices, bytes: int, ds: seq<nat>)
    requires ds != []
    ensures var whole := StorageCost(p, bytes, SumDurations(ds));
            whole <= SumCosts(p, bytes, ds) <= whole + |ds| - 1
  {
    PiecesBracketExact(p, bytes, ds);
  }
}
