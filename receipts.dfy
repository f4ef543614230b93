/** The extraction result types shared by both agent modules (`app/agent.py` and the
    root `agent.py` declare the same `ReceiptInfo` and `InvalidReceipt`). */
module Receipts {
  import opened Wrappers

  /** A point in time; how `datetime` renders it is not part of this model. */
  type Timestamp = int

  /** A finite `decimal.Decimal`: the value `unscaled * 10^(-scale)`. */
  datatype Decimal = Decimal(unscaled: int, scale: nat)

  function Pow10(n: nat): (r: nat)
    ensures r >= 1
  {
    if n == 0 then 1 else 10 * Pow10(n - 1)
  }

  lemma {:induction false} Pow10Monotone(a: nat, b: nat)
    requires a <= b
    ensures Pow10(a) <= Pow10(b)
  {
    if a < b {
      Pow10Monotone(a, b - 1);
    }
  }

  /** Number of decimal digits of `n`; zero is written with one digit, as in
      `Decimal(0).as_tuple()`. */
  function NumDigits(n: nat): (r: nat)
    ensures r >= 1
    ensures n < Pow10(r)
    ensures n != 0 ==> Pow10(r - 1) <= n
  {
    if n < 10 then 1 else 1 + NumDigits(n / 10)
  }

  /** A number has at most `k` digits exactly when it is below `10^k`. */
  lemma NumDigitsAtMost(n: nat, k: nat)
    requires k >= 1
    ensures NumDigits(n) <= k <==> n < Pow10(k)
  {
    var r := NumDigits(n);
    if r <= k {
      Pow10Monotone(r, k);
    } else {
      Pow10Monotone(k, r - 1);
    }
  }

  /** `Decimal.normalize()`: strip trailing zeros of the coefficient while there are
      fractional digits (rounding to the context precision is not modelled). */
  function Normalize(d: Decimal): (r: Decimal)
    ensures r.scale <= d.scale
    ensures r.unscaled * Pow10(d.scale - r.scale) == d.unscaled
    ensures r.scale > 0 ==> r.unscaled % 10 != 0
    decreases d.scale
  {
    if d.scale > 0 && d.unscaled % 10 == 0 then
      var q := d.unscaled / 10;
      var r := Normalize(Decimal(q, d.scale - 1));
      assert r.unscaled * Pow10(d.scale - 1 - r.scale) == q;
      assert Pow10(d.scale - r.scale) == 10 * Pow10(d.scale - 1 - r.scale);
      assert r.unscaled * Pow10(d.scale - r.scale) == 10 * q;
      r
    else
      d
  }

  function Max(a: int, b: int): int { if a < b then b else a }

  /** pydantic's `max_digits` / `decimal_places` check: on the normalised value it counts
      the digits, the decimal places and the whole digits, and demands
      digits <= maxDigits, decimals <= places and whole digits <= maxDigits - places
      (both differences saturating at zero). */
  predicate FitsDecimal(d: Decimal, maxDigits: nat, places: nat) {
    var n := Normalize(d);
    var decimals := n.scale;
    var digits := if n.scale == 0 then NumDigits(if n.unscaled < 0 then -n.unscaled else n.unscaled)
                  else Max(NumDigits(if n.unscaled < 0 then -n.unscaled else n.unscaled), n.scale);
    && digits <= maxDigits
    && decimals <= places
    && Max(digits - decimals, 0) <= Max(maxDigits - places, 0)
  }

  /** What the check means for the value: when there is room for a whole digit, a decimal
      fits exactly when its normalised form has at most `places` fractional digits and its
      magnitude is below `10^(maxDigits - places)`. */
  lemma FitsDecimalMeaning(d: Decimal, maxDigits: nat, places: nat)
    requires places < maxDigits
    ensures var n := Normalize(d);
            var mag := if n.unscaled < 0 then -n.unscaled else n.unscaled;
            FitsDecimal(d, maxDigits, places) <==>
              n.scale <= places && mag < Pow10(maxDigits - places + n.scale)
  {
    var n := Normalize(d);
    var mag := if n.unscaled < 0 then -n.unscaled else n.unscaled;
    NumDigitsAtMost(mag, maxDigits - places + n.scale);
  }

  /** The five payment methods the `Literal` type admits. */
  const PaymentMethods: seq<string> := ["credit_card", "debit_card", "transfer", "yape", "plin"]

  /** `ReceiptInfo`: the fields of a successfully read receipt. */
  datatype ReceiptInfo = ReceiptInfo(
    issuedAt: Timestamp,
    vendorName: Option<string>,
    vendorRuc: Option<string>,
    currency: string,
    totalAmount: Decimal,
    tip: Decimal,
    paymentMethod: string,
    note: string)

  /** `ReceiptAgentOutput = ReceiptInfo | InvalidReceipt`. */
  datatype AgentOutput = Info(info: ReceiptInfo) | Invalid

  /** The field constraints `ReceiptInfo` declares. */
  predicate ValidReceiptInfo(r: ReceiptInfo) {
    && r.paymentMethod in PaymentMethods
    && FitsDecimal(r.totalAmount, 10, 2)
    && FitsDecimal(r.tip, 5, 2)
  }

  /** The constraints the output type declares: an `InvalidReceipt` always meets them, a
      `ReceiptInfo` when its fields do. */
  predicate ValidOutput(o: AgentOutput) {
    o.Info? ==> ValidReceiptInfo(o.info)
  }

  /** The field constraints in terms of values: a listed payment method, a total with at
      most two decimals below 10^8, and a tip with at most two decimals below 10^3. */
  lemma ValidReceiptInfoMeaning(r: ReceiptInfo)
    ensures var t := Normalize(r.totalAmount);
            var p := Normalize(r.tip);
            var tMag := if t.unscaled < 0 then -t.unscaled else t.unscaled;
            var pMag := if p.unscaled < 0 then -p.unscaled else p.unscaled;
            ValidReceiptInfo(r) <==>
              && r.paymentMethod in PaymentMethods
              && t.scale <= 2 && tMag < Pow10(8 + t.scale)
              && p.scale <= 2 && pMag < Pow10(3 + p.scale)
  {
    FitsDecimalMeaning(r.totalAmount, 10, 2);
    FitsDecimalMeaning(r.tip, 5, 2);
  }

  /** 19.99 is a valid total: two decimals, eight whole digits allowed. */
  lemma TotalExampleValid()
    ensures FitsDecimal(Decimal(1999, 2), 10, 2)
  {
    FitsDecimalMeaning(Decimal(1999, 2), 10, 2);
    assert Normalize(Decimal(1999, 2)) == Decimal(1999, 2);
    assert Pow10(8 + 2) == 10000000000;
  }

  /** 0.001 is not a valid total: three decimal places. */
  lemma TotalExampleTooPrecise()
    ensures !FitsDecimal(Decimal(1, 3), 10, 2)
  {
    FitsDecimalMeaning(Decimal(1, 3), 10, 2);
    assert Normalize(Decimal(1, 3)) == Decimal(1, 3);
  }

  /** 1000.00 is not a valid tip: four whole digits where three are allowed, however
      the trailing zeros are written. */
  lemma TipExampleTooLarge()
    ensures !FitsDecimal(Decimal(100000, 2), 5, 2)
  {
    FitsDecimalMeaning(Decimal(100000, 2), 5, 2);
    assert Normalize(Decimal(10000, 1)) == Normalize(Decimal(1000, 0));
    assert Normalize(Decimal(100000, 2)) == Decimal(1000, 0);
    assert Pow10(3) == 1000;
  }
}
