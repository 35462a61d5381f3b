/**
  The per-position figures shown by the positions view: the PnL percentage
  and the return on equity. The source computes them with `Decimal`; here they
  are exact `real` arithmetic.
 */
module Metrics {
  import opened Wrappers

  /** A position is in profit when the mark price has moved in its favour; only the exact side "Buy" counts as long. */
  predicate InProfit(entry: real, mark: real, side: string) {
    if side == "Buy" then mark > entry else mark < entry
  }

  /**
    PnL percentage of a position: the price move relative to the entry price, in
    percent, counted upward for "Buy" and downward for every other side; defined as
    zero when the entry price is not positive.
   */
  function PnlPercent(entry: real, mark: real, side: string): (pct: real)
    ensures entry <= 0.0 ==> pct == 0.0
    ensures entry > 0.0 && side == "Buy" ==> pct * entry == (mark - entry) * 100.0
    ensures entry > 0.0 && side != "Buy" ==> pct * entry == (entry - mark) * 100.0
  {
    if entry > 0.0 then
      if side == "Buy" then (mark - entry) / entry * 100.0
      else (entry - mark) / entry * 100.0
    else 0.0
  }

  /** The mark price at which a position entered at `entry` shows `pct` percent: the inverse of PnlPercent. */
  function MarkAtPercent(entry: real, pct: real, side: string): real {
    if side == "Buy" then entry + entry * pct / 100.0 else entry - entry * pct / 100.0
  }

  /** PnlPercent loses nothing: the mark price is recovered from the entry price, the side and the percentage. */
  lemma MarkFromPnlPercent(entry: real, mark: real, side: string)
    requires entry > 0.0
    ensures MarkAtPercent(entry, PnlPercent(entry, mark, side), side) == mark
  {
    var pct := PnlPercent(entry, mark, side);
    assert entry * pct / 100.0 == (pct * entry) / 100.0;
  }

  /** The percentage is positive exactly when the position is in profit, and zero exactly when the price has not moved. */
  lemma PnlPercentSign(entry: real, mark: real, side: string)
    requires entry > 0.0
    ensures PnlPercent(entry, mark, side) > 0.0 <==> InProfit(entry, mark, side)
    ensures PnlPercent(entry, mark, side) == 0.0 <==> mark == entry
  {
    var pct := PnlPercent(entry, mark, side);
    if pct > 0.0 {
      assert pct * entry > 0.0;
    }
    if pct == 0.0 {
      assert pct * entry == 0.0;
    }
  }

  /** A long and a short entered and marked at the same prices show opposite percentages. */
  lemma PnlPercentSidesOpposite(entry: real, mark: real, side: string)
    requires side != "Buy"
    ensures PnlPercent(entry, mark, side) == -PnlPercent(entry, mark, "Buy")
  {
  }

  /** The worked values: a 100 to 110 move is +10% long, -10% short, and a zero entry gives 0. */
  lemma PnlPercentExamples()
    ensures PnlPercent(100.0, 110.0, "Buy") == 10.0
    ensures PnlPercent(100.0, 110.0, "Sell") == -10.0
    ensures PnlPercent(0.0, 110.0, "Buy") == 0.0
  {
  }

  /**
    How a position's `positionIM` field reads: missing (the code substitutes 'N/A'),
    an empty string (falsy), a decimal amount, or text that is not a decimal.
   */
  datatype Margin = NotAvailable | Blank | Amount(value: real) | Malformed

  /**
    Return on equity: unrealised PnL over margin, in percent, when the margin is a
    positive amount; zero for a missing, blank or non-positive margin. `None` when the
    margin text is not a decimal, where the source's `Decimal(str(margin))` raises.
   */
  function Roe(unrealisedPnl: real, margin: Margin): (roe: Option<real>)
    ensures roe.None? <==> margin.Malformed?
    ensures margin.Amount? && margin.value > 0.0 ==> roe.Some? && roe.value * margin.value == unrealisedPnl * 100.0
    ensures !(margin.Amount? && margin.value > 0.0) && !margin.Malformed? ==> roe == Some(0.0)
  {
    match margin
    case NotAvailable => Some(0.0)
    case Blank => Some(0.0)
    case Malformed => None
    case Amount(m) => if m > 0.0 then Some(unrealisedPnl / m * 100.0) else Some(0.0)
  }

  /** ROE loses nothing when the margin is positive: margin times ROE gives back the unrealised PnL. */
  lemma PnlFromRoe(unrealisedPnl: real, m: real)
    requires m > 0.0
    ensures Roe(unrealisedPnl, Amount(m)).Some?
    ensures Roe(unrealisedPnl, Amount(m)).value * m / 100.0 == unrealisedPnl
  {
  }

  /**
    The ROE indicator and the PnL indicator of the positions view agree when the margin
    is a positive amount: the ROE is then non-negative exactly when the PnL is.
   */
  lemma RoeSignFollowsPnl(unrealisedPnl: real, m: real)
    requires m > 0.0
    ensures Roe(unrealisedPnl, Amount(m)).Some?
    ensures Roe(unrealisedPnl, Amount(m)).value >= 0.0 <==> unrealisedPnl >= 0.0
  {
    var roe := Roe(unrealisedPnl, Amount(m)).value;
    if roe >= 0.0 {
      assert roe * m >= 0.0;
    }
  }

  /**
    Without a positive margin the two indicators can disagree: the ROE is then 0, shown
    as non-negative, whatever the PnL, so a loss shows a red PnL beside a green ROE.
   */
  lemma LossWithoutMarginShowsGreenRoe(unrealisedPnl: real, margin: Margin)
    requires unrealisedPnl < 0.0
    requires !margin.Malformed? && !(margin.Amount? && margin.value > 0.0)
    ensures Roe(unrealisedPnl, margin) == Some(0.0)
    ensures !(unrealisedPnl >= 0.0) && Roe(unrealisedPnl, margin).value >= 0.0
  {
  }

  /** The worked values: 50 on a 500 margin is 10%, and a zero margin gives 0. */
  lemma RoeExamples()
    ensures Roe(50.0, Amount(500.0)) == Some(10.0)
    ensures Roe(50.0, Amount(0.0)) == Some(0.0)
  {
  }
}
