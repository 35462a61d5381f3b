/**
  The positions view (`get_positions`): each open position's metrics and the
  running total of unrealised PnL. A record whose processing raises one of the
  exceptions the inner handler catches is skipped; any other exception ends the
  whole view with an error, and there is then no total.
 */
module Positions {
  import opened Wrappers
  import opened Metrics

  /**
    One position record as the exchange returns it, with each field already read
    the way the code reads it. A missing `size`, `avgPrice`, `markPrice` or
    `unrealisedPnl` reads as 0 (the code's defaults); `None` stands for text that is
    not a number. A missing `side` reads as 'N/A'; a missing `symbol` is `None`.
   */
  datatype PositionRecord = PositionRecord(
    symbol: Option<string>,
    side: string,
    size: Option<real>,
    avgPrice: Option<real>,
    markPrice: Option<real>,
    unrealisedPnl: Option<real>,
    margin: Margin)

  /** What the loop body does with one record. */
  datatype Verdict =
    | Closed                                        // size not positive: not shown, not counted
    | Counted(pnl: real, percent: real, roe: real)  // shown and added to the total
    | Skipped                                       // a caught KeyError: logged, loop continues
    | Aborted                                       // an uncaught exception: the whole view fails

  /** The record is an open position: its size is a number above zero. */
  predicate Open(p: PositionRecord) {
    p.size.Some? && p.size.value > 0.0
  }

  /** The entry price, the mark price and the unrealised PnL are all decimal numbers. */
  predicate Numeric(p: PositionRecord) {
    p.avgPrice.Some? && p.markPrice.Some? && p.unrealisedPnl.Some?
  }

  /**
    The loop body for one record, in the order the code evaluates it: the size test
    outside the inner `try`; the decimal conversions and the ROE test, whose
    `decimal.InvalidOperation` the inner handler does not catch; the `position['symbol']`
    lookup, whose KeyError it does catch; the margin display, which raises for a blank margin.
   */
  function Assess(p: PositionRecord): (v: Verdict)
    ensures v.Counted? ==> p.size.Some? && p.size.value > 0.0 && p.symbol.Some?
    ensures v.Counted? ==> p.unrealisedPnl.Some? && v.pnl == p.unrealisedPnl.value
    ensures v.Counted? ==> p.avgPrice.Some? && p.markPrice.Some? && p.margin != Blank
    ensures v.Counted? ==> v.percent == PnlPercent(p.avgPrice.value, p.markPrice.value, p.side)
    ensures v.Counted? ==> Roe(v.pnl, p.margin) == Some(v.roe)
    ensures v.Closed? <==> p.size.Some? && p.size.value <= 0.0
    ensures v.Counted? <==> Open(p) && Numeric(p) && !p.margin.Malformed? && p.symbol.Some? && !p.margin.Blank?
    ensures v.Skipped? <==> Open(p) && Numeric(p) && !p.margin.Malformed? && p.symbol.None?
    ensures v.Aborted? <==>
              || p.size.None?
              || (Open(p) && (!Numeric(p) || p.margin.Malformed? || (p.symbol.Some? && p.margin.Blank?)))
  {
    if p.size.None? then Aborted
    else if p.size.value <= 0.0 then Closed
    else if p.avgPrice.None? || p.markPrice.None? || p.unrealisedPnl.None? then Aborted
    else
      var pnl := p.unrealisedPnl.value;
      match Roe(pnl, p.margin)
      case None => Aborted
      case Some(roe) =>
        if p.symbol.None? then Skipped
        else if p.margin.Blank? then Aborted
        else Counted(pnl, PnlPercent(p.avgPrice.value, p.markPrice.value, p.side), roe)
  }

  /** Whether some record ends the view with an error. */
  predicate AnyAborted(ps: seq<PositionRecord>) {
    exists i :: 0 <= i < |ps| && Assess(ps[i]).Aborted?
  }

  /** The unrealised PnL of one record as it enters the total: its PnL when counted, otherwise nothing. */
  function Contribution(p: PositionRecord): real {
    if Assess(p).Counted? then Assess(p).pnl else 0.0
  }

  /** Sum of the contributions, in list order. */
  function SumCounted(ps: seq<PositionRecord>): real {
    if ps == [] then 0.0 else SumCounted(ps[..|ps| - 1]) + Contribution(ps[|ps| - 1])
  }

  /** The total PnL the view reports: the sum of counted PnL, or `None` when the view fails. */
  function TotalPnl(ps: seq<PositionRecord>): Option<real> {
    if AnyAborted(ps) then None else Some(SumCounted(ps))
  }

  /**
    The loop of `get_positions` over the returned list, accumulating `total_pnl`;
    an aborting record ends it at once.
   */
  method PositionsTotal(ps: seq<PositionRecord>) returns (total: Option<real>)
    ensures total == TotalPnl(ps)
  {
    var sum := 0.0;
    for i := 0 to |ps|
      invariant !AnyAborted(ps[..i])
      invariant sum == SumCounted(ps[..i])
    {
      assert ps[..i + 1][..i] == ps[..i];
      match Assess(ps[i])
      case Aborted =>
        assert ps[i] == ps[..i + 1][i];
        assert AnyAborted(ps) by { assert Assess(ps[i]).Aborted?; }
        return None;
      case Counted(pnl, _, _) =>
        sum := sum + pnl;
      case Closed =>
      case Skipped =>
    }
    assert ps[..|ps|] == ps;
    total := Some(sum);
  }

  /** The total over a concatenation is the sum of the totals of the parts. */
  lemma {:induction false} SumCountedAppend(a: seq<PositionRecord>, b: seq<PositionRecord>)
    ensures SumCounted(a + b) == SumCounted(a) + SumCounted(b)
    decreases |b|
  {
    if b == [] {
      assert a + b == a;
    } else {
      var b' := b[..|b| - 1];
      assert (a + b)[..|a + b| - 1] == a + b';
      SumCountedAppend(a, b');
    }
  }

  /**
    A record that is closed or skipped leaves the reported total exactly as it would
    be without it, wherever it stands: the records after it are still processed.
   */
  lemma SkippedRecordIgnored(a: seq<PositionRecord>, p: PositionRecord, b: seq<PositionRecord>)
    requires Assess(p).Closed? || Assess(p).Skipped?
    ensures TotalPnl(a + [p] + b) == TotalPnl(a + b)
  {
    SumCountedAppend(a + [p], b);
    SumCountedAppend(a, b);
    assert (a + [p])[..|a|] == a;
    assert SumCounted(a + [p]) == SumCounted(a);
    AbortsWithoutRecord(a, p, b);
  }

  /** Removing a record that does not abort changes nothing about whether the view fails. */
  lemma AbortsWithoutRecord(a: seq<PositionRecord>, p: PositionRecord, b: seq<PositionRecord>)
    requires !Assess(p).Aborted?
    ensures AnyAborted(a + [p] + b) <==> AnyAborted(a + b)
  {
    var s, t := a + [p] + b, a + b;
    if AnyAborted(s) {
      var i :| 0 <= i < |s| && Assess(s[i]).Aborted?;
      if i < |a| { assert s[i] == t[i]; } else { assert s[i] == t[i - 1]; }
    }
    if AnyAborted(t) {
      var i :| 0 <= i < |t| && Assess(t[i]).Aborted?;
      if i < |a| { assert s[i] == t[i]; } else { assert s[i + 1] == t[i]; }
    }
  }

  /** A record that aborts, anywhere in the list, leaves the view without a total. */
  lemma AbortingRecordFailsView(a: seq<PositionRecord>, p: PositionRecord, b: seq<PositionRecord>)
    requires Assess(p).Aborted?
    ensures TotalPnl(a + [p] + b) == None
  {
    assert (a + [p] + b)[|a|] == p;
  }

  /** The records the loop adds to the total, in list order. */
  function CountedRecords(ps: seq<PositionRecord>): (rs: seq<PositionRecord>)
    ensures forall r :: r in rs ==> Assess(r).Counted?
  {
    if ps == [] then []
    else CountedRecords(ps[..|ps| - 1]) + (if Assess(ps[|ps| - 1]).Counted? then [ps[|ps| - 1]] else [])
  }

  /** The sum of the `unrealisedPnl` fields of some records. */
  function SumUnrealised(rs: seq<PositionRecord>): real
    requires forall r :: r in rs ==> r.unrealisedPnl.Some?
  {
    if rs == [] then 0.0 else SumUnrealised(rs[..|rs| - 1]) + rs[|rs| - 1].unrealisedPnl.value
  }

  /**
    When no record fails the view, the total is the sum of `unrealisedPnl` over exactly
    the open records whose processing raised nothing; with no positions it is zero.
   */
  lemma {:induction false} TotalIsSumOverCounted(ps: seq<PositionRecord>)
    requires !AnyAborted(ps)
    ensures TotalPnl(ps) == Some(SumUnrealised(CountedRecords(ps)))
  {
    if ps != [] {
      var init, last := ps[..|ps| - 1], ps[|ps| - 1];
      assert !AnyAborted(init) by {
        forall i | 0 <= i < |init| ensures !Assess(init[i]).Aborted? {
          assert init[i] == ps[i];
        }
      }
      TotalIsSumOverCounted(init);
      var rs, rs' := CountedRecords(ps), CountedRecords(init);
      assert SumCounted(ps) == SumCounted(init) + Contribution(last);
      if Assess(last).Counted? {
        assert rs == rs' + [last];
        assert rs[..|rs| - 1] == rs';
        assert SumUnrealised(rs) == SumUnrealised(rs') + last.unrealisedPnl.value;
      } else {
        assert rs == rs';
        assert Contribution(last) == 0.0;
      }
    }
  }

  /**
    Two records beside a well-formed open position: a closed one and one without a
    symbol. The total is exactly the open position's own PnL.
   */
  lemma OpenBesideClosedAndSkipped(pnl: real)
    ensures var good := PositionRecord(Some("BTCUSDT"), "Buy", Some(1.0), Some(100.0), Some(110.0), Some(pnl), Amount(500.0));
            var closed := PositionRecord(Some("ETHUSDT"), "Sell", Some(0.0), Some(10.0), Some(9.0), Some(3.0), Amount(5.0));
            var nameless := PositionRecord(None, "Buy", Some(2.0), Some(10.0), Some(11.0), Some(7.0), NotAvailable);
            TotalPnl([closed, good, nameless]) == Some(pnl)
  {
    var good := PositionRecord(Some("BTCUSDT"), "Buy", Some(1.0), Some(100.0), Some(110.0), Some(pnl), Amount(500.0));
    var closed := PositionRecord(Some("ETHUSDT"), "Sell", Some(0.0), Some(10.0), Some(9.0), Some(3.0), Amount(5.0));
    var nameless := PositionRecord(None, "Buy", Some(2.0), Some(10.0), Some(11.0), Some(7.0), NotAvailable);
    var ps := [closed, good, nameless];
    assert Assess(closed).Closed? && Assess(nameless).Skipped? && Assess(good).Counted?;
    assert !AnyAborted(ps) by {
      forall i | 0 <= i < |ps| ensures !Assess(ps[i]).Aborted? {
        assert ps[i] == closed || ps[i] == good || ps[i] == nameless;
      }
    }
    assert SumCounted([closed]) == 0.0 by { assert [closed][..0] == []; }
    assert SumCounted([closed, good]) == pnl by { assert [closed, good][..1] == [closed]; }
    assert SumCounted(ps) == pnl by { assert ps[..2] == [closed, good]; }
  }

  /** A record with a non-numeric size fails the whole view: the code converts the size outside the inner `try`. */
  lemma NonNumericSizeFailsView(a: seq<PositionRecord>, p: PositionRecord, b: seq<PositionRecord>)
    requires p.size.None?
    ensures TotalPnl(a + [p] + b) == None
  {
    AbortingRecordFailsView(a, p, b);
  }
}
