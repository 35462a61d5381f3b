/**
  The wallet view (`get_balance`): the walk over every account's coins that
  accumulates the portfolio value in USDT. A coin with a positive balance is
  shown; a USDT coin SETS the running total to its balance, any other coin adds
  its balance times its last spot price when the price lookup yields one. A price
  lookup that fails is swallowed; any other exception, including a missing key of
  an account or a shown coin, ends the whole view.
 */
module Balance {
  import opened Wrappers

  /** The reference currency of the portfolio value. */
  const Usdt: string := "USDT"

  /**
    One coin entry of an account. `coin` is `None` when the entry has no `coin` key.
    `walletBalance` and `availableToWithdraw` are `None` when the key is missing or
    the text is not a number (`float()` raises). `lastPrice` is what the
    ticker lookup made for this coin produced: a price, or `None` when the reply has
    no list, the list is empty, the price is not a decimal or the call raised.
   */
  datatype Coin = Coin(
    coin: Option<string>,
    walletBalance: Option<real>,
    availableToWithdraw: Option<real>,
    lastPrice: Option<real>)

  /** One account of the wallet; `coins` is `None` when it has no `coin` list. */
  datatype Account = Account(coins: Option<seq<Coin>>)

  /** The coin list of an account, empty when it is missing. */
  function CoinsOf(a: Account): seq<Coin> {
    if a.coins.Some? then a.coins.value else []
  }

  /** Every account has its `coin` list, so the outer loop reads none of them in vain. */
  predicate Listed(accounts: seq<Account>) {
    forall i :: 0 <= i < |accounts| ==> accounts[i].coins.Some?
  }

  /**
    Visiting this coin raises an exception that ends the view (outside the inner `try`):
    its balance is not a number, or it is positive and the coin has no name or its
    available amount is not a number.
   */
  predicate Aborts(c: Coin) {
    c.walletBalance.None? || (c.walletBalance.value > 0.0 && (c.coin.None? || c.availableToWithdraw.None?))
  }

  /** The coin has a positive balance, so the loop body runs for it. */
  predicate Shown(c: Coin) {
    c.walletBalance.Some? && c.walletBalance.value > 0.0
  }

  /** A shown USDT coin: the one kind of entry that overwrites the running total. */
  predicate ResetsTotal(c: Coin) {
    Shown(c) && c.coin == Some(Usdt)
  }

  /** `Decimal(str(walletBalance)) * price`: a coin's value in USDT. */
  function Worth(balance: real, price: real): real {
    balance * price
  }

  /** The USDT value a shown non-USDT coin adds: balance times last price, or nothing when the lookup failed. */
  function Converted(c: Coin): real {
    if Shown(c) && c.coin.Some? && c.coin.value != Usdt && c.lastPrice.Some? then Worth(c.walletBalance.value, c.lastPrice.value) else 0.0
  }

  /** One iteration of the inner loop on the running total `total`; `None` when it raises. */
  function Visit(total: real, c: Coin): (r: Option<real>)
    ensures r.None? <==> Aborts(c)
    ensures !Aborts(c) && !Shown(c) ==> r == Some(total)
    ensures !Aborts(c) && ResetsTotal(c) ==> r == Some(c.walletBalance.value)
    ensures !Aborts(c) && !ResetsTotal(c) ==> r == Some(total + Converted(c))
  {
    if c.walletBalance.None? then None
    else if c.walletBalance.value <= 0.0 then Some(total)
    else if c.coin.None? || c.availableToWithdraw.None? then None
    else if c.coin.value == Usdt then Some(c.walletBalance.value)
    else match c.lastPrice
      case Some(price) => Some(total + Worth(c.walletBalance.value, price))
      case None => Some(total)
  }

  /** The loop over `coins`, continued from the running total `start` (`None`: already failed). */
  function Run(start: Option<real>, coins: seq<Coin>): Option<real> {
    if coins == [] then start
    else match Run(start, coins[..|coins| - 1])
      case None => None
      case Some(t) => Visit(t, coins[|coins| - 1])
  }

  /** Every coin of every account, in the order the nested loops visit them. */
  function Flatten(accounts: seq<Account>): seq<Coin> {
    if accounts == [] then [] else Flatten(accounts[..|accounts| - 1]) + CoinsOf(accounts[|accounts| - 1])
  }

  /**
    The portfolio value the view reports, starting from `Decimal('0')`; `None` when the
    view fails, which it does when an account has no coin list or a coin aborts.
   */
  function PortfolioValue(accounts: seq<Account>): Option<real> {
    if Listed(accounts) then Run(Some(0.0), Flatten(accounts)) else None
  }

  /** The nested loops of `get_balance` accumulating `total_usdt`. */
  method TotalUsdt(accounts: seq<Account>) returns (total: Option<real>)
    ensures total == PortfolioValue(accounts)
  {
    var sum := 0.0;
    for i := 0 to |accounts|
      invariant Listed(accounts[..i])
      invariant Run(Some(0.0), Flatten(accounts[..i])) == Some(sum)
    {
      if accounts[i].coins.None? {
        MissingCoinListAt(accounts, i);
        return None;
      }
      ghost var before := Flatten(accounts[..i]);
      var coins := accounts[i].coins.value;
      FlattenStep(accounts, i);
      ListedStep(accounts, i);
      assert before + coins[..0] == before;
      for j := 0 to |coins|
        invariant Run(Some(0.0), before + coins[..j]) == Some(sum)
      {
        var c := coins[j];
        RunStep(before, coins, j);
        if Aborts(c) {
          FailsFromHere(accounts, i, j);
          return None;
        }
        ghost var next := Visit(sum, c);
        var balance := c.walletBalance.value;
        if balance > 0.0 {
          if c.coin.value == Usdt {
            sum := balance;
          } else if c.lastPrice.Some? {
            sum := sum + Worth(balance, c.lastPrice.value);
          }
        }
        assert next == Some(sum);
      }
      assert coins[..|coins|] == coins;
    }
    assert accounts[..|accounts|] == accounts;
    total := Some(sum);
  }

  /** Account `i` has no coin list, so the outer loop raises on it. */
  lemma MissingCoinListAt(accounts: seq<Account>, i: nat)
    requires i < |accounts| && accounts[i].coins.None?
    ensures PortfolioValue(accounts) == None
  {
  }

  /** One more account that has its coin list. */
  lemma ListedStep(accounts: seq<Account>, i: nat)
    requires i < |accounts| && Listed(accounts[..i]) && accounts[i].coins.Some?
    ensures Listed(accounts[..i + 1])
  {
    assert accounts[..i + 1] == accounts[..i] + [accounts[i]];
  }

  /** One more account: its coins follow those of the accounts before it. */
  lemma FlattenStep(accounts: seq<Account>, i: nat)
    requires i < |accounts|
    ensures Flatten(accounts[..i + 1]) == Flatten(accounts[..i]) + CoinsOf(accounts[i])
  {
    assert accounts[..i + 1][..i] == accounts[..i];
  }

  /** One more coin of the current account: the inner loop continues from where it was. */
  lemma RunStep(before: seq<Coin>, coins: seq<Coin>, j: nat)
    requires j < |coins|
    ensures var r := Run(Some(0.0), before + coins[..j]);
            Run(Some(0.0), before + coins[..j + 1]) == if r.None? then None else Visit(r.value, coins[j])
  {
    assert before + coins[..j + 1] == (before + coins[..j]) + [coins[j]];
    RunSnoc(Some(0.0), before + coins[..j], coins[j]);
  }

  /** One more coin: the loop continues from where it was. */
  lemma RunSnoc(start: Option<real>, coins: seq<Coin>, c: Coin)
    ensures Run(start, coins + [c]) == if Run(start, coins).None? then None else Visit(Run(start, coins).value, c)
  {
    assert (coins + [c])[..|coins|] == coins;
  }

  /** Flattening distributes over concatenation. */
  lemma {:induction false} FlattenAppend(x: seq<Account>, y: seq<Account>)
    ensures Flatten(x + y) == Flatten(x) + Flatten(y)
    decreases |y|
  {
    if y == [] {
      assert x + y == x;
    } else {
      assert (x + y)[..|x + y| - 1] == x + y[..|y| - 1];
      FlattenAppend(x, y[..|y| - 1]);
    }
  }

  /** Coin `j` of account `i` aborts, so the whole walk fails. */
  lemma FailsFromHere(accounts: seq<Account>, i: nat, j: nat)
    requires i < |accounts| && j < |CoinsOf(accounts[i])| && Aborts(CoinsOf(accounts[i])[j])
    ensures PortfolioValue(accounts) == None
  {
    var coins := CoinsOf(accounts[i]);
    assert accounts == accounts[..i] + [accounts[i]] + accounts[i + 1..];
    FlattenAppend(accounts[..i] + [accounts[i]], accounts[i + 1..]);
    FlattenAppend(accounts[..i], [accounts[i]]);
    assert [accounts[i]][..0] == [];
    assert coins == coins[..j] + [coins[j]] + coins[j + 1..];
    var rest := coins[j + 1..] + Flatten(accounts[i + 1..]);
    assert Flatten(accounts) == Flatten(accounts[..i]) + coins[..j] + [coins[j]] + rest;
    AbortingCoinFailsView(Flatten(accounts[..i]) + coins[..j], coins[j], rest);
  }

  /** The loop over a concatenation is the loop over the first part continued over the second. */
  lemma {:induction false} RunAppend(start: Option<real>, a: seq<Coin>, b: seq<Coin>)
    ensures Run(start, a + b) == Run(Run(start, a), b)
    decreases |b|
  {
    if b == [] {
      assert a + b == a;
    } else {
      assert (a + b)[..|a + b| - 1] == a + b[..|b| - 1];
      RunAppend(start, a, b[..|b| - 1]);
    }
  }

  /** Once failed, the view stays failed. */
  lemma {:induction false} RunFromFailure(coins: seq<Coin>)
    ensures Run(None, coins) == None
    decreases |coins|
  {
    if coins != [] {
      RunFromFailure(coins[..|coins| - 1]);
    }
  }

  /** The sum of the converted values of some coins. */
  function SumConverted(coins: seq<Coin>): real {
    if coins == [] then 0.0 else SumConverted(coins[..|coins| - 1]) + Converted(coins[|coins| - 1])
  }

  predicate NoneAborts(coins: seq<Coin>) {
    forall i :: 0 <= i < |coins| ==> !Aborts(coins[i])
  }

  predicate NoneResets(coins: seq<Coin>) {
    forall i :: 0 <= i < |coins| ==> !ResetsTotal(coins[i])
  }

  /** Over coins with no shown USDT entry and no failure, the loop adds each coin's converted value to the total. */
  lemma {:induction false} RunAddsConverted(t: real, coins: seq<Coin>)
    requires NoneAborts(coins) && NoneResets(coins)
    ensures Run(Some(t), coins) == Some(t + SumConverted(coins))
    decreases |coins|
  {
    if coins != [] {
      var init := coins[..|coins| - 1];
      assert NoneAborts(init) && NoneResets(init) by {
        forall i | 0 <= i < |init| ensures init[i] == coins[i] { }
      }
      RunAddsConverted(t, init);
    }
  }

  /** A view that meets an aborting coin fails, wherever the coin stands. */
  lemma AbortingCoinFailsView(a: seq<Coin>, c: Coin, b: seq<Coin>)
    requires Aborts(c)
    ensures Run(Some(0.0), a + [c] + b) == None
  {
    RunAppend(Some(0.0), a + [c], b);
    assert (a + [c])[..|a|] == a;
    RunFromFailure(b);
  }

  /** Without any shown USDT coin, the portfolio value is the sum of the converted values. */
  lemma NoUsdtTotalIsSum(coins: seq<Coin>)
    requires NoneAborts(coins) && NoneResets(coins)
    ensures Run(Some(0.0), coins) == Some(SumConverted(coins))
  {
    RunAddsConverted(0.0, coins);
  }

  /** Over coins that do not fail, the loop does not fail. */
  lemma {:induction false} RunSucceeds(coins: seq<Coin>)
    requires NoneAborts(coins)
    ensures Run(Some(0.0), coins).Some?
    decreases |coins|
  {
    if coins != [] {
      var init := coins[..|coins| - 1];
      assert NoneAborts(init) by {
        forall i | 0 <= i < |init| ensures init[i] == coins[i] { }
      }
      RunSucceeds(init);
    }
  }

  /**
    The quirk of the USDT entry: whatever came before it is forgotten. The portfolio
    value is the last shown USDT balance plus the converted values of the coins after it.
   */
  lemma UsdtResetsTotal(a: seq<Coin>, u: Coin, b: seq<Coin>)
    requires NoneAborts(a) && ResetsTotal(u) && !Aborts(u)
    requires NoneAborts(b) && NoneResets(b)
    ensures Run(Some(0.0), a + [u] + b) == Some(u.walletBalance.value + SumConverted(b))
  {
    RunSucceeds(a);
    RunAppend(Some(0.0), a, [u]);
    assert [u][..0] == [];
    RunAppend(Some(0.0), a + [u], b);
    RunAddsConverted(u.walletBalance.value, b);
  }

  /** A coin with no positive balance is not visited: it changes nothing in the result. */
  lemma ZeroBalanceCoinIgnored(a: seq<Coin>, c: Coin, b: seq<Coin>)
    requires c.walletBalance.Some? && c.walletBalance.value <= 0.0
    ensures Run(Some(0.0), a + [c] + b) == Run(Some(0.0), a + b)
  {
    RunAppend(Some(0.0), a + [c], b);
    RunAppend(Some(0.0), a, b);
    assert (a + [c])[..|a|] == a;
  }

  /** The same coin with a failed price lookup. */
  function WithoutPrice(c: Coin): Coin {
    c.(lastPrice := None)
  }

  /**
    A failed price lookup costs the total exactly that coin's converted value, and
    nothing else, when no shown USDT entry follows it.
   */
  lemma FailedLookupCostsItsValue(a: seq<Coin>, c: Coin, b: seq<Coin>)
    requires NoneAborts(a) && !Aborts(c) && NoneAborts(b) && NoneResets(b)
    requires Shown(c) && c.coin != Some(Usdt) && c.lastPrice.Some?
    ensures Run(Some(0.0), a + [c] + b).Some? && Run(Some(0.0), a + [WithoutPrice(c)] + b).Some?
    ensures Run(Some(0.0), a + [c] + b).value - Run(Some(0.0), a + [WithoutPrice(c)] + b).value
            == c.walletBalance.value * c.lastPrice.value
  {
    var c' := WithoutPrice(c);
    RunSucceeds(a);
    var t := Run(Some(0.0), a).value;
    var v := Worth(c.walletBalance.value, c.lastPrice.value);
    assert Converted(c) == v;
    assert Converted(c') == 0.0;
    assert Run(Some(0.0), a + [c]) == Some(t + v) by {
      assert (a + [c])[..|a|] == a;
    }
    assert Run(Some(0.0), a + [c']) == Some(t) by {
      assert (a + [c'])[..|a|] == a;
    }
    RunAppend(Some(0.0), a + [c], b);
    RunAppend(Some(0.0), a + [c'], b);
    RunAddsConverted(t + v, b);
    RunAddsConverted(t, b);
  }

  /** A failed price lookup followed later by a shown USDT entry changes nothing: the reset discards it anyway. */
  lemma FailedLookupMaskedByLaterUsdt(a: seq<Coin>, c: Coin, b: seq<Coin>, u: Coin, d: seq<Coin>)
    requires NoneAborts(a) && !Aborts(c) && NoneAborts(b)
    requires ResetsTotal(u) && !Aborts(u) && NoneAborts(d) && NoneResets(d)
    ensures Run(Some(0.0), a + [c] + b + [u] + d) == Run(Some(0.0), a + [WithoutPrice(c)] + b + [u] + d)
  {
    var c' := WithoutPrice(c);
    assert NoneAborts(a + [c] + b) by {
      forall i | 0 <= i < |a + [c] + b| ensures !Aborts((a + [c] + b)[i]) {
        if i < |a| { assert (a + [c] + b)[i] == a[i]; }
        else if i > |a| { assert (a + [c] + b)[i] == b[i - |a| - 1]; }
      }
    }
    assert NoneAborts(a + [c'] + b) by {
      forall i | 0 <= i < |a + [c'] + b| ensures !Aborts((a + [c'] + b)[i]) {
        if i < |a| { assert (a + [c'] + b)[i] == a[i]; }
        else if i > |a| { assert (a + [c'] + b)[i] == b[i - |a| - 1]; }
      }
    }
    UsdtResetsTotal(a + [c] + b, u, d);
    UsdtResetsTotal(a + [c'] + b, u, d);
  }

  /** The quirk on a concrete wallet: 1 BTC at 100 USDT listed before 50 USDT is valued at 50, not 150. */
  lemma UsdtAfterBtcExample()
    ensures PortfolioValue([Account(Some([Coin(Some("BTC"), Some(1.0), Some(1.0), Some(100.0)),
                                          Coin(Some(Usdt), Some(50.0), Some(50.0), None)]))]) == Some(50.0)
    ensures PortfolioValue([Account(Some([Coin(Some(Usdt), Some(50.0), Some(50.0), None),
                                          Coin(Some("BTC"), Some(1.0), Some(1.0), Some(100.0))]))]) == Some(150.0)
  {
    var btc := Coin(Some("BTC"), Some(1.0), Some(1.0), Some(100.0));
    var usdt := Coin(Some(Usdt), Some(50.0), Some(50.0), None);
    assert Run(Some(0.0), [btc]) == Some(100.0) by { assert [btc][..0] == []; }
    assert Run(Some(0.0), [usdt]) == Some(50.0) by { assert [usdt][..0] == []; }
    assert Run(Some(0.0), [btc, usdt]) == Some(50.0) by { assert [btc, usdt][..1] == [btc]; }
    assert Run(Some(0.0), [usdt, btc]) == Some(150.0) by { assert [usdt, btc][..1] == [usdt]; }
    var accounts := [Account(Some([btc, usdt]))];
    assert Flatten(accounts) == [btc, usdt] by { assert accounts[..0] == []; }
    var accounts' := [Account(Some([usdt, btc]))];
    assert Flatten(accounts') == [usdt, btc] by { assert accounts'[..0] == []; }
  }

  /** An account without a `coin` list fails the whole view, wherever it stands. */
  lemma MissingCoinListFailsView(a: seq<Account>, b: seq<Account>)
    ensures PortfolioValue(a + [Account(None)] + b) == None
  {
    assert (a + [Account(None)] + b)[|a|] == Account(None);
  }

  /** A shown coin without a `coin` name fails the whole view, wherever it stands: its name is read outside the inner `try`. */
  lemma NamelessCoinFailsView(a: seq<Coin>, c: Coin, b: seq<Coin>)
    requires Shown(c) && c.coin.None?
    ensures Run(Some(0.0), a + [c] + b) == None
  {
    AbortingCoinFailsView(a, c, b);
  }
}
