/** The dashboard's data store and the derivations it runs on what it
    stores (src/vixbuddy/data.py): brokerage responses are routed by
    endpoint, account records are filed by account number, each balance
    yields the account's allocation figures, and a quote plus three price
    series yield the index statistics. */
module Data {
  import opened Stats

  datatype Option<T> = None | Some(value: T)

  /** The brokerage endpoints a response can come from. */
  datatype Endpoint = Accounts | Balances | Positions | Transactions

  /** The exceptions the store lets escape. `NonFinite` stands for the cases
      where the source's series arithmetic yields NaN or infinity without
      raising; the model refuses them instead (see README). */
  datatype Error =
    | ValueError
    | NotImplementedError
    | KeyError(key: string)
    | IndexError
    | ZeroDivisionError
    | NonFinite

  /** How an operation of the store ends: normally, or with an exception. */
  datatype Outcome = Done | Raised(error: Error)

  datatype Result<T> = Ok(value: T) | Err(error: Error)

  // ---------------------------------------------------------------------
  // Decoded brokerage responses
  // ---------------------------------------------------------------------

  /** The "account" object of one item of the account list. */
  datatype AccountItem = AccountItem(accountNumber: string, nickname: string)

  /** The "data" object of a balance response; the net liquidating value is
      already parsed from its string field. */
  datatype Balance = Balance(accountNumber: string, netLiquidatingValue: real)

  /** The decoded body of one response: an account list, or one balance. */
  datatype Response = AccountList(items: seq<AccountItem>) | BalanceData(balance: Balance)

  /** What `store_response` is handed: one response, or a list of them. */
  datatype Payload = Single(response: Response) | Many(responses: seq<Response>)

  /** An entry of the account dictionary: the account item, plus the
      balance attached to it once one has been processed. */
  datatype AccountEntry = AccountEntry(item: AccountItem, balances: Option<Balance>)

  /** The leftover account that is never filed. */
  const Placeholder: string := "1DA13984"

  // ---------------------------------------------------------------------
  // Routing of responses
  // ---------------------------------------------------------------------

  /** Where `store_response` sends a payload. */
  datatype Route = StoreAccounts(response: Response) | StoreBalances(responses: seq<Response>) | Reject(error: Error)

  /** Account lists are accepted only as a single response and balances
      only as a list; positions and transactions are not implemented; every
      other combination is a value error. */
  function Dispatch(endpoint: Endpoint, payload: Payload): (r: Route)
    ensures r.StoreAccounts? <==> endpoint.Accounts? && payload.Single?
    ensures r.StoreAccounts? ==> r.response == payload.response
    ensures r.StoreBalances? <==> endpoint.Balances? && payload.Many?
    ensures r.StoreBalances? ==> r.responses == payload.responses
    ensures r == Reject(NotImplementedError) <==> endpoint.Positions? || endpoint.Transactions?
    ensures r == Reject(ValueError) <==> (endpoint.Accounts? && payload.Many?) || (endpoint.Balances? && payload.Single?)
  {
    match (endpoint, payload)
    case (Accounts, Single(r)) => StoreAccounts(r)
    case (Balances, Many(rs)) => StoreBalances(rs)
    case (Positions, _) => Reject(NotImplementedError)
    case (Transactions, _) => Reject(NotImplementedError)
    case _ => Reject(ValueError)
  }

  // ---------------------------------------------------------------------
  // Filing accounts
  // ---------------------------------------------------------------------

  /** Files one account item under its number (replacing any earlier entry),
      unless it is the placeholder account. */
  function Put(m: map<string, AccountEntry>, item: AccountItem): (r: map<string, AccountEntry>)
    ensures item.accountNumber == Placeholder ==> r == m
    ensures item.accountNumber != Placeholder ==>
              && r.Keys == m.Keys + {item.accountNumber}
              && r[item.accountNumber] == AccountEntry(item, None)
              && forall n :: n in m && n != item.accountNumber ==> r[n] == m[n]
  {
    if item.accountNumber == Placeholder then m
    else m[item.accountNumber := AccountEntry(item, None)]
  }

  /** The account dictionary after filing `items` in order. */
  function InsertAccounts(m: map<string, AccountEntry>, items: seq<AccountItem>): (r: map<string, AccountEntry>)
    ensures m.Keys <= r.Keys
    decreases |items|
  {
    if items == [] then m
    else Put(InsertAccounts(m, items[..|items| - 1]), items[|items| - 1])
  }

  /** The account numbers a list files: all but the placeholder. */
  ghost function FiledNumbers(items: seq<AccountItem>): set<string> {
    set i | 0 <= i < |items| && items[i].accountNumber != Placeholder :: items[i].accountNumber
  }

  /** Filing adds exactly the listed numbers other than the placeholder and
      removes nothing. */
  lemma {:induction false} InsertAccountsKeys(m: map<string, AccountEntry>, items: seq<AccountItem>)
    ensures InsertAccounts(m, items).Keys == m.Keys + FiledNumbers(items)
    ensures Placeholder in InsertAccounts(m, items) <==> Placeholder in m
    decreases |items|
  {
    if items != [] {
      var init := items[..|items| - 1];
      InsertAccountsKeys(m, init);
      var last := items[|items| - 1];
      assert FiledNumbers(items) == FiledNumbers(init) + (if last.accountNumber == Placeholder then {} else {last.accountNumber}) by {
        forall n | n in FiledNumbers(items)
          ensures n in FiledNumbers(init) + (if last.accountNumber == Placeholder then {} else {last.accountNumber})
        {
          var i :| 0 <= i < |items| && items[i].accountNumber != Placeholder && items[i].accountNumber == n;
          if i < |items| - 1 {
            assert init[i] == items[i];
          }
        }
        forall n | n in FiledNumbers(init)
          ensures n in FiledNumbers(items)
        {
          var i :| 0 <= i < |init| && init[i].accountNumber != Placeholder && init[i].accountNumber == n;
          assert items[i] == init[i];
        }
      }
    }
  }

  /** The last item filed under a number is the one the dictionary holds,
      without a balance. */
  lemma {:induction false} InsertAccountsLastWins(m: map<string, AccountEntry>, items: seq<AccountItem>, j: nat)
    requires j < |items| && items[j].accountNumber != Placeholder
    requires forall k :: j < k < |items| ==> items[k].accountNumber != items[j].accountNumber
    ensures items[j].accountNumber in InsertAccounts(m, items)
    ensures InsertAccounts(m, items)[items[j].accountNumber] == AccountEntry(items[j], None)
    decreases |items|
  {
    if j < |items| - 1 {
      var init := items[..|items| - 1];
      InsertAccountsLastWins(m, init, j);
    }
  }

  /** An entry whose number the list does not file keeps its value. */
  lemma {:induction false} InsertAccountsKeepsOthers(m: map<string, AccountEntry>, items: seq<AccountItem>, n: string)
    requires n in m
    requires n == Placeholder || forall i :: 0 <= i < |items| ==> items[i].accountNumber != n
    ensures n in InsertAccounts(m, items) && InsertAccounts(m, items)[n] == m[n]
    decreases |items|
  {
    if items != [] {
      var init := items[..|items| - 1];
      InsertAccountsKeepsOthers(m, init, n);
    }
  }

  /** What `process_accounts` does to the dictionary, and how it ends: no
      stored response leaves it alone, a balance body has no "items" key. */
  function AccountsStep(m: map<string, AccountEntry>, raw: Option<Response>): (r: (map<string, AccountEntry>, Outcome))
    ensures raw.None? ==> r == (m, Done)
    ensures raw.Some? && raw.value.BalanceData? ==> r == (m, Raised(KeyError("items")))
    ensures raw.Some? && raw.value.AccountList? ==>
              && r.1 == Done
              && r.0.Keys == m.Keys + FiledNumbers(raw.value.items)
              && (Placeholder in r.0 <==> Placeholder in m)
  {
    match raw
    case None => (m, Done)
    case Some(BalanceData(_)) => (m, Raised(KeyError("items")))
    case Some(AccountList(items)) =>
      InsertAccountsKeys(m, items);
      (InsertAccounts(m, items), Done)
  }

  // ---------------------------------------------------------------------
  // Allocation figures
  // ---------------------------------------------------------------------

  /** The short-premium allocation for an index level: the first breakpoint
      the level does not exceed decides. */
  function MaxShortAlloc(last: real): (a: real)
    ensures 0.25 <= a <= 0.5
  {
    if last <= 15.0 then 0.25
    else if last <= 20.0 then 0.3
    else if last <= 30.0 then 0.35
    else if last <= 40.0 then 0.4
    else 0.5
  }

  /** Each allocation belongs to exactly one band of index levels. */
  lemma MaxShortAllocBands(last: real)
    ensures MaxShortAlloc(last) == 0.25 <==> last <= 15.0
    ensures MaxShortAlloc(last) == 0.3 <==> 15.0 < last <= 20.0
    ensures MaxShortAlloc(last) == 0.35 <==> 20.0 < last <= 30.0
    ensures MaxShortAlloc(last) == 0.4 <==> 30.0 < last <= 40.0
    ensures MaxShortAlloc(last) == 0.5 <==> 40.0 < last
  {
  }

  /** A higher index level never lowers the allocation. */
  lemma MaxShortAllocMonotone(x: real, y: real)
    requires x <= y
    ensures MaxShortAlloc(x) <= MaxShortAlloc(y)
  {
  }

  /** The breakpoints themselves belong to the lower band. */
  lemma MaxShortAllocBreakpoints()
    ensures MaxShortAlloc(15.0) == 0.25 && MaxShortAlloc(15.01) == 0.3
    ensures MaxShortAlloc(20.0) == 0.3 && MaxShortAlloc(20.01) == 0.35
    ensures MaxShortAlloc(30.0) == 0.35 && MaxShortAlloc(30.01) == 0.4
    ensures MaxShortAlloc(40.0) == 0.4 && MaxShortAlloc(40.01) == 0.5
    ensures MaxShortAlloc(100.0) == 0.5
  {
  }

  /** The smallest whole number not below `x`. */
  function Ceil(x: real): (c: int)
    ensures x <= c as real < x + 1.0
  {
    -((-x).Floor)
  }

  /** The allocation figures of an account with balance `b`. */
  function AccountStats(b: Balance, nickname: string, alloc: real): (a: Account)
    ensures a.number == b.accountNumber && a.nickname == nickname
    ensures a.netLiquidatingValue == b.netLiquidatingValue
    ensures a.maxShortPremiumPercent == alloc
    ensures a.maxShortPremiumPercent + a.cashOrLowRiskPercent == 1.0
    ensures a.maxShortPremium == alloc * a.netLiquidatingValue
    ensures a.maxShortPremium + a.cashOrLowRisk == a.netLiquidatingValue
    ensures a.maxUndefinedRiskBpr == 0.07 * a.netLiquidatingValue
    ensures a.maxDefinedRiskBpr == 0.05 * a.netLiquidatingValue
    ensures 0.001 * a.netLiquidatingValue <= a.portfolioThetaMin as real < 0.001 * a.netLiquidatingValue + 1.0
    ensures a.portfolioThetaMax as real <= 0.002 * a.netLiquidatingValue < a.portfolioThetaMax as real + 1.0
  {
    var netLiq := b.netLiquidatingValue;
    Account(
      number := b.accountNumber,
      nickname := nickname,
      netLiquidatingValue := netLiq,
      maxShortPremiumPercent := alloc,
      cashOrLowRiskPercent := 1.0 - alloc,
      maxShortPremium := alloc * netLiq,
      cashOrLowRisk := (1.0 - alloc) * netLiq,
      maxUndefinedRiskBpr := netLiq * 0.07,
      maxDefinedRiskBpr := netLiq * 0.05,
      portfolioThetaMin := Ceil(netLiq * 0.001),
      portfolioThetaMax := (netLiq * 0.002).Floor)
  }

  /** The theta range is ordered (minimum at most maximum) exactly for a
      net liquidating value of zero or of at least 500; a negative value and
      one strictly between 0 and 500 give an inverted range. */
  lemma ThetaRangeOrdered(b: Balance, nickname: string, alloc: real)
    ensures AccountStats(b, nickname, alloc).portfolioThetaMin <= AccountStats(b, nickname, alloc).portfolioThetaMax
            <==> b.netLiquidatingValue == 0.0 || b.netLiquidatingValue >= 500.0
  {
    var a := AccountStats(b, nickname, alloc);
    var lo, hi := a.portfolioThetaMin, a.portfolioThetaMax;
    var x := 0.001 * b.netLiquidatingValue;
    if b.netLiquidatingValue < 0.0 {
      assert hi as real <= 2.0 * x < x <= lo as real;
    } else if b.netLiquidatingValue == 0.0 {
      assert lo == 0 && hi == 0;
    } else if b.netLiquidatingValue < 500.0 {
      assert 0.0 < x <= lo as real;
      assert hi as real <= 2.0 * x < 1.0;
    } else {
      if x >= 1.0 {
        assert lo as real < x + 1.0 <= 2.0 * x;
      } else {
        assert lo as real < 2.0;
        assert lo <= 1;
      }
      assert lo as real <= 2.0 * x < hi as real + 1.0;
    }
  }

  /** Below a net liquidating value of 500 the range is inverted and left
      so: the minimum is 1 and the maximum 0. */
  lemma ThetaRangeInverted(b: Balance, nickname: string, alloc: real)
    requires 0.0 < b.netLiquidatingValue < 500.0
    ensures AccountStats(b, nickname, alloc).portfolioThetaMin == 1
    ensures AccountStats(b, nickname, alloc).portfolioThetaMax == 0
  {
  }

  /** A net liquidating value of 100000 at index level 18. */
  lemma AccountStatsExample()
    ensures var a := AccountStats(Balance("A1", 100000.0), "main", MaxShortAlloc(18.0));
            && a.maxShortPremium == 30000.0 && a.cashOrLowRisk == 70000.0
            && a.maxUndefinedRiskBpr == 7000.0 && a.maxDefinedRiskBpr == 5000.0
            && a.portfolioThetaMin == 100 && a.portfolioThetaMax == 200
  {
  }

  // ---------------------------------------------------------------------
  // Balances
  // ---------------------------------------------------------------------

  /** The two dictionaries `process_balance` writes. */
  datatype Books = Books(accounts: map<string, AccountEntry>, stats: map<string, Account>)

  /** Figures filed under `n` belong to account `n` and obey the identities
      of the allocation: the percentages sum to one, the amounts to the net
      liquidating value. */
  ghost predicate StatsSound(a: Account, n: string) {
    && a.number == n
    && a.maxShortPremiumPercent + a.cashOrLowRiskPercent == 1.0
    && a.maxShortPremium + a.cashOrLowRisk == a.netLiquidatingValue
  }

  /** Figures exist only for known accounts, and all are sound. */
  ghost predicate BooksValid(bk: Books) {
    && bk.stats.Keys <= bk.accounts.Keys
    && forall n :: n in bk.stats ==> StatsSound(bk.stats[n], n)
  }

  /** What `process_balance` does with one balance response: the balance is
      attached to its account and the account's figures are (re)computed;
      an account list body has no "account-number", an unknown number is a
      missing key, and in both cases nothing is written. */
  function BalanceStep(bk: Books, r: Response, alloc: real): (res: (Books, Outcome))
    ensures res.1 == Done <==> r.BalanceData? && r.balance.accountNumber in bk.accounts
    ensures res.1 == Done || res.1.error.KeyError?
    ensures res.1.Raised? ==> res.0 == bk
    ensures res.0.accounts.Keys == bk.accounts.Keys
    ensures forall n :: n in bk.accounts ==> res.0.accounts[n].item == bk.accounts[n].item
    ensures res.1 == Done ==>
              var b := r.balance;
              && res.0.accounts[b.accountNumber].balances == Some(b)
              && b.accountNumber in res.0.stats
              && res.0.stats[b.accountNumber] == AccountStats(b, bk.accounts[b.accountNumber].item.nickname, alloc)
              && (forall n :: n in bk.accounts && n != b.accountNumber ==> res.0.accounts[n] == bk.accounts[n])
              && (forall n :: n != b.accountNumber ==> (n in res.0.stats <==> n in bk.stats))
              && (forall n :: n != b.accountNumber && n in bk.stats ==> res.0.stats[n] == bk.stats[n])
  {
    match r
    case AccountList(_) => (bk, Raised(KeyError("account-number")))
    case BalanceData(b) =>
      var n := b.accountNumber;
      if n !in bk.accounts then (bk, Raised(KeyError(n)))
      else
        var entry := bk.accounts[n];
        (Books(bk.accounts[n := entry.(balances := Some(b))],
               bk.stats[n := AccountStats(b, entry.item.nickname, alloc)]), Done)
  }

  /** `process_balance` over a list, in order, stopping at the first
      exception; what the earlier balances wrote stays written. */
  function ApplyBalances(bk: Books, rs: seq<Response>, alloc: real): (r: (Books, Outcome))
    ensures rs == [] ==> r == (bk, Done)
    ensures r.1 == Done || r.1.error.KeyError?
    decreases |rs|
  {
    if rs == [] then (bk, Done)
    else
      var step := BalanceStep(bk, rs[0], alloc);
      if step.1.Raised? then step else ApplyBalances(step.0, rs[1..], alloc)
  }

  /** What `process_balances` does: nothing before index statistics exist,
      else every stored balance with the allocation for the index level. */
  function BalancesStep(bk: Books, statsVix: Option<Vix>, rs: seq<Response>): (r: (Books, Outcome))
    ensures statsVix.None? ==> r == (bk, Done)
    ensures r.1 == Done || r.1.error.KeyError?
    ensures r.0.accounts.Keys == bk.accounts.Keys
    ensures forall n :: n in bk.accounts ==> r.0.accounts[n].item == bk.accounts[n].item
  {
    match statsVix
    case None => (bk, Done)
    case Some(v) =>
      ApplyBalancesKeepsAccounts(bk, rs, MaxShortAlloc(v.last));
      ApplyBalances(bk, rs, MaxShortAlloc(v.last))
  }

  /** Processing balances never adds or removes an account, nor changes an
      account item. */
  lemma {:induction false} ApplyBalancesKeepsAccounts(bk: Books, rs: seq<Response>, alloc: real)
    ensures ApplyBalances(bk, rs, alloc).0.accounts.Keys == bk.accounts.Keys
    ensures forall n :: n in bk.accounts ==> ApplyBalances(bk, rs, alloc).0.accounts[n].item == bk.accounts[n].item
    decreases |rs|
  {
    if rs != [] {
      var step := BalanceStep(bk, rs[0], alloc);
      if step.1.Done? {
        ApplyBalancesKeepsAccounts(step.0, rs[1..], alloc);
      }
    }
  }

  /** Processing balances keeps the books valid. */
  lemma {:induction false} ApplyBalancesValid(bk: Books, rs: seq<Response>, alloc: real)
    requires BooksValid(bk)
    ensures BooksValid(ApplyBalances(bk, rs, alloc).0)
    decreases |rs|
  {
    if rs != [] {
      var step := BalanceStep(bk, rs[0], alloc);
      if step.1.Done? {
        assert BooksValid(step.0);
        ApplyBalancesValid(step.0, rs[1..], alloc);
      }
    }
  }

  /** A run that ends normally handled every response as a balance of a known
      account; every such account then has figures, computed with the one
      allocation from the last balance given for it. */
  lemma {:induction false} ApplyBalancesLastWins(bk: Books, rs: seq<Response>, alloc: real, j: nat)
    requires ApplyBalances(bk, rs, alloc).1 == Done
    requires j < |rs| && rs[j].BalanceData?
    requires forall k :: j < k < |rs| ==> !(rs[k].BalanceData? && rs[k].balance.accountNumber == rs[j].balance.accountNumber)
    ensures rs[j].balance.accountNumber in bk.accounts
    ensures var n := rs[j].balance.accountNumber;
            var after := ApplyBalances(bk, rs, alloc).0;
            && n in after.stats
            && after.stats[n] == AccountStats(rs[j].balance, bk.accounts[n].item.nickname, alloc)
            && n in after.accounts && after.accounts[n].balances == Some(rs[j].balance)
    decreases |rs|
  {
    var step := BalanceStep(bk, rs[0], alloc);
    if j == 0 {
      var n := rs[0].balance.accountNumber;
      ApplyBalancesUntouched(step.0, rs[1..], alloc, n);
    } else {
      ApplyBalancesLastWins(step.0, rs[1..], alloc, j - 1);
      ApplyBalancesKeepsAccounts(bk, [rs[0]], alloc);
    }
  }

  /** An account no balance in the list names keeps its entry and figures. */
  lemma {:induction false} ApplyBalancesUntouched(bk: Books, rs: seq<Response>, alloc: real, n: string)
    requires n in bk.accounts
    requires forall k :: 0 <= k < |rs| ==> !(rs[k].BalanceData? && rs[k].balance.accountNumber == n)
    ensures var after := ApplyBalances(bk, rs, alloc).0;
            && n in after.accounts && after.accounts[n] == bk.accounts[n]
            && (n in after.stats <==> n in bk.stats)
            && (n in bk.stats ==> after.stats[n] == bk.stats[n])
    decreases |rs|
  {
    ApplyBalancesKeepsAccounts(bk, rs, alloc);
    if rs != [] {
      var step := BalanceStep(bk, rs[0], alloc);
      if step.1.Done? {
        ApplyBalancesUntouched(step.0, rs[1..], alloc, n);
      }
    }
  }

  /** Running a prefix of length i + 1 after a normal first step is running
      the first i of the remaining balances from the state it left. */
  lemma ApplyBalancesUnfoldPrefix(bk: Books, rs: seq<Response>, alloc: real, i: nat)
    requires i < |rs| && BalanceStep(bk, rs[0], alloc).1 == Done
    ensures ApplyBalances(bk, rs[..i + 1], alloc) == ApplyBalances(BalanceStep(bk, rs[0], alloc).0, rs[1..][..i], alloc)
  {
    assert rs[..i + 1][0] == rs[0];
    assert rs[..i + 1][1..] == rs[1..][..i];
  }

  /** A run that raises has applied exactly the balances before the one
      that raised, and that one raised against the state they left. */
  lemma {:induction false} ApplyBalancesStopsAtFirstError(bk: Books, rs: seq<Response>, alloc: real)
    requires ApplyBalances(bk, rs, alloc).1.Raised?
    ensures exists i :: 0 <= i < |rs|
              && ApplyBalances(bk, rs[..i], alloc) == (ApplyBalances(bk, rs, alloc).0, Done)
              && BalanceStep(ApplyBalances(bk, rs, alloc).0, rs[i], alloc).1 == ApplyBalances(bk, rs, alloc).1
    decreases |rs|
  {
    var result := ApplyBalances(bk, rs, alloc);
    var step := BalanceStep(bk, rs[0], alloc);
    if step.1.Raised? {
      assert rs[..0] == [];
      assert ApplyBalances(bk, rs[..0], alloc) == (result.0, Done);
    } else {
      ApplyBalancesStopsAtFirstError(step.0, rs[1..], alloc);
      var i :| 0 <= i < |rs[1..]|
               && ApplyBalances(step.0, rs[1..][..i], alloc) == (result.0, Done)
               && BalanceStep(result.0, rs[1..][i], alloc).1 == result.1;
      ApplyBalancesUnfoldPrefix(bk, rs, alloc, i);
      assert rs[i + 1] == rs[1..][i];
    }
  }

  // ---------------------------------------------------------------------
  // Index statistics
  // ---------------------------------------------------------------------

  /** The live quote fields of the index. */
  datatype Quote = Quote(open: real, lastPrice: real, dayLow: real, dayHigh: real)

  /** One bar of a price history. */
  datatype Bar = Bar(open: real, high: real, low: real, close: real)

  /** Everything `process_vix` reads: the quote, about a month of daily
      bars, and 30-minute (24 days), 5-minute (5 days) and 1-minute
      (24 hours) bars, each oldest first. */
  datatype Snapshot = Snapshot(quote: Quote, daily: seq<Bar>, bars30m: seq<Bar>, bars5m: seq<Bar>, bars1m: seq<Bar>)

  function MaxHigh(bars: seq<Bar>): (m: real)
    requires bars != []
    ensures forall i :: 0 <= i < |bars| ==> bars[i].high <= m
    ensures exists i :: 0 <= i < |bars| && bars[i].high == m
  {
    if |bars| == 1 then bars[0].high
    else
      var rest := MaxHigh(bars[1..]);
      assert forall i :: 1 <= i < |bars| ==> bars[i] == bars[1..][i - 1];
      if bars[0].high >= rest then bars[0].high else rest
  }

  function MinLow(bars: seq<Bar>): (m: real)
    requires bars != []
    ensures forall i :: 0 <= i < |bars| ==> m <= bars[i].low
    ensures exists i :: 0 <= i < |bars| && bars[i].low == m
  {
    if |bars| == 1 then bars[0].low
    else
      var rest := MinLow(bars[1..]);
      assert forall i :: 1 <= i < |bars| ==> bars[i] == bars[1..][i - 1];
      if bars[0].low <= rest then bars[0].low else rest
  }

  /** The closing prices of a series, in order. */
  function Closes(bars: seq<Bar>): (c: seq<real>)
    ensures |c| == |bars| && forall i :: 0 <= i < |bars| ==> c[i] == bars[i].close
  {
    seq(|bars|, i requires 0 <= i < |bars| => bars[i].close)
  }

  /** Where `last` stands in the range from `low` to `high`, in percent. */
  function Rank(last: real, low: real, high: real): (r: real)
    requires high != low
    ensures r * (high - low) == (last - low) * 100.0
  {
    (last - low) / (high - low) * 100.0
  }

  /** A quotient by a positive number is non-negative exactly when the
      dividend is, and at most 1 exactly when the dividend is at most the
      divisor. */
  lemma DivBounds(a: real, d: real)
    requires d > 0.0
    ensures 0.0 <= a / d <==> 0.0 <= a
    ensures a / d <= 1.0 <==> a <= d
  {
    var q := a / d;
    assert q * d == a;
    if q < 0.0 { assert q * d < 0.0; }
    if q > 1.0 { assert q * d > 1.0 * d; }
    if 0.0 <= q { assert 0.0 <= q * d; }
    if q <= 1.0 { assert q * d <= 1.0 * d; }
  }

  /** On a proper range the rank lies in [0, 100] exactly when the level lies
      in the range; it is not clamped. */
  lemma RankInRange(last: real, low: real, high: real)
    requires low < high
    ensures 0.0 <= Rank(last, low, high) <= 100.0 <==> low <= last <= high
  {
    DivBounds(last - low, high - low);
  }

  /** The rank determines the level: it is the range position scaled back. */
  lemma RankRecoversLast(last: real, low: real, high: real)
    requires high != low
    ensures low + Rank(last, low, high) / 100.0 * (high - low) == last
  {
    var d := high - low;
    var q := (last - low) / d;
    assert q * d == last - low;
  }

  /** A series whose bars never go below their own low has its lowest low
      no higher than its highest high. */
  lemma SeriesRange(bars: seq<Bar>)
    requires bars != [] && forall i :: 0 <= i < |bars| ==> bars[i].low <= bars[i].high
    ensures MinLow(bars) <= MaxHigh(bars)
  {
    var i :| 0 <= i < |bars| && bars[i].low == MinLow(bars);
    assert bars[i].high <= MaxHigh(bars);
  }

  /** A series the rank can be computed on: not empty, not flat. */
  predicate Ranged(bars: seq<Bar>) {
    bars != [] && MaxHigh(bars) != MinLow(bars)
  }

  /** The index statistics of a snapshot. Fewer than five daily bars is an
      index error; a zero last price or a flat day range divides by zero;
      an empty or flat 30-minute or 5-minute series would give NaN or
      infinity. Changes are taken against the anchor opens and divided by
      the last price; the 1-day range comes from the quote, except the 1-day
      high, which comes from the latest daily bar. */
  function DeriveVix(s: Snapshot): (r: Result<Vix>)
    ensures |s.daily| < 5 ==> r == Err(IndexError)
    ensures |s.daily| >= 5 && (s.quote.lastPrice == 0.0 || s.quote.dayHigh == s.quote.dayLow) ==> r == Err(ZeroDivisionError)
    ensures r.Ok? <==> |s.daily| >= 5 && s.quote.lastPrice != 0.0 && s.quote.dayHigh != s.quote.dayLow
                       && Ranged(s.bars30m) && Ranged(s.bars5m)
    ensures r.Err? && |s.daily| >= 5 && s.quote.lastPrice != 0.0 && s.quote.dayHigh != s.quote.dayLow ==> r == Err(NonFinite)
    ensures r.Ok? ==>
              var v := r.value;
              var q := s.quote;
              && v.last == q.lastPrice
              && v.open24Day == s.daily[0].open
              && v.open5Day == s.daily[|s.daily| - 5].open
              && v.open1Day == s.daily[|s.daily| - 1].open
              && v.change1Day == v.last - q.open
              && v.change5Day == v.last - v.open5Day
              && v.change24Day == v.last - v.open24Day
              && v.change1DayPercent * v.last == v.change1Day
              && v.change5DayPercent * v.last == v.change5Day
              && v.change24DayPercent * v.last == v.change24Day
              && v.high1Day == s.daily[|s.daily| - 1].high && v.low1Day == q.dayLow
              && v.high24Day == MaxHigh(s.bars30m) && v.low24Day == MinLow(s.bars30m)
              && v.high5Day == MaxHigh(s.bars5m) && v.low5Day == MinLow(s.bars5m)
              && v.ivRank1Day == Rank(v.last, q.dayLow, q.dayHigh)
              && v.ivRank24Day == Rank(v.last, v.low24Day, v.high24Day)
              && v.ivRank5Day == Rank(v.last, v.low5Day, v.high5Day)
              && v.nums24Day == Closes(s.bars30m) && v.nums5Day == Closes(s.bars5m) && v.nums1Day == Closes(s.bars1m)
  {
    var q := s.quote;
    if |s.daily| < 5 then Err(IndexError)
    else if q.lastPrice == 0.0 || q.dayHigh == q.dayLow then Err(ZeroDivisionError)
    else if !Ranged(s.bars30m) || !Ranged(s.bars5m) then Err(NonFinite)
    else
      var day24 := s.daily[0];
      var day5 := s.daily[|s.daily| - 5];
      var day1 := s.daily[|s.daily| - 1];
      var last := q.lastPrice;
      var dayChange := last - q.open;
      var change5 := last - day5.open;
      var change24 := last - day24.open;
      var high24, low24 := MaxHigh(s.bars30m), MinLow(s.bars30m);
      var high5, low5 := MaxHigh(s.bars5m), MinLow(s.bars5m);
      Ok(Vix(
        change1Day := dayChange,
        change1DayPercent := dayChange / last,
        change24Day := change24,
        change24DayPercent := change24 / last,
        change5Day := change5,
        change5DayPercent := change5 / last,
        high1Day := day1.high,
        high24Day := high24,
        high5Day := high5,
        ivRank1Day := Rank(last, q.dayLow, q.dayHigh),
        ivRank24Day := Rank(last, low24, high24),
        ivRank5Day := Rank(last, low5, high5),
        last := last,
        low1Day := q.dayLow,
        low24Day := low24,
        low5Day := low5,
        nums1Day := Closes(s.bars1m),
        nums24Day := Closes(s.bars30m),
        nums5Day := Closes(s.bars5m),
        open1Day := day1.open,
        open24Day := day24.open,
        open5Day := day5.open))
  }

  /** Bars whose low never exceeds their high. */
  ghost predicate WellFormedBars(bars: seq<Bar>) {
    forall i :: 0 <= i < |bars| ==> bars[i].low <= bars[i].high
  }

  /** On well-formed data each derived rank lies in [0, 100] exactly when
      the last price lies in that horizon's range. */
  lemma DerivedRanksInRange(s: Snapshot)
    requires DeriveVix(s).Ok?
    requires s.quote.dayLow < s.quote.dayHigh
    requires WellFormedBars(s.bars30m) && WellFormedBars(s.bars5m)
    ensures var v := DeriveVix(s).value;
            && (0.0 <= v.ivRank1Day <= 100.0 <==> v.low1Day <= v.last <= s.quote.dayHigh)
            && (0.0 <= v.ivRank5Day <= 100.0 <==> v.low5Day <= v.last <= v.high5Day)
            && (0.0 <= v.ivRank24Day <= 100.0 <==> v.low24Day <= v.last <= v.high24Day)
  {
    var v := DeriveVix(s).value;
    SeriesRange(s.bars30m);
    SeriesRange(s.bars5m);
    RankInRange(v.last, s.quote.dayLow, s.quote.dayHigh);
    RankInRange(v.last, v.low5Day, v.high5Day);
    RankInRange(v.last, v.low24Day, v.high24Day);
  }

  /** The anchor opens can be read back from the last price and the change
      percentages: the percentages are relative to the last price. */
  lemma DerivedOpensRecovered(s: Snapshot)
    requires DeriveVix(s).Ok?
    ensures var v := DeriveVix(s).value;
            && s.quote.open == v.last * (1.0 - v.change1DayPercent)
            && v.open5Day == v.last * (1.0 - v.change5DayPercent)
            && v.open24Day == v.last * (1.0 - v.change24DayPercent)
  {
    var v := DeriveVix(s).value;
    assert v.last * (1.0 - v.change1DayPercent) == v.last - v.change1DayPercent * v.last;
    assert v.last * (1.0 - v.change5DayPercent) == v.last - v.change5DayPercent * v.last;
    assert v.last * (1.0 - v.change24DayPercent) == v.last - v.change24DayPercent * v.last;
  }

  /** With a positive last price, each table shows its absolute change and
      its percent change in the same colour. */
  lemma DerivedChangeColoursAgree(s: Snapshot)
    requires DeriveVix(s).Ok? && s.quote.lastPrice > 0.0
    ensures var v := DeriveVix(s).value;
            && FromTodayTable(v)[1].1.style == FromTodayTable(v)[1].2.style
            && From5DayTable(v)[1].1.style == From5DayTable(v)[1].2.style
            && From24DayTable(v)[1].1.style == From24DayTable(v)[1].2.style
  {
    TablesChangeColoursAgree(DeriveVix(s).value);
  }

  // ---------------------------------------------------------------------
  // The store
  // ---------------------------------------------------------------------

  class Data {
    /** The last account-list response stored. */
    var rawAccounts: Option<Response>
    /** The last list of balance responses stored. */
    var rawBalances: seq<Response>
    /** Account entries by account number. */
    var accounts: map<string, AccountEntry>
    /** The index statistics, once derived. */
    var statsVix: Option<Vix>
    /** Allocation figures by account number. */
    var statsAccounts: map<string, Account>

    ghost predicate Valid()
      reads this
    {
      BooksValid(Books(accounts, statsAccounts))
    }

    constructor ()
      ensures Valid()
      ensures rawAccounts == None && rawBalances == [] && accounts == map[]
      ensures statsVix == None && statsAccounts == map[]
    {
      rawAccounts := None;
      rawBalances := [];
      accounts := map[];
      statsVix := None;
      statsAccounts := map[];
    }

    /** Stores a payload by endpoint and processes it. */
    method StoreResponse(endpoint: Endpoint, payload: Payload) returns (out: Outcome)
      requires Valid()
      modifies this`rawAccounts, this`rawBalances, this`accounts, this`statsAccounts
      ensures Valid()
      ensures match Dispatch(endpoint, payload)
              case StoreAccounts(r) =>
                && rawAccounts == Some(r) && rawBalances == old(rawBalances)
                && statsAccounts == old(statsAccounts)
                && (accounts, out) == AccountsStep(old(accounts), Some(r))
              case StoreBalances(rs) =>
                && rawBalances == rs && rawAccounts == old(rawAccounts)
                && (Books(accounts, statsAccounts), out) == BalancesStep(old(Books(accounts, statsAccounts)), statsVix, rs)
              case Reject(e) =>
                && out == Raised(e)
                && rawAccounts == old(rawAccounts) && rawBalances == old(rawBalances)
                && accounts == old(accounts) && statsAccounts == old(statsAccounts)
    {
      match Dispatch(endpoint, payload) {
        case StoreAccounts(r) =>
          rawAccounts := Some(r);
          out := ProcessAccounts();
        case StoreBalances(rs) =>
          rawBalances := rs;
          out := ProcessBalances();
        case Reject(e) =>
          out := Raised(e);
      }
    }

    /** Derives the index statistics from a snapshot; on an exception the
        previous statistics stay. */
    method ProcessVix(s: Snapshot) returns (out: Outcome)
      requires Valid()
      modifies this`statsVix
      ensures Valid()
      ensures DeriveVix(s).Ok? ==> statsVix == Some(DeriveVix(s).value) && out == Done
      ensures DeriveVix(s).Err? ==> statsVix == old(statsVix) && out == Raised(DeriveVix(s).error)
    {
      match DeriveVix(s) {
        case Ok(v) =>
          statsVix := Some(v);
          out := Done;
        case Err(e) =>
          out := Raised(e);
      }
    }

    /** Files the items of the stored account list by account number,
        skipping the placeholder account. */
    method ProcessAccounts() returns (out: Outcome)
      requires Valid()
      modifies this`accounts
      ensures Valid()
      ensures (accounts, out) == AccountsStep(old(accounts), rawAccounts)
    {
      match rawAccounts {
        case None =>
          out := Done;
        case Some(BalanceData(_)) =>
          out := Raised(KeyError("items"));
        case Some(AccountList(items)) =>
          for i := 0 to |items|
            invariant accounts == InsertAccounts(old(accounts), items[..i])
            invariant old(accounts).Keys <= accounts.Keys
          {
            assert items[..i + 1][..i] == items[..i];
            var item := items[i];
            if item.accountNumber == Placeholder {
              continue;
            }
            accounts := accounts[item.accountNumber := AccountEntry(item, None)];
          }
          assert items[..|items|] == items;
          out := Done;
      }
    }

    /** Processes every stored balance, in order, with the allocation for
        the current index level; does nothing before index statistics exist. */
    method ProcessBalances() returns (out: Outcome)
      requires Valid()
      modifies this`accounts, this`statsAccounts
      ensures Valid()
      ensures (Books(accounts, statsAccounts), out) == BalancesStep(old(Books(accounts, statsAccounts)), statsVix, rawBalances)
    {
      if statsVix == None {
        return Done;
      }
      var alloc := MaxShortAlloc(statsVix.value.last);
      var i := 0;
      while i < |rawBalances|
        invariant 0 <= i <= |rawBalances|
        invariant Valid()
        invariant ApplyBalances(Books(accounts, statsAccounts), rawBalances[i..], alloc)
                  == ApplyBalances(old(Books(accounts, statsAccounts)), rawBalances, alloc)
      {
        assert rawBalances[i..][0] == rawBalances[i];
        assert rawBalances[i..][1..] == rawBalances[i + 1..];
        out := ProcessBalance(rawBalances[i], alloc);
        if out.Raised? {
          return;
        }
        i := i + 1;
      }
      out := Done;
    }

    /** Attaches one balance to its account and files the account's
        allocation figures under its number. */
    method ProcessBalance(r: Response, alloc: real) returns (out: Outcome)
      requires Valid()
      modifies this`accounts, this`statsAccounts
      ensures Valid()
      ensures (Books(accounts, statsAccounts), out) == BalanceStep(old(Books(accounts, statsAccounts)), r, alloc)
    {
      match r {
        case AccountList(_) =>
          out := Raised(KeyError("account-number"));
        case BalanceData(b) =>
          var n := b.accountNumber;
          if n !in accounts {
            return Raised(KeyError(n));
          }
          accounts := accounts[n := accounts[n].(balances := Some(b))];
          statsAccounts := statsAccounts[n := AccountStats(b, accounts[n].item.nickname, alloc)];
          out := Done;
      }
    }
  }
}
