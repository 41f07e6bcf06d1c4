/** The community fund ledger: one `CommunityFund` record per currency
    (all but DUX), fed by a 5% transaction tax and periodically divided
    evenly among the network's active users.

    The clock, the list of active DIDs (read from the DHT) and the outcome
    of each per-recipient transfer are inputs of the operations. */
module CommunityFunds {
  import opened Wrappers
  import opened DataStructures

  /** Twelve hours, in seconds: the minimum time between distributions. */
  const DistributionInterval: nat := 12 * 60 * 60

  /** 2^64: u64 arithmetic in a release build wraps modulo this. */
  const U64_MODULUS: nat := U64_MAX + 1

  // ---------------------------------------------------------------------
  // The transaction tax

  /** The tax as the source computes it in a release build: the product
      `amount * 5` is a u64 and wraps before the division. */
  function CalculateTaxAmountAsWritten(amount: nat): (tax: nat)
    requires IsU64(amount)
    ensures IsU64(tax)
  {
    ((amount * 5) % U64_MODULUS) / 100
  }

  /** For amount = 2^62 the product wraps to 2^62, so the computed tax is
      one fifth of the five-percent tax. */
  lemma TaxWrapsForLargeAmounts()
    ensures CalculateTaxAmountAsWritten(0x4000_0000_0000_0000) == 0x4000_0000_0000_0000 / 100
    ensures CalculateTaxAmountAsWritten(0x4000_0000_0000_0000) != CalculateTaxAmount(0x4000_0000_0000_0000)
  {
    var a := 0x4000_0000_0000_0000;
    assert a * 5 == U64_MODULUS + a;
    assert (a * 5) % U64_MODULUS == a;
  }

  /** The five-percent tax on `amount`, rounded down; it never overflows. */
  function CalculateTaxAmount(amount: nat): (tax: nat)
    ensures tax * 20 <= amount < tax * 20 + 20
    ensures tax <= amount
  {
    amount / 20
  }

  /** The tax is floor(amount * 5 / 100), the formula of the source. */
  lemma TaxIsFivePercent(amount: nat)
    ensures CalculateTaxAmount(amount) == (amount * 5) / 100
  {
    var t := amount / 20;
    assert t * 100 <= amount * 5 < t * 100 + 100;
  }

  /** Where `amount * 5` fits in a u64 the source's formula and the
      overflow-free one agree. */
  lemma TaxAgreesWithoutOverflow(amount: nat)
    requires IsU64(amount * 5)
    ensures CalculateTaxAmountAsWritten(amount) == CalculateTaxAmount(amount)
  {
    assert (amount * 5) % U64_MODULUS == amount * 5;
    TaxIsFivePercent(amount);
  }

  /** The values the source's own tests expect. */
  lemma TaxExamples()
    ensures CalculateTaxAmount(100) == 5
    ensures CalculateTaxAmount(1000) == 50
    ensures CalculateTaxAmount(10000) == 500
  {
  }

  // ---------------------------------------------------------------------
  // The ledger as a value

  function EmptyFund(c: Currency): CommunityFund {
    CommunityFund(c, 0, 0, 0, 0)
  }

  /** Every field of the record fits in a u64. */
  predicate FundFits(f: CommunityFund) {
    IsU64(f.balance) && IsU64(f.last_distribution) &&
    IsU64(f.total_distributed) && IsU64(f.distribution_count)
  }

  /** The ledger a new manager starts from: a zeroed fund for every
      currency except DUX. */
  function InitialFunds(): map<Currency, CommunityFund> {
    map c | c in FundedCurrencies :: EmptyFund(c)
  }

  lemma InitialFundsShape()
    ensures InitialFunds().Keys == {BTC, ETH, USDC, LTC, XMR, DOGE}
    ensures |InitialFunds()| == 6
    ensures DUX !in InitialFunds()
    ensures forall c :: c in InitialFunds() ==> InitialFunds()[c] == EmptyFund(c)
  {
    assert forall c :: c in FundedCurrencies <==> c != DUX;
    assert InitialFunds().Keys == {BTC, ETH, USDC, LTC, XMR, DOGE};
  }

  /** The balance of `c`'s fund, 0 when it has none. */
  function BalanceOf(funds: map<Currency, CommunityFund>, c: Currency): nat {
    if c in funds then funds[c].balance else 0
  }

  /** The ledger after `tax` is credited to `c`'s fund (no change when `c`
      has no fund). */
  function AddTax(funds: map<Currency, CommunityFund>, c: Currency, tax: nat): map<Currency, CommunityFund> {
    if c in funds then funds[c := funds[c].(balance := funds[c].balance + tax)] else funds
  }

  /** Crediting tax raises the balance of that one fund by exactly the tax
      and changes nothing else in the ledger. */
  lemma AddTaxOnlyRaisesThatBalance(funds: map<Currency, CommunityFund>, c: Currency, tax: nat, d: Currency)
    ensures AddTax(funds, c, tax).Keys == funds.Keys
    ensures BalanceOf(AddTax(funds, c, tax), d) == BalanceOf(funds, d) + (if d == c && c in funds then tax else 0)
    ensures d in funds ==> AddTax(funds, c, tax)[d].(balance := funds[d].balance) == funds[d]
  {
  }

  /** Two credits to a fund add up (the source's test: 1000000 then 500000
      gives 1500000). */
  lemma AddTaxAccumulates(funds: map<Currency, CommunityFund>, c: Currency, a: nat, b: nat)
    ensures AddTax(AddTax(funds, c, a), c, b) == AddTax(funds, c, a + b)
  {
  }

  lemma AddTaxExample()
    ensures BalanceOf(AddTax(InitialFunds(), BTC, 1000000), BTC) == 1000000
    ensures BalanceOf(AddTax(AddTax(InitialFunds(), BTC, 1000000), BTC, 500000), BTC) == 1500000
  {
    AddTaxAccumulates(InitialFunds(), BTC, 1000000, 500000);
  }

  // ---------------------------------------------------------------------
  // Distribution

  datatype DistributeError =
    | FundNotFound
    | NotYetDue(remaining: nat)
    | NoFunds
    | NoActiveUsers
    | InsufficientBalance
    | NoDistributionTransactions

  function SaturatingSub(a: nat, b: nat): nat {
    if a >= b then a - b else 0
  }

  /** The guards of a distribution of `c`'s fund among `activeUsers`
      users at time `now`, in the order the source checks them; when all
      pass, the amount each user receives. */
  function DistributionCheck(funds: map<Currency, CommunityFund>, c: Currency, now: nat, activeUsers: nat)
    : (r: Result<nat, DistributeError>)
    ensures r.Ok? ==> c in funds && activeUsers > 0 && r.value > 0
    ensures r.Ok? ==> now >= funds[c].last_distribution + DistributionInterval
    ensures r.Ok? ==> r.value * activeUsers <= funds[c].balance < (r.value + 1) * activeUsers
    ensures r.Ok? <==> c in funds && now >= funds[c].last_distribution + DistributionInterval &&
                       0 < activeUsers <= funds[c].balance
    ensures c in funds && funds[c].balance == 0 ==> r.Err?
  {
    if c !in funds then Err(FundNotFound)
    else
      var fund := funds[c];
      var since := SaturatingSub(now, fund.last_distribution);
      if since < DistributionInterval then Err(NotYetDue(DistributionInterval - since))
      else if fund.balance == 0 then Err(NoFunds)
      else if activeUsers == 0 then Err(NoActiveUsers)
      else if fund.balance / activeUsers == 0 then Err(InsufficientBalance)
      else Ok(fund.balance / activeUsers)
  }

  /** The transaction ids of the transfers that went through, in the
      order of the recipients (`None` is a failed transfer). */
  function Successes(outcomes: seq<Option<string>>): (ids: seq<string>)
    ensures |ids| <= |outcomes|
    ensures ids == [] <==> forall i :: 0 <= i < |outcomes| ==> outcomes[i].None?
    decreases |outcomes|
  {
    if outcomes == [] then []
    else
      var n := |outcomes| - 1;
      var before := Successes(outcomes[..n]);
      assert forall i :: 0 <= i < n ==> outcomes[..n][i] == outcomes[i];
      before + (if outcomes[n].Some? then [outcomes[n].value] else [])
  }

  /** The loop over the recipients: the ids of the transfers that went
      through, and how many there were. */
  method CollectTransactionIds(outcomes: seq<Option<string>>) returns (transactionIds: seq<string>, successful: nat)
    ensures transactionIds == Successes(outcomes)
    ensures successful == |transactionIds|
  {
    transactionIds := [];
    successful := 0;
    for i := 0 to |outcomes|
      invariant transactionIds == Successes(outcomes[..i])
      invariant successful == |transactionIds|
    {
      assert outcomes[..i + 1][..i] == outcomes[..i];
      match outcomes[i]
      case Some(txId) =>
        transactionIds := transactionIds + [txId];
        successful := successful + 1;
      case None =>
    }
    assert outcomes[..|outcomes|] == outcomes;
  }

  /** The fund after `perUser` was paid to `recipients` users at `now`. */
  function ApplyDistribution(fund: CommunityFund, perUser: nat, recipients: nat, now: nat): CommunityFund {
    fund.(balance := SaturatingSub(fund.balance, perUser * recipients),
          last_distribution := now,
          total_distributed := fund.total_distributed + perUser * recipients,
          distribution_count := fund.distribution_count + 1)
  }

  /** Which error each guard gives, in the order the guards run: a later
      guard is reached only when every earlier one passed. */
  lemma DistributionGuardOrder(funds: map<Currency, CommunityFund>, c: Currency, now: nat, activeUsers: nat)
    ensures c !in funds ==> DistributionCheck(funds, c, now, activeUsers) == Err(FundNotFound)
    ensures c in funds && funds[c].last_distribution <= now < funds[c].last_distribution + DistributionInterval ==>
              DistributionCheck(funds, c, now, activeUsers)
                == Err(NotYetDue(funds[c].last_distribution + DistributionInterval - now))
    // A clock behind the last distribution counts as no time elapsed.
    ensures c in funds && now < funds[c].last_distribution ==>
              DistributionCheck(funds, c, now, activeUsers) == Err(NotYetDue(DistributionInterval))
    ensures c in funds && now >= funds[c].last_distribution + DistributionInterval && funds[c].balance == 0 ==>
              DistributionCheck(funds, c, now, activeUsers) == Err(NoFunds)
    ensures c in funds && now >= funds[c].last_distribution + DistributionInterval && funds[c].balance > 0 &&
            activeUsers == 0 ==>
              DistributionCheck(funds, c, now, activeUsers) == Err(NoActiveUsers)
    ensures c in funds && now >= funds[c].last_distribution + DistributionInterval && funds[c].balance > 0 &&
            0 < activeUsers && funds[c].balance < activeUsers ==>
              DistributionCheck(funds, c, now, activeUsers) == Err(InsufficientBalance)
  {
  }

  /** A new ledger is never due: every fund is empty, and DUX has none.
      After a first credit there is still nothing to do without active
      users (the source's own test). */
  lemma FreshLedgerDoesNotDistribute(c: Currency, now: nat, activeUsers: nat)
    ensures DistributionCheck(InitialFunds(), c, now, activeUsers).Err?
    ensures DistributionCheck(InitialFunds(), DUX, now, activeUsers) == Err(FundNotFound)
    ensures DistributionCheck(AddTax(InitialFunds(), BTC, 1000000), BTC, now, 0).Err?
  {
    InitialFundsShape();
  }

  /** Paying at most one share per active user never exceeds the balance,
      so a distribution moves exactly the paid amount from the balance to
      the running total: balance + total_distributed is conserved. */
  lemma {:induction false} DistributionConserves(fund: CommunityFund, activeUsers: nat, recipients: nat, now: nat)
    requires 0 < activeUsers && recipients <= activeUsers
    ensures var perUser := fund.balance / activeUsers;
            var after := ApplyDistribution(fund, perUser, recipients, now);
            && perUser * recipients <= fund.balance
            && after.balance == fund.balance - perUser * recipients
            && after.balance + after.total_distributed == fund.balance + fund.total_distributed
            && after.distribution_count == fund.distribution_count + 1
            && after.last_distribution == now
  {
    var perUser := fund.balance / activeUsers;
    MulMonotone(perUser, recipients, activeUsers);
    assert perUser * activeUsers <= fund.balance;
  }

  lemma {:induction false} MulMonotone(a: nat, b: nat, c: nat)
    requires b <= c
    ensures a * b <= a * c
  {
    if b < c {
      MulMonotone(a, b, c - 1);
    }
  }

  // ---------------------------------------------------------------------
  // Statistics

  /** Seconds until `fund` is next due, 0 when it is due already. */
  function NextDistributionIn(fund: CommunityFund, now: nat): (d: nat)
    ensures d == 0 <==> now >= fund.last_distribution + DistributionInterval
    ensures now + d >= fund.last_distribution + DistributionInterval
    ensures d > 0 ==> now + d == fund.last_distribution + DistributionInterval
  {
    var next := fund.last_distribution + DistributionInterval;
    if next > now then next - now else 0
  }

  function BalanceLine(c: Currency, fund: CommunityFund, now: nat): CommunityFundBalance {
    CommunityFundBalance(Symbol(c), fund.balance, fund.last_distribution,
                         NextDistributionIn(fund, now), fund.total_distributed, fund.distribution_count)
  }

  /** The statistics lines of the funds of the currencies in `cs`, in the
      order of `cs`, skipping currencies without a fund. */
  function LinesOf(funds: map<Currency, CommunityFund>, cs: seq<Currency>, now: nat): seq<CommunityFundBalance>
    decreases |cs|
  {
    if cs == [] then []
    else
      var n := |cs| - 1;
      LinesOf(funds, cs[..n], now) + (if cs[n] in funds then [BalanceLine(cs[n], funds[cs[n]], now)] else [])
  }

  /** One line per fund, in the order of the currency enumeration. */
  function FundLines(funds: map<Currency, CommunityFund>, now: nat): seq<CommunityFundBalance> {
    LinesOf(funds, AllCurrencies, now)
  }

  /** No currency repeats in `cs`. */
  predicate Distinct(cs: seq<Currency>) {
    forall i, j :: 0 <= i < j < |cs| ==> cs[i] != cs[j]
  }

  /** The lines of `cs` number the funded currencies of `cs`, when `cs`
      has no repetition. */
  lemma {:induction false} LinesOfCount(funds: map<Currency, CommunityFund>, cs: seq<Currency>, now: nat)
    requires Distinct(cs)
    ensures |LinesOf(funds, cs, now)| == |set c | c in cs && c in funds|
    decreases |cs|
  {
    if cs != [] {
      var n := |cs| - 1;
      FundedPrefixStep(funds, cs);
      LinesOfCount(funds, cs[..n], now);
    }
  }

  /** Dropping the last of distinct currencies drops at most that one
      from the funded ones. */
  lemma FundedPrefixStep(funds: map<Currency, CommunityFund>, cs: seq<Currency>)
    requires cs != [] && Distinct(cs)
    ensures Distinct(cs[..|cs| - 1])
    ensures |set c | c in cs && c in funds|
            == |set c | c in cs[..|cs| - 1] && c in funds| + (if cs[|cs| - 1] in funds then 1 else 0)
  {
    var n := |cs| - 1;
    var before := set c | c in cs[..n] && c in funds;
    var all := set c | c in cs && c in funds;
    assert cs[n] !in cs[..n];
    assert cs == cs[..n] + [cs[n]];
    if cs[n] in funds {
      assert all == before + {cs[n]};
    } else {
      assert all == before;
    }
  }

  /** Every funded currency of `cs` has its line. */
  lemma {:induction false} LinesOfComplete(funds: map<Currency, CommunityFund>, cs: seq<Currency>, now: nat, c: Currency)
    requires c in cs && c in funds
    ensures BalanceLine(c, funds[c], now) in LinesOf(funds, cs, now)
    decreases |cs|
  {
    var n := |cs| - 1;
    if c != cs[n] {
      assert c in cs[..n];
      LinesOfComplete(funds, cs[..n], now, c);
    }
  }

  /** Every line is the line of a funded currency of `cs`. */
  lemma {:induction false} LinesOfSound(funds: map<Currency, CommunityFund>, cs: seq<Currency>, now: nat, l: CommunityFundBalance)
    requires l in LinesOf(funds, cs, now)
    ensures exists c :: c in cs && c in funds && l == BalanceLine(c, funds[c], now)
    decreases |cs|
  {
    var n := |cs| - 1;
    if l in LinesOf(funds, cs[..n], now) {
      LinesOfSound(funds, cs[..n], now, l);
      var c :| c in cs[..n] && c in funds && l == BalanceLine(c, funds[c], now);
      assert c in cs;
    } else {
      assert l == BalanceLine(cs[n], funds[cs[n]], now);
    }
  }

  /** The statistics have exactly one line per fund; a new ledger has six. */
  lemma FundLinesCoverFunds(funds: map<Currency, CommunityFund>, now: nat)
    ensures |FundLines(funds, now)| == |funds|
    ensures forall c :: c in funds ==> BalanceLine(c, funds[c], now) in FundLines(funds, now)
    ensures forall l :: l in FundLines(funds, now) ==> exists c :: c in funds && l == BalanceLine(c, funds[c], now)
  {
    forall c | c in funds ensures c in AllCurrencies {
      match c
      case BTC => case ETH => case USDC => case LTC => case XMR => case DOGE => case DUX =>
    }
    LinesOfCount(funds, AllCurrencies, now);
    assert (set c | c in AllCurrencies && c in funds) == funds.Keys;
    forall c | c in funds ensures BalanceLine(c, funds[c], now) in FundLines(funds, now) {
      LinesOfComplete(funds, AllCurrencies, now, c);
    }
    forall l | l in FundLines(funds, now)
      ensures exists c :: c in funds && l == BalanceLine(c, funds[c], now)
    {
      LinesOfSound(funds, AllCurrencies, now, l);
    }
  }

  /** The smallest `next_distribution` of the lines, 0 when there is none. */
  function MinNextDistribution(lines: seq<CommunityFundBalance>): (m: nat)
    ensures lines == [] ==> m == 0
    ensures lines != [] ==> exists i :: 0 <= i < |lines| && m == lines[i].next_distribution
    ensures forall i :: 0 <= i < |lines| ==> m <= lines[i].next_distribution
    decreases |lines|
  {
    if lines == [] then 0
    else if |lines| == 1 then lines[0].next_distribution
    else
      var rest := MinNextDistribution(lines[1..]);
      if lines[0].next_distribution <= rest then lines[0].next_distribution else rest
  }

  /** The sum of the lines' `total_distributed`. */
  function SumDistributed(lines: seq<CommunityFundBalance>): nat
    decreases |lines|
  {
    if lines == [] then 0 else lines[0].total_distributed + SumDistributed(lines[1..])
  }

  // ---------------------------------------------------------------------
  // The manager

  class CommunityFundManager {
    /** The fund of each currency, keyed by currency. */
    var funds: map<Currency, CommunityFund>
    const distributionInterval: nat := DistributionInterval
    /** DIDs of the nodes meant to sign distributions (not used by any
        modelled operation). */
    const trustedNodes: seq<string>

    ghost predicate Valid()
      reads this
    {
      forall c :: c in funds ==> funds[c].currency == c && FundFits(funds[c])
    }

    /** A zeroed fund for each of BTC, ETH, USDC, LTC, XMR and DOGE. */
    constructor ()
      ensures Valid()
      ensures funds == InitialFunds()
      ensures |trustedNodes| == 3
      ensures distributionInterval == 43200
    {
      var m: map<Currency, CommunityFund> := map[];
      for i := 0 to |FundedCurrencies|
        invariant m.Keys == set j | 0 <= j < i :: FundedCurrencies[j]
        invariant forall c :: c in m ==> m[c] == EmptyFund(c)
      {
        var c := FundedCurrencies[i];
        m := m[c := EmptyFund(c)];
      }
      assert m.Keys == InitialFunds().Keys;
      funds := m;
      trustedNodes := ["did:duxnet:trusted-node-1", "did:duxnet:trusted-node-2", "did:duxnet:trusted-node-3"];
    }

    /** The balance of `c`'s fund, 0 when there is no fund for `c`. */
    function GetFundBalance(c: Currency): (b: nat)
      reads this
      ensures c in funds ==> b == funds[c].balance
      ensures c !in funds ==> b == 0
    {
      BalanceOf(funds, c)
    }

    /** Credits `tax` to `c`'s fund; a currency without a fund is left
        alone and the call still succeeds. */
    method AddTaxToFund(c: Currency, tax: nat)
      requires Valid()
      requires c in funds ==> IsU64(funds[c].balance + tax)
      modifies this
      ensures Valid()
      ensures funds == AddTax(old(funds), c, tax)
      ensures GetFundBalance(c) == old(GetFundBalance(c)) + (if c in old(funds) then tax else 0)
    {
      if c in funds {
        var fund := funds[c];
        funds := funds[c := fund.(balance := fund.balance + tax)];
      }
    }

    /** True exactly when a distribution of `c`'s fund at `now` among
        `activeDids` would pass every guard. */
    function ShouldDistribute(c: Currency, now: nat, activeDids: seq<string>): (r: bool)
      reads this
      ensures r <==> c in funds && now >= funds[c].last_distribution + distributionInterval &&
                     0 < |activeDids| <= funds[c].balance
    {
      DistributionCheck(funds, c, now, |activeDids|).Ok?
    }

    /** Divides `c`'s balance evenly among `activeDids`. `outcomes[i]` is
        the transaction id of the transfer to `activeDids[i]`, or `None`
        when that transfer failed. The fund changes only when at least one
        transfer went through. */
    method DistributeFund(c: Currency, now: nat, activeDids: seq<string>, outcomes: seq<Option<string>>)
      returns (r: Result<CommunityFundDistribution, DistributeError>)
      requires Valid()
      requires |outcomes| == |activeDids|
      requires IsU64(now)
      requires c in funds ==> IsU64(funds[c].balance + funds[c].total_distributed)
      requires c in funds ==> funds[c].distribution_count < U64_MAX
      modifies this
      ensures Valid()
      ensures var check := DistributionCheck(old(funds), c, now, |activeDids|);
              check.Err? ==> r == Err(check.error) && funds == old(funds)
      ensures var check := DistributionCheck(old(funds), c, now, |activeDids|);
              check.Ok? && Successes(outcomes) == [] ==>
                r == Err(NoDistributionTransactions) && funds == old(funds)
      ensures var check := DistributionCheck(old(funds), c, now, |activeDids|);
              var ids := Successes(outcomes);
              check.Ok? && ids != [] ==>
                && r == Ok(CommunityFundDistribution(c, check.value, |ids|, now, ids))
                && funds == old(funds)[c := ApplyDistribution(old(funds)[c], check.value, |ids|, now)]
      ensures r.Ok? <==> old(ShouldDistribute(c, now, activeDids)) && Successes(outcomes) != []
    {
      ghost var check := DistributionCheck(funds, c, now, |activeDids|);
      if c !in funds {
        return Err(FundNotFound);
      }
      var fund := funds[c];
      var since := SaturatingSub(now, fund.last_distribution);
      if since < distributionInterval {
        assert check == Err(NotYetDue(distributionInterval - since));
        return Err(NotYetDue(distributionInterval - since));
      }
      if fund.balance == 0 {
        assert check == Err(NoFunds);
        return Err(NoFunds);
      }
      if |activeDids| == 0 {
        assert check == Err(NoActiveUsers);
        return Err(NoActiveUsers);
      }
      var perUser := fund.balance / |activeDids|;
      if perUser == 0 {
        assert check == Err(InsufficientBalance);
        return Err(InsufficientBalance);
      }
      assert check == Ok(perUser);

      var transactionIds, successful := CollectTransactionIds(outcomes);

      if successful > 0 {
        var total := perUser * successful;
        DistributionConserves(fund, |activeDids|, successful, now);
        var updated := fund.(balance := SaturatingSub(fund.balance, total),
                             last_distribution := now,
                             total_distributed := fund.total_distributed + total,
                             distribution_count := fund.distribution_count + 1);
        assert updated == ApplyDistribution(fund, perUser, successful, now) && FundFits(updated);
        funds := funds[c := updated];
        r := Ok(CommunityFundDistribution(c, perUser, successful, now, transactionIds));
      } else {
        r := Err(NoDistributionTransactions);
      }
    }

    /** The fund statistics at `now`: a line per fund, the time until the
        earliest next distribution and the total ever distributed. */
    method GetStats(now: nat) returns (stats: CommunityFundStats)
      requires Valid()
      requires forall c :: c in funds ==> IsU64(funds[c].last_distribution + distributionInterval)
      requires IsU64(SumDistributed(FundLines(funds, now)))
      ensures stats.currencies == FundLines(funds, now)
      ensures stats.next_distribution_in == MinNextDistribution(stats.currencies)
      ensures stats.total_distributed_all_time == SumDistributed(stats.currencies)
    {
      var currencies: seq<CommunityFundBalance> := [];
      for i := 0 to |AllCurrencies|
        invariant currencies == LinesOf(funds, AllCurrencies[..i], now)
      {
        assert AllCurrencies[..i + 1][..i] == AllCurrencies[..i];
        var c := AllCurrencies[i];
        if c in funds {
          currencies := currencies + [BalanceLine(c, funds[c], now)];
        }
      }
      assert AllCurrencies[..|AllCurrencies|] == AllCurrencies;
      stats := CommunityFundStats(currencies, MinNextDistribution(currencies), SumDistributed(currencies));
    }
  }
}
