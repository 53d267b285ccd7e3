/**
 * The analytics routes: the portfolio summary, the per-account fund rule
 * status with its ok/warning/violated labels, and the light update of the
 * payout date and starting balance. Every figure is read from the stored
 * rows; none of these routes talks to the terminal.
 */
module Analytics {
  import opened Wrappers
  import opened Db
  import opened RuleChecker

  /** The `_status_label` strings. */
  datatype Status = StatusOk | Warning | Violated

  /** How far a label is along ok, warning, violated. */
  function Severity(s: Status): nat {
    match s
    case StatusOk => 0
    case Warning => 1
    case Violated => 2
  }

  /** `_status_label(current, limit)`: violated at or over the limit, warning from 80% of a positive limit. */
  function StatusLabel(current: real, limit: real): (r: Status)
    ensures r == Violated <==> current >= limit
    ensures r == Warning <==> limit > 0.0 && limit * 0.8 <= current < limit
    ensures r == StatusOk <==> current < limit && (limit <= 0.0 || current < limit * 0.8)
  {
    if current >= limit then Violated
    else if limit > 0.0 && current >= limit * 0.8 then Warning
    else StatusOk
  }

  /** For a fixed limit, a larger figure never gets a milder label. */
  lemma StatusMonotone(c1: real, c2: real, limit: real)
    requires c1 <= c2
    ensures Severity(StatusLabel(c1, limit)) <= Severity(StatusLabel(c2, limit))
  {
  }

  /** With a zero limit, every figure from 0 up reads as violated. */
  lemma ZeroLimitViolated(current: real)
    requires current >= 0.0
    ensures StatusLabel(current, 0.0) == Violated
  {
  }

  // ---- get_summary ----

  /** `value or 0`: a missing (or zero) column counts as 0. */
  function OrZero(x: Option<real>): (r: real)
    ensures x.Some? ==> r == x.value
    ensures x.None? ==> r == 0.0
  {
    x.GetOr(0.0)
  }

  /** The summed columns of the summary. */
  datatype Column = BalanceColumn | EquityColumn | ProfitColumn

  function ColumnOf(a: Account, c: Column): real {
    match c
    case BalanceColumn => OrZero(a.balance)
    case EquityColumn => OrZero(a.equity)
    case ProfitColumn => OrZero(a.profit)
  }

  /** Sum of a column over the accounts, in list order. */
  function Total(accounts: seq<Account>, c: Column): real {
    if accounts == [] then 0.0
    else Total(accounts[..|accounts| - 1], c) + ColumnOf(accounts[|accounts| - 1], c)
  }

  /** The number of accounts of type "fund". */
  function FundCount(accounts: seq<Account>): (r: nat)
    ensures r <= |accounts|
  {
    if accounts == [] then 0
    else FundCount(accounts[..|accounts| - 1]) + (if accounts[|accounts| - 1].accountType == "fund" then 1 else 0)
  }

  /** The number of accounts of any other type, all of which the summary calls personal. */
  function PersonalCount(accounts: seq<Account>): nat {
    if accounts == [] then 0
    else PersonalCount(accounts[..|accounts| - 1]) + (if accounts[|accounts| - 1].accountType != "fund" then 1 else 0)
  }

  /** Every account is counted exactly once, as fund or as personal. */
  lemma {:induction false} CountsPartition(accounts: seq<Account>)
    ensures FundCount(accounts) + PersonalCount(accounts) == |accounts|
  {
    if accounts != [] {
      CountsPartition(accounts[..|accounts| - 1]);
    }
  }

  /** The totals split over any division of the account list. */
  lemma {:induction false} TotalAppend(xs: seq<Account>, ys: seq<Account>, c: Column)
    ensures Total(xs + ys, c) == Total(xs, c) + Total(ys, c)
  {
    if ys != [] {
      var last := ys[|ys| - 1];
      assert (xs + ys)[..|xs + ys| - 1] == xs + ys[..|ys| - 1];
      TotalAppend(xs, ys[..|ys| - 1], c);
    } else {
      assert xs + ys == xs;
    }
  }

  datatype Summary = Summary(totalAccounts: nat, fundAccounts: nat, personalAccounts: nat,
                             totalBalance: real, totalEquity: real, totalProfit: real)

  /** `get_summary`, accumulating over the accounts in one pass. */
  method GetSummary(db: Database) returns (s: Summary)
    ensures s.totalAccounts == |db.accounts|
    ensures s.fundAccounts == FundCount(db.accounts)
    ensures s.personalAccounts == PersonalCount(db.accounts)
    ensures s.fundAccounts + s.personalAccounts == s.totalAccounts
    ensures s.totalBalance == Total(db.accounts, BalanceColumn)
    ensures s.totalEquity == Total(db.accounts, EquityColumn)
    ensures s.totalProfit == Total(db.accounts, ProfitColumn)
  {
    var accounts := db.accounts;
    var totalBalance, totalEquity, totalProfit := 0.0, 0.0, 0.0;
    var fundAccounts, personalAccounts := 0, 0;
    var i := 0;
    while i < |accounts|
      invariant 0 <= i <= |accounts|
      invariant totalBalance == Total(accounts[..i], BalanceColumn)
      invariant totalEquity == Total(accounts[..i], EquityColumn)
      invariant totalProfit == Total(accounts[..i], ProfitColumn)
      invariant fundAccounts == FundCount(accounts[..i])
      invariant personalAccounts == PersonalCount(accounts[..i])
    {
      var account := accounts[i];
      assert accounts[..i + 1][..i] == accounts[..i];
      totalBalance := totalBalance + OrZero(account.balance);
      totalEquity := totalEquity + OrZero(account.equity);
      totalProfit := totalProfit + OrZero(account.profit);
      if account.accountType == "fund" {
        fundAccounts := fundAccounts + 1;
      } else {
        personalAccounts := personalAccounts + 1;
      }
      i := i + 1;
    }
    assert accounts[..i] == accounts;
    CountsPartition(accounts);
    s := Summary(|accounts|, fundAccounts, personalAccounts, totalBalance, totalEquity, totalProfit);
  }

  // ---- get_fund_status ----

  /** The query's filter: fund accounts with a program id (0 included). */
  predicate Listed(a: Account) {
    a.accountType == "fund" && a.fundProgramId.Some?
  }

  /** The accounts the route lists, in table order. */
  function ListedAccounts(accounts: seq<Account>): (r: seq<Account>)
    ensures |r| <= |accounts|
    ensures forall i :: 0 <= i < |r| ==> Listed(r[i]) && r[i] in accounts
    ensures forall a :: a in accounts && Listed(a) ==> a in r
  {
    if accounts == [] then []
    else if Listed(accounts[0]) then [accounts[0]] + ListedAccounts(accounts[1..])
    else ListedAccounts(accounts[1..])
  }

  /** The listing of two blocks of accounts is the two blocks' listings, in order. */
  lemma {:induction false} ListedAppend(xs: seq<Account>, ys: seq<Account>)
    ensures ListedAccounts(xs + ys) == ListedAccounts(xs) + ListedAccounts(ys)
    decreases |xs|
  {
    if xs == [] {
      assert xs + ys == ys;
    } else {
      assert (xs + ys)[1..] == xs[1..] + ys;
      ListedAppend(xs[1..], ys);
    }
  }

  /** `account.starting_balance or balance`: an unset or zero starting balance falls back to the balance. */
  function StartingBalanceOf(a: Account): (r: real)
    ensures a.startingBalance.Some? && a.startingBalance.value != 0.0 ==> r == a.startingBalance.value
    ensures a.startingBalance.None? || a.startingBalance.value == 0.0 ==> r == OrZero(a.balance)
  {
    if a.startingBalance.Some? && a.startingBalance.value != 0.0 then a.startingBalance.value
    else OrZero(a.balance)
  }

  /** The `profit_info` figures of a row. */
  datatype ProfitInfo = ProfitInfo(achieved: bool, target: Option<real>, current: real, progress: real)

  /** The profit target is looked up only for a truthy program id and phase; a missing figure reads 0. */
  function ProfitInfoOf(funds: seq<Fund>, a: Account): (r: ProfitInfo)
    ensures !(IdIsSet(a.fundProgramId) && StrIsSet(a.currentPhase)) ==> r == ProfitInfo(false, None, 0.0, 0.0)
    ensures r.target.Some? ==>
              && IdIsSet(a.fundProgramId) && StrIsSet(a.currentPhase)
              && var t := CheckProfitTarget(funds, a.fundProgramId.value, a.currentPhase.value,
                                            StartingBalanceOf(a), OrZero(a.equity));
                 t.Target? && r == ProfitInfo(t.achieved, Some(t.target), t.current, t.progress)
    ensures r.target.None? ==> r == ProfitInfo(false, None, 0.0, 0.0)
  {
    if IdIsSet(a.fundProgramId) && StrIsSet(a.currentPhase) then
      match CheckProfitTarget(funds, a.fundProgramId.value, a.currentPhase.value, StartingBalanceOf(a), OrZero(a.equity))
      case NoTarget => ProfitInfo(false, None, 0.0, 0.0)
      case Target(achieved, target, current, progress) => ProfitInfo(achieved, Some(target), current, progress)
    else ProfitInfo(false, None, 0.0, 0.0)
  }

  /** One entry of the route's `accounts` list. */
  datatype FundStatusRow = FundStatusRow(
    accountId: int, login: string, mt5Name: Option<string>,
    fundName: Option<string>, programName: Option<string>, currentPhase: Option<string>,
    balance: real, equity: real, startingBalance: real, nextPayoutDate: Option<string>,
    dailyLossPct: real, dailyDrawdownLimit: real, dailyStatus: Status,
    maxLossPct: real, maxDrawdownLimit: real, maxDdStatus: Status, drawdownType: string,
    profit: ProfitInfo, locked: bool, violations: seq<Violation>)

  /** The program a truthy program id names, if any. */
  function ProgramOf(funds: seq<Fund>, a: Account): Option<ProgramRow> {
    if IdIsSet(a.fundProgramId) then FindProgram(funds, a.fundProgramId.value) else None
  }

  /** The phase rule the displayed limits come from. */
  function LimitRule(funds: seq<Fund>, a: Account): Option<PhaseRule> {
    match ProgramOf(funds, a)
    case None => None
    case Some(row) => PhaseRuleFor(row.program, a.currentPhase)
  }

  /** The rule report of an account, with the balance standing in for the day's starting equity and no margin use. */
  function RulesOf(funds: seq<Fund>, a: Account): RuleReport {
    AccountRules(funds, a.accountType, a.fundProgramId, a.currentPhase, OrZero(a.equity),
                 StartingBalanceOf(a), OrZero(a.balance), 0.0)
  }

  /** The row `get_fund_status` builds for one account. */
  function StatusRow(funds: seq<Fund>, a: Account): FundStatusRow {
    var rules := RulesOf(funds, a);
    var program := ProgramOf(funds, a);
    var rule := LimitRule(funds, a);
    var dailyLimit := if rule.Some? then rule.value.dailyDrawdown else 0.0;
    var maxLimit := if rule.Some? then rule.value.maxDrawdown else 0.0;
    var daily := if rules.metrics.Some? then rules.metrics.value.dailyLossPct else 0.0;
    var max := if rules.metrics.Some? then rules.metrics.value.maxLossPct else 0.0;
    FundStatusRow(
      a.id, a.accountId, a.mt5Name,
      if program.Some? then Some(program.value.fund.fundName) else None,
      if program.Some? then Some(program.value.program.programName) else None,
      a.currentPhase, OrZero(a.balance), OrZero(a.equity), StartingBalanceOf(a), a.nextPayoutDate,
      daily, dailyLimit, StatusLabel(daily, dailyLimit),
      max, maxLimit, StatusLabel(max, maxLimit),
      if rules.metrics.Some? then rules.metrics.value.drawdownType else "static",
      ProfitInfoOf(funds, a), rules.locked, rules.violations)
  }

  /**
   * The displayed limits come from the rule named like the phase, else the
   * lowest-order rule of the program; they are 0 when the program id is
   * falsy, the program is missing or it has no rules.
   */
  lemma LimitsFallback(funds: seq<Fund>, a: Account)
    ensures var row := StatusRow(funds, a);
            var program := ProgramOf(funds, a);
            && (program.None? || program.value.program.phaseRules == [] ==>
                  row.dailyDrawdownLimit == 0.0 && row.maxDrawdownLimit == 0.0)
            && (program.Some? && program.value.program.phaseRules != [] ==>
                  var rule := PhaseRuleFor(program.value.program, a.currentPhase).value;
                  rule in program.value.program.phaseRules
                  && row.dailyDrawdownLimit == rule.dailyDrawdown && row.maxDrawdownLimit == rule.maxDrawdown
                  && (StrIsSet(a.currentPhase) && RuleNamed(program.value.program.phaseRules, a.currentPhase.value).Some? ==>
                        rule.phaseName == a.currentPhase.value))
  {
    if ProgramOf(funds, a).Some? {
      PhaseRuleForSpec(ProgramOf(funds, a).value.program, a.currentPhase);
    }
  }

  /**
   * For a listed account with a truthy program id, the label is decided on the
   * rounded figure and the lock on the unrounded one, against the same rule.
   * With a limit of at most two decimals a drawdown violation always shows as
   * "violated"; and a loss from half a hundredth below the limit up to the
   * limit itself shows "violated" without locking the account.
   */
  lemma ViolationShowsViolated(funds: seq<Fund>, a: Account)
    requires Listed(a) && IdIsSet(a.fundProgramId)
    ensures var row := StatusRow(funds, a);
            && (DailyDrawdown in row.violations && IsCents(row.dailyDrawdownLimit) ==> row.dailyStatus == Violated)
            && (MaxDrawdown in row.violations && IsCents(row.maxDrawdownLimit) ==> row.maxDdStatus == Violated)
    ensures var row := StatusRow(funds, a);
            var loss := LossPct(OrZero(a.balance), OrZero(a.equity));
            LimitRule(funds, a).Some? && IsCents(row.dailyDrawdownLimit)
            && row.dailyDrawdownLimit - 0.005 < loss <= row.dailyDrawdownLimit ==>
              row.dailyStatus == Violated && DailyDrawdown !in row.violations
  {
    var rules := RulesOf(funds, a);
    if FindProgram(funds, a.fundProgramId.value).Some? {
      var program := FindProgram(funds, a.fundProgramId.value).value.program;
      PhaseRuleForSpec(program, a.currentPhase);
      if program.phaseRules != [] {
        var rule := PhaseRuleFor(program, a.currentPhase).value;
        var daily := LossPct(OrZero(a.balance), OrZero(a.equity));
        var max := MaxLossPct(rule.drawdownType, StartingBalanceOf(a), OrZero(a.equity));
        RoundedLabel(daily, rule.dailyDrawdown);
        RoundedLabel(max, rule.maxDrawdown);
      }
    }
  }

  /**
   * Against a two-decimal limit, a rounded figure reads "violated" when the
   * figure is over the limit, and also when it is at most half a hundredth
   * below it.
   */
  lemma RoundedLabel(figure: real, limit: real)
    ensures IsCents(limit) && figure > limit ==> StatusLabel(Round2(figure), limit) == Violated
    ensures IsCents(limit) && limit - 0.005 < figure <= limit ==> StatusLabel(Round2(figure), limit) == Violated
  {
    if IsCents(limit) {
      RoundedLimit(limit);
      if figure > limit {
        Round2Monotone(limit, figure);
      } else if limit - 0.005 < figure {
        Round2UpTo(figure, limit);
      }
    }
  }

  /** A two-decimal limit rounds to itself. */
  lemma RoundedLimit(c: real)
    requires IsCents(c)
    ensures Round2(c) == c
  {
    Round2UpTo(c, c);
  }

  /**
   * With a limit of more than two decimals the rounded figure can fall below
   * it: a loss of 5.002 against a limit of 5.001 is a violation, yet it is
   * shown as 5.0 and labelled "warning".
   */
  lemma OffGridLimitShowsWarning()
    ensures 5.002 > 5.001 && Round2(5.002) == 5.0 && StatusLabel(Round2(5.002), 5.001) == Warning
  {
    assert (5.002 * 100.0).Floor == 500;
  }

  /**
   * A listed account whose program is missing or has no rules is never
   * locked, yet both of its labels read "violated": the figures and the
   * limits all default to 0.
   */
  lemma NoRulesReadsViolated(funds: seq<Fund>, a: Account)
    requires Listed(a)
    requires FindProgram(funds, a.fundProgramId.value).None?
             || FindProgram(funds, a.fundProgramId.value).value.program.phaseRules == []
    ensures var row := StatusRow(funds, a);
            !row.locked && row.violations == []
            && row.dailyStatus == Violated && row.maxDdStatus == Violated
            && row.drawdownType == "static"
  {
    if FindProgram(funds, a.fundProgramId.value).Some? {
      PhaseRuleForSpec(FindProgram(funds, a.fundProgramId.value).value.program, a.currentPhase);
    }
  }

  /** The body of the `get_fund_status` loop: the row of one account. */
  method FundStatusOf(db: Database, account: Account) returns (row: FundStatusRow)
    ensures row == StatusRow(db.funds, account)
  {
    var balance := OrZero(account.balance);
    var equity := OrZero(account.equity);
    var startingBalance := StartingBalanceOf(account);
    var rules := CheckAccountRules(db.funds, account.accountType, account.fundProgramId, account.currentPhase,
                                   balance, equity, startingBalance, balance, 0.0);
    var profitInfo := ProfitInfo(false, None, 0.0, 0.0);
    if IdIsSet(account.fundProgramId) && StrIsSet(account.currentPhase) {
      var target := CheckProfitTarget(db.funds, account.fundProgramId.value, account.currentPhase.value,
                                      startingBalance, equity);
      if target.Target? {
        profitInfo := ProfitInfo(target.achieved, Some(target.target), target.current, target.progress);
      } else {
        profitInfo := ProfitInfo(false, None, 0.0, 0.0);
      }
    }
    var fundName: Option<string> := None;
    var programName: Option<string> := None;
    var dailyDrawdownLimit := 0.0;
    var maxDrawdownLimit := 0.0;
    if IdIsSet(account.fundProgramId) {
      var program := FindProgram(db.funds, account.fundProgramId.value);
      if program.Some? {
        programName := Some(program.value.program.programName);
        fundName := Some(program.value.fund.fundName);
        var phaseRule := PhaseRuleFor(program.value.program, account.currentPhase);
        if phaseRule.Some? {
          dailyDrawdownLimit := phaseRule.value.dailyDrawdown;
          maxDrawdownLimit := phaseRule.value.maxDrawdown;
        }
      }
    }
    var dailyLossPct := if rules.metrics.Some? then rules.metrics.value.dailyLossPct else 0.0;
    var maxLossPct := if rules.metrics.Some? then rules.metrics.value.maxLossPct else 0.0;
    row := FundStatusRow(
      account.id, account.accountId, account.mt5Name, fundName, programName, account.currentPhase,
      balance, equity, startingBalance, account.nextPayoutDate,
      dailyLossPct, dailyDrawdownLimit, StatusLabel(dailyLossPct, dailyDrawdownLimit),
      maxLossPct, maxDrawdownLimit, StatusLabel(maxLossPct, maxDrawdownLimit),
      if rules.metrics.Some? then rules.metrics.value.drawdownType else "static",
      profitInfo, rules.locked, rules.violations);
  }

  /** The rows of a list of accounts, in list order. */
  function StatusRows(funds: seq<Fund>, accounts: seq<Account>): (r: seq<FundStatusRow>)
    ensures |r| == |accounts|
    ensures forall i :: 0 <= i < |r| ==> r[i] == StatusRow(funds, accounts[i])
  {
    if accounts == [] then []
    else StatusRows(funds, accounts[..|accounts| - 1]) + [StatusRow(funds, accounts[|accounts| - 1])]
  }

  /** `get_fund_status`: one row per listed account, in table order. */
  method GetFundStatus(db: Database) returns (rows: seq<FundStatusRow>)
    ensures rows == StatusRows(db.funds, ListedAccounts(db.accounts))
  {
    var accounts := ListedAccounts(db.accounts);
    rows := [];
    var i := 0;
    while i < |accounts|
      invariant 0 <= i <= |accounts|
      invariant rows == StatusRows(db.funds, accounts[..i])
    {
      var row := FundStatusOf(db, accounts[i]);
      assert accounts[..i + 1][..i] == accounts[..i];
      rows := rows + [row];
      i := i + 1;
    }
    assert accounts[..i] == accounts;
  }

  // ---- update_account_analytics ----

  /** The `AccountAnalyticsUpdate` body. */
  datatype AnalyticsUpdate = AnalyticsUpdate(nextPayoutDate: Option<string>, startingBalance: Option<real>)

  /** `update_account_analytics`: only the fields supplied (non-None) change; the answer carries the row id. */
  method UpdateAccountAnalytics(db: Database, id: int, upd: AnalyticsUpdate) returns (r: Result<int, HttpError>)
    requires db.Valid()
    modifies db
    ensures db.Valid()
    ensures db.funds == old(db.funds)
    ensures AccountIndex(old(db.accounts), id).None? ==>
              r == Err(HttpError(404, "Account not found")) && db.accounts == old(db.accounts)
    ensures AccountIndex(old(db.accounts), id).Some? ==>
              var k := AccountIndex(old(db.accounts), id).value;
              var before := old(db.accounts)[k];
              var after := before.(nextPayoutDate := if upd.nextPayoutDate.Some? then upd.nextPayoutDate else before.nextPayoutDate,
                                   startingBalance := if upd.startingBalance.Some? then upd.startingBalance else before.startingBalance);
              r == Ok(id) && db.accounts == old(db.accounts)[k := after]
  {
    var k := AccountIndex(db.accounts, id);
    if k.None? {
      return Err(HttpError(404, "Account not found"));
    }
    var account := db.accounts[k.value];
    if upd.nextPayoutDate.Some? {
      account := account.(nextPayoutDate := upd.nextPayoutDate);
    }
    if upd.startingBalance.Some? {
      account := account.(startingBalance := upd.startingBalance);
    }
    db.accounts := db.accounts[k.value := account];
    return Ok(account.id);
  }
}
