/**
 * Evaluation of a fund account against the drawdown and margin rules of its
 * current phase (`check_account_rules`), and of the phase's profit target
 * (`check_profit_target`). Amounts and percentages are reals; the two loss
 * figures the report carries are rounded to two decimals, while the checks
 * compare the unrounded ones.
 */
module RuleChecker {
  import opened Wrappers
  import opened Db

  datatype Violation = DailyDrawdown | MaxDrawdown | MaxMargin

  /** The report's messages, carrying the figures their text shows. */
  datatype RuleMessage =
    | ProgramNotFound
    | NoPhaseRules
    | DailyExceeded(lossPct: real, limit: real)
    | MaxExceeded(lossPct: real, limit: real, drawdownType: string)
    | MarginExceeded(usedPct: real, limit: real)

  /** The figures reported once a phase rule was found. */
  datatype RuleMetrics = RuleMetrics(dailyLossPct: real, maxLossPct: real, drawdownType: string, phase: string)

  /** The dictionary `check_account_rules` returns; `metrics` holds its optional keys. */
  datatype RuleReport = RuleReport(locked: bool, violations: seq<Violation>, messages: seq<RuleMessage>,
                                   metrics: Option<RuleMetrics>)

  /** Position of a violation in the order the checks run. */
  function Rank(v: Violation): nat {
    match v
    case DailyDrawdown => 0
    case MaxDrawdown => 1
    case MaxMargin => 2
  }

  /** Loss from `base` down to `equity` as a percentage of `base`; 0 when `base` is not positive. */
  function LossPct(base: real, equity: real): (r: real)
    ensures base <= 0.0 ==> r == 0.0
    ensures base > 0.0 ==> r * base == (base - equity) * 100.0
    ensures base > 0.0 ==> (r > 0.0 <==> equity < base)
  {
    if base > 0.0 then (base - equity) / base * 100.0 else 0.0
  }

  /** A lower equity never means a smaller loss. */
  lemma LossPctAntitone(base: real, e1: real, e2: real)
    requires e2 <= e1
    ensures LossPct(base, e2) >= LossPct(base, e1)
  {
    if base > 0.0 {
      var d := LossPct(base, e2) - LossPct(base, e1);
      assert d * base == (e1 - e2) * 100.0;
    }
  }

  /** A figure with at most two decimals: a whole number of hundredths. */
  predicate IsCents(x: real) {
    (x * 100.0).Floor as real == x * 100.0
  }

  /**
   * `round(x, 2)` taken on the exact figure: the nearest hundredth, a tie
   * going to the even hundredth.
   */
  function Round2(x: real): (r: real)
    ensures IsCents(r)
    ensures x - 0.005 <= r <= x + 0.005
  {
    var y := x * 100.0;
    var n := y.Floor;
    var d := y - n as real;
    var k := if d > 0.5 then n + 1 else if d < 0.5 then n else if n % 2 == 0 then n else n + 1;
    k as real / 100.0
  }

  /** Rounding never reverses the order of two figures. */
  lemma Round2Monotone(x: real, y: real)
    requires x <= y
    ensures Round2(x) <= Round2(y)
  {
    var nx, ny := (x * 100.0).Floor, (y * 100.0).Floor;
    assert nx <= ny;
  }

  /** A figure within half a hundredth below a two-decimal value, or equal to it, rounds to that value. */
  lemma Round2UpTo(x: real, c: real)
    requires IsCents(c) && c - 0.005 < x <= c
    ensures Round2(x) == c
  {
    var l := (c * 100.0).Floor;
    var y := x * 100.0;
    if y < l as real {
      assert y.Floor == l - 1;
    } else {
      assert y.Floor == l;
    }
  }

  /** The max-drawdown percentage, by drawdown type: both branches measure from the starting balance. */
  function MaxLossPct(drawdownType: string, startingBalance: real, equity: real): real {
    if drawdownType == "eod_trailing" then LossPct(startingBalance, equity)
    else LossPct(startingBalance, equity)
  }

  /** "eod_trailing" is not implemented: every drawdown type yields the static figure. */
  lemma DrawdownTypeIgnored(t: string, startingBalance: real, equity: real)
    ensures MaxLossPct(t, startingBalance, equity) == MaxLossPct("static", startingBalance, equity)
  {
  }

  /** Whether a message is the one reported for a violation, with a figure strictly above its limit. */
  predicate Reports(v: Violation, m: RuleMessage) {
    match v
    case DailyDrawdown => m.DailyExceeded? && m.lossPct > m.limit
    case MaxDrawdown => m.MaxExceeded? && m.lossPct > m.limit
    case MaxMargin => m.MarginExceeded? && m.usedPct > m.limit
  }

  /**
   * The message each check reports: the daily and max figures against the
   * rule's limits, and the margin in use against the program's limit.
   */
  function MessageFor(v: Violation, program: Program, rule: PhaseRule, daily: real, max: real,
                      marginUsedPct: real): RuleMessage {
    match v
    case DailyDrawdown => DailyExceeded(daily, rule.dailyDrawdown)
    case MaxDrawdown => MaxExceeded(max, rule.maxDrawdown, rule.drawdownType)
    case MaxMargin => MarginExceeded(marginUsedPct, program.maxMarginPct.GetOr(0.0))
  }

  /** The one-element list when the check fired, the empty list otherwise. */
  function Flagged<T>(fired: bool, x: T): seq<T> {
    if fired then [x] else []
  }

  /** The checks against one phase rule of a program. */
  function Evaluate(program: Program, rule: PhaseRule, equity: real, startingBalance: real,
                    dailyStartingEquity: real, marginUsedPct: real): (r: RuleReport)
    ensures r.locked <==> r.violations != []
    ensures DailyDrawdown in r.violations <==> LossPct(dailyStartingEquity, equity) > rule.dailyDrawdown
    ensures MaxDrawdown in r.violations <==> MaxLossPct(rule.drawdownType, startingBalance, equity) > rule.maxDrawdown
    ensures MaxMargin in r.violations <==>
              program.maxMarginPct.Some? && marginUsedPct > program.maxMarginPct.value
    ensures r.metrics == Some(RuleMetrics(Round2(LossPct(dailyStartingEquity, equity)),
                                          Round2(MaxLossPct(rule.drawdownType, startingBalance, equity)),
                                          rule.drawdownType, rule.phaseName))
  {
    var daily := LossPct(dailyStartingEquity, equity);
    var max := MaxLossPct(rule.drawdownType, startingBalance, equity);
    var margin := program.maxMarginPct.Some? && marginUsedPct > program.maxMarginPct.value;
    var v := Flagged(daily > rule.dailyDrawdown, DailyDrawdown)
             + Flagged(max > rule.maxDrawdown, MaxDrawdown)
             + Flagged(margin, MaxMargin);
    var m := Flagged(daily > rule.dailyDrawdown, DailyExceeded(daily, rule.dailyDrawdown))
             + Flagged(max > rule.maxDrawdown, MaxExceeded(max, rule.maxDrawdown, rule.drawdownType))
             + Flagged(margin, MarginExceeded(marginUsedPct, program.maxMarginPct.GetOr(0.0)));
    RuleReport(v != [], v, m, Some(RuleMetrics(Round2(daily), Round2(max), rule.drawdownType, rule.phaseName)))
  }

  /**
   * The violations come in the order the checks run, each once, and each
   * with the message that reports its computed figure above its limit.
   */
  lemma EvaluateMessagesInOrder(program: Program, rule: PhaseRule, equity: real, startingBalance: real,
                                dailyStartingEquity: real, marginUsedPct: real)
    ensures var r := Evaluate(program, rule, equity, startingBalance, dailyStartingEquity, marginUsedPct);
            && |r.messages| == |r.violations|
            && (forall i :: 0 <= i < |r.violations| ==> Reports(r.violations[i], r.messages[i]))
    ensures var r := Evaluate(program, rule, equity, startingBalance, dailyStartingEquity, marginUsedPct);
            forall i :: 0 <= i < |r.violations| ==>
              r.messages[i] == MessageFor(r.violations[i], program, rule, LossPct(dailyStartingEquity, equity),
                                          MaxLossPct(rule.drawdownType, startingBalance, equity), marginUsedPct)
    ensures var r := Evaluate(program, rule, equity, startingBalance, dailyStartingEquity, marginUsedPct);
            forall i, j :: 0 <= i < j < |r.violations| ==> Rank(r.violations[i]) < Rank(r.violations[j])
  {
    var daily := LossPct(dailyStartingEquity, equity);
    var max := MaxLossPct(rule.drawdownType, startingBalance, equity);
    var margin := program.maxMarginPct.Some? && marginUsedPct > program.maxMarginPct.value;
    var m1 := MessageFor(DailyDrawdown, program, rule, daily, max, marginUsedPct);
    var m2 := MessageFor(MaxDrawdown, program, rule, daily, max, marginUsedPct);
    var m3 := MessageFor(MaxMargin, program, rule, daily, max, marginUsedPct);
    FlaggedInOrder(daily > rule.dailyDrawdown, max > rule.maxDrawdown, margin, m1, m2, m3);
    forall v: Violation
      ensures [m1, m2, m3][Rank(v)] == MessageFor(v, program, rule, daily, max, marginUsedPct)
    {
    }
  }

  /** Three flagged checks, each with a reporting message, stay paired and in check order. */
  lemma FlaggedInOrder(daily: bool, max: bool, margin: bool, m1: RuleMessage, m2: RuleMessage, m3: RuleMessage)
    requires daily ==> Reports(DailyDrawdown, m1)
    requires max ==> Reports(MaxDrawdown, m2)
    requires margin ==> Reports(MaxMargin, m3)
    ensures var v := Flagged(daily, DailyDrawdown) + Flagged(max, MaxDrawdown) + Flagged(margin, MaxMargin);
            var m := Flagged(daily, m1) + Flagged(max, m2) + Flagged(margin, m3);
            && |m| == |v|
            && (forall i :: 0 <= i < |v| ==> Reports(v[i], m[i]) && m[i] == [m1, m2, m3][Rank(v[i])])
            && (forall i, j :: 0 <= i < j < |v| ==> Rank(v[i]) < Rank(v[j]))
  {
  }

  /** The report `check_account_rules` produces, over the funds of the database. */
  function AccountRules(funds: seq<Fund>, accountType: string, fundProgramId: Option<int>,
                        currentPhase: Option<string>, equity: real, startingBalance: real,
                        dailyStartingEquity: real, marginUsedPct: real): (r: RuleReport)
    ensures r.locked <==> r.violations != []
    ensures r.locked ==> accountType == "fund" && fundProgramId.Some?
    ensures accountType != "fund" || fundProgramId.None? ==> r == RuleReport(false, [], [], None)
    ensures accountType == "fund" && fundProgramId.Some? && FindProgram(funds, fundProgramId.value).None? ==>
              r == RuleReport(false, [], [ProgramNotFound], None)
    ensures accountType == "fund" && fundProgramId.Some? && FindProgram(funds, fundProgramId.value).Some? ==>
              var program := FindProgram(funds, fundProgramId.value).value.program;
              && (program.phaseRules == [] ==> r == RuleReport(false, [], [NoPhaseRules], None))
              && (program.phaseRules != [] ==>
                    r == Evaluate(program, PhaseRuleFor(program, currentPhase).value, equity,
                                  startingBalance, dailyStartingEquity, marginUsedPct))
  {
    if accountType != "fund" || fundProgramId.None? then RuleReport(false, [], [], None)
    else match FindProgram(funds, fundProgramId.value)
      case None => RuleReport(false, [], [ProgramNotFound], None)
      case Some(row) =>
        PhaseRuleForSpec(row.program, currentPhase);
        match PhaseRuleFor(row.program, currentPhase)
        case None => RuleReport(false, [], [NoPhaseRules], None)
        case Some(rule) => Evaluate(row.program, rule, equity, startingBalance, dailyStartingEquity, marginUsedPct)
  }

  /**
   * A drop in equity never unlocks an account: with everything else fixed, a
   * locked account stays locked at any lower equity.
   */
  lemma LowerEquityStaysLocked(funds: seq<Fund>, accountType: string, fundProgramId: Option<int>,
                               currentPhase: Option<string>, e1: real, e2: real, startingBalance: real,
                               dailyStartingEquity: real, marginUsedPct: real)
    requires e2 <= e1
    requires AccountRules(funds, accountType, fundProgramId, currentPhase, e1, startingBalance,
                          dailyStartingEquity, marginUsedPct).locked
    ensures AccountRules(funds, accountType, fundProgramId, currentPhase, e2, startingBalance,
                         dailyStartingEquity, marginUsedPct).locked
  {
    var program := FindProgram(funds, fundProgramId.value).value.program;
    var rule := PhaseRuleFor(program, currentPhase).value;
    LossPctAntitone(dailyStartingEquity, e1, e2);
    LossPctAntitone(startingBalance, e1, e2);
    var r1 := Evaluate(program, rule, e1, startingBalance, dailyStartingEquity, marginUsedPct);
    var r2 := Evaluate(program, rule, e2, startingBalance, dailyStartingEquity, marginUsedPct);
    var v := r1.violations[0];
    assert v in r1.violations;
    assert v in r2.violations;
  }

  /** `check_account_rules`, building the violation and message lists by appending. */
  method CheckAccountRules(funds: seq<Fund>, accountType: string, fundProgramId: Option<int>,
                           currentPhase: Option<string>, balance: real, equity: real, startingBalance: real,
                           dailyStartingEquity: real, marginUsedPct: real) returns (r: RuleReport)
    ensures r == AccountRules(funds, accountType, fundProgramId, currentPhase, equity, startingBalance,
                              dailyStartingEquity, marginUsedPct)
  {
    if accountType != "fund" || fundProgramId.None? {
      return RuleReport(false, [], [], None);
    }
    var row := FindProgram(funds, fundProgramId.value);
    if row.None? {
      return RuleReport(false, [], [ProgramNotFound], None);
    }
    var program := row.value.program;
    var phaseRule: Option<PhaseRule> := None;
    if StrIsSet(currentPhase) {
      phaseRule := RuleNamed(program.phaseRules, currentPhase.value);
    }
    if phaseRule.None? {
      phaseRule := MinPhaseRule(program.phaseRules);
    }
    assert phaseRule == PhaseRuleFor(program, currentPhase);
    PhaseRuleForSpec(program, currentPhase);
    if phaseRule.None? {
      return RuleReport(false, [], [NoPhaseRules], None);
    }
    r := CheckPhaseRule(program, phaseRule.value, equity, startingBalance, dailyStartingEquity, marginUsedPct);
  }

  /** The checks of `check_account_rules` once the phase rule is known, appending one entry per exceeded limit. */
  method CheckPhaseRule(program: Program, rule: PhaseRule, equity: real, startingBalance: real,
                        dailyStartingEquity: real, marginUsedPct: real) returns (r: RuleReport)
    ensures r == Evaluate(program, rule, equity, startingBalance, dailyStartingEquity, marginUsedPct)
  {
    var violations: seq<Violation> := [];
    var messages: seq<RuleMessage> := [];
    var dailyLossPct := LossPct(dailyStartingEquity, equity);
    if dailyLossPct > rule.dailyDrawdown {
      violations := violations + [DailyDrawdown];
      messages := messages + [DailyExceeded(dailyLossPct, rule.dailyDrawdown)];
    }
    assert violations == Flagged(dailyLossPct > rule.dailyDrawdown, DailyDrawdown);
    assert messages == Flagged(dailyLossPct > rule.dailyDrawdown, DailyExceeded(dailyLossPct, rule.dailyDrawdown));
    var maxLossPct := MaxLossPct(rule.drawdownType, startingBalance, equity);
    ghost var v1, m1 := violations, messages;
    if maxLossPct > rule.maxDrawdown {
      violations := violations + [MaxDrawdown];
      messages := messages + [MaxExceeded(maxLossPct, rule.maxDrawdown, rule.drawdownType)];
    }
    assert violations == v1 + Flagged(maxLossPct > rule.maxDrawdown, MaxDrawdown);
    assert messages == m1 + Flagged(maxLossPct > rule.maxDrawdown, MaxExceeded(maxLossPct, rule.maxDrawdown, rule.drawdownType));
    ghost var v2, m2 := violations, messages;
    var margin := program.maxMarginPct.Some? && marginUsedPct > program.maxMarginPct.value;
    if margin {
      violations := violations + [MaxMargin];
      messages := messages + [MarginExceeded(marginUsedPct, program.maxMarginPct.value)];
    }
    assert violations == v2 + Flagged(margin, MaxMargin);
    assert messages == m2 + Flagged(margin, MarginExceeded(marginUsedPct, program.maxMarginPct.GetOr(0.0)));
    var e := Evaluate(program, rule, equity, startingBalance, dailyStartingEquity, marginUsedPct);
    assert violations == e.violations && messages == e.messages;
    var locked := |violations| > 0;
    r := RuleReport(locked, violations, messages,
                    Some(RuleMetrics(Round2(dailyLossPct), Round2(maxLossPct), rule.drawdownType, rule.phaseName)));
  }

  /** The result of `check_profit_target`. */
  datatype ProfitTarget =
    | NoTarget                                                           // achieved False, progress 0, target None
    | Target(achieved: bool, target: real, current: real, progress: real)

  /** Gain from `base` up to `equity` as a percentage of `base`; 0 when `base` is not positive. */
  function GainPct(base: real, equity: real): (r: real)
    ensures r == 0.0 - LossPct(base, equity)
  {
    if base > 0.0 then (equity - base) / base * 100.0 else 0.0
  }

  /** The rule named exactly like the phase among the rules of the program with this id. */
  function TargetRule(funds: seq<Fund>, programId: int, phase: string): Option<PhaseRule> {
    match FindProgram(funds, programId)
    case None => None
    case Some(row) => RuleNamed(row.program.phaseRules, phase)
  }

  /**
   * `check_profit_target`: achieved is decided on the exact gain, while the
   * reported gain and progress are rounded to two decimals.
   */
  function CheckProfitTarget(funds: seq<Fund>, programId: int, phase: string,
                             startingBalance: real, equity: real): (r: ProfitTarget)
    ensures r.NoTarget? <==> TargetRule(funds, programId, phase).None?
                             || TargetRule(funds, programId, phase).value.profitTarget.None?
    ensures r.Target? ==>
              && TargetRule(funds, programId, phase).value.phaseName == phase
              && Some(r.target) == TargetRule(funds, programId, phase).value.profitTarget
              && r.current == Round2(GainPct(startingBalance, equity))
              && (r.achieved <==> GainPct(startingBalance, equity) >= r.target)
              && (r.target <= 0.0 ==> r.progress == 0.0)
              && (r.target > 0.0 ==> r.progress == Round2(GainPct(startingBalance, equity) / r.target * 100.0))
  {
    var rule := TargetRule(funds, programId, phase);
    if rule.None? || rule.value.profitTarget.None? then NoTarget
    else
      var target := rule.value.profitTarget.value;
      var pct := GainPct(startingBalance, equity);
      Target(pct >= target, target, Round2(pct), if target > 0.0 then Round2(pct / target * 100.0) else 0.0)
  }

  /**
   * With a positive target, an achieved target shows a progress of at least
   * 100%, and a progress of at least 100% means the exact ratio is within half
   * a hundredth of 100%. The converse fails on rounding: see
   * `FullProgressNotAchieved`.
   */
  lemma AchievedIffFullProgress(funds: seq<Fund>, programId: int, phase: string,
                                startingBalance: real, equity: real)
    requires CheckProfitTarget(funds, programId, phase, startingBalance, equity).Target?
    requires CheckProfitTarget(funds, programId, phase, startingBalance, equity).target > 0.0
    ensures var r := CheckProfitTarget(funds, programId, phase, startingBalance, equity);
            r.achieved ==> r.progress >= 100.0
    ensures var r := CheckProfitTarget(funds, programId, phase, startingBalance, equity);
            r.progress >= 100.0 ==> GainPct(startingBalance, equity) / r.target * 100.0 >= 99.995
  {
    var r := CheckProfitTarget(funds, programId, phase, startingBalance, equity);
    RoundedProgress(GainPct(startingBalance, equity), r.target);
  }

  /** The rounded progress of a gain against a positive target, in terms of the exact ratio. */
  lemma RoundedProgress(gain: real, target: real)
    requires target > 0.0
    ensures gain >= target ==> Round2(gain / target * 100.0) >= 100.0
    ensures Round2(gain / target * 100.0) >= 100.0 ==> gain / target * 100.0 >= 99.995
  {
    var ratio := gain / target * 100.0;
    if gain >= target {
      assert ratio * target == gain * 100.0;
      assert ratio >= 100.0;
      Round2UpTo(100.0, 100.0);
      Round2Monotone(100.0, ratio);
    }
  }

  /**
   * A gain of 9.9996% against a 10% target reports 10.00% and a progress of
   * 100.00%, yet is not achieved, because achieved compares the exact gain.
   */
  lemma FullProgressNotAchieved()
    ensures 9.9996 < 10.0
    ensures Round2(9.9996) == 10.0 && Round2(9.9996 / 10.0 * 100.0) == 100.0
  {
    Round2UpTo(9.9996, 10.0);
    Round2UpTo(9.9996 / 10.0 * 100.0, 100.0);
  }
}
