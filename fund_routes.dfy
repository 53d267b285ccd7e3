/**
 * The fund registry routes: the built-in fund templates, structured creation
 * of a fund with its programs and phase rules, creation from a template or
 * from a request body (both refused when the fund name is taken), and deletion.
 */
module FundRoutes {
  import opened Wrappers
  import opened Text
  import opened PhaseDetector
  import opened Db
  import opened RuleChecker
  import opened Analytics

  /** One phase rule of a creation request or template; `drawdown_type` may be missing. */
  datatype RuleData = RuleData(
    phaseName: string, phaseOrder: int, profitTarget: Option<real>,
    dailyDrawdown: real, maxDrawdown: real, drawdownType: Option<string>)

  /** One program of a creation request or template. */
  datatype ProgramData = ProgramData(
    programName: string, minTradingDays: Option<int>, maxMarginPct: Option<real>,
    payoutDays: Option<int>, payoutType: Option<string>, bestDayRulePct: Option<real>,
    minProfitDays: Option<int>, profitDayThresholdPct: Option<real>, phaseRules: seq<RuleData>)

  /** The dictionary `_create_fund_from_data` reads; a missing pattern list is the empty list. */
  datatype FundData = FundData(
    fundName: string, serverPattern: string, nameFormat: Option<string>,
    accountNamePatterns: seq<NamePattern>, programs: seq<ProgramData>)

  /** The `FundCreate` request body, which has no pattern list. */
  datatype FundCreate = FundCreate(
    fundName: string, serverPattern: string, nameFormat: Option<string>, programs: seq<ProgramData>)

  /** The pattern column written for a pattern list: JSON for a non-empty list, NULL otherwise. */
  function StoredPatternsOf(ps: seq<NamePattern>): (r: StoredPatterns)
    ensures r.Patterns? <==> ps != []
    ensures r.Patterns? ==> r.list == ps
  {
    if ps != [] then Patterns(ps) else NoPatterns
  }

  /** Storing an empty list as NULL changes nothing for detection: a fund detects exactly as its pattern list does. */
  lemma StoredPatternsDetectAlike(ps: seq<NamePattern>, name: string, extracted: Option<string>)
    ensures DetectPhase(name, StoredPatternsOf(ps), extracted) == DetectPhase(name, Patterns(ps), extracted)
  {
    if ps == [] {
      assert FindPattern(ps, SearchText(name, extracted)) == None;
      assert FindPattern(ps, name) == None;
    }
  }

  /** A stored rule carries its request's values, with "static" for a missing drawdown type. */
  predicate RuleBuiltFrom(r: PhaseRule, d: RuleData, programId: int) {
    && r.programId == programId
    && r.phaseName == d.phaseName
    && r.phaseOrder == d.phaseOrder
    && r.profitTarget == d.profitTarget
    && r.dailyDrawdown == d.dailyDrawdown
    && r.maxDrawdown == d.maxDrawdown
    && r.drawdownType == d.drawdownType.GetOr("static")
  }

  /** A stored program carries its request's values and one rule per requested rule, in order. */
  predicate ProgramBuiltFrom(p: Program, d: ProgramData, fundId: int) {
    && p.fundId == fundId
    && p.programName == d.programName
    && p.minTradingDays == d.minTradingDays
    && p.maxMarginPct == d.maxMarginPct
    && p.payoutDays == d.payoutDays
    && p.payoutType == d.payoutType
    && p.bestDayRulePct == d.bestDayRulePct
    && p.minProfitDays == d.minProfitDays
    && p.profitDayThresholdPct == d.profitDayThresholdPct
    && |p.phaseRules| == |d.phaseRules|
    && forall k :: 0 <= k < |d.phaseRules| ==> RuleBuiltFrom(p.phaseRules[k], d.phaseRules[k], p.id)
  }

  /** A stored fund carries its request's values and one program per requested program, in order. */
  predicate FundBuiltFrom(f: Fund, d: FundData) {
    && f.fundName == d.fundName
    && f.serverPattern == d.serverPattern
    && f.nameFormat == d.nameFormat
    && f.accountNamePatterns == StoredPatternsOf(d.accountNamePatterns)
    && |f.programs| == |d.programs|
    && forall j :: 0 <= j < |d.programs| ==> ProgramBuiltFrom(f.programs[j], d.programs[j], f.id)
  }

  /** Raising the id counters keeps a fund well formed. */
  lemma WellFormedMonotone(f: Fund, p: int, r: int, p': int, r': int)
    requires FundWellFormed(f, p, r) && p <= p' && r <= r'
    ensures FundWellFormed(f, p', r')
  {
  }

  /** Inserts the rules of one program, with fresh ids, in request order. */
  method InsertRules(db: Database, programId: int, rds: seq<RuleData>) returns (rules: seq<PhaseRule>)
    modifies db
    ensures |rules| == |rds|
    ensures forall k :: 0 <= k < |rds| ==> RuleBuiltFrom(rules[k], rds[k], programId)
    ensures forall k :: 0 <= k < |rules| ==> old(db.nextRuleId) <= rules[k].id < db.nextRuleId
    ensures old(db.nextRuleId) <= db.nextRuleId
    ensures db.funds == old(db.funds) && db.accounts == old(db.accounts)
    ensures db.nextFundId == old(db.nextFundId) && db.nextProgramId == old(db.nextProgramId)
    ensures db.nextAccountId == old(db.nextAccountId)
  {
    rules := [];
    var k := 0;
    while k < |rds|
      invariant 0 <= k <= |rds| && |rules| == k
      invariant forall m :: 0 <= m < k ==> RuleBuiltFrom(rules[m], rds[m], programId)
      invariant forall m :: 0 <= m < k ==> old(db.nextRuleId) <= rules[m].id < db.nextRuleId
      invariant old(db.nextRuleId) <= db.nextRuleId
      invariant db.funds == old(db.funds) && db.accounts == old(db.accounts)
      invariant db.nextFundId == old(db.nextFundId) && db.nextProgramId == old(db.nextProgramId)
      invariant db.nextAccountId == old(db.nextAccountId)
    {
      var rd := rds[k];
      var rule := PhaseRule(db.nextRuleId, programId, rd.phaseName, rd.phaseOrder, rd.profitTarget,
                            rd.dailyDrawdown, rd.maxDrawdown, rd.drawdownType.GetOr("static"));
      db.nextRuleId := db.nextRuleId + 1;
      rules := rules + [rule];
      k := k + 1;
    }
  }

  /**
   * `_create_fund_from_data`: inserts the fund, then each program and each of
   * its rules in request order. The callers have already refused a taken name.
   */
  method CreateFundFromData(db: Database, data: FundData) returns (f: Fund)
    requires db.Valid()
    requires !HasFundNamed(db.funds, data.fundName)
    modifies db
    ensures db.Valid()
    ensures FundBuiltFrom(f, data)
    ensures f.id == old(db.nextFundId)
    ensures db.funds == old(db.funds) + [f]
    ensures db.accounts == old(db.accounts)
  {
    var fundId := db.nextFundId;
    db.nextFundId := db.nextFundId + 1;
    var programs: seq<Program> := [];
    var i := 0;
    while i < |data.programs|
      invariant 0 <= i <= |data.programs| && |programs| == i
      invariant forall j :: 0 <= j < i ==> ProgramBuiltFrom(programs[j], data.programs[j], fundId)
      invariant forall j :: 0 <= j < i ==>
                  programs[j].id < db.nextProgramId
                  && forall k :: 0 <= k < |programs[j].phaseRules| ==> programs[j].phaseRules[k].id < db.nextRuleId
      invariant old(db.nextProgramId) <= db.nextProgramId && old(db.nextRuleId) <= db.nextRuleId
      invariant db.nextFundId == fundId + 1
      invariant db.funds == old(db.funds) && db.accounts == old(db.accounts)
      invariant db.nextAccountId == old(db.nextAccountId)
    {
      var pd := data.programs[i];
      var programId := db.nextProgramId;
      db.nextProgramId := db.nextProgramId + 1;
      var rules := InsertRules(db, programId, pd.phaseRules);
      var program := Program(programId, fundId, pd.programName, pd.minTradingDays, pd.maxMarginPct,
                             pd.payoutDays, pd.payoutType, pd.bestDayRulePct, pd.minProfitDays,
                             pd.profitDayThresholdPct, rules);
      programs := programs + [program];
      i := i + 1;
    }
    f := Fund(fundId, data.fundName, data.serverPattern, data.nameFormat,
              StoredPatternsOf(data.accountNamePatterns), programs);
    forall m | 0 <= m < |old(db.funds)|
      ensures FundWellFormed(old(db.funds)[m], db.nextProgramId, db.nextRuleId)
    {
      WellFormedMonotone(old(db.funds)[m], old(db.nextProgramId), old(db.nextRuleId), db.nextProgramId, db.nextRuleId);
    }
    assert FundWellFormed(f, db.nextProgramId, db.nextRuleId);
    db.funds := db.funds + [f];
  }

  /** Shorthand for a template rule. */
  function Rule(name: string, order: int, target: Option<real>, daily: real, max: real, ddType: string): RuleData {
    RuleData(name, order, target, daily, max, Some(ddType))
  }

  /** FTMO names its accounts freely: the patterns are tried in this order on the whole name. */
  const FtmoPatterns: seq<NamePattern> :=
    [ NamePattern("FTMO 1Step Challenge", "1 Phase", "Phase 1"),
      NamePattern("FTMO 1Step Trader", "1 Phase", "Funded"),
      NamePattern("Verification", "2 Phase", "Phase 2"),
      NamePattern("Challenge", "2 Phase", "Phase 1"),
      NamePattern("FTMO Trader", "2 Phase", "Funded"),
      NamePattern("Trader", "2 Phase", "Funded") ]

  const FtmoTemplate: FundData := FundData(
    "FTMO", "FTMO-Server", None, FtmoPatterns,
    [ ProgramData("1 Phase", None, None, Some(14), Some("fixed"), Some(50.0), None, None,
        [ Rule("Phase 1", 1, Some(10.0), 3.0, 10.0, "eod_trailing"),
          Rule("Funded", 2, None, 3.0, 10.0, "eod_trailing") ]),
      ProgramData("2 Phase", Some(4), None, Some(14), Some("fixed"), None, None, None,
        [ Rule("Phase 1", 1, Some(10.0), 5.0, 10.0, "static"),
          Rule("Phase 2", 2, Some(5.0), 5.0, 10.0, "static"),
          Rule("Funded", 3, None, 5.0, 10.0, "static") ]) ])

  /** The5ers phase codes: HS1 is Phase 1, HS2 is Phase 2, FHS is Funded. */
  const The5ersPatterns: seq<NamePattern> :=
    [ NamePattern("FHS", "2 Phase", "Funded"),
      NamePattern("HS2", "2 Phase", "Phase 2"),
      NamePattern("HS1", "2 Phase", "Phase 1") ]

  const The5ersTemplate: FundData := FundData(
    "The5ers", "FivePercentOnline-Real", Some("{phase}-{bal} {name}"), The5ersPatterns,
    [ ProgramData("2 Phase", None, None, Some(14), Some("on_demand"), None, Some(3), Some(0.5),
        [ Rule("Phase 1", 1, Some(8.0), 5.0, 10.0, "static"),
          Rule("Phase 2", 2, Some(5.0), 5.0, 10.0, "static"),
          Rule("Funded", 3, None, 5.0, 10.0, "static") ]) ])

  const FortradesTemplate: FundData := FundData(
    "Fortrades", "FTTrading-Server", Some("{bal} - {type} - {phase}"),
    [ NamePattern("Funded", "1 Phase", "Funded"),
      NamePattern("FT Trader", "1 Phase", "Funded"),
      NamePattern("Phase 1", "1 Phase", "Phase 1"),
      NamePattern("Challenge", "1 Phase", "Phase 1"),
      NamePattern("Evaluation", "1 Phase", "Phase 1") ],
    [ ProgramData("1 Phase", Some(3), Some(40.0), Some(14), Some("fixed"), None, None, None,
        [ Rule("Phase 1", 1, Some(9.0), 3.0, 6.0, "static"),
          Rule("Funded", 2, None, 3.0, 6.0, "static") ]) ])

  /** `FUND_TEMPLATES`, keyed by template name. */
  const FundTemplates: map<string, FundData> :=
    map["FTMO" := FtmoTemplate, "The5ers" := The5ersTemplate, "Fortrades" := FortradesTemplate]

  /** A pattern's program is one of the template's programs and its phase one of that program's rules. */
  predicate PatternResolves(p: NamePattern, programs: seq<ProgramData>) {
    exists j :: 0 <= j < |programs| && programs[j].programName == p.program
                && exists k :: 0 <= k < |programs[j].phaseRules| && programs[j].phaseRules[k].phaseName == p.phase
  }

  predicate AllPatternsResolve(t: FundData) {
    forall i :: 0 <= i < |t.accountNamePatterns| ==> PatternResolves(t.accountNamePatterns[i], t.programs)
  }

  /** A pattern resolves through the program at `j` and that program's rule at `k`. */
  lemma ResolvesAt(p: NamePattern, programs: seq<ProgramData>, j: nat, k: nat)
    requires j < |programs| && programs[j].programName == p.program
    requires k < |programs[j].phaseRules| && programs[j].phaseRules[k].phaseName == p.phase
    ensures PatternResolves(p, programs)
  {
  }

  /** The two one-step patterns resolve through the "1 Phase" program. */
  lemma FtmoOneStepPatternsResolve()
    ensures forall i :: 0 <= i < 2 ==> PatternResolves(FtmoPatterns[i], FtmoTemplate.programs)
  {
    var progs := FtmoTemplate.programs;
    ResolvesAt(FtmoPatterns[0], progs, 0, 0);
    ResolvesAt(FtmoPatterns[1], progs, 0, 1);
  }

  /** The four two-step patterns resolve through the "2 Phase" program. */
  lemma FtmoTwoStepPatternsResolve()
    ensures forall i :: 2 <= i < 6 ==> PatternResolves(FtmoPatterns[i], FtmoTemplate.programs)
  {
    var progs := FtmoTemplate.programs;
    ResolvesAt(FtmoPatterns[2], progs, 1, 1);
    ResolvesAt(FtmoPatterns[3], progs, 1, 0);
    ResolvesAt(FtmoPatterns[4], progs, 1, 2);
    ResolvesAt(FtmoPatterns[5], progs, 1, 2);
  }

  lemma FtmoPatternsResolve()
    ensures AllPatternsResolve(FtmoTemplate)
  {
    FtmoOneStepPatternsResolve();
    FtmoTwoStepPatternsResolve();
  }

  lemma The5ersPatternsResolve()
    ensures AllPatternsResolve(The5ersTemplate)
  {
    var ps, progs := The5ersTemplate.accountNamePatterns, The5ersTemplate.programs;
    ResolvesAt(ps[0], progs, 0, 2);
    ResolvesAt(ps[1], progs, 0, 1);
    ResolvesAt(ps[2], progs, 0, 0);
  }

  lemma FortradesPatternsResolve()
    ensures AllPatternsResolve(FortradesTemplate)
  {
    var ps, progs := FortradesTemplate.accountNamePatterns, FortradesTemplate.programs;
    ResolvesAt(ps[0], progs, 0, 1);
    ResolvesAt(ps[1], progs, 0, 1);
    ResolvesAt(ps[2], progs, 0, 0);
    ResolvesAt(ps[3], progs, 0, 0);
    ResolvesAt(ps[4], progs, 0, 0);
  }

  /** Every template's name is its key, and every pattern of every template names a program and phase the template defines. */
  lemma TemplatesAreConsistent()
    ensures forall key :: key in FundTemplates ==> FundTemplates[key].fundName == key
    ensures forall key :: key in FundTemplates ==> AllPatternsResolve(FundTemplates[key])
  {
    FtmoPatternsResolve();
    The5ersPatternsResolve();
    FortradesPatternsResolve();
  }

  /**
   * Pattern order decides: an FTMO account name containing "FTMO 1Step
   * Challenge" is classified as the 1-Phase program's Phase 1, although it
   * also contains the later "Challenge" entry of the 2-Phase program.
   */
  lemma FtmoOneStepChallengeWins(name: string)
    requires Contains(Lower(name), Lower("FTMO 1Step Challenge"))
    ensures DetectPhase(name, StoredPatternsOf(FtmoPatterns), None) == Some(Detection("1 Phase", "Phase 1"))
  {
    FirstPatternDecidesName(FtmoPatterns, name);
  }

  /** The5ers: a funded-account phase segment ("FHS") maps to the 2-Phase program's Funded phase. */
  lemma The5ersFundedSegment(name: string, segment: string)
    requires name != [] && Contains(Lower(segment), Lower("FHS"))
    ensures DetectPhase(name, StoredPatternsOf(The5ersPatterns), Some(segment)) == Some(Detection("2 Phase", "Funded"))
  {
    FirstPatternDecides(The5ersPatterns, The5ersPatterns[0], name, Some(segment));
  }

  /** A first pattern whose non-empty text occurs in the search text decides the detection. */
  lemma FirstPatternDecides(ps: seq<NamePattern>, first: NamePattern, name: string, extracted: Option<string>)
    requires ps != [] && ps[0] == first && first.contains != []
    requires Contains(Lower(SearchText(name, extracted)), Lower(first.contains))
    requires name != []
    ensures DetectPhase(name, StoredPatternsOf(ps), extracted) == Some(DetectionOf(first))
  {
  }

  /** Without an extracted phase segment, the first pattern decides as soon as the name contains its text. */
  lemma FirstPatternDecidesName(ps: seq<NamePattern>, name: string)
    requires ps != [] && ps[0].contains != []
    requires Contains(Lower(name), Lower(ps[0].contains))
    ensures DetectPhase(name, StoredPatternsOf(ps), None) == Some(DetectionOf(ps[0]))
  {
    ContainsNeedsText(Lower(name), Lower(ps[0].contains));
    FirstPatternDecides(ps, ps[0], name, None);
  }

  /** `create_fund_from_template`. */
  method CreateFundFromTemplate(db: Database, templateKey: string) returns (r: Result<Fund, HttpError>)
    requires db.Valid()
    modifies db
    ensures db.Valid()
    ensures templateKey !in FundTemplates ==>
              r == Err(HttpError(400, "Unknown template: " + templateKey + ". Available: ['FTMO', 'The5ers', 'Fortrades']"))
    ensures templateKey in FundTemplates && HasFundNamed(old(db.funds), FundTemplates[templateKey].fundName) ==>
              r == Err(HttpError(400, "Fund already exists"))
    ensures r.Err? ==> db.funds == old(db.funds) && db.accounts == old(db.accounts)
    ensures r.Ok? <==> templateKey in FundTemplates && !HasFundNamed(old(db.funds), FundTemplates[templateKey].fundName)
    ensures r.Ok? ==> FundBuiltFrom(r.value, FundTemplates[templateKey])
                      && db.funds == old(db.funds) + [r.value] && db.accounts == old(db.accounts)
  {
    if templateKey !in FundTemplates {
      return Err(HttpError(400, "Unknown template: " + templateKey + ". Available: ['FTMO', 'The5ers', 'Fortrades']"));
    }
    var template := FundTemplates[templateKey];
    if HasFundNamed(db.funds, template.fundName) {
      return Err(HttpError(400, "Fund already exists"));
    }
    var f := CreateFundFromData(db, template);
    return Ok(f);
  }

  /** The request body as the dictionary `model_dump` produces: no pattern list. */
  function DataOf(req: FundCreate): (d: FundData)
    ensures d.accountNamePatterns == []
    ensures d.fundName == req.fundName && d.serverPattern == req.serverPattern
    ensures d.nameFormat == req.nameFormat && d.programs == req.programs
  {
    FundData(req.fundName, req.serverPattern, req.nameFormat, [], req.programs)
  }

  /** `create_fund`: a fund created from a request body never stores patterns. */
  method CreateFund(db: Database, req: FundCreate) returns (r: Result<Fund, HttpError>)
    requires db.Valid()
    modifies db
    ensures db.Valid()
    ensures r.Err? <==> HasFundNamed(old(db.funds), req.fundName)
    ensures r.Err? ==> r.error == HttpError(400, "Fund already exists")
                       && db.funds == old(db.funds) && db.accounts == old(db.accounts)
    ensures r.Ok? ==> FundBuiltFrom(r.value, DataOf(req)) && r.value.accountNamePatterns == NoPatterns
                      && db.funds == old(db.funds) + [r.value] && db.accounts == old(db.accounts)
  {
    if HasFundNamed(db.funds, req.fundName) {
      return Err(HttpError(400, "Fund already exists"));
    }
    var f := CreateFundFromData(db, DataOf(req));
    return Ok(f);
  }

  /**
   * `delete_fund`: removes the fund with its programs and rules; the accounts
   * of its programs stay, with `fund_program_id` set to NULL.
   */
  method DeleteFund(db: Database, fundId: int) returns (r: Result<(), HttpError>)
    requires db.Valid()
    modifies db
    ensures db.Valid()
    ensures r.Err? <==> forall i :: 0 <= i < |old(db.funds)| ==> old(db.funds)[i].id != fundId
    ensures r.Err? ==> r.error == HttpError(404, "Fund not found")
                       && db.funds == old(db.funds) && db.accounts == old(db.accounts)
    ensures r.Ok? ==> exists k :: 0 <= k < |old(db.funds)| && old(db.funds)[k].id == fundId
                                  && db.funds == old(db.funds)[..k] + old(db.funds)[k + 1..]
                                  && db.accounts == Detach(old(db.accounts), old(db.funds)[k])
    ensures forall i :: 0 <= i < |db.funds| ==> db.funds[i].id != fundId
  {
    var k := FundIndex(db.funds, fundId);
    if k.None? {
      return Err(HttpError(404, "Fund not found"));
    }
    var n := k.value;
    var fund := db.funds[n];
    DetachKeepsTable(db.accounts, fund, db.nextAccountId);
    RemoveFundKeepsTable(db.funds, n, db.nextFundId, db.nextProgramId, db.nextRuleId);
    db.accounts := Detach(db.accounts, fund);
    db.funds := db.funds[..n] + db.funds[n + 1..];
    return Ok(());
  }

  /**
   * An account of a deleted fund's program is no longer a fund account with a
   * program: the rule checker gives it the empty report rather than "program
   * not found", and the fund status listing leaves it out.
   */
  lemma DetachedAccountUnchecked(accounts: seq<Account>, f: Fund, i: nat, funds: seq<Fund>, equity: real,
                                 startingBalance: real, dailyStartingEquity: real, marginUsedPct: real)
    requires i < |accounts| && OnProgramOf(accounts[i], f)
    ensures var a := Detach(accounts, f)[i];
            && AccountRules(funds, a.accountType, a.fundProgramId, a.currentPhase, equity, startingBalance,
                            dailyStartingEquity, marginUsedPct) == RuleReport(false, [], [], None)
            && !Listed(a)
            && a.id == accounts[i].id
  {
    DetachKeepsKeys(accounts, f);
  }
}
