/**
 * The backend's persistent rows (funds with their programs and phase rules,
 * and trading accounts) and the read-only queries the route handlers share.
 * The database session is one object whose tables are sequences in insertion
 * order; programs and rules are held inside their fund, which is how the
 * `all, delete-orphan` cascade of the ORM relationships behaves.
 */
module Db {
  import opened Wrappers
  import opened PhaseDetector

  /** A `fund_phase_rules` row. */
  datatype PhaseRule = PhaseRule(
    id: int, programId: int, phaseName: string, phaseOrder: int,
    profitTarget: Option<real>, dailyDrawdown: real, maxDrawdown: real, drawdownType: string)

  /** A `fund_programs` row with its phase rules. */
  datatype Program = Program(
    id: int, fundId: int, programName: string,
    minTradingDays: Option<int>, maxMarginPct: Option<real>, payoutDays: Option<int>,
    payoutType: Option<string>, bestDayRulePct: Option<real>, minProfitDays: Option<int>,
    profitDayThresholdPct: Option<real>, phaseRules: seq<PhaseRule>)

  /** A `funds` row with its programs. */
  datatype Fund = Fund(
    id: int, fundName: string, serverPattern: string, nameFormat: Option<string>,
    accountNamePatterns: StoredPatterns, programs: seq<Program>)

  /** The stored password: the encryption of the plain text (the cipher itself is not modelled). */
  datatype Secret = Encrypted(plain: string)

  /** An `accounts` row. */
  datatype Account = Account(
    id: int, accountId: string, password: Secret, server: string, accountType: string,
    fundProgramId: Option<int>, currentPhase: Option<string>, mt5Name: Option<string>,
    balance: Option<real>, equity: Option<real>, profit: Option<real>,
    startingBalance: Option<real>, nextPayoutDate: Option<string>)

  /** An `HTTPException` raised by a handler. */
  datatype HttpError = HttpError(status: int, detail: string)

  /** Every program of the fund points back at it and every rule at its program; ids are below the counters. */
  ghost predicate FundWellFormed(f: Fund, nextProgramId: int, nextRuleId: int) {
    forall j :: 0 <= j < |f.programs| ==>
      && f.programs[j].fundId == f.id
      && f.programs[j].id < nextProgramId
      && forall k :: 0 <= k < |f.programs[j].phaseRules| ==>
           f.programs[j].phaseRules[k].programId == f.programs[j].id
           && f.programs[j].phaseRules[k].id < nextRuleId
  }

  /** The `fund_name` column is unique. */
  ghost predicate FundNamesUnique(funds: seq<Fund>) {
    forall i, j :: 0 <= i < j < |funds| ==> funds[i].fundName != funds[j].fundName
  }

  /** The `account_id` (MT5 login) column is unique. */
  ghost predicate LoginsUnique(accounts: seq<Account>) {
    forall i, j :: 0 <= i < j < |accounts| ==> accounts[i].accountId != accounts[j].accountId
  }

  predicate HasFundNamed(funds: seq<Fund>, name: string) {
    exists i :: 0 <= i < |funds| && funds[i].fundName == name
  }

  predicate HasLogin(accounts: seq<Account>, login: string) {
    exists i :: 0 <= i < |accounts| && accounts[i].accountId == login
  }

  /** The database session. */
  class Database {
    var funds: seq<Fund>
    var accounts: seq<Account>
    var nextFundId: int
    var nextProgramId: int
    var nextRuleId: int
    var nextAccountId: int

    ghost predicate Valid()
      reads this
    {
      && FundNamesUnique(funds)
      && LoginsUnique(accounts)
      && (forall i :: 0 <= i < |funds| ==> funds[i].id < nextFundId)
      && (forall i, j :: 0 <= i < j < |funds| ==> funds[i].id != funds[j].id)
      && (forall i :: 0 <= i < |funds| ==> FundWellFormed(funds[i], nextProgramId, nextRuleId))
      && (forall i :: 0 <= i < |accounts| ==> accounts[i].id < nextAccountId)
      && (forall i, j :: 0 <= i < j < |accounts| ==> accounts[i].id != accounts[j].id)
    }

    /** An empty database; SQLite hands out ids from 1. */
    constructor ()
      ensures Valid()
      ensures funds == [] && accounts == []
    {
      funds := [];
      accounts := [];
      nextFundId := 1;
      nextProgramId := 1;
      nextRuleId := 1;
      nextAccountId := 1;
    }
  }

  /** Position of the first row whose key is `id`: `filter(Model.id == id).first()` on a table. */
  function IndexOfKey<T>(rows: seq<T>, key: T -> int, id: int): (r: Option<nat>)
    ensures r.Some? ==> r.value < |rows| && key(rows[r.value]) == id
                        && forall i :: 0 <= i < r.value ==> key(rows[i]) != id
    ensures r.None? ==> forall i :: 0 <= i < |rows| ==> key(rows[i]) != id
  {
    if rows == [] then None
    else if key(rows[0]) == id then Some(0)
    else match IndexOfKey(rows[1..], key, id)
      case Some(k) => Some(k + 1)
      case None => None
  }

  function FundIndex(funds: seq<Fund>, id: int): Option<nat> {
    IndexOfKey(funds, (f: Fund) => f.id, id)
  }

  function AccountIndex(accounts: seq<Account>, id: int): Option<nat> {
    IndexOfKey(accounts, (a: Account) => a.id, id)
  }

  /** The first program with this id among a fund's programs. */
  function ProgramIn(programs: seq<Program>, id: int): (r: Option<Program>)
    ensures r.Some? ==> r.value in programs && r.value.id == id
    ensures r.None? ==> forall j :: 0 <= j < |programs| ==> programs[j].id != id
  {
    if programs == [] then None
    else if programs[0].id == id then Some(programs[0])
    else ProgramIn(programs[1..], id)
  }

  /** The account's `fund_program_id` names one of the fund's programs. */
  predicate OnProgramOf(a: Account, f: Fund) {
    a.fundProgramId.Some? && ProgramIn(f.programs, a.fundProgramId.value).Some?
  }

  /**
   * The accounts once the fund's programs are deleted. `FundProgram.accounts`
   * has no delete cascade, so the ORM sets `fund_program_id` to NULL on every
   * account of a deleted program and keeps the account otherwise.
   */
  function Detach(accounts: seq<Account>, f: Fund): (r: seq<Account>)
    ensures |r| == |accounts|
    ensures forall i :: 0 <= i < |r| ==> r[i].(fundProgramId := accounts[i].fundProgramId) == accounts[i]
    ensures forall i :: 0 <= i < |r| && OnProgramOf(accounts[i], f) ==> r[i].fundProgramId == None
    ensures forall i :: 0 <= i < |r| && !OnProgramOf(accounts[i], f) ==> r[i] == accounts[i]
  {
    if accounts == [] then []
    else
      var a := accounts[|accounts| - 1];
      Detach(accounts[..|accounts| - 1], f) + [if OnProgramOf(a, f) then a.(fundProgramId := None) else a]
  }

  /** Afterwards no account points at a program of the deleted fund, and detaching again changes nothing. */
  lemma DetachLeavesNoDangling(accounts: seq<Account>, f: Fund)
    ensures forall i :: 0 <= i < |accounts| ==> !OnProgramOf(Detach(accounts, f)[i], f)
    ensures Detach(Detach(accounts, f), f) == Detach(accounts, f)
  {
    var r := Detach(accounts, f);
    assert forall i :: 0 <= i < |r| ==> !OnProgramOf(r[i], f);
  }

  /** Detaching keeps the primary keys and logins, so the table stays keyed as before. */
  lemma DetachKeepsKeys(accounts: seq<Account>, f: Fund)
    ensures forall i :: 0 <= i < |accounts| ==>
              Detach(accounts, f)[i].id == accounts[i].id && Detach(accounts, f)[i].accountId == accounts[i].accountId
              && Detach(accounts, f)[i].accountType == accounts[i].accountType
              && Detach(accounts, f)[i].currentPhase == accounts[i].currentPhase
  {
    var r := Detach(accounts, f);
    forall i | 0 <= i < |accounts|
      ensures r[i].id == accounts[i].id && r[i].accountId == accounts[i].accountId
              && r[i].accountType == accounts[i].accountType && r[i].currentPhase == accounts[i].currentPhase
    {
      assert r[i].(fundProgramId := accounts[i].fundProgramId) == accounts[i];
    }
  }

  /** Detaching keeps the accounts table's keys unique and below the id counter. */
  lemma DetachKeepsTable(accounts: seq<Account>, f: Fund, nextAccountId: int)
    requires LoginsUnique(accounts)
    requires forall i :: 0 <= i < |accounts| ==> accounts[i].id < nextAccountId
    requires forall i, j :: 0 <= i < j < |accounts| ==> accounts[i].id != accounts[j].id
    ensures LoginsUnique(Detach(accounts, f))
    ensures forall i :: 0 <= i < |accounts| ==> Detach(accounts, f)[i].id < nextAccountId
    ensures forall i, j :: 0 <= i < j < |accounts| ==> Detach(accounts, f)[i].id != Detach(accounts, f)[j].id
  {
    DetachKeepsKeys(accounts, f);
  }

  /** Removing one fund keeps the funds table well formed, and no fund left has the removed id. */
  lemma RemoveFundKeepsTable(funds: seq<Fund>, n: nat, nextFundId: int, nextProgramId: int, nextRuleId: int)
    requires n < |funds| && FundNamesUnique(funds)
    requires forall i :: 0 <= i < |funds| ==> funds[i].id < nextFundId
    requires forall i, j :: 0 <= i < j < |funds| ==> funds[i].id != funds[j].id
    requires forall i :: 0 <= i < |funds| ==> FundWellFormed(funds[i], nextProgramId, nextRuleId)
    ensures var r := funds[..n] + funds[n + 1..];
            && FundNamesUnique(r)
            && (forall i :: 0 <= i < |r| ==> r[i].id < nextFundId)
            && (forall i, j :: 0 <= i < j < |r| ==> r[i].id != r[j].id)
            && (forall i :: 0 <= i < |r| ==> FundWellFormed(r[i], nextProgramId, nextRuleId))
            && (forall i :: 0 <= i < |r| ==> r[i].id != funds[n].id)
  {
    var r := funds[..n] + funds[n + 1..];
    assert forall i :: 0 <= i < |r| ==> r[i] == funds[if i < n then i else i + 1];
  }

  /** A program with its fund, as `program.fund` reaches it. */
  datatype ProgramRow = ProgramRow(fund: Fund, program: Program)

  /** `query(FundProgram).filter(FundProgram.id == id).first()`, in fund order then program order. */
  function FindProgram(funds: seq<Fund>, id: int): (r: Option<ProgramRow>)
    ensures r.Some? ==> r.value.fund in funds && r.value.program in r.value.fund.programs
                        && r.value.program.id == id
    ensures r.None? <==> forall i, j :: 0 <= i < |funds| && 0 <= j < |funds[i].programs| ==>
                           funds[i].programs[j].id != id
  {
    if funds == [] then None
    else match ProgramIn(funds[0].programs, id)
      case Some(p) => Some(ProgramRow(funds[0], p))
      case None =>
        var rest := FindProgram(funds[1..], id);
        assert rest.None? ==> forall i, j :: 1 <= i < |funds| && 0 <= j < |funds[i].programs| ==>
                                funds[i].programs[j].id != id by {
          if rest.None? {
            forall i, j | 1 <= i < |funds| && 0 <= j < |funds[i].programs|
              ensures funds[i].programs[j].id != id
            {
              assert funds[i] == funds[1..][i - 1];
            }
          }
        }
        rest
  }

  /** `ProgramIn` returns the first program with the id. */
  lemma {:induction false} ProgramInIsFirst(programs: seq<Program>, id: int)
    ensures var r := ProgramIn(programs, id);
            r.Some? ==> exists j :: 0 <= j < |programs| && programs[j] == r.value
                                    && forall k :: 0 <= k < j ==> programs[k].id != id
  {
    if programs != [] && programs[0].id != id {
      ProgramInIsFirst(programs[1..], id);
      var r := ProgramIn(programs, id);
      if r.Some? {
        var j :| 0 <= j < |programs[1..]| && programs[1..][j] == r.value
                 && forall k :: 0 <= k < j ==> programs[1..][k].id != id;
        assert programs[j + 1] == r.value;
        assert forall k :: 0 <= k < j + 1 ==> programs[k].id != id by {
          forall k | 0 <= k < j + 1 ensures programs[k].id != id {
            if k > 0 {
              assert programs[k] == programs[1..][k - 1];
            }
          }
        }
      }
    } else if programs != [] {
      assert programs[0] == ProgramIn(programs, id).value;
    }
  }

  /**
   * The program at `funds[i].programs[j]` is the first with the id in fund
   * order, then program order.
   */
  ghost predicate FirstProgramAt(funds: seq<Fund>, id: int, i: int, j: int) {
    && 0 <= i < |funds| && 0 <= j < |funds[i].programs| && funds[i].programs[j].id == id
    && (forall k :: 0 <= k < i ==> ProgramIn(funds[k].programs, id).None?)
    && (forall k :: 0 <= k < j ==> funds[i].programs[k].id != id)
  }

  lemma FirstProgramAtShift(funds: seq<Fund>, id: int, i: int, j: int)
    requires funds != [] && ProgramIn(funds[0].programs, id).None?
    requires FirstProgramAt(funds[1..], id, i, j)
    ensures FirstProgramAt(funds, id, i + 1, j)
  {
    assert funds[i + 1] == funds[1..][i];
    forall k | 0 <= k < i + 1 ensures ProgramIn(funds[k].programs, id).None? {
      if k > 0 {
        assert funds[k] == funds[1..][k - 1];
      }
    }
  }

  /** `FindProgram` returns the first program with the id, in fund order, then program order. */
  lemma {:induction false} FindProgramIsFirst(funds: seq<Fund>, id: int)
    ensures var r := FindProgram(funds, id);
            r.Some? ==> exists i, j :: FirstProgramAt(funds, id, i, j)
                                       && funds[i] == r.value.fund && funds[i].programs[j] == r.value.program
  {
    if funds != [] {
      var r := FindProgram(funds, id);
      if ProgramIn(funds[0].programs, id).Some? {
        ProgramInIsFirst(funds[0].programs, id);
        var j :| 0 <= j < |funds[0].programs| && funds[0].programs[j] == r.value.program
                 && forall k :: 0 <= k < j ==> funds[0].programs[k].id != id;
        assert FirstProgramAt(funds, id, 0, j);
      } else {
        FindProgramIsFirst(funds[1..], id);
        if r.Some? {
          var i, j :| FirstProgramAt(funds[1..], id, i, j)
                      && funds[1..][i] == r.value.fund && funds[1..][i].programs[j] == r.value.program;
          FirstProgramAtShift(funds, id, i, j);
          assert funds[i + 1] == r.value.fund;
        }
      }
    }
  }

  /**
   * The rule with the lowest `phase_order`, the earliest of equals
   * (`min(rules, key=phase_order)`, `order_by(phase_order).first()`).
   */
  function MinPhaseRule(rules: seq<PhaseRule>): (r: Option<PhaseRule>)
    ensures r.Some? <==> rules != []
  {
    if rules == [] then None
    else match MinPhaseRule(rules[1..])
      case None => Some(rules[0])
      case Some(m) => if m.phaseOrder < rules[0].phaseOrder then Some(m) else Some(rules[0])
  }

  /** The minimum exists exactly for a non-empty list; it is a rule of the list, no rule has a lower order, and no earlier rule ties it. */
  lemma {:induction false} MinPhaseRuleIsLeast(rules: seq<PhaseRule>)
    ensures MinPhaseRule(rules).None? <==> rules == []
    ensures MinPhaseRule(rules).Some? ==>
              exists k :: 0 <= k < |rules| && rules[k] == MinPhaseRule(rules).value
                          && (forall j :: 0 <= j < |rules| ==> rules[k].phaseOrder <= rules[j].phaseOrder)
                          && (forall j :: 0 <= j < k ==> rules[j].phaseOrder > rules[k].phaseOrder)
  {
    if rules != [] {
      MinPhaseRuleIsLeast(rules[1..]);
      var tail := rules[1..];
      match MinPhaseRule(tail)
      case None =>
        assert rules[0] == MinPhaseRule(rules).value;
      case Some(m) =>
        var k :| 0 <= k < |tail| && tail[k] == m
                 && (forall j :: 0 <= j < |tail| ==> tail[k].phaseOrder <= tail[j].phaseOrder)
                 && (forall j :: 0 <= j < k ==> tail[j].phaseOrder > tail[k].phaseOrder);
        if m.phaseOrder < rules[0].phaseOrder {
          assert rules[k + 1] == m;
          forall j | 0 <= j < |rules| ensures rules[k + 1].phaseOrder <= rules[j].phaseOrder {
            if j > 0 { assert rules[j] == tail[j - 1]; }
          }
          forall j | 0 <= j < k + 1 ensures rules[j].phaseOrder > rules[k + 1].phaseOrder {
            if j > 0 { assert rules[j] == tail[j - 1]; }
          }
        } else {
          assert rules[0] == MinPhaseRule(rules).value;
          forall j | 0 <= j < |rules| ensures rules[0].phaseOrder <= rules[j].phaseOrder {
            if j > 0 { assert rules[j] == tail[j - 1]; }
          }
        }
    }
  }

  /** The first rule with this phase name (`filter(phase_name == name).first()`). */
  function RuleNamed(rules: seq<PhaseRule>, name: string): (r: Option<PhaseRule>)
    ensures r.Some? ==> r.value in rules && r.value.phaseName == name
    ensures r.None? <==> forall k :: 0 <= k < |rules| ==> rules[k].phaseName != name
  {
    if rules == [] then None
    else if rules[0].phaseName == name then Some(rules[0])
    else RuleNamed(rules[1..], name)
  }

  /**
   * The phase rule that applies to an account: the one named like its current
   * phase when the phase is set and such a rule exists, else the lowest-order
   * rule of the program.
   */
  function PhaseRuleFor(program: Program, currentPhase: Option<string>): Option<PhaseRule> {
    var named := if StrIsSet(currentPhase) then RuleNamed(program.phaseRules, currentPhase.value) else None;
    if named.Some? then named else MinPhaseRule(program.phaseRules)
  }

  /**
   * The rule lookup with its fallback: a set phase with a rule of that name
   * selects that rule; otherwise the minimal-order rule is used; and only a
   * program with no rules at all yields none.
   */
  lemma PhaseRuleForSpec(program: Program, currentPhase: Option<string>)
    ensures PhaseRuleFor(program, currentPhase).None? <==> program.phaseRules == []
    ensures PhaseRuleFor(program, currentPhase).Some? ==> PhaseRuleFor(program, currentPhase).value in program.phaseRules
    ensures StrIsSet(currentPhase) && RuleNamed(program.phaseRules, currentPhase.value).Some? ==>
              PhaseRuleFor(program, currentPhase).value.phaseName == currentPhase.value
    ensures (!StrIsSet(currentPhase) || RuleNamed(program.phaseRules, currentPhase.value).None?) ==>
              PhaseRuleFor(program, currentPhase) == MinPhaseRule(program.phaseRules)
  {
    MinPhaseRuleIsLeast(program.phaseRules);
    if MinPhaseRule(program.phaseRules).Some? {
      var k :| 0 <= k < |program.phaseRules| && program.phaseRules[k] == MinPhaseRule(program.phaseRules).value;
    }
  }
}
