/**
 * The account routes: creation with classification by server name, partial
 * update and deletion. A new account whose request names no program is
 * matched against the funds' server patterns; the first fund whose pattern
 * occurs in the server name, ignoring case, makes it a fund account on that
 * fund's first program, at the phase with the lowest order unless a phase was
 * given.
 */
module AccountRoutes {
  import opened Wrappers
  import opened Text
  import opened Db

  /** The `AccountCreate` request body. */
  datatype AccountCreate = AccountCreate(
    accountId: string, password: string, server: string,
    accountType: Option<string>, fundProgramId: Option<int>, currentPhase: Option<string>)

  /** The `AccountUpdate` request body; every field may be omitted. */
  datatype AccountUpdate = AccountUpdate(
    password: Option<string>, currentPhase: Option<string>, fundProgramId: Option<int>,
    startingBalance: Option<real>, nextPayoutDate: Option<string>)

  /** `fund.server_pattern.lower() in server.lower()`. */
  predicate ServerMatches(f: Fund, server: string) {
    Contains(Lower(server), Lower(f.serverPattern))
  }

  /** Index of the first fund whose server pattern matches, in fund order. */
  function FirstServerMatch(funds: seq<Fund>, server: string): (r: Option<nat>)
    ensures r.Some? ==> r.value < |funds| && ServerMatches(funds[r.value], server)
                        && forall i :: 0 <= i < r.value ==> !ServerMatches(funds[i], server)
    ensures r.None? ==> forall i :: 0 <= i < |funds| ==> !ServerMatches(funds[i], server)
  {
    if funds == [] then None
    else if ServerMatches(funds[0], server) then Some(0)
    else match FirstServerMatch(funds[1..], server)
      case Some(k) => Some(k + 1)
      case None => None
  }

  /** Type, program and phase of a new account. */
  datatype Classification = Classification(accountType: string, fundProgramId: Option<int>, currentPhase: Option<string>)

  /** `account_type or "personal"`. */
  function RequestedType(data: AccountCreate): string {
    if StrIsSet(data.accountType) then data.accountType.value else "personal"
  }

  /** The classification `create_account` arrives at. */
  function Classify(funds: seq<Fund>, data: AccountCreate): Classification {
    var asGiven := Classification(RequestedType(data), data.fundProgramId, data.currentPhase);
    if IdIsSet(data.fundProgramId) then asGiven
    else match FirstServerMatch(funds, data.server)
      case None => asGiven
      case Some(i) =>
        if funds[i].programs == [] then asGiven.(accountType := "fund")
        else
          var program := funds[i].programs[0];
          var phase :=
            if !StrIsSet(data.currentPhase) && program.phaseRules != []
            then Some(MinPhaseRule(program.phaseRules).value.phaseName)
            else data.currentPhase;
          Classification("fund", Some(program.id), phase)
  }

  /**
   * The classification rules: a given program skips detection; no matching
   * fund keeps the request's values; the first matching fund makes the account
   * a fund account, even when that fund has no program; its first program is
   * taken; and a missing phase becomes that program's lowest-order phase, the
   * earliest of equals, unless the program has no phases.
   */
  lemma ClassifySpec(funds: seq<Fund>, data: AccountCreate)
    ensures var c := Classify(funds, data);
            IdIsSet(data.fundProgramId) ==>
              c == Classification(RequestedType(data), data.fundProgramId, data.currentPhase)
    ensures var c := Classify(funds, data);
            (forall i :: 0 <= i < |funds| ==> !ServerMatches(funds[i], data.server)) ==>
              c == Classification(RequestedType(data), data.fundProgramId, data.currentPhase)
    ensures var c := Classify(funds, data);
            forall i :: 0 <= i < |funds| && ServerMatches(funds[i], data.server)
                        && (forall j :: 0 <= j < i ==> !ServerMatches(funds[j], data.server))
                        && !IdIsSet(data.fundProgramId) ==>
              && c.accountType == "fund"
              && (funds[i].programs == [] ==> c.fundProgramId == data.fundProgramId && c.currentPhase == data.currentPhase)
              && (funds[i].programs != [] ==> c.fundProgramId == Some(funds[i].programs[0].id))
              && (funds[i].programs != [] && (StrIsSet(data.currentPhase) || funds[i].programs[0].phaseRules == []) ==>
                    c.currentPhase == data.currentPhase)
              && (funds[i].programs != [] && !StrIsSet(data.currentPhase) && funds[i].programs[0].phaseRules != [] ==>
                    exists k :: 0 <= k < |funds[i].programs[0].phaseRules|
                                && c.currentPhase == Some(funds[i].programs[0].phaseRules[k].phaseName)
                                && (forall m :: 0 <= m < |funds[i].programs[0].phaseRules| ==>
                                      funds[i].programs[0].phaseRules[k].phaseOrder <= funds[i].programs[0].phaseRules[m].phaseOrder)
                                && (forall m :: 0 <= m < k ==>
                                      funds[i].programs[0].phaseRules[m].phaseOrder > funds[i].programs[0].phaseRules[k].phaseOrder))
  {
    forall i | 0 <= i < |funds| && ServerMatches(funds[i], data.server)
               && (forall j :: 0 <= j < i ==> !ServerMatches(funds[j], data.server))
               && !IdIsSet(data.fundProgramId)
      ensures funds[i].programs != [] && !StrIsSet(data.currentPhase) && funds[i].programs[0].phaseRules != [] ==>
                exists k :: 0 <= k < |funds[i].programs[0].phaseRules|
                            && Classify(funds, data).currentPhase == Some(funds[i].programs[0].phaseRules[k].phaseName)
                            && (forall m :: 0 <= m < |funds[i].programs[0].phaseRules| ==>
                                  funds[i].programs[0].phaseRules[k].phaseOrder <= funds[i].programs[0].phaseRules[m].phaseOrder)
                            && (forall m :: 0 <= m < k ==>
                                  funds[i].programs[0].phaseRules[m].phaseOrder > funds[i].programs[0].phaseRules[k].phaseOrder)
    {
      var r := FirstServerMatch(funds, data.server);
      assert r == Some(i);
      if funds[i].programs != [] {
        MinPhaseRuleIsLeast(funds[i].programs[0].phaseRules);
      }
    }
  }

  /** `create_account`. */
  method CreateAccount(db: Database, data: AccountCreate) returns (r: Result<Account, HttpError>)
    requires db.Valid()
    modifies db
    ensures db.Valid()
    ensures r.Err? <==> HasLogin(old(db.accounts), data.accountId)
    ensures r.Err? ==> r.error == HttpError(400, "Account already exists") && db.accounts == old(db.accounts)
    ensures r.Ok? ==>
              var c := Classify(old(db.funds), data);
              && db.accounts == old(db.accounts) + [r.value]
              && r.value.id == old(db.nextAccountId)
              && r.value.accountId == data.accountId
              && r.value.password == Encrypted(data.password)
              && r.value.server == data.server
              && r.value.accountType == c.accountType
              && r.value.fundProgramId == c.fundProgramId
              && r.value.currentPhase == c.currentPhase
              && r.value.mt5Name == None && r.value.balance == None && r.value.equity == None
              && r.value.profit == None && r.value.startingBalance == None && r.value.nextPayoutDate == None
    ensures db.funds == old(db.funds)
  {
    if HasLogin(db.accounts, data.accountId) {
      return Err(HttpError(400, "Account already exists"));
    }
    var accountType := RequestedType(data);
    var fundProgramId := data.fundProgramId;
    var currentPhase := data.currentPhase;
    if !IdIsSet(fundProgramId) {
      var i := 0;
      while i < |db.funds|
        invariant 0 <= i <= |db.funds|
        invariant forall j :: 0 <= j < i ==> !ServerMatches(db.funds[j], data.server)
        invariant accountType == RequestedType(data)
        invariant fundProgramId == data.fundProgramId && currentPhase == data.currentPhase
      {
        var fund := db.funds[i];
        if ServerMatches(fund, data.server) {
          assert FirstServerMatch(db.funds, data.server) == Some(i);
          accountType := "fund";
          if fund.programs != [] {
            var program := fund.programs[0];
            fundProgramId := Some(program.id);
            if !StrIsSet(currentPhase) && program.phaseRules != [] {
              var firstPhase := MinPhaseRule(program.phaseRules).value;
              currentPhase := Some(firstPhase.phaseName);
            }
          }
          break;
        }
        i := i + 1;
      }
    }
    assert Classification(accountType, fundProgramId, currentPhase) == Classify(db.funds, data);
    var account := Account(db.nextAccountId, data.accountId, Encrypted(data.password), data.server,
                           accountType, fundProgramId, currentPhase, None, None, None, None, None, None);
    db.nextAccountId := db.nextAccountId + 1;
    db.accounts := db.accounts + [account];
    return Ok(account);
  }

  /** `update_account`: a non-empty password, and any phase or program supplied, replace the stored ones. */
  method UpdateAccount(db: Database, id: int, upd: AccountUpdate) returns (r: Result<Account, HttpError>)
    requires db.Valid()
    modifies db
    ensures db.Valid()
    ensures db.funds == old(db.funds)
    ensures AccountIndex(old(db.accounts), id).None? ==>
              r == Err(HttpError(404, "Account not found")) && db.accounts == old(db.accounts)
    ensures AccountIndex(old(db.accounts), id).Some? ==>
              var k := AccountIndex(old(db.accounts), id).value;
              var before := old(db.accounts)[k];
              && r.Ok?
              && db.accounts == old(db.accounts)[k := r.value]
              && r.value.password == (if StrIsSet(upd.password) then Encrypted(upd.password.value) else before.password)
              && r.value.currentPhase == (if upd.currentPhase.Some? then upd.currentPhase else before.currentPhase)
              && r.value.fundProgramId == (if upd.fundProgramId.Some? then upd.fundProgramId else before.fundProgramId)
              && r.value.(password := before.password, currentPhase := before.currentPhase,
                          fundProgramId := before.fundProgramId) == before
  {
    var k := AccountIndex(db.accounts, id);
    if k.None? {
      return Err(HttpError(404, "Account not found"));
    }
    var account := db.accounts[k.value];
    if StrIsSet(upd.password) {
      account := account.(password := Encrypted(upd.password.value));
    }
    if upd.currentPhase.Some? {
      account := account.(currentPhase := upd.currentPhase);
    }
    if upd.fundProgramId.Some? {
      account := account.(fundProgramId := upd.fundProgramId);
    }
    db.accounts := db.accounts[k.value := account];
    return Ok(account);
  }

  /** `delete_account`. */
  method DeleteAccount(db: Database, id: int) returns (r: Result<(), HttpError>)
    requires db.Valid()
    modifies db
    ensures db.Valid()
    ensures db.funds == old(db.funds)
    ensures r.Err? <==> forall i :: 0 <= i < |old(db.accounts)| ==> old(db.accounts)[i].id != id
    ensures r.Err? ==> r.error == HttpError(404, "Account not found") && db.accounts == old(db.accounts)
    ensures r.Ok? ==> exists k :: 0 <= k < |old(db.accounts)| && old(db.accounts)[k].id == id
                                  && db.accounts == old(db.accounts)[..k] + old(db.accounts)[k + 1..]
    ensures forall i :: 0 <= i < |db.accounts| ==> db.accounts[i].id != id
  {
    var k := AccountIndex(db.accounts, id);
    if k.None? {
      return Err(HttpError(404, "Account not found"));
    }
    var n := k.value;
    var before := db.accounts;
    db.accounts := db.accounts[..n] + db.accounts[n + 1..];
    forall i | 0 <= i < |db.accounts| ensures db.accounts[i].id != id && (i < n ==> db.accounts[i] == before[i])
                                              && (i >= n ==> db.accounts[i] == before[i + 1])
    {
      if i < n {
        assert db.accounts[i] == before[i];
      } else {
        assert db.accounts[i] == before[i + 1];
      }
    }
    return Ok(());
  }
}
