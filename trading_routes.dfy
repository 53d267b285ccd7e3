/**
 * The batch trading routes: the position preview over several accounts and
 * the batch execution behind an all-or-nothing margin gate. The terminal
 * (login, account information, order placement) and the position sizer are
 * per-account oracles passed in as functions; `initialized` is the outcome of
 * `mt5.initialize()`.
 */
module TradingRoutes {
  import opened Wrappers
  import opened Text
  import opened Db

  /** `PositionCalculateRequest` and `BatchTradeRequest`, which declare the same fields. */
  datatype TradeRequest = TradeRequest(
    symbol: string, direction: string, slPrice: real, tpPrice: Option<real>,
    riskType: string, riskValue: real, accountIds: seq<int>)

  /** The first pass on one account: decrypting, logging in and reading the account information. */
  datatype Probe =
    | ProbeRaised(error: string)                  // an exception, reported as the account's error
    | LoginRefused                                // `mt5.login` returned false
    | NoInfo                                      // `get_account_info` returned nothing
    | LoggedIn(balance: real, marginFree: real)

  /** The figures of a sizer calculation that the routes use. */
  datatype Calc = Calc(lotSize: real, slPrice: real, tpPrice: Option<real>)

  /** `sizer.calculate` then `sizer.validate_margin`: an exception, or the calculation and the margin verdict. */
  datatype Sizing = SizingRaised(error: string) | Sized(calculation: Calc, marginOk: bool)

  /** One entry the first pass collects. */
  datatype Gathered =
    | Gathered(account: Account, balance: real, calculation: Calc, marginOk: bool)
    | GatherError(account: Account, error: string)

  /** What the first pass collects for one account found in the database. */
  function GatherAccount(a: Account, probe: Account -> Probe, sizer: (Account, real, real) -> Sizing): (r: seq<Gathered>)
    ensures |r| <= 1
    ensures forall g :: g in r ==> g.account == a
    ensures r == [] <==> probe(a).LoginRefused? || probe(a).NoInfo?
  {
    match probe(a)
    case ProbeRaised(e) => [GatherError(a, e)]
    case LoginRefused => []
    case NoInfo => []
    case LoggedIn(balance, marginFree) =>
      match sizer(a, balance, marginFree)
      case SizingRaised(e) => [GatherError(a, e)]
      case Sized(calculation, ok) => [Gathered(a, balance, calculation, ok)]
  }

  /** The first pass over the requested ids, in request order; ids with no account are skipped. */
  function Gather(accounts: seq<Account>, ids: seq<int>, probe: Account -> Probe,
                  sizer: (Account, real, real) -> Sizing): (r: seq<Gathered>)
    ensures |r| <= |ids|
  {
    if ids == [] then []
    else
      var rest := Gather(accounts, ids[..|ids| - 1], probe, sizer);
      match AccountIndex(accounts, ids[|ids| - 1])
      case None => rest
      case Some(k) => rest + GatherAccount(accounts[k], probe, sizer)
  }

  /** Every entry is for a stored account whose id was requested. */
  lemma {:induction false} GatherFromRequest(accounts: seq<Account>, ids: seq<int>, probe: Account -> Probe,
                                             sizer: (Account, real, real) -> Sizing)
    ensures forall g :: g in Gather(accounts, ids, probe, sizer) ==> g.account in accounts && g.account.id in ids
  {
    if ids != [] {
      GatherFromRequest(accounts, ids[..|ids| - 1], probe, sizer);
      assert forall x :: x in ids[..|ids| - 1] ==> x in ids;
    }
  }

  /** The passes treat every id on its own: the entries of a split request are the entries of its parts, in order. */
  lemma {:induction false} GatherAppend(accounts: seq<Account>, xs: seq<int>, ys: seq<int>,
                                        probe: Account -> Probe, sizer: (Account, real, real) -> Sizing)
    ensures Gather(accounts, xs + ys, probe, sizer) == Gather(accounts, xs, probe, sizer) + Gather(accounts, ys, probe, sizer)
  {
    if ys == [] {
      assert xs + ys == xs;
    } else {
      var init := ys[..|ys| - 1];
      assert (xs + ys)[..|xs + ys| - 1] == xs + init;
      assert (xs + ys)[|xs + ys| - 1] == ys[|ys| - 1];
      GatherAppend(accounts, xs, init, probe, sizer);
    }
  }

  /** Requested ids that match no account contribute nothing. */
  lemma {:induction false} UnknownIdsSkipped(accounts: seq<Account>, ids: seq<int>, probe: Account -> Probe,
                                             sizer: (Account, real, real) -> Sizing)
    requires forall i, j :: 0 <= i < |ids| && 0 <= j < |accounts| ==> accounts[j].id != ids[i]
    ensures Gather(accounts, ids, probe, sizer) == []
  {
    if ids != [] {
      UnknownIdsSkipped(accounts, ids[..|ids| - 1], probe, sizer);
      assert AccountIndex(accounts, ids[|ids| - 1]).None?;
    }
  }

  // ---- calculate_position ----

  /** One entry of the preview's `results`. */
  datatype PreviewEntry =
    | Preview(login: string, balance: real, calculation: Calc, marginOk: bool)
    | PreviewError(login: string, error: string)

  function PreviewOf(g: Gathered): PreviewEntry {
    match g
    case Gathered(a, balance, calculation, ok) => Preview(a.accountId, balance, calculation, ok)
    case GatherError(a, e) => PreviewError(a.accountId, e)
  }

  /** `calculate_position`: per-account failures become entries and never fail the request. */
  method CalculatePosition(db: Database, req: TradeRequest, initialized: bool, probe: Account -> Probe,
                           sizer: (Account, real, real) -> Sizing) returns (r: Result<seq<PreviewEntry>, HttpError>)
    ensures !initialized ==> r == Err(HttpError(500, "Failed to initialize MT5"))
    ensures initialized ==>
              var gathered := Gather(db.accounts, req.accountIds, probe, sizer);
              r.Ok? && |r.value| == |gathered|
              && forall i :: 0 <= i < |gathered| ==> r.value[i] == PreviewOf(gathered[i])
  {
    if !initialized {
      return Err(HttpError(500, "Failed to initialize MT5"));
    }
    var ids := req.accountIds;
    var results: seq<PreviewEntry> := [];
    ghost var gathered: seq<Gathered> := [];
    var i := 0;
    while i < |ids|
      invariant 0 <= i <= |ids|
      invariant gathered == Gather(db.accounts, ids[..i], probe, sizer)
      invariant results == Previews(gathered)
    {
      assert ids[..i + 1][..i] == ids[..i];
      var found := AccountIndex(db.accounts, ids[i]);
      if found.Some? {
        var account := db.accounts[found.value];
        var entries := PreviewAccount(account, probe, sizer);
        ghost var step := GatherAccount(account, probe, sizer);
        assert Gather(db.accounts, ids[..i + 1], probe, sizer) == gathered + step;
        if step != [] {
          assert (gathered + step)[..|gathered + step| - 1] == gathered;
        } else {
          assert gathered + step == gathered;
        }
        results := results + entries;
        gathered := gathered + step;
      } else {
        assert Gather(db.accounts, ids[..i + 1], probe, sizer) == gathered;
      }
      i := i + 1;
    }
    assert ids[..i] == ids;
    PreviewsAt(gathered);
    return Ok(results);
  }

  /** The loop body of `calculate_position` for one stored account: its entry, if any. */
  method PreviewAccount(account: Account, probe: Account -> Probe, sizer: (Account, real, real) -> Sizing)
    returns (entries: seq<PreviewEntry>)
    ensures entries == Previews(GatherAccount(account, probe, sizer))
  {
    entries := [];
    var outcome := probe(account);
    if outcome.ProbeRaised? {
      entries := [PreviewError(account.accountId, outcome.error)];
    } else if outcome.LoggedIn? {
      var sizing := sizer(account, outcome.balance, outcome.marginFree);
      if sizing.SizingRaised? {
        entries := [PreviewError(account.accountId, sizing.error)];
      } else {
        entries := [Preview(account.accountId, outcome.balance, sizing.calculation, sizing.marginOk)];
      }
    }
  }

  /** The preview entries of collected entries, one for one. */
  function Previews(gs: seq<Gathered>): (r: seq<PreviewEntry>)
    ensures |r| == |gs|
  {
    if gs == [] then [] else Previews(gs[..|gs| - 1]) + [PreviewOf(gs[|gs| - 1])]
  }

  lemma {:induction false} PreviewsAt(gs: seq<Gathered>)
    ensures forall i :: 0 <= i < |gs| ==> Previews(gs)[i] == PreviewOf(gs[i])
  {
    if gs != [] {
      PreviewsAt(gs[..|gs| - 1]);
    }
  }

  // ---- execute_batch ----

  /** `len(failed_margin)`: collected entries whose `margin_ok` is false, errors included. */
  function FailedMargin(gs: seq<Gathered>): (n: nat)
    ensures n <= |gs|
    ensures n == 0 <==> forall i :: 0 <= i < |gs| ==> gs[i].Gathered? && gs[i].marginOk
  {
    if gs == [] then 0
    else FailedMargin(gs[..|gs| - 1]) + (if gs[|gs| - 1].Gathered? && gs[|gs| - 1].marginOk then 0 else 1)
  }

  /** The second pass on one account: re-login and `place_market_order`. */
  datatype OrderOutcome =
    | OrderRaised(error: string)
    | ReloginRefused
    | Placed(success: bool, order: Option<int>, reason: Option<string>)

  /** One entry of the batch `results`. */
  datatype OrderResult = OrderResult(login: string, success: bool, order: Option<int>, error: Option<string>)

  /** The second pass over the collected accounts, in order; a refused re-login adds no entry. */
  function OrderResults(gs: seq<Gathered>, place: (Account, Calc) -> OrderOutcome): (r: seq<OrderResult>)
    requires forall i :: 0 <= i < |gs| ==> gs[i].Gathered?
    ensures |r| <= |gs|
  {
    if gs == [] then []
    else
      var g := gs[|gs| - 1];
      var rest := OrderResults(gs[..|gs| - 1], place);
      match place(g.account, g.calculation)
      case OrderRaised(e) => rest + [OrderResult(g.account.accountId, false, None, Some(e))]
      case ReloginRefused => rest
      case Placed(ok, order, e) => rest + [OrderResult(g.account.accountId, ok, order, e)]
  }

  /** Every order result is for one of the collected accounts. */
  lemma {:induction false} OrderResultsFromCollected(gs: seq<Gathered>, place: (Account, Calc) -> OrderOutcome)
    requires forall i :: 0 <= i < |gs| ==> gs[i].Gathered?
    ensures forall k :: 0 <= k < |OrderResults(gs, place)| ==>
              exists i :: 0 <= i < |gs| && OrderResults(gs, place)[k].login == gs[i].account.accountId
  {
    if gs != [] {
      var init := gs[..|gs| - 1];
      OrderResultsFromCollected(init, place);
      var r := OrderResults(gs, place);
      var rest := OrderResults(init, place);
      forall k | 0 <= k < |r| ensures exists i :: 0 <= i < |gs| && r[k].login == gs[i].account.accountId {
        if k < |rest| {
          assert exists i :: 0 <= i < |init| && rest[k].login == init[i].account.accountId;
          var i :| 0 <= i < |init| && rest[k].login == init[i].account.accountId;
          assert r[k] == rest[k];
          assert init[i] == gs[i];
        } else {
          assert r[k].login == gs[|gs| - 1].account.accountId;
        }
      }
    } else {
      assert OrderResults(gs, place) == [];
    }
  }

  /** `sum(1 for r in results if r.get("success"))`. */
  function SuccessCount(rs: seq<OrderResult>): (n: nat)
    ensures n <= |rs|
  {
    if rs == [] then 0
    else SuccessCount(rs[..|rs| - 1]) + (if rs[|rs| - 1].success then 1 else 0)
  }

  /** The response of a batch that passed the gate. */
  datatype BatchSummary = BatchSummary(total: nat, successful: nat, failed: nat, results: seq<OrderResult>)

  /** The margin-gate refusal. */
  function MarginRefusal(failed: nat): HttpError {
    HttpError(400, Digits(failed) + " account(s) don't have enough margin")
  }

  /** The margin gate and the second pass over what the first pass collected. */
  function GateAndPlace(gathered: seq<Gathered>, place: (Account, Calc) -> OrderOutcome): (r: Result<BatchSummary, HttpError>)
    ensures FailedMargin(gathered) > 0 ==> r == Err(MarginRefusal(FailedMargin(gathered)))
    ensures FailedMargin(gathered) == 0 ==> r.Ok?
    ensures r.Ok? ==>
              && (forall i :: 0 <= i < |gathered| ==> gathered[i].Gathered? && gathered[i].marginOk)
              && r.value.results == OrderResults(gathered, place)
              && |r.value.results| <= |gathered|
              && r.value.total == |r.value.results|
              && r.value.successful <= r.value.total
              && r.value.successful + r.value.failed == r.value.total
  {
    var failed := FailedMargin(gathered);
    if failed > 0 then Err(MarginRefusal(failed))
    else
      var results := OrderResults(gathered, place);
      var successful := SuccessCount(results);
      Ok(BatchSummary(|results|, successful, |results| - successful, results))
  }

  /** The outcome of `execute_batch`. */
  function ExecuteOutcome(accounts: seq<Account>, req: TradeRequest, initialized: bool, probe: Account -> Probe,
                          sizer: (Account, real, real) -> Sizing, place: (Account, Calc) -> OrderOutcome)
    : Result<BatchSummary, HttpError>
  {
    if !initialized then Err(HttpError(500, "Failed to initialize MT5"))
    else GateAndPlace(Gather(accounts, req.accountIds, probe, sizer), place)
  }

  /** The first loop of `execute_batch`: `accounts_data`, one entry per account that logs in with information or raises. */
  method CollectAccounts(db: Database, ids: seq<int>, probe: Account -> Probe,
                         sizer: (Account, real, real) -> Sizing) returns (accountsData: seq<Gathered>)
    ensures accountsData == Gather(db.accounts, ids, probe, sizer)
  {
    accountsData := [];
    var i := 0;
    while i < |ids|
      invariant 0 <= i <= |ids|
      invariant accountsData == Gather(db.accounts, ids[..i], probe, sizer)
    {
      assert ids[..i + 1][..i] == ids[..i];
      var found := AccountIndex(db.accounts, ids[i]);
      if found.Some? {
        var account := db.accounts[found.value];
        var outcome := probe(account);
        if outcome.ProbeRaised? {
          accountsData := accountsData + [GatherError(account, outcome.error)];
        } else if outcome.LoggedIn? {
          var sizing := sizer(account, outcome.balance, outcome.marginFree);
          if sizing.SizingRaised? {
            accountsData := accountsData + [GatherError(account, sizing.error)];
          } else {
            accountsData := accountsData + [Gathered(account, outcome.balance, sizing.calculation, sizing.marginOk)];
          }
        }
      }
      i := i + 1;
    }
    assert ids[..i] == ids;
  }

  /** The second loop of `execute_batch`: one order attempt per collected account. */
  method PlaceOrders(accountsData: seq<Gathered>, place: (Account, Calc) -> OrderOutcome) returns (results: seq<OrderResult>)
    requires forall i :: 0 <= i < |accountsData| ==> accountsData[i].Gathered?
    ensures results == OrderResults(accountsData, place)
  {
    results := [];
    var j := 0;
    while j < |accountsData|
      invariant 0 <= j <= |accountsData|
      invariant results == OrderResults(accountsData[..j], place)
    {
      assert accountsData[..j + 1][..j] == accountsData[..j];
      var accData := accountsData[j];
      var outcome := place(accData.account, accData.calculation);
      if outcome.OrderRaised? {
        results := results + [OrderResult(accData.account.accountId, false, None, Some(outcome.error))];
      } else if outcome.Placed? {
        results := results + [OrderResult(accData.account.accountId, outcome.success, outcome.order, outcome.reason)];
      }
      j := j + 1;
    }
    assert accountsData[..j] == accountsData;
  }

  /** `execute_batch`: collect, gate on margin, then place one order per collected account. */
  method ExecuteBatch(db: Database, req: TradeRequest, initialized: bool, probe: Account -> Probe,
                      sizer: (Account, real, real) -> Sizing, place: (Account, Calc) -> OrderOutcome)
    returns (r: Result<BatchSummary, HttpError>)
    ensures r == ExecuteOutcome(db.accounts, req, initialized, probe, sizer, place)
  {
    if !initialized {
      return Err(HttpError(500, "Failed to initialize MT5"));
    }
    var accountsData := CollectAccounts(db, req.accountIds, probe, sizer);
    assert ExecuteOutcome(db.accounts, req, initialized, probe, sizer, place) == GateAndPlace(accountsData, place);
    var failedMargin := FailedMargin(accountsData);
    if failedMargin > 0 {
      return Err(MarginRefusal(failedMargin));
    }
    var results := PlaceOrders(accountsData, place);
    var successful := SuccessCount(results);
    r := Ok(BatchSummary(|results|, successful, |results| - successful, results));
    assert r == GateAndPlace(accountsData, place);
  }

  /**
   * With a sizer that calculates and a margin that suffices for every account
   * that logs in, and a terminal that accepts every re-login, the batch places
   * exactly one order per account collected in the first pass, in that order.
   */
  lemma {:induction false} EveryCollectedAccountOrdered(gs: seq<Gathered>, place: (Account, Calc) -> OrderOutcome)
    requires forall i :: 0 <= i < |gs| ==> gs[i].Gathered?
    requires forall i :: 0 <= i < |gs| ==> !place(gs[i].account, gs[i].calculation).ReloginRefused?
    ensures |OrderResults(gs, place)| == |gs|
    ensures forall i :: 0 <= i < |gs| ==> OrderResults(gs, place)[i].login == gs[i].account.accountId
  {
    if gs != [] {
      var init := gs[..|gs| - 1];
      EveryCollectedAccountOrdered(init, place);
      forall i | 0 <= i < |gs| - 1 ensures OrderResults(gs, place)[i].login == gs[i].account.accountId {
        assert init[i] == gs[i];
      }
    }
  }

  /** A first pass whose logins never raise and whose sizer always calculates with enough margin collects only approved entries. */
  lemma {:induction false} SizedGatherPassesGate(accounts: seq<Account>, ids: seq<int>, probe: Account -> Probe,
                                                 sizer: (Account, real, real) -> Sizing)
    requires forall a :: a in accounts ==> !probe(a).ProbeRaised?
    requires forall a, b, m :: sizer(a, b, m).Sized? && sizer(a, b, m).marginOk
    ensures forall g :: g in Gather(accounts, ids, probe, sizer) ==> g.Gathered? && g.marginOk
  {
    if ids != [] {
      SizedGatherPassesGate(accounts, ids[..|ids| - 1], probe, sizer);
    }
  }

  /**
   * The batch as intended, with a sizer fed from the fields the request
   * declares: when no login raises, the sizer calculates with enough margin
   * for every account and every re-login succeeds, the batch passes the gate
   * and places one order per collected account, in request order.
   */
  lemma SizedBatchOrdersEveryAccount(accounts: seq<Account>, req: TradeRequest, probe: Account -> Probe,
                                     sizer: (Account, real, real) -> Sizing, place: (Account, Calc) -> OrderOutcome)
    requires forall a :: a in accounts ==> !probe(a).ProbeRaised?
    requires forall a, b, m :: sizer(a, b, m).Sized? && sizer(a, b, m).marginOk
    requires forall a, c :: !place(a, c).ReloginRefused?
    ensures var gathered := Gather(accounts, req.accountIds, probe, sizer);
            var r := ExecuteOutcome(accounts, req, true, probe, sizer, place);
            && r.Ok? && |r.value.results| == |gathered|
            && forall i :: 0 <= i < |gathered| ==> r.value.results[i].login == gathered[i].account.accountId
  {
    var gathered := Gather(accounts, req.accountIds, probe, sizer);
    SizedGatherPassesGate(accounts, req.accountIds, probe, sizer);
    assert forall i :: 0 <= i < |gathered| ==> gathered[i] in gathered;
    assert FailedMargin(gathered) == 0;
    var r := GateAndPlace(gathered, place);
    assert r.Ok? && r.value.results == OrderResults(gathered, place);
    EveryCollectedAccountOrdered(gathered, place);
  }

  // ---- the routes as written ----

  /**
   * The sizer call as the routes write it: the arguments read `request.risk_pct`,
   * `tp_pips` and `sl_pips`, which neither request schema declares, so reading
   * the first raises `AttributeError` before the sizer runs.
   */
  function AsWrittenSizer(schema: string): (Account, real, real) -> Sizing {
    (a: Account, balance: real, marginFree: real) =>
      SizingRaised("'" + schema + "' object has no attribute 'risk_pct'")
  }

  /** As written, a pass over the requested ids with either request's schema gathers only errors. */
  lemma {:induction false} AsWrittenGatherOnlyErrors(accounts: seq<Account>, ids: seq<int>, probe: Account -> Probe,
                                                     schema: string)
    ensures forall g :: g in Gather(accounts, ids, probe, AsWrittenSizer(schema)) ==> g.GatherError?
  {
    if ids != [] {
      AsWrittenGatherOnlyErrors(accounts, ids[..|ids| - 1], probe, schema);
    }
  }

  /** As written, the preview never carries a calculation: every entry is an error entry. */
  lemma AsWrittenPreviewOnlyErrors(accounts: seq<Account>, ids: seq<int>, probe: Account -> Probe)
    ensures forall e :: e in Previews(Gather(accounts, ids, probe, AsWrittenSizer("PositionCalculateRequest"))) ==>
              e.PreviewError?
  {
    var gs := Gather(accounts, ids, probe, AsWrittenSizer("PositionCalculateRequest"));
    AsWrittenGatherOnlyErrors(accounts, ids, probe, "PositionCalculateRequest");
    PreviewsAt(gs);
    forall e | e in Previews(gs) ensures e.PreviewError? {
      var i :| 0 <= i < |Previews(gs)| && Previews(gs)[i] == e;
      assert gs[i] in gs;
    }
  }

  /**
   * As written, the batch never places an order: it is refused at the margin
   * gate as soon as one requested account logs in with account information
   * or raises, and otherwise answers with an empty result list.
   */
  lemma AsWrittenExecuteNeverOrders(accounts: seq<Account>, req: TradeRequest, probe: Account -> Probe,
                                    place: (Account, Calc) -> OrderOutcome)
    ensures var sizer := AsWrittenSizer("BatchTradeRequest");
            var gathered := Gather(accounts, req.accountIds, probe, sizer);
            var r := ExecuteOutcome(accounts, req, true, probe, sizer, place);
            && (gathered != [] ==> r == Err(MarginRefusal(|gathered|)))
            && (gathered == [] ==> r == Ok(BatchSummary(0, 0, 0, [])))
  {
    var sizer := AsWrittenSizer("BatchTradeRequest");
    var gathered := Gather(accounts, req.accountIds, probe, sizer);
    AsWrittenGatherOnlyErrors(accounts, req.accountIds, probe, "BatchTradeRequest");
    AllErrorsFailMargin(gathered);
  }

  /** A list of error entries fails the margin gate once per entry. */
  lemma {:induction false} AllErrorsFailMargin(gs: seq<Gathered>)
    requires forall g :: g in gs ==> g.GatherError?
    ensures FailedMargin(gs) == |gs|
  {
    if gs != [] {
      assert gs[|gs| - 1] in gs;
      AllErrorsFailMargin(gs[..|gs| - 1]);
    }
  }
}
