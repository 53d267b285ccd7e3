/**
 * The position-sizer page: a debounced symbol probe whose answer marks each
 * account available or not and pre-selects the available ones, a preview
 * request over the selection, and a confirmation-gated batch execution.
 *
 * Every handler is one atomic step. Timers and server answers arrive as
 * separate events: `DebounceFire(id)` is the 800 ms timer `id` firing, and
 * `ProbeSucceeded`/`ProbeFailed(token, ...)` is the answer to the probe sent
 * under abort token `token`. The abort controller is a generation counter:
 * every probe that is sent aborts the previous one, so the probe with token
 * `t` is aborted exactly when `t < probeGen`. The page's account list is the
 * account store's list as the page sees it; `SetAccounts` is a change of it.
 */
module TradingPage {
  import opened Wrappers
  import opened Text
  import opened Store

  /** Delay of the symbol/account debounce timer. */
  const DebounceMs: nat := 800

  datatype Tick = Tick(bid: real, ask: real)

  /** One entry of the symbol-check answer. */
  datatype AvailabilityItem = AvailabilityItem(id: int, available: bool)

  /** The symbol-check answer; a falsy `tick` is None, and `results` may be missing. */
  datatype SymbolCheck = SymbolCheck(results: Option<seq<AvailabilityItem>>, tick: Option<Tick>)

  /** The body of a symbol-check request, with the abort token it was sent under. */
  datatype ProbeRequest = ProbeRequest(token: nat, symbol: string, accountIds: seq<int>)

  /** What the page reads of one preview row's `calculation`. */
  datatype CalcView = CalcView(hasError: bool, lotSize: real)

  datatype PreviewRow = PreviewRow(calculation: Option<CalcView>)

  /** The stored preview answer; `results` may be missing. */
  datatype PreviewData = PreviewData(results: Option<seq<PreviewRow>>)

  /** The order form fields other than the symbol. */
  datatype OrderForm = OrderForm(direction: string, slPrice: Option<real>, tpPrice: Option<real>,
                                 riskType: string, riskValue: real)

  /** The body of a preview or batch request. */
  datatype OrderRequest = OrderRequest(symbol: string, direction: string, slPrice: Option<real>,
                                       tpPrice: Option<real>, riskType: string, riskValue: real,
                                       accountIds: seq<int>)

  /** A pending debounce timer and the symbol and accounts its callback captured. */
  datatype DebounceTimer = DebounceTimer(id: nat, symbol: string, accounts: seq<ClientAccount>)

  /** `accs.map(a => a.id)`. */
  function Ids(accs: seq<ClientAccount>): (r: seq<int>)
    ensures |r| == |accs|
    ensures forall i :: 0 <= i < |accs| ==> r[i] == accs[i].id
  {
    if accs == [] then [] else [accs[0].id] + Ids(accs[1..])
  }

  /** A form number is truthy when it is set and not 0 (`!slPrice`, `tpPrice || null`). */
  predicate Truthy(x: Option<real>) {
    x.Some? && x.value != 0.0
  }

  /** `x || null`. */
  function OrNull(x: Option<real>): (r: Option<real>)
    ensures Truthy(x) ==> r == x
    ensures !Truthy(x) ==> r == None
  {
    if Truthy(x) then x else None
  }

  // ---- the availability answer ----

  /** The `avail` map the loop builds: every reported id maps to its flag, a later entry overriding an earlier one. */
  function AvailabilityOf(items: seq<AvailabilityItem>): (m: map<int, bool>)
    ensures forall id :: id in m <==> exists i :: 0 <= i < |items| && items[i].id == id
  {
    if items == [] then map[]
    else
      var init := items[..|items| - 1];
      var last := items[|items| - 1];
      var m := AvailabilityOf(init);
      assert forall i :: 0 <= i < |init| ==> init[i] == items[i];
      m[last.id := last.available]
  }

  /** The `autoSelected` list: the ids reported available, in answer order. */
  function AvailableIds(items: seq<AvailabilityItem>): (r: seq<int>)
    ensures |r| <= |items|
  {
    if items == [] then []
    else AvailableIds(items[..|items| - 1]) + (if items[|items| - 1].available then [items[|items| - 1].id] else [])
  }

  /** The flag an id ends up with is that of its last entry in the answer. */
  lemma {:induction false} LastEntryWins(items: seq<AvailabilityItem>, i: nat)
    requires i < |items|
    requires forall j :: i < j < |items| ==> items[j].id != items[i].id
    ensures AvailabilityOf(items)[items[i].id] == items[i].available
  {
    if i < |items| - 1 {
      LastEntryWins(items[..|items| - 1], i);
    }
  }

  /** An id is pre-selected exactly when some entry reports it available, and its map flag is then true when ids are not repeated. */
  lemma {:induction false} SelectedAreAvailable(items: seq<AvailabilityItem>)
    ensures forall id :: id in AvailableIds(items) <==> exists i :: 0 <= i < |items| && items[i].id == id && items[i].available
    ensures (forall i, j :: 0 <= i < j < |items| ==> items[i].id != items[j].id) ==>
              forall id :: id in AvailableIds(items) ==> AvailabilityOf(items)[id]
  {
    if items != [] {
      var init := items[..|items| - 1];
      SelectedAreAvailable(init);
      assert forall i :: 0 <= i < |init| ==> init[i] == items[i];
      if forall i, j :: 0 <= i < j < |items| ==> items[i].id != items[j].id {
        forall id | id in AvailableIds(items) ensures AvailabilityOf(items)[id] {
          var i :| 0 <= i < |items| && items[i].id == id && items[i].available;
          LastEntryWins(items, i);
        }
      }
    }
  }

  /** The loop over the answer's entries that fills `avail` and `autoSelected`. */
  method ReadAvailability(items: seq<AvailabilityItem>) returns (avail: map<int, bool>, autoSelected: seq<int>)
    ensures avail == AvailabilityOf(items) && autoSelected == AvailableIds(items)
  {
    avail := map[];
    autoSelected := [];
    var i := 0;
    while i < |items|
      invariant 0 <= i <= |items|
      invariant avail == AvailabilityOf(items[..i])
      invariant autoSelected == AvailableIds(items[..i])
    {
      var prefix := items[..i + 1];
      assert prefix[..i] == items[..i] && prefix[i] == items[i];
      assert AvailabilityOf(prefix) == AvailabilityOf(items[..i])[items[i].id := items[i].available];
      avail := avail[items[i].id := items[i].available];
      if items[i].available {
        autoSelected := autoSelected + [items[i].id];
      }
      i := i + 1;
    }
    assert items[..i] == items;
  }

  // ---- the available / unavailable partition ----

  /** `accounts.filter(a => availability[a.id] === true)`. */
  function AvailableAccounts(accounts: seq<ClientAccount>, availability: map<int, bool>): (r: seq<ClientAccount>)
    ensures forall a :: a in r <==> a in accounts && a.id in availability && availability[a.id]
  {
    if accounts == [] then []
    else if accounts[0].id in availability && availability[accounts[0].id]
    then [accounts[0]] + AvailableAccounts(accounts[1..], availability)
    else AvailableAccounts(accounts[1..], availability)
  }

  /** `accounts.filter(a => availability[a.id] === false)`. */
  function UnavailableAccounts(accounts: seq<ClientAccount>, availability: map<int, bool>): (r: seq<ClientAccount>)
    ensures forall a :: a in r <==> a in accounts && a.id in availability && !availability[a.id]
  {
    if accounts == [] then []
    else if accounts[0].id in availability && !availability[accounts[0].id]
    then [accounts[0]] + UnavailableAccounts(accounts[1..], availability)
    else UnavailableAccounts(accounts[1..], availability)
  }

  /** The available list of two blocks of accounts is the two blocks' lists, in order. */
  lemma {:induction false} AvailableAppend(xs: seq<ClientAccount>, ys: seq<ClientAccount>, availability: map<int, bool>)
    ensures AvailableAccounts(xs + ys, availability) == AvailableAccounts(xs, availability) + AvailableAccounts(ys, availability)
    decreases |xs|
  {
    if xs == [] {
      assert xs + ys == ys;
    } else {
      assert (xs + ys)[1..] == xs[1..] + ys;
      AvailableAppend(xs[1..], ys, availability);
    }
  }

  /** The unavailable list of two blocks of accounts is the two blocks' lists, in order. */
  lemma {:induction false} UnavailableAppend(xs: seq<ClientAccount>, ys: seq<ClientAccount>, availability: map<int, bool>)
    ensures UnavailableAccounts(xs + ys, availability) == UnavailableAccounts(xs, availability) + UnavailableAccounts(ys, availability)
    decreases |xs|
  {
    if xs == [] {
      assert xs + ys == ys;
    } else {
      assert (xs + ys)[1..] == xs[1..] + ys;
      UnavailableAppend(xs[1..], ys, availability);
    }
  }

  /** The two lists are disjoint, accounts the answer did not report are in neither, and together they hold at most all accounts. */
  lemma {:induction false} PartitionDisjoint(accounts: seq<ClientAccount>, availability: map<int, bool>)
    ensures forall a :: !(a in AvailableAccounts(accounts, availability) && a in UnavailableAccounts(accounts, availability))
    ensures forall a :: a in accounts && a.id !in availability ==>
              a !in AvailableAccounts(accounts, availability) && a !in UnavailableAccounts(accounts, availability)
    ensures |AvailableAccounts(accounts, availability)| + |UnavailableAccounts(accounts, availability)| <= |accounts|
  {
    if accounts != [] {
      PartitionDisjoint(accounts[1..], availability);
    }
  }

  // ---- total lots ----

  /** The rows with a calculation and no error. */
  function Priced(rows: seq<PreviewRow>): seq<PreviewRow> {
    if rows == [] then []
    else if rows[0].calculation.Some? && !rows[0].calculation.value.hasError
    then [rows[0]] + Priced(rows[1..])
    else Priced(rows[1..])
  }

  /** Left-to-right sum of `lot_size`. */
  function SumLots(rows: seq<PreviewRow>): real
    requires forall i :: 0 <= i < |rows| ==> rows[i].calculation.Some?
  {
    if rows == [] then 0.0
    else SumLots(rows[..|rows| - 1]) + rows[|rows| - 1].calculation.value.lotSize
  }

  lemma {:induction false} PricedHaveCalculation(rows: seq<PreviewRow>)
    ensures forall r :: r in Priced(rows) ==> r.calculation.Some? && !r.calculation.value.hasError
    ensures forall r :: r in rows && r.calculation.Some? && !r.calculation.value.hasError ==> r in Priced(rows)
  {
    if rows != [] {
      PricedHaveCalculation(rows[1..]);
    }
  }

  /** `totalLots`; undefined (None) when the preview has no `results`. */
  function TotalLots(p: PreviewData): Option<real> {
    if p.results.None? then None
    else
      PricedHaveCalculation(p.results.value);
      Some(SumLots(Priced(p.results.value)))
  }

  /** The filtered rows of a concatenation are the concatenation of the filtered rows. */
  lemma {:induction false} PricedAppend(xs: seq<PreviewRow>, ys: seq<PreviewRow>)
    ensures Priced(xs + ys) == Priced(xs) + Priced(ys)
  {
    if xs != [] {
      assert (xs + ys)[1..] == xs[1..] + ys;
      PricedAppend(xs[1..], ys);
    } else {
      assert xs + ys == ys;
    }
  }

  lemma {:induction false} SumLotsAppend(xs: seq<PreviewRow>, ys: seq<PreviewRow>)
    requires forall i :: 0 <= i < |xs| ==> xs[i].calculation.Some?
    requires forall i :: 0 <= i < |ys| ==> ys[i].calculation.Some?
    ensures SumLots(xs + ys) == SumLots(xs) + SumLots(ys)
  {
    if ys == [] {
      assert xs + ys == xs;
    } else {
      assert (xs + ys)[..|xs + ys| - 1] == xs + ys[..|ys| - 1];
      SumLotsAppend(xs, ys[..|ys| - 1]);
    }
  }

  /**
   * The total adds up row by row: the total of two blocks of rows is the sum
   * of their totals, a row without a calculation or with an error adds
   * nothing, and a priced row adds its lot size.
   */
  lemma TotalLotsAdditive(xs: seq<PreviewRow>, ys: seq<PreviewRow>)
    ensures TotalLots(PreviewData(Some(xs + ys))).value ==
            TotalLots(PreviewData(Some(xs))).value + TotalLots(PreviewData(Some(ys))).value
    ensures forall r: PreviewRow :: r.calculation.None? || r.calculation.value.hasError ==>
              TotalLots(PreviewData(Some([r]))).value == 0.0
    ensures forall r: PreviewRow :: r.calculation.Some? && !r.calculation.value.hasError ==>
              TotalLots(PreviewData(Some([r]))).value == r.calculation.value.lotSize
  {
    PricedAppend(xs, ys);
    PricedHaveCalculation(xs);
    PricedHaveCalculation(ys);
    SumLotsAppend(Priced(xs), Priced(ys));
    forall r: PreviewRow | r.calculation.Some? && !r.calculation.value.hasError
      ensures TotalLots(PreviewData(Some([r]))).value == r.calculation.value.lotSize
    {
      assert [r][1..] == [];
      assert Priced([r]) == [r];
      assert [r][..0] == [];
      assert SumLots([r]) == SumLots([]) + r.calculation.value.lotSize;
    }
    forall r: PreviewRow | r.calculation.None? || r.calculation.value.hasError
      ensures TotalLots(PreviewData(Some([r]))).value == 0.0
    {
      assert [r][1..] == [];
    }
  }

  /** The request the form sends: the trimmed symbol, the form, a falsy TP as null, and the selection. */
  function RequestOf(symbol: string, form: OrderForm, selected: seq<int>): OrderRequest {
    OrderRequest(Trim(symbol), form.direction, form.slPrice, OrNull(form.tpPrice),
                 form.riskType, form.riskValue, selected)
  }

  // ---- the page ----

  class Page {
    var symbol: string
    var accounts: seq<ClientAccount>
    var form: OrderForm
    var selected: seq<int>
    var availability: map<int, bool>
    var checkingSymbol: bool
    var symbolChecked: bool
    var tick: Option<Tick>
    var preview: Option<PreviewData>
    var loading: bool
    var executing: bool
    var chartSymbol: string
    /** Number of controllers created; the last one is the current, not aborted. */
    var probeGen: nat
    /** The debounce timer not yet cleared, with the values its callback captured. */
    var timer: Option<DebounceTimer>
    var nextTimerId: nat

    /** A pending timer always captured the current symbol and account list. */
    ghost predicate Valid()
      reads this
    {
      timer.Some? ==> timer.value.symbol == symbol && timer.value.accounts == accounts
                      && timer.value.id < nextTimerId
    }

    /** The first render, with the store's account list, and its debounce effect. */
    constructor (storeAccounts: seq<ClientAccount>)
      ensures Valid()
      ensures symbol == "EURUSD" && chartSymbol == "EURUSD" && accounts == storeAccounts
      ensures form == OrderForm("BUY", None, None, "pct", 1.0)
      ensures selected == [] && availability == map[] && !checkingSymbol && !symbolChecked
      ensures tick == None && preview == None && !loading && !executing && probeGen == 0
      ensures timer == Some(DebounceTimer(0, "EURUSD", storeAccounts)) && nextTimerId == 1
    {
      symbol := "EURUSD";
      accounts := storeAccounts;
      form := OrderForm("BUY", None, None, "pct", 1.0);
      selected := [];
      availability := map[];
      checkingSymbol := false;
      symbolChecked := false;
      tick := None;
      preview := None;
      loading := false;
      executing := false;
      chartSymbol := "EURUSD";
      probeGen := 0;
      timer := Some(DebounceTimer(0, "EURUSD", storeAccounts));
      nextTimerId := 1;
    }

    /** The debounce effect: clear the old timer and the derived state, and start a new 800 ms timer. */
    method RestartDebounce()
      requires timer.None? || timer.value.id < nextTimerId
      modifies this
      ensures Valid()
      ensures availability == map[] && !symbolChecked && selected == [] && preview == None && tick == None
      ensures timer == Some(DebounceTimer(old(nextTimerId), symbol, accounts)) && nextTimerId == old(nextTimerId) + 1
      ensures unchanged(this`symbol, this`accounts, this`form, this`checkingSymbol, this`loading, this`executing,
                        this`chartSymbol, this`probeGen)
    {
      availability, symbolChecked, selected, preview, tick := map[], false, [], None, None;
      timer, nextTimerId := Some(DebounceTimer(nextTimerId, symbol, accounts)), nextTimerId + 1;
    }

    /** Typing in the symbol box; the effect re-runs only when the value changed. */
    method SetSymbol(s: string)
      requires Valid()
      modifies this
      ensures Valid()
      ensures symbol == s
      ensures s == old(symbol) ==> unchanged(this)
      ensures s != old(symbol) ==>
                && availability == map[] && !symbolChecked && selected == [] && preview == None && tick == None
                && timer == Some(DebounceTimer(old(nextTimerId), s, old(accounts)))
                && nextTimerId == old(nextTimerId) + 1
                && unchanged(this`accounts, this`form, this`checkingSymbol, this`loading, this`executing,
                             this`chartSymbol, this`probeGen)
    {
      if s != symbol {
        symbol := s;
        RestartDebounce();
      }
    }

    /** A new account list from the store (a new array, so the effect always re-runs). */
    method SetAccounts(list: seq<ClientAccount>)
      requires Valid()
      modifies this
      ensures Valid()
      ensures accounts == list
      ensures availability == map[] && !symbolChecked && selected == [] && preview == None && tick == None
      ensures timer == Some(DebounceTimer(old(nextTimerId), old(symbol), list)) && nextTimerId == old(nextTimerId) + 1
      ensures unchanged(this`symbol, this`form, this`checkingSymbol, this`loading, this`executing,
                        this`chartSymbol, this`probeGen)
    {
      accounts := list;
      RestartDebounce();
    }

    /** `checkSymbolAvailability(sym, accs)` up to the request it sends. */
    method CheckSymbolAvailability(sym: string, accs: seq<ClientAccount>) returns (req: Option<ProbeRequest>)
      modifies this
      ensures unchanged(this`symbol, this`accounts, this`form, this`loading, this`executing, this`chartSymbol,
                        this`timer, this`nextTimerId)
      ensures Trim(sym) == [] || accs == [] ==>
                && req == None
                && availability == map[] && !symbolChecked && selected == [] && tick == None
                && unchanged(this`checkingSymbol, this`preview, this`probeGen)
      ensures Trim(sym) != [] && accs != [] ==>
                && req == Some(ProbeRequest(old(probeGen) + 1, Trim(sym), Ids(accs)))
                && probeGen == old(probeGen) + 1 && checkingSymbol && preview == None
                && unchanged(this`availability, this`symbolChecked, this`selected, this`tick)
    {
      if Trim(sym) == [] || accs == [] {
        availability, symbolChecked, selected, tick := map[], false, [], None;
        return None;
      }
      probeGen, checkingSymbol, preview := probeGen + 1, true, None;
      return Some(ProbeRequest(probeGen, Trim(sym), Ids(accs)));
    }

    /** Timer `id` fires; a cleared timer does nothing. */
    method DebounceFire(id: nat) returns (req: Option<ProbeRequest>)
      requires Valid()
      modifies this
      ensures Valid()
      ensures old(timer).None? || old(timer).value.id != id ==> req == None && unchanged(this)
      ensures old(timer).Some? && old(timer).value.id == id ==>
                && timer == None && chartSymbol == old(symbol)
                && unchanged(this`symbol, this`accounts, this`form, this`loading, this`executing, this`nextTimerId)
      ensures old(timer).Some? && old(timer).value.id == id && (Trim(old(symbol)) == [] || old(accounts) == []) ==>
                && req == None
                && availability == map[] && !symbolChecked && selected == [] && tick == None
                && unchanged(this`checkingSymbol, this`preview, this`probeGen)
      ensures old(timer).Some? && old(timer).value.id == id && Trim(old(symbol)) != [] && old(accounts) != [] ==>
                && req == Some(ProbeRequest(old(probeGen) + 1, Trim(old(symbol)), Ids(old(accounts))))
                && probeGen == old(probeGen) + 1 && checkingSymbol && preview == None
                && unchanged(this`availability, this`symbolChecked, this`selected, this`tick)
    {
      if timer.None? || timer.value.id != id {
        return None;
      }
      var captured := timer.value;
      timer, chartSymbol := None, captured.symbol;
      req := CheckSymbolAvailability(captured.symbol, captured.accounts);
    }

    /**
     * The probe with `token` answered. An answer without `results` throws in
     * the loop and takes the failure path.
     */
    method ProbeSucceeded(token: nat, check: SymbolCheck)
      requires Valid()
      requires 1 <= token <= probeGen
      modifies this
      ensures Valid()
      ensures token < old(probeGen) ==> unchanged(this)
      ensures token == old(probeGen) ==>
                && !checkingSymbol
                && unchanged(this`symbol, this`accounts, this`form, this`preview, this`loading, this`executing,
                             this`chartSymbol, this`probeGen, this`timer, this`nextTimerId)
      ensures token == old(probeGen) && check.results.Some? ==>
                && availability == AvailabilityOf(check.results.value)
                && selected == AvailableIds(check.results.value)
                && symbolChecked && tick == check.tick
      ensures token == old(probeGen) && check.results.None? ==>
                availability == map[] && !symbolChecked && selected == [] && tick == None
    {
      if token < probeGen {
        return;
      }
      if check.results.None? {
        ProbeFailed(token);
        return;
      }
      var avail, autoSelected := ReadAvailability(check.results.value);
      availability, selected, symbolChecked, tick, checkingSymbol := avail, autoSelected, true, check.tick, false;
    }

    /** The probe with `token` failed. */
    method ProbeFailed(token: nat)
      requires Valid()
      requires 1 <= token <= probeGen
      modifies this
      ensures Valid()
      ensures token < old(probeGen) ==> unchanged(this)
      ensures token == old(probeGen) ==>
                && availability == map[] && !symbolChecked && selected == [] && tick == None && !checkingSymbol
                && unchanged(this`symbol, this`accounts, this`form, this`preview, this`loading, this`executing,
                             this`chartSymbol, this`probeGen, this`timer, this`nextTimerId)
    {
      if token < probeGen {
        return;
      }
      availability, symbolChecked, selected, tick, checkingSymbol := map[], false, [], None, false;
    }

    /** Editing direction, SL, TP or risk: the form changes and the preview stays. */
    method EditForm(f: OrderForm)
      requires Valid()
      modifies this
      ensures Valid()
      ensures form == f
      ensures unchanged(this`symbol, this`accounts, this`selected, this`availability, this`checkingSymbol,
                        this`symbolChecked, this`tick, this`preview, this`loading, this`executing,
                        this`chartSymbol, this`probeGen, this`timer, this`nextTimerId)
    {
      form := f;
    }

    /** Ticking or unticking an account's checkbox. */
    method ToggleAccount(id: int, checked: bool)
      requires Valid()
      modifies this
      ensures Valid()
      ensures checked ==> selected == old(selected) + [id]
      ensures !checked ==> selected == Without(old(selected), id)
      ensures !checked ==> forall x :: x in selected <==> x in old(selected) && x != id
      ensures unchanged(this`symbol, this`accounts, this`form, this`availability, this`checkingSymbol,
                        this`symbolChecked, this`tick, this`preview, this`loading, this`executing,
                        this`chartSymbol, this`probeGen, this`timer, this`nextTimerId)
    {
      if checked {
        selected := selected + [id];
      } else {
        selected := Without(selected, id);
      }
    }

    /** `handleCalculate` up to the request: nothing is sent without a selection and a truthy stop loss. */
    method HandleCalculate() returns (req: Option<OrderRequest>)
      requires Valid()
      modifies this
      ensures Valid()
      ensures old(selected) == [] || !Truthy(old(form).slPrice) ==> req == None && unchanged(this)
      ensures old(selected) != [] && Truthy(old(form).slPrice) ==>
                && req == Some(RequestOf(old(symbol), old(form), old(selected))) && loading
                && unchanged(this`symbol, this`accounts, this`form, this`selected, this`availability,
                             this`checkingSymbol, this`symbolChecked, this`tick, this`preview, this`executing,
                             this`chartSymbol, this`probeGen, this`timer, this`nextTimerId)
    {
      if selected != [] && Truthy(form.slPrice) {
        req := Some(RequestOf(symbol, form, selected));
        loading := true;
      } else {
        req := None;
      }
    }

    /** The preview answer arrived: a success replaces the preview, a failure keeps it. */
    method CalculateResponse(result: Option<PreviewData>)
      requires Valid()
      modifies this
      ensures Valid()
      ensures !loading
      ensures result.Some? ==> preview == result
      ensures result.None? ==> preview == old(preview)
      ensures unchanged(this`symbol, this`accounts, this`form, this`selected, this`availability,
                        this`checkingSymbol, this`symbolChecked, this`tick, this`executing,
                        this`chartSymbol, this`probeGen, this`timer, this`nextTimerId)
    {
      if result.Some? {
        preview := result;
      }
      loading := false;
    }

    /**
     * `handleExecute` up to the request: nothing is sent without a preview or
     * without confirmation, and the request carries the live form, not the
     * request the preview was computed for.
     */
    method HandleExecute(confirmed: bool) returns (req: Option<OrderRequest>)
      requires Valid()
      modifies this
      ensures Valid()
      ensures old(preview).None? || !confirmed ==> req == None && unchanged(this)
      ensures old(preview).Some? && confirmed ==>
                && req == Some(RequestOf(old(symbol), old(form), old(selected))) && executing
                && unchanged(this`symbol, this`accounts, this`form, this`selected, this`availability,
                             this`checkingSymbol, this`symbolChecked, this`tick, this`preview, this`loading,
                             this`chartSymbol, this`probeGen, this`timer, this`nextTimerId)
    {
      if preview.None? {
        return None;
      }
      if !confirmed {
        return None;
      }
      req := Some(RequestOf(symbol, form, selected));
      executing := true;
    }

    /** The batch answer arrived: a success clears the preview, a failure keeps it. */
    method ExecuteResponse(succeeded: bool)
      requires Valid()
      modifies this
      ensures Valid()
      ensures !executing
      ensures succeeded ==> preview == None
      ensures !succeeded ==> preview == old(preview)
      ensures unchanged(this`symbol, this`accounts, this`form, this`selected, this`availability,
                        this`checkingSymbol, this`symbolChecked, this`tick, this`loading,
                        this`chartSymbol, this`probeGen, this`timer, this`nextTimerId)
    {
      if succeeded {
        preview := None;
      }
      executing := false;
    }
  }

  /** `ids.filter(x => x !== id)`. */
  function Without(ids: seq<int>, id: int): (r: seq<int>)
    ensures forall x :: x in r <==> x in ids && x != id
  {
    if ids == [] then []
    else if ids[0] == id then Without(ids[1..], id)
    else [ids[0]] + Without(ids[1..], id)
  }

  /** Filtering distributes over concatenation, so the kept ids keep their order. */
  lemma {:induction false} WithoutAppend(xs: seq<int>, ys: seq<int>, id: int)
    ensures Without(xs + ys, id) == Without(xs, id) + Without(ys, id)
    decreases |xs|
  {
    if xs == [] {
      assert xs + ys == ys;
    } else {
      assert (xs + ys)[1..] == xs[1..] + ys;
      WithoutAppend(xs[1..], ys, id);
    }
  }

  /**
   * Only the newest probe writes. The pending timer fires and sends a probe;
   * the user then types a new symbol, whose timer fires and sends a second
   * probe. The answer to the first probe changes nothing, while the answer
   * to the second one is applied and ends the check.
   */
  method StaleAnswerIgnored(page: Page, s: string, first: SymbolCheck, second: SymbolCheck)
    requires page.Valid() && page.timer.Some?
    requires Trim(page.symbol) != [] && page.accounts != []
    requires s != page.symbol && Trim(s) != []
    modifies page
    ensures page.Valid()
    ensures page.symbol == s && page.chartSymbol == s && page.timer == None
    ensures !page.checkingSymbol && page.symbolChecked == second.results.Some?
    ensures second.results.Some? ==>
              && page.availability == AvailabilityOf(second.results.value)
              && page.selected == AvailableIds(second.results.value)
              && page.tick == second.tick
  {
    var r1 := page.DebounceFire(page.timer.value.id);
    page.SetSymbol(s);
    var r2 := page.DebounceFire(page.timer.value.id);
    assert r1.value.token < r2.value.token == page.probeGen;
    page.ProbeSucceeded(r1.value.token, first);
    assert page.checkingSymbol;
    page.ProbeSucceeded(r2.value.token, second);
  }
}
