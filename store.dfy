/**
 * The two client-side stores of the dashboard: the MT5 telemetry store
 * (connection flags, last account info, open positions and a bounded equity
 * history) and the account-list store. Each store is an object whose setters
 * replace one field and leave the others alone.
 */
module Store {
  import opened Wrappers

  /** Capacity of the equity history: the oldest points are dropped beyond it. */
  const MaxEquityPoints: nat := 300

  datatype Side = Buy | Sell

  /** Account snapshot pushed by the telemetry stream. */
  datatype AccountInfo = AccountInfo(
    login: int, name: string, balance: real, equity: real, margin: real,
    marginFree: real, marginLevel: real, profit: real, currency: string)

  /** One open position pushed by the telemetry stream. */
  datatype Position = Position(
    ticket: int, symbol: string, side: Side, volume: real, priceOpen: real,
    sl: real, tp: real, profit: real, time: string)

  /** One point of the equity chart. */
  datatype EquityPoint = EquityPoint(time: string, balance: real, equity: real)

  /** An account row as the client keeps it in its account list. */
  datatype ClientAccount = ClientAccount(
    id: int, accountId: string, server: string, accountType: string,
    fundProgramId: Option<int>, currentPhase: Option<string>, mt5Name: Option<string>,
    balance: Option<real>, equity: Option<real>, profit: Option<real>)

  /** The last `k` elements of `s` (all of `s` when it is shorter): `s.slice(-k)` for k > 0. */
  function TakeLast<T>(s: seq<T>, k: nat): seq<T> {
    if |s| <= k then s else s[|s| - k..]
  }

  /** The history after appending `p`: `[...history, p].slice(-300)`. */
  function AppendCapped(history: seq<EquityPoint>, p: EquityPoint): seq<EquityPoint> {
    TakeLast(history + [p], MaxEquityPoints)
  }

  /** The new length is min(old length + 1, 300) and the new point is last. */
  lemma AppendCappedShape(history: seq<EquityPoint>, p: EquityPoint)
    ensures |AppendCapped(history, p)| == if |history| + 1 <= MaxEquityPoints then |history| + 1 else MaxEquityPoints
    ensures AppendCapped(history, p)[|AppendCapped(history, p)| - 1] == p
  {
  }

  /**
   * The new history is a suffix of old ++ [p]: relative order is kept and only
   * the oldest points are dropped.
   */
  lemma AppendCappedIsSuffix(history: seq<EquityPoint>, p: EquityPoint)
    ensures exists d :: 0 <= d <= |history| && AppendCapped(history, p) == (history + [p])[d..]
  {
    var s := history + [p];
    if |s| <= MaxEquityPoints {
      assert AppendCapped(history, p) == s[0..];
    } else {
      assert AppendCapped(history, p) == s[|s| - MaxEquityPoints..];
    }
  }

  /** Below the cap nothing is evicted. */
  lemma AppendCappedBelowCap(history: seq<EquityPoint>, p: EquityPoint)
    requires |history| < MaxEquityPoints
    ensures AppendCapped(history, p) == history + [p]
  {
  }

  /** A full history loses exactly its oldest point. */
  lemma AppendCappedAtCap(history: seq<EquityPoint>, p: EquityPoint)
    requires |history| == MaxEquityPoints
    ensures AppendCapped(history, p) == history[1..] + [p]
  {
    assert (history + [p])[1..] == history[1..] + [p];
  }

  /** The history after appending every point of `ps`, one by one. */
  function AppendAll(history: seq<EquityPoint>, ps: seq<EquityPoint>): seq<EquityPoint>
    decreases |ps|
  {
    if ps == [] then history else AppendAll(AppendCapped(history, ps[0]), ps[1..])
  }

  /** Trimming before appending more and trimming again is the same as trimming once. */
  lemma TakeLastTwice<T>(s: seq<T>, t: seq<T>, k: nat)
    ensures TakeLast(TakeLast(s, k) + t, k) == TakeLast(s + t, k)
  {
    if |s| > k {
      var u := s[|s| - k..];
      assert (s + t)[|s + t| - |u + t|..] == u + t;
      if |u + t| > k {
        assert (u + t)[|u + t| - k..] == (s + t)[|s + t| - k..];
      } else {
        assert |s + t| > k;
        assert (s + t)[|s + t| - k..] == u + t;
      }
    }
  }

  /**
   * Ring bound: appending any number of points to a history within the cap
   * yields exactly the last (at most 300) points of all points seen, in arrival
   * order.
   */
  lemma {:induction false} AppendAllIsWindow(history: seq<EquityPoint>, ps: seq<EquityPoint>)
    requires |history| <= MaxEquityPoints
    ensures AppendAll(history, ps) == TakeLast(history + ps, MaxEquityPoints)
    decreases |ps|
  {
    if ps == [] {
      assert history + ps == history;
    } else {
      var h1 := AppendCapped(history, ps[0]);
      AppendAllIsWindow(h1, ps[1..]);
      TakeLastTwice(history + [ps[0]], ps[1..], MaxEquityPoints);
      assert history + [ps[0]] + ps[1..] == history + ps;
    }
  }

  /** Starting from an empty history, more than 300 points leave exactly the last 300. */
  lemma RingBound(ps: seq<EquityPoint>)
    requires |ps| > MaxEquityPoints
    ensures AppendAll([], ps) == ps[|ps| - MaxEquityPoints..]
  {
    AppendAllIsWindow([], ps);
    assert [] + ps == ps;
  }

  /** The telemetry store (`useMT5Store`). */
  class MT5Store {
    var connected: bool
    var connectedAccountId: Option<int>
    var accountInfo: Option<AccountInfo>
    var positions: seq<Position>
    var equityHistory: seq<EquityPoint>

    ghost predicate Valid()
      reads this
    {
      |equityHistory| <= MaxEquityPoints
    }

    constructor ()
      ensures Valid()
      ensures !connected && connectedAccountId == None && accountInfo == None
      ensures positions == [] && equityHistory == []
    {
      connected := false;
      connectedAccountId := None;
      accountInfo := None;
      positions := [];
      equityHistory := [];
    }

    method SetConnected(c: bool)
      modifies this
      ensures connected == c
      ensures connectedAccountId == old(connectedAccountId) && accountInfo == old(accountInfo)
      ensures positions == old(positions) && equityHistory == old(equityHistory)
    {
      connected := c;
    }

    method SetConnectedAccountId(id: Option<int>)
      modifies this
      ensures connectedAccountId == id
      ensures connected == old(connected) && accountInfo == old(accountInfo)
      ensures positions == old(positions) && equityHistory == old(equityHistory)
    {
      connectedAccountId := id;
    }

    method SetAccountInfo(info: Option<AccountInfo>)
      modifies this
      ensures accountInfo == info
      ensures connected == old(connected) && connectedAccountId == old(connectedAccountId)
      ensures positions == old(positions) && equityHistory == old(equityHistory)
    {
      accountInfo := info;
    }

    method SetPositions(ps: seq<Position>)
      modifies this
      ensures positions == ps
      ensures connected == old(connected) && connectedAccountId == old(connectedAccountId)
      ensures accountInfo == old(accountInfo) && equityHistory == old(equityHistory)
    {
      positions := ps;
    }

    method AddEquityPoint(p: EquityPoint)
      requires Valid()
      modifies this
      ensures Valid()
      ensures equityHistory == AppendCapped(old(equityHistory), p)
      ensures connected == old(connected) && connectedAccountId == old(connectedAccountId)
      ensures accountInfo == old(accountInfo) && positions == old(positions)
    {
      equityHistory := AppendCapped(equityHistory, p);
    }

    method ClearEquityHistory()
      modifies this
      ensures Valid()
      ensures equityHistory == []
      ensures connected == old(connected) && connectedAccountId == old(connectedAccountId)
      ensures accountInfo == old(accountInfo) && positions == old(positions)
    {
      equityHistory := [];
    }

    /** Empties the telemetry; the connection fields are left as they are. */
    method Reset()
      modifies this
      ensures Valid()
      ensures accountInfo == None && positions == [] && equityHistory == []
      ensures connected == old(connected) && connectedAccountId == old(connectedAccountId)
    {
      accountInfo := None;
      positions := [];
      equityHistory := [];
    }
  }

  /** `accounts.filter(a => a.id !== id)`. */
  function WithoutId(accounts: seq<ClientAccount>, id: int): seq<ClientAccount> {
    if accounts == [] then []
    else if accounts[0].id != id then [accounts[0]] + WithoutId(accounts[1..], id)
    else WithoutId(accounts[1..], id)
  }

  /** Removal keeps exactly the accounts with another id. */
  lemma {:induction false} WithoutIdMembers(accounts: seq<ClientAccount>, id: int, a: ClientAccount)
    ensures a in WithoutId(accounts, id) <==> a in accounts && a.id != id
    decreases |accounts|
  {
    if accounts != [] {
      WithoutIdMembers(accounts[1..], id, a);
      assert accounts == [accounts[0]] + accounts[1..];
    }
  }

  /** Removal works piecewise, so the kept accounts stay in their original order. */
  lemma {:induction false} WithoutIdAppend(xs: seq<ClientAccount>, ys: seq<ClientAccount>, id: int)
    ensures WithoutId(xs + ys, id) == WithoutId(xs, id) + WithoutId(ys, id)
    decreases |xs|
  {
    if xs == [] {
      assert xs + ys == ys;
    } else {
      assert (xs + ys)[1..] == xs[1..] + ys;
      WithoutIdAppend(xs[1..], ys, id);
    }
  }

  /** Removing an id twice is the same as removing it once. */
  lemma {:induction false} WithoutIdIdempotent(accounts: seq<ClientAccount>, id: int)
    ensures WithoutId(WithoutId(accounts, id), id) == WithoutId(accounts, id)
    decreases |accounts|
  {
    if accounts != [] {
      WithoutIdIdempotent(accounts[1..], id);
    }
  }

  /** The account-list store (`useAccountStore`). */
  class AccountStore {
    var accounts: seq<ClientAccount>
    var selectedAccount: Option<ClientAccount>

    constructor ()
      ensures accounts == [] && selectedAccount == None
    {
      accounts := [];
      selectedAccount := None;
    }

    method SetAccounts(list: seq<ClientAccount>)
      modifies this
      ensures accounts == list && selectedAccount == old(selectedAccount)
    {
      accounts := list;
    }

    method SetSelectedAccount(a: Option<ClientAccount>)
      modifies this
      ensures selectedAccount == a && accounts == old(accounts)
    {
      selectedAccount := a;
    }

    /** Appends at the end. */
    method AddAccount(a: ClientAccount)
      modifies this
      ensures accounts == old(accounts) + [a]
      ensures selectedAccount == old(selectedAccount)
    {
      accounts := accounts + [a];
    }

    /** Drops every account with this id; see WithoutIdMembers and WithoutIdAppend. */
    method RemoveAccount(id: int)
      modifies this
      ensures accounts == WithoutId(old(accounts), id)
      ensures selectedAccount == old(selectedAccount)
    {
      accounts := WithoutId(accounts, id);
    }
  }
}
