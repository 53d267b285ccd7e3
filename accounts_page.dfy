/**
 * The accounts page's connection handling: the status check on mount,
 * connecting to an account, disconnecting, the program label of each row and
 * the "connected" highlight of a row. The page writes the connection into the
 * telemetry store it shares with the live stream. A request's outcome is a
 * parameter: `None` (or `false`) is a request that threw.
 */
module AccountsPage {
  import opened Wrappers
  import opened Db
  import opened Store

  /** The status answer: `connected` and `account_id`. */
  datatype MT5Status = MT5Status(connected: bool, accountId: Option<int>)

  /**
   * `getProgramLabel`: no label for a missing or zero program id, otherwise
   * "<fund name> - <program name>" of the first program with that id.
   */
  function ProgramLabel(funds: seq<Fund>, fundProgramId: Option<int>): (r: Option<string>)
    ensures !IdIsSet(fundProgramId) ==> r == None
    ensures IdIsSet(fundProgramId) ==>
              (r.None? <==> forall i, j :: 0 <= i < |funds| && 0 <= j < |funds[i].programs| ==>
                                             funds[i].programs[j].id != fundProgramId.value)
  {
    if !IdIsSet(fundProgramId) then None
    else match FindProgram(funds, fundProgramId.value)
      case None => None
      case Some(row) => Some(row.fund.fundName + " - " + row.program.programName)
  }

  /** The label names the first program with the id, in fund order, then program order. */
  lemma ProgramLabelIsFirst(funds: seq<Fund>, fundProgramId: Option<int>)
    requires IdIsSet(fundProgramId)
    ensures ProgramLabel(funds, fundProgramId).Some? ==>
              exists i, j :: FirstProgramAt(funds, fundProgramId.value, i, j)
                             && ProgramLabel(funds, fundProgramId) ==
                                Some(funds[i].fundName + " - " + funds[i].programs[j].programName)
  {
    FindProgramIsFirst(funds, fundProgramId.value);
  }

  /** A row is highlighted when the terminal is connected to that row's account. */
  predicate IsConnected(connected: bool, connectedAccountId: Option<int>, rowId: int) {
    connected && connectedAccountId == Some(rowId)
  }

  /**
   * With distinct row ids at most one row is highlighted, and none when the
   * terminal is not connected or no account id is known.
   */
  lemma {:induction false} AtMostOneConnectedRow(accounts: seq<ClientAccount>, connected: bool,
                                                 connectedAccountId: Option<int>)
    requires forall i, j :: 0 <= i < j < |accounts| ==> accounts[i].id != accounts[j].id
    ensures forall i, j :: (0 <= i < |accounts| && 0 <= j < |accounts|
                            && IsConnected(connected, connectedAccountId, accounts[i].id)
                            && IsConnected(connected, connectedAccountId, accounts[j].id)) ==> i == j
    ensures !connected || connectedAccountId.None? ==>
              forall i :: 0 <= i < |accounts| ==> !IsConnected(connected, connectedAccountId, accounts[i].id)
  {
  }

  class Page {
    /** The telemetry store the page shares with the stream. */
    const mt5: MT5Store
    /** The funds as last loaded, for the program labels. */
    var funds: seq<Fund>
    /** The account a connect request is in flight for. */
    var connecting: Option<int>

    ghost predicate Valid()
      reads this, mt5
    {
      mt5.Valid()
    }

    constructor (store: MT5Store)
      requires store.Valid()
      ensures Valid()
      ensures mt5 == store && funds == [] && connecting == None
    {
      mt5 := store;
      funds := [];
      connecting := None;
    }

    /** `loadFunds`: a loaded list replaces the funds; a failed request keeps them. */
    method LoadFunds(data: Option<seq<Fund>>)
      modifies this
      ensures data.Some? ==> funds == data.value
      ensures data.None? ==> funds == old(funds)
      ensures connecting == old(connecting)
    {
      if data.Some? {
        funds := data.value;
      }
    }

    /** `checkMT5Status`: the answer is copied as it is; a failed request changes nothing. */
    method CheckMT5Status(status: Option<MT5Status>)
      requires Valid()
      modifies mt5
      ensures Valid()
      ensures status.None? ==> unchanged(mt5)
      ensures status.Some? ==>
                && mt5.connected == status.value.connected
                && mt5.connectedAccountId == status.value.accountId
                && mt5.accountInfo == old(mt5.accountInfo) && mt5.positions == old(mt5.positions)
                && mt5.equityHistory == old(mt5.equityHistory)
    {
      if status.Some? {
        mt5.SetConnected(status.value.connected);
        mt5.SetConnectedAccountId(status.value.accountId);
      }
    }

    /** `handleConnect` up to the request: the equity history is cleared before it is sent. */
    method BeginConnect(id: int)
      requires Valid()
      modifies this, mt5
      ensures Valid()
      ensures connecting == Some(id) && funds == old(funds)
      ensures mt5.equityHistory == []
      ensures mt5.connected == old(mt5.connected) && mt5.connectedAccountId == old(mt5.connectedAccountId)
      ensures mt5.accountInfo == old(mt5.accountInfo) && mt5.positions == old(mt5.positions)
    {
      connecting := Some(id);
      mt5.ClearEquityHistory();
    }

    /** The connect answer for `id`: a success records the connection; a failure leaves it as it was. */
    method FinishConnect(id: int, succeeded: bool)
      requires Valid()
      modifies this, mt5
      ensures Valid()
      ensures connecting == None && funds == old(funds)
      ensures succeeded ==> mt5.connected && mt5.connectedAccountId == Some(id)
      ensures !succeeded ==> mt5.connected == old(mt5.connected)
                             && mt5.connectedAccountId == old(mt5.connectedAccountId)
      ensures mt5.accountInfo == old(mt5.accountInfo) && mt5.positions == old(mt5.positions)
      ensures mt5.equityHistory == old(mt5.equityHistory)
    {
      if succeeded {
        mt5.SetConnected(true);
        mt5.SetConnectedAccountId(Some(id));
      }
      connecting := None;
    }

    /**
     * `handleDisconnect`: a success drops the connection and empties the
     * telemetry; a failure changes nothing.
     */
    method HandleDisconnect(succeeded: bool)
      requires Valid()
      modifies mt5
      ensures Valid()
      ensures !succeeded ==> unchanged(mt5)
      ensures succeeded ==>
                && !mt5.connected && mt5.connectedAccountId == None
                && mt5.accountInfo == None && mt5.positions == [] && mt5.equityHistory == []
    {
      if succeeded {
        mt5.SetConnected(false);
        mt5.SetConnectedAccountId(None);
        mt5.Reset();
      }
    }
  }
}
