/**
 * The reconnecting telemetry consumer (`useMT5Stream`). Sockets and timers are
 * named by numbers; transport events (message, error, close) and the firing of
 * the reconnect timer are separate method calls, each an atomic step of the
 * browser's event loop.
 */
module Stream {
  import opened Wrappers
  import opened Store

  /** Delay before a reconnect attempt, in milliseconds. */
  const ReconnectDelayMs: nat := 3000

  /** What one socket message decodes to. */
  datatype StreamMessage =
    | Malformed      // `JSON.parse` (or the first field access) threw
    | Message(kind: string, connectedAccountId: Option<int>, accountInfo: Option<AccountInfo>,
              positions: Option<seq<Position>>, timestamp: string)

  /** The equity point an update with account info appends. */
  function PointOf(info: AccountInfo, timestamp: string): (p: EquityPoint)
    ensures p.balance == info.balance && p.equity == info.equity && p.time == timestamp
  {
    EquityPoint(timestamp, info.balance, info.equity)
  }

  class StreamSession {
    const store: MT5Store
    /** `wsRef.current`. */
    var ws: Option<nat>
    /** `reconnectTimer.current`. */
    var timerRef: Option<nat>
    /** Sockets that are connecting or open: the only ones that deliver messages. */
    var live: set<nat>
    /** Sockets on which `close()` was called and whose close event is still to come. */
    var closing: set<nat>
    /** Sockets whose `onclose` is still the reconnect handler. */
    var closeAttached: set<nat>
    /** Reconnect timers scheduled and neither fired nor cleared. */
    var pendingTimers: set<nat>
    var nextSocket: nat
    var nextTimer: nat
    /** The effect's last run connected and returned `cleanup` as its disposer. */
    var effectArmed: bool
    /** The dependencies `[connected, connectedAccountId]` of the effect's last run. */
    var lastDeps: Option<(bool, Option<int>)>

    ghost predicate Valid()
      reads this, store
    {
      && store.Valid()
      && (forall s :: s in live ==> ws == Some(s))
      && (forall s :: s in closeAttached ==> ws == Some(s))
      && (forall t :: t in pendingTimers ==> timerRef == Some(t))
      && live !! closing
      && (ws.Some? ==> ws.value < nextSocket)
      && (forall s :: s in closing ==> s < nextSocket)
      && (timerRef.Some? ==> timerRef.value < nextTimer)
      && (pendingTimers != {} ==> ws.Some? && ws.value !in live && ws.value !in closing)
    }

    /** At most one socket can still deliver messages, and it is the referenced one. */
    lemma AtMostOneLiveSocket()
      requires Valid()
      ensures |live| <= 1
      ensures live != {} ==> live == {ws.value}
    {
      if live != {} {
        var s :| s in live;
        assert live == {s};
      }
    }

    /** At most one reconnect timer is ever pending. */
    lemma AtMostOnePendingTimer()
      requires Valid()
      ensures |pendingTimers| <= 1
    {
      if pendingTimers != {} {
        var t :| t in pendingTimers;
        assert pendingTimers == {t};
      }
    }

    constructor (s: MT5Store)
      requires s.Valid()
      ensures Valid() && store == s
      ensures ws == None && timerRef == None && live == {} && closing == {}
      ensures pendingTimers == {} && closeAttached == {} && nextSocket == 0 && nextTimer == 0
      ensures !effectArmed && lastDeps == None
    {
      store := s;
      ws := None;
      timerRef := None;
      live := {};
      closing := {};
      closeAttached := {};
      pendingTimers := {};
      nextSocket := 0;
      nextTimer := 0;
      effectArmed := false;
      lastDeps := None;
    }

    /**
     * `cleanup`: cancel the pending reconnect, detach the close handler of the
     * referenced socket and only then close it, and drop the reference.
     */
    method Cleanup()
      requires Valid()
      modifies this
      ensures Valid()
      ensures ws == None && timerRef == None && pendingTimers == {} && live == {} && closeAttached == {}
      ensures closing == old(closing) + old(live)
      ensures unchanged(this`nextSocket, this`nextTimer, this`effectArmed, this`lastDeps)
    {
      if timerRef.Some? {
        pendingTimers, timerRef := pendingTimers - {timerRef.value}, None;
      }
      if ws.Some? {
        var s := ws.value;
        closeAttached := closeAttached - {s};
        if s in live {
          live, closing := live - {s}, closing + {s};
        }
        ws := None;
      }
    }

    /** `connect`: clean up, then open one new socket with all handlers attached. */
    method Connect()
      requires Valid()
      modifies this
      ensures Valid()
      ensures ws == Some(old(nextSocket)) && nextSocket == old(nextSocket) + 1
      ensures live == {old(nextSocket)} && closeAttached == {old(nextSocket)}
      ensures closing == old(closing) + old(live)
      ensures timerRef == None && pendingTimers == {}
      ensures unchanged(this`nextTimer, this`effectArmed, this`lastDeps)
    {
      Cleanup();
      var s := nextSocket;
      nextSocket, ws, live, closeAttached := nextSocket + 1, Some(s), {s}, {s};
    }

    /**
     * The close event of socket `s`. The handler, if still attached, schedules a
     * reconnect exactly when the store says the session is still connected to
     * an account.
     */
    method OnClose(s: nat)
      requires Valid()
      modifies this
      ensures Valid()
      ensures live == old(live) - {s} && closing == old(closing) - {s}
      ensures ws == old(ws) && closeAttached == old(closeAttached) && nextSocket == old(nextSocket)
      ensures var fires := (s in old(live) || s in old(closing)) && s in old(closeAttached);
              var reconnect := fires && store.connected && IdIsSet(store.connectedAccountId);
              && (reconnect ==> timerRef == Some(old(nextTimer)) && pendingTimers == {old(nextTimer)}
                                && nextTimer == old(nextTimer) + 1)
              && (!reconnect ==> timerRef == old(timerRef) && pendingTimers == old(pendingTimers)
                                 && nextTimer == old(nextTimer))
      ensures effectArmed == old(effectArmed) && lastDeps == old(lastDeps)
    {
      if s in live || s in closing {
        live := live - {s};
        closing := closing - {s};
        if s in closeAttached {
          if store.connected && IdIsSet(store.connectedAccountId) {
            var t := nextTimer;
            nextTimer := nextTimer + 1;
            timerRef := Some(t);
            pendingTimers := pendingTimers + {t};
          }
        }
      }
    }

    /** The error event of socket `s`: its handler closes that socket. */
    method OnError(s: nat)
      requires Valid()
      modifies this
      ensures Valid()
      ensures s in old(live) ==> live == old(live) - {s} && closing == old(closing) + {s}
      ensures s !in old(live) ==> live == old(live) && closing == old(closing)
      ensures ws == old(ws) && closeAttached == old(closeAttached) && timerRef == old(timerRef)
      ensures pendingTimers == old(pendingTimers)
      ensures nextSocket == old(nextSocket) && nextTimer == old(nextTimer)
      ensures effectArmed == old(effectArmed) && lastDeps == old(lastDeps)
    {
      if s in live {
        live := live - {s};
        closing := closing + {s};
      }
    }

    /** Reconnect timer `t` fires: only a timer nobody cleared calls `connect`. */
    method OnTimer(t: nat)
      requires Valid()
      modifies this
      ensures Valid()
      ensures t in old(pendingTimers) ==>
                && ws == Some(old(nextSocket)) && nextSocket == old(nextSocket) + 1
                && live == {old(nextSocket)} && closeAttached == {old(nextSocket)}
                && closing == old(closing) + old(live) && timerRef == None && pendingTimers == {}
                && unchanged(this`nextTimer, this`effectArmed, this`lastDeps)
      ensures t !in old(pendingTimers) ==> unchanged(this)
    {
      if t in pendingTimers {
        pendingTimers := pendingTimers - {t};
        Connect();
      }
    }

    /**
     * A message on socket `s`. Only a socket that is still open delivers it; an
     * "update" replaces the account info (appending one equity point) when it
     * carries one, and always replaces the positions.
     */
    method OnMessage(s: nat, m: StreamMessage)
      requires Valid()
      modifies store
      ensures Valid()
      ensures store.connected == old(store.connected)
      ensures store.connectedAccountId == old(store.connectedAccountId)
      ensures var applies := s in live && m.Message? && m.kind == "update";
              && (!applies ==> store.accountInfo == old(store.accountInfo)
                               && store.positions == old(store.positions)
                               && store.equityHistory == old(store.equityHistory))
              && (applies ==> store.positions == m.positions.GetOr([]))
              && (applies && m.accountInfo.Some? ==>
                    store.accountInfo == m.accountInfo
                    && store.equityHistory
                       == AppendCapped(old(store.equityHistory), PointOf(m.accountInfo.value, m.timestamp)))
              && (applies && m.accountInfo.None? ==>
                    store.accountInfo == old(store.accountInfo)
                    && store.equityHistory == old(store.equityHistory))
    {
      if s in live && m.Message? && m.kind == "update" {
        if m.accountInfo.Some? {
          var info := m.accountInfo.value;
          store.SetAccountInfo(Some(info));
          store.AddEquityPoint(PointOf(info, m.timestamp));
        }
        store.SetPositions(m.positions.GetOr([]));
      }
    }

    /**
     * A render: React re-runs the effect when `[connected, connectedAccountId]`
     * differ from its last run (or on the first render). The previous run's
     * disposer runs first; then the effect tears down when disconnected or the
     * id is falsy, and connects otherwise.
     */
    method Render()
      requires Valid()
      modifies this
      ensures Valid()
      ensures var deps := (store.connected, store.connectedAccountId);
              && (old(lastDeps) == Some(deps) ==> unchanged(this))
              && (old(lastDeps) != Some(deps) ==>
                    lastDeps == Some(deps) && closing == old(closing) + old(live) && timerRef == None
                    && pendingTimers == {} && nextTimer == old(nextTimer))
              && (old(lastDeps) != Some(deps) && !(store.connected && IdIsSet(store.connectedAccountId)) ==>
                    ws == None && live == {} && closeAttached == {} && !effectArmed
                    && nextSocket == old(nextSocket))
              && (old(lastDeps) != Some(deps) && store.connected && IdIsSet(store.connectedAccountId) ==>
                    ws == Some(old(nextSocket)) && nextSocket == old(nextSocket) + 1
                    && live == {old(nextSocket)} && closeAttached == {old(nextSocket)} && effectArmed)
    {
      var deps := (store.connected, store.connectedAccountId);
      if lastDeps != Some(deps) {
        if effectArmed {
          Cleanup();
        }
        if !store.connected || !IdIsSet(store.connectedAccountId) {
          Cleanup();
          effectArmed, lastDeps := false, Some(deps);
        } else {
          Connect();
          effectArmed, lastDeps := true, Some(deps);
        }
      }
    }

    /** Unmount: the last effect's disposer runs. */
    method Unmount()
      requires Valid()
      modifies this
      ensures Valid()
      ensures old(effectArmed) ==>
                && ws == None && timerRef == None && pendingTimers == {} && live == {} && closeAttached == {}
                && closing == old(closing) + old(live)
                && unchanged(this`nextSocket, this`nextTimer, this`lastDeps)
      ensures !old(effectArmed) ==> unchanged(this)
      ensures !effectArmed
    {
      if effectArmed {
        Cleanup();
        effectArmed := false;
      }
    }
  }

  /**
   * A socket closed on purpose by `cleanup` never schedules a reconnect: its
   * close event, whenever it arrives, leaves the timers alone.
   */
  method LocalCloseNeverReconnects(session: StreamSession)
    requires session.Valid() && session.ws.Some? && session.ws.value in session.live
    modifies session
    ensures session.Valid()
    ensures session.pendingTimers == {} && session.timerRef == None
  {
    var s := session.ws.value;
    session.Cleanup();
    assert s in session.closing && s !in session.closeAttached;
    session.OnClose(s);
  }

  /**
   * An error on the open socket takes the same path as a close: once its close
   * event follows, a reconnect is scheduled exactly when the store still says
   * connected to a (truthy) account.
   */
  method ErrorThenCloseReconnects(session: StreamSession)
    requires session.Valid() && session.ws.Some? && session.ws.value in session.live
    requires session.ws.value in session.closeAttached
    modifies session
    ensures session.Valid()
    ensures session.pendingTimers != {}
            <==> session.store.connected && IdIsSet(session.store.connectedAccountId)
    ensures session.effectArmed == old(session.effectArmed) && session.lastDeps == old(session.lastDeps)
  {
    var s := session.ws.value;
    session.OnError(s);
    session.OnClose(s);
  }

  /**
   * The reconnect cycle: a render that connects opens a socket that can
   * reconnect; its error and close schedule the reconnect, and the timer
   * firing opens a fresh socket in the same state, so the cycle repeats.
   */
  method DropThenReconnect(session: StreamSession)
    requires session.Valid()
    requires session.lastDeps != Some((session.store.connected, session.store.connectedAccountId))
    requires session.store.connected && IdIsSet(session.store.connectedAccountId)
    modifies session
    ensures session.Valid() && session.effectArmed
    ensures session.ws.Some? && session.live == {session.ws.value} && session.closeAttached == {session.ws.value}
    ensures session.pendingTimers == {} && session.timerRef == None
  {
    session.Render();
    ErrorThenCloseReconnects(session);
    session.OnTimer(session.timerRef.value);
  }
}
