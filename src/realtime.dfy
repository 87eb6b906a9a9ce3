/**
 * The dashboard's live-update client (frontend/src/services/realtime.js):
 * how the socket address is derived from the API address, and the client's
 * connect / reconnect / close life cycle.
 *
 * The browser is the environment: sockets report opening, messages, errors
 * and closing through the `Socket...` methods, and pending timers fire
 * through `TimerFired`. Each socket's handlers stay attached after the client
 * replaces it, so events of older sockets run the same handlers.
 */
module Realtime {
  import opened Wrappers
  import opened Strings

  const DefaultApiUrl := "http://localhost:8000"
  const DefaultSocketPath := "/ws"
  const DefaultReconnectMs := 3000

  /** The HTTP(S) API address turned into the matching WS(S) address. */
  function ToWebSocketUrl(baseUrl: string): string
  {
    if baseUrl == "" then ""
    else if StartsWith(baseUrl, "https://") then ReplaceFirst(baseUrl, "https://", "wss://")
    else if StartsWith(baseUrl, "http://") then ReplaceFirst(baseUrl, "http://", "ws://")
    else baseUrl
  }

  /** The reverse mapping, from a socket address to its HTTP(S) address. */
  function ToHttpUrl(wsUrl: string): string
  {
    if StartsWith(wsUrl, "wss://") then "https://" + wsUrl[6..]
    else if StartsWith(wsUrl, "ws://") then "http://" + wsUrl[5..]
    else wsUrl
  }

  /**
   * Only the scheme changes: `https` becomes `wss`, `http` becomes `ws`, the
   * rest of the address is kept, and any other address is left as it is.
   */
  lemma ToWebSocketUrlScheme(baseUrl: string)
    ensures StartsWith(baseUrl, "https://") ==> ToWebSocketUrl(baseUrl) == "wss://" + baseUrl[8..]
    ensures StartsWith(baseUrl, "http://") ==> ToWebSocketUrl(baseUrl) == "ws://" + baseUrl[7..]
    ensures !StartsWith(baseUrl, "https://") && !StartsWith(baseUrl, "http://") ==>
              ToWebSocketUrl(baseUrl) == baseUrl
  {
    if StartsWith(baseUrl, "http://") {
      assert !StartsWith(baseUrl, "https://") by {
        assert baseUrl[4] == ':';
      }
    }
  }

  /** An HTTP(S) address survives the conversion and back. */
  lemma ToWebSocketUrlRoundTrip(baseUrl: string)
    requires StartsWith(baseUrl, "https://") || StartsWith(baseUrl, "http://")
    ensures ToHttpUrl(ToWebSocketUrl(baseUrl)) == baseUrl
  {
    ToWebSocketUrlScheme(baseUrl);
    if StartsWith(baseUrl, "https://") {
      var w := "wss://" + baseUrl[8..];
      assert StartsWith(w, "wss://");
      assert w[6..] == baseUrl[8..];
      assert baseUrl == "https://" + baseUrl[8..];
    } else {
      var w := "ws://" + baseUrl[7..];
      assert !StartsWith(w, "wss://") by {
        assert w[2] == ':';
      }
      assert w[5..] == baseUrl[7..];
      assert baseUrl == "http://" + baseUrl[7..];
    }
  }

  /** The enable flag: `true` in any letter case turns the client on; unset means off. */
  predicate IsEnabled(flag: string)
  {
    Lower(if flag == "" then "false" else flag) == "true"
  }

  /** The address the client dials: an explicit socket base or the converted API address. */
  function SocketUrl(wsUrl: string, apiUrl: string, wsPath: string): string
  {
    var base := if wsUrl != "" then wsUrl else ToWebSocketUrl(if apiUrl == "" then DefaultApiUrl else apiUrl);
    base + (if wsPath == "" then DefaultSocketPath else wsPath)
  }

  /** With nothing configured the client dials the local API server. */
  lemma DefaultSocketUrl()
    ensures SocketUrl("", "", "") == "ws://localhost:8000/ws"
  {
    var api := DefaultApiUrl;
    assert StartsWith(api, "http://") by { assert api[..7] == "http://"; }
    assert !StartsWith(api, "https://") by { assert api[4] == ':'; }
    ToWebSocketUrlScheme(api);
    assert api[7..] == "localhost:8000";
    var ws := ToWebSocketUrl(api);
    assert ws == "ws://localhost:8000";
    assert SocketUrl("", "", "") == ws + DefaultSocketPath;
  }

  datatype ReadyState = Connecting | Open | Closing | Closed

  /** A callback the client invoked, in order. */
  datatype Notice<P> = Opened | Delivered(payload: P) | ClosedNotice | Failed

  class RealtimeClient<P> {
    const enabled: bool
    const url: string
    const reconnectMs: int

    /** Ready state of the socket the client holds, if any. */
    var socket: Option<ReadyState>
    /** Handle of the last reconnect timer the client stored. */
    var reconnectTimer: Option<nat>
    var shouldReconnect: bool
    /** Timers scheduled and neither fired nor cleared (the browser's timer queue). */
    var pendingTimers: set<nat>
    var nextTimer: nat
    /** Sockets constructed so far. */
    var socketsCreated: nat
    /** Callbacks invoked so far, in order. */
    var notices: seq<Notice<P>>

    ghost predicate Valid()
      reads this
    {
      (!enabled ==> socket == None && reconnectTimer == None && pendingTimers == {}
                    && socketsCreated == 0 && notices == [])
      && (reconnectTimer.Some? ==> reconnectTimer.value < nextTimer)
      && (forall t :: t in pendingTimers ==> t < nextTimer)
      && (socket.Some? ==> socketsCreated > 0)
    }

    /** `createRealtimeClient` with the given settings. */
    constructor (enabledFlag: string, wsUrl: string, apiUrl: string, wsPath: string, reconnectMs: int)
      ensures Valid()
      ensures enabled == IsEnabled(enabledFlag)
      ensures url == SocketUrl(wsUrl, apiUrl, wsPath) && this.reconnectMs == reconnectMs
      ensures socket == None && reconnectTimer == None && shouldReconnect
      ensures pendingTimers == {} && socketsCreated == 0 && notices == []
    {
      enabled := IsEnabled(enabledFlag);
      url := SocketUrl(wsUrl, apiUrl, wsPath);
      this.reconnectMs := reconnectMs;
      socket := None;
      reconnectTimer := None;
      shouldReconnect := true;
      pendingTimers := {};
      nextTimer := 0;
      socketsCreated := 0;
      notices := [];
    }

    /** Arms a reconnect timer unless reconnecting was switched off. */
    method ScheduleReconnect()
      requires Valid() && enabled
      modifies this
      ensures Valid()
      ensures socket == old(socket) && shouldReconnect == old(shouldReconnect)
      ensures socketsCreated == old(socketsCreated) && notices == old(notices)
      ensures old(shouldReconnect) ==>
                reconnectTimer == Some(old(nextTimer)) && pendingTimers == old(pendingTimers) + {old(nextTimer)}
      ensures !old(shouldReconnect) ==>
                reconnectTimer == old(reconnectTimer) && pendingTimers == old(pendingTimers)
      ensures nextTimer == if old(shouldReconnect) then old(nextTimer) + 1 else old(nextTimer)
    {
      if !shouldReconnect {
        return;
      }
      reconnectTimer := Some(nextTimer);
      pendingTimers := pendingTimers + {nextTimer};
      nextTimer := nextTimer + 1;
    }

    /**
     * Opens a socket unless the held one is already open. A constructor that
     * throws reports an error and schedules a reconnect, keeping the old socket.
     */
    method Connect(constructorThrows: bool)
      requires Valid()
      modifies this
      ensures Valid()
      ensures shouldReconnect == old(shouldReconnect)
      ensures !old(shouldReconnect) ==> pendingTimers <= old(pendingTimers)
      ensures nextTimer == if enabled && old(socket) != Some(Open) && constructorThrows && old(shouldReconnect)
                           then old(nextTimer) + 1 else old(nextTimer)
      ensures !enabled || old(socket) == Some(Open) ==>
                socket == old(socket) && socketsCreated == old(socketsCreated)
                && notices == old(notices) && pendingTimers == old(pendingTimers)
                && reconnectTimer == old(reconnectTimer)
      ensures enabled && old(socket) != Some(Open) && !constructorThrows ==>
                socket == Some(Connecting) && socketsCreated == old(socketsCreated) + 1
                && notices == old(notices) && pendingTimers == old(pendingTimers)
                && reconnectTimer == old(reconnectTimer)
      ensures enabled && old(socket) != Some(Open) && constructorThrows ==>
                socket == old(socket) && socketsCreated == old(socketsCreated)
                && notices == old(notices) + [Failed]
                && (old(shouldReconnect) ==>
                      pendingTimers == old(pendingTimers) + {old(nextTimer)} && reconnectTimer == Some(old(nextTimer)))
                && (!old(shouldReconnect) ==>
                      pendingTimers == old(pendingTimers) && reconnectTimer == old(reconnectTimer))
    {
      if !enabled {
        return;
      }
      if socket == Some(Open) {
        return;
      }
      if constructorThrows {
        notices := notices + [Failed];
        ScheduleReconnect();
        return;
      }
      socket := Some(Connecting);
      socketsCreated := socketsCreated + 1;
    }

    /** A socket finished opening; `current` says whether it is the one the client holds. */
    method SocketOpened(current: bool)
      requires Valid() && socketsCreated > 0
      requires current ==> socket.Some?
      modifies this
      ensures Valid()
      ensures notices == old(notices) + [Opened]
      ensures socket == (if current then Some(Open) else old(socket))
      ensures pendingTimers == old(pendingTimers) && shouldReconnect == old(shouldReconnect)
      ensures socketsCreated == old(socketsCreated) && reconnectTimer == old(reconnectTimer)
      ensures nextTimer == old(nextTimer)
    {
      if current {
        socket := Some(Open);
      }
      notices := notices + [Opened];
    }

    /** A socket delivered a message; `parsed` is its JSON value, or None when it is not JSON. */
    method SocketMessage(parsed: Option<P>)
      requires Valid() && socketsCreated > 0
      modifies this
      ensures Valid()
      ensures notices == old(notices) + [if parsed.Some? then Delivered(parsed.value) else Failed]
      ensures socket == old(socket) && pendingTimers == old(pendingTimers)
      ensures shouldReconnect == old(shouldReconnect) && socketsCreated == old(socketsCreated)
      ensures reconnectTimer == old(reconnectTimer) && nextTimer == old(nextTimer)
    {
      match parsed
      case Some(p) => notices := notices + [Delivered(p)];
      case None => notices := notices + [Failed];
    }

    /** A socket reported an error. */
    method SocketError()
      requires Valid() && socketsCreated > 0
      modifies this
      ensures Valid()
      ensures notices == old(notices) + [Failed]
      ensures socket == old(socket) && pendingTimers == old(pendingTimers)
      ensures shouldReconnect == old(shouldReconnect) && socketsCreated == old(socketsCreated)
      ensures reconnectTimer == old(reconnectTimer) && nextTimer == old(nextTimer)
    {
      notices := notices + [Failed];
    }

    /** A socket closed: the close callback runs and a reconnect is scheduled while allowed. */
    method SocketClosed(current: bool)
      requires Valid() && socketsCreated > 0
      requires current ==> socket.Some?
      modifies this
      ensures Valid()
      ensures notices == old(notices) + [ClosedNotice]
      ensures socket == (if current then Some(Closed) else old(socket))
      ensures shouldReconnect == old(shouldReconnect) && socketsCreated == old(socketsCreated)
      ensures old(shouldReconnect) ==>
                pendingTimers == old(pendingTimers) + {old(nextTimer)}
                && reconnectTimer == Some(old(nextTimer)) && nextTimer == old(nextTimer) + 1
      ensures !old(shouldReconnect) ==>
                pendingTimers == old(pendingTimers)
                && reconnectTimer == old(reconnectTimer) && nextTimer == old(nextTimer)
    {
      if current {
        socket := Some(Closed);
      }
      notices := notices + [ClosedNotice];
      ScheduleReconnect();
    }

    /**
     * A pending reconnect timer fires and calls `Connect`: the timer is
     * consumed and, unless the held socket is open, a new socket is opened
     * (or, when its constructor throws, the error is reported and another
     * reconnect scheduled while reconnecting is wanted).
     */
    method TimerFired(t: nat, constructorThrows: bool)
      requires Valid() && t in pendingTimers
      modifies this
      ensures Valid()
      ensures enabled && shouldReconnect == old(shouldReconnect)
      ensures t !in pendingTimers
      ensures nextTimer == if old(socket) != Some(Open) && constructorThrows && old(shouldReconnect)
                           then old(nextTimer) + 1 else old(nextTimer)
      ensures old(socket) == Some(Open) ==>
                socket == old(socket) && socketsCreated == old(socketsCreated) && notices == old(notices)
                && pendingTimers == old(pendingTimers) - {t} && reconnectTimer == old(reconnectTimer)
      ensures old(socket) != Some(Open) && !constructorThrows ==>
                socket == Some(Connecting) && socketsCreated == old(socketsCreated) + 1
                && notices == old(notices) && pendingTimers == old(pendingTimers) - {t}
                && reconnectTimer == old(reconnectTimer)
      ensures old(socket) != Some(Open) && constructorThrows ==>
                socket == old(socket) && socketsCreated == old(socketsCreated)
                && notices == old(notices) + [Failed]
                && (old(shouldReconnect) ==>
                      pendingTimers == old(pendingTimers) - {t} + {old(nextTimer)} && reconnectTimer == Some(old(nextTimer)))
                && (!old(shouldReconnect) ==>
                      pendingTimers == old(pendingTimers) - {t} && reconnectTimer == old(reconnectTimer))
    {
      pendingTimers := pendingTimers - {t};
      Connect(constructorThrows);
    }

    /**
     * Stops reconnecting, clears the stored timer and drops the socket. From
     * then on no method arms a new timer.
     */
    method Close()
      requires Valid()
      modifies this
      ensures Valid()
      ensures enabled ==> !shouldReconnect && socket == None && reconnectTimer == None
      ensures enabled ==> pendingTimers == old(pendingTimers) - (if old(reconnectTimer).Some? then {old(reconnectTimer).value} else {})
      ensures !enabled ==> socket == old(socket) && shouldReconnect == old(shouldReconnect)
                           && pendingTimers == old(pendingTimers) && reconnectTimer == old(reconnectTimer)
      ensures socketsCreated == old(socketsCreated) && notices == old(notices) && nextTimer == old(nextTimer)
    {
      if !enabled {
        return;
      }
      shouldReconnect := false;
      if reconnectTimer.Some? {
        pendingTimers := pendingTimers - {reconnectTimer.value};
        reconnectTimer := None;
      }
      socket := None;
    }
  }
}
