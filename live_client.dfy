/**
 * The live half of the dashboard page: one WebSocket to the gateway, the
 * status banner, the live readings, and the two-second reconnect timer.
 * The browser's sockets and timers are modelled as sequences the page
 * appends to; the events the browser delivers are methods.
 */
module LiveClient {
  import opened Wrappers
  import opened JsValues
  import opened JsText
  import opened LivePacket

  /** What a text element shows: plain text, or a number put through `toFixed(digits)` then a suffix. */
  datatype Shown = Plain(text: string) | Fixed(value: JsNumber, digits: nat, suffix: string)

  /** The live-reading elements of the page. */
  datatype Readings = Readings(
    currentTemp: Shown, currentHumidity: Shown, heatIndex: Shown, rainPercent: Shown,
    waterLevel: Shown, rawValue: Shown,
    soil1Percent: Shown, soil2Percent: Shown, soil3Percent: Shown,
    lastUpdate: Shown)

  /** What an accepted packet writes into the reading elements. */
  function Render(p: Packet): Readings
  {
    Readings(
      Fixed(p.temperature, 1, ""), Fixed(p.humidity, 0, "%"), Fixed(p.heatIndex, 1, ""), Fixed(p.rain, 0, "%"),
      Plain(p.waterStatus), Plain("---"),
      Fixed(p.soil1, 0, "%"), Fixed(p.soil2, 0, "%"), Fixed(p.soil3, 0, "%"),
      Plain("Live: " + p.time))
  }

  /**
   * Each reading of an accepted packet comes from its own field of the
   * wire text: the temperature and heat index from fields 1 and 2 to one
   * decimal, humidity and rain from fields 3 and 4 as whole percentages,
   * the water level as field 5 trimmed and upper-cased, the three soil
   * beds from fields 6 to 8, the update time from field 0 verbatim, and
   * the raw value a placeholder.
   */
  lemma AcceptedPacketShows(fields: seq<string>)
    requires |fields| >= PacketFields
    requires forall k :: 0 <= k < |fields| ==> Separator !in fields[k]
    requires |Join(fields, Separator)| >= MinPacketLength
    ensures Decode(Join(fields, Separator)).Success?
    ensures Render(Decode(Join(fields, Separator)).value) == Readings(
      Fixed(SafeParseFloat(fields[1]), 1, ""), Fixed(SafeParseFloat(fields[3]), 0, "%"),
      Fixed(SafeParseFloat(fields[2]), 1, ""), Fixed(SafeParseFloat(fields[4]), 0, "%"),
      Plain(ToUpper(Trim(fields[5]))), Plain("---"),
      Fixed(SafeParseFloat(fields[6]), 0, "%"), Fixed(SafeParseFloat(fields[7]), 0, "%"),
      Fixed(SafeParseFloat(fields[8]), 0, "%"),
      Plain("Live: " + fields[0]))
  {
    DecodeFields(fields);
  }

  const ConnectedText: string := "Live data stream: CONNECTED"
  const RetryingText: string := "Live data stream: DISCONNECTED (Retrying...)"
  const BadPacketText: string := "Live data stream: ERROR (Bad Packet)"
  const ActiveText: string := "Live data stream: ACTIVE"
  const ConnectingText: string := "Live data stream: CONNECTING..."
  const PrimaryColor: string := "var(--color-primary)"
  const SuccessColor: string := "var(--color-success)"
  const WarningColor: string := "var(--color-warning)"
  const DangerColor: string := "var(--color-danger)"

  /** The delay of the reconnect timer, in milliseconds. */
  const ReconnectDelayMs: nat := 2000

  /** The `readyState` of a WebSocket. */
  datatype ReadyState = Connecting | Open | Closing | Closed

  datatype TimerState = Pending | Fired | Cancelled

  /** A `setTimeout` the page scheduled; every one of them calls `initWebSocket`. */
  datatype Timer = Timer(delayMs: nat, state: TimerState)

  /** `clearTimeout(t)`: a pending timer is cancelled, any other is left as it is. */
  function ClearTimeout(timers: seq<Timer>, t: nat): (r: seq<Timer>)
    ensures |r| == |timers|
    ensures forall u :: 0 <= u < |r| && u != t ==> r[u] == timers[u]
    ensures t < |r| ==> r[t].delayMs == timers[t].delayMs
    ensures t < |r| ==> r[t].state == (if timers[t].state == Pending then Cancelled else timers[t].state)
  {
    if t < |timers| && timers[t].state == Pending then timers[t := Timer(timers[t].delayMs, Cancelled)]
    else timers
  }

  /** `websocket.close()` when the current socket is open; other sockets and states are left as they are. */
  function CloseIfOpen(sockets: seq<ReadyState>, current: Option<nat>): (r: seq<ReadyState>)
    ensures |r| == |sockets|
    ensures forall h :: 0 <= h < |r| && Some(h) != current ==> r[h] == sockets[h]
    ensures forall h :: 0 <= h < |r| && Some(h) == current ==>
      r[h] == (if sockets[h] == Open then Closing else sockets[h])
  {
    if current.Some? && current.value < |sockets| && sockets[current.value] == Open then
      sockets[current.value := Closing]
    else sockets
  }

  class Dashboard {
    /** The text and background colour of the `ws-status-msg` banner. */
    var statusText: string
    var statusColor: string
    var readings: Readings
    /** Every socket the page created, in creation order, and the one `websocket` names. */
    var sockets: seq<ReadyState>
    var websocket: Option<nat>
    /** Every timer the page scheduled, in order, and the one `reconnectTimer` names. */
    var timers: seq<Timer>
    var reconnectTimer: Option<nat>

    /** The two handles name a socket and a timer the page created. */
    ghost predicate Valid()
      reads this
    {
      (websocket.Some? ==> websocket.value < |sockets|) &&
      (reconnectTimer.Some? ==> reconnectTimer.value < |timers|)
    }

    /** Nothing is connecting, connected or waiting to reconnect. */
    ghost predicate Quiet()
      reads this
    {
      (forall h :: 0 <= h < |sockets| ==> sockets[h] == Closed) &&
      (forall t :: 0 <= t < |timers| ==> timers[t].state != Pending)
    }

    /**
     * There is exactly one reconnection chain: either the current socket
     * is the only one not closed and no timer is pending, or every socket
     * is closed and the one pending timer is `reconnectTimer`.
     */
    ghost predicate SingleChain()
      reads this
    {
      Valid() &&
      if reconnectTimer.None? then
        websocket.Some? &&
        (forall h :: 0 <= h < |sockets| ==> (sockets[h] != Closed <==> h == websocket.value)) &&
        (forall t :: 0 <= t < |timers| ==> timers[t].state != Pending)
      else
        (forall h :: 0 <= h < |sockets| ==> sockets[h] == Closed) &&
        (forall t :: 0 <= t < |timers| ==> (timers[t].state == Pending <==> t == reconnectTimer.value))
    }

    /** The timers still waiting to fire. */
    ghost function PendingTimers(): (ps: set<nat>)
      reads this
      ensures forall t: int :: t in ps <==> 0 <= t < |timers| && timers[t].state == Pending
    {
      set t: nat | t < |timers| && timers[t].state == Pending
    }

    /** The page as loaded: the given banner and readings, no socket, no timer. */
    constructor (banner: string, color: string, initial: Readings)
      ensures statusText == banner && statusColor == color && readings == initial
      ensures sockets == [] && websocket == None && timers == [] && reconnectTimer == None
      ensures Valid() && Quiet()
    {
      statusText := banner;
      statusColor := color;
      readings := initial;
      sockets := [];
      websocket := None;
      timers := [];
      reconnectTimer := None;
    }

    /**
     * `initWebSocket`: clear a pending reconnect timer, close the current
     * socket if it is open, and open a new one, which becomes current.
     * From a quiet page it starts the single chain.
     */
    method InitWebSocket()
      requires Valid()
      modifies this
      ensures Valid()
      ensures timers == (if old(reconnectTimer).Some? then ClearTimeout(old(timers), old(reconnectTimer).value) else old(timers))
      ensures reconnectTimer == None
      ensures sockets == CloseIfOpen(old(sockets), old(websocket)) + [Connecting]
      ensures websocket == Some(|old(sockets)|)
      ensures statusText == old(statusText) && statusColor == old(statusColor) && readings == old(readings)
      ensures old(Quiet()) ==> SingleChain()
    {
      if reconnectTimer.Some? {
        timers := ClearTimeout(timers, reconnectTimer.value);
        reconnectTimer := None;
      }
      sockets := CloseIfOpen(sockets, websocket);
      websocket := Some(|sockets|);
      sockets := sockets + [Connecting];
    }

    /** `onOpen`: the banner says connected. */
    method OnOpen()
      modifies this
      ensures statusText == ConnectedText && statusColor == SuccessColor
      ensures readings == old(readings)
      ensures sockets == old(sockets) && websocket == old(websocket)
      ensures timers == old(timers) && reconnectTimer == old(reconnectTimer)
    {
      statusText := ConnectedText;
      statusColor := SuccessColor;
    }

    /**
     * `onClose`: the banner says retrying, and a new two-second timer is
     * scheduled and stored as the reconnect timer.  A timer stored earlier
     * is not cleared.
     */
    method OnClose()
      requires Valid()
      modifies this
      ensures Valid()
      ensures statusText == RetryingText && statusColor == WarningColor
      ensures timers == old(timers) + [Timer(ReconnectDelayMs, Pending)]
      ensures reconnectTimer == Some(|old(timers)|)
      ensures readings == old(readings) && sockets == old(sockets) && websocket == old(websocket)
    {
      statusText := RetryingText;
      statusColor := WarningColor;
      reconnectTimer := Some(|timers|);
      timers := timers + [Timer(ReconnectDelayMs, Pending)];
    }

    /**
     * `onMessage`: a bad packet sets the error banner and leaves the
     * readings; an incomplete one changes nothing; an accepted one sets
     * the active banner and renders every reading from the packet.
     */
    method OnMessage(rawData: string)
      modifies this
      ensures Decode(rawData) == Failure(BadPacket) ==>
        statusText == BadPacketText && statusColor == DangerColor && readings == old(readings)
      ensures Decode(rawData).Failure? && Decode(rawData).error.IncompleteFields? ==>
        statusText == old(statusText) && statusColor == old(statusColor) && readings == old(readings)
      ensures Decode(rawData).Success? ==>
        statusText == ActiveText && statusColor == SuccessColor && readings == Render(Decode(rawData).value)
      ensures sockets == old(sockets) && websocket == old(websocket)
      ensures timers == old(timers) && reconnectTimer == old(reconnectTimer)
    {
      var packet := Decode(rawData);
      match packet {
        case Failure(BadPacket) =>
          statusText := BadPacketText;
          statusColor := DangerColor;
        case Failure(IncompleteFields(_)) =>
        case Success(p) =>
          statusText := ActiveText;
          statusColor := SuccessColor;
          readings := Render(p);
      }
    }

    /**
     * The live part of the page-load handler: open the first socket, then
     * show the connecting banner.  The single chain starts here.
     */
    method PageLoaded()
      requires Valid() && Quiet()
      modifies this
      ensures SingleChain()
      ensures statusText == ConnectingText && statusColor == PrimaryColor
      ensures sockets == old(sockets) + [Connecting] && websocket == Some(|old(sockets)|)
      ensures timers == (if old(reconnectTimer).Some? then ClearTimeout(old(timers), old(reconnectTimer).value) else old(timers))
      ensures reconnectTimer == None
      ensures readings == old(readings)
    {
      InitWebSocket();
      statusText := ConnectingText;
      statusColor := PrimaryColor;
    }

    // -------------------------------------------------------------------
    // Events the browser delivers
    // -------------------------------------------------------------------

    /** A connecting socket opens; its `onopen` handler runs. */
    method SocketOpens(h: nat)
      requires Valid() && h < |sockets| && sockets[h] == Connecting
      modifies this
      ensures Valid()
      ensures sockets == old(sockets)[h := Open] && websocket == old(websocket)
      ensures statusText == ConnectedText && statusColor == SuccessColor
      ensures readings == old(readings)
      ensures timers == old(timers) && reconnectTimer == old(reconnectTimer)
      ensures old(SingleChain()) ==> SingleChain()
    {
      sockets := sockets[h := Open];
      OnOpen();
    }

    /** A socket that was not yet closed closes; its `onclose` handler runs. */
    method SocketCloses(h: nat)
      requires Valid() && h < |sockets| && sockets[h] != Closed
      modifies this
      ensures Valid()
      ensures sockets == old(sockets)[h := Closed] && websocket == old(websocket)
      ensures timers == old(timers) + [Timer(ReconnectDelayMs, Pending)]
      ensures reconnectTimer == Some(|old(timers)|)
      ensures statusText == RetryingText && statusColor == WarningColor
      ensures readings == old(readings)
      ensures old(SingleChain()) ==> SingleChain()
    {
      sockets := sockets[h := Closed];
      OnClose();
    }

    /** An open socket delivers a message; its `onmessage` handler runs. */
    method MessageArrives(h: nat, rawData: string)
      requires Valid() && h < |sockets| && sockets[h] == Open
      modifies this
      ensures Valid()
      ensures Decode(rawData) == Failure(BadPacket) ==>
        statusText == BadPacketText && statusColor == DangerColor && readings == old(readings)
      ensures Decode(rawData).Failure? && Decode(rawData).error.IncompleteFields? ==>
        statusText == old(statusText) && statusColor == old(statusColor) && readings == old(readings)
      ensures Decode(rawData).Success? ==>
        statusText == ActiveText && statusColor == SuccessColor && readings == Render(Decode(rawData).value)
      ensures sockets == old(sockets) && websocket == old(websocket)
      ensures timers == old(timers) && reconnectTimer == old(reconnectTimer)
      ensures old(SingleChain()) ==> SingleChain()
    {
      OnMessage(rawData);
    }

    /** A pending timer fires and calls `initWebSocket`. */
    method TimerFires(t: nat)
      requires Valid() && t < |timers| && timers[t].state == Pending
      modifies this
      ensures Valid()
      ensures var fired := old(timers)[t := Timer(old(timers)[t].delayMs, Fired)];
        timers == (if old(reconnectTimer).Some? then ClearTimeout(fired, old(reconnectTimer).value) else fired)
      ensures reconnectTimer == None
      ensures sockets == CloseIfOpen(old(sockets), old(websocket)) + [Connecting]
      ensures websocket == Some(|old(sockets)|)
      ensures statusText == old(statusText) && statusColor == old(statusColor) && readings == old(readings)
      ensures old(SingleChain()) ==> SingleChain()
    {
      timers := timers[t := Timer(timers[t].delayMs, Fired)];
      InitWebSocket();
    }
  }

  /** While the single chain holds, at most one reconnect is ever waiting. */
  lemma AtMostOneReconnect(d: Dashboard)
    requires d.SingleChain()
    ensures |d.PendingTimers()| <= 1
    ensures d.reconnectTimer.Some? ==> d.PendingTimers() == {d.reconnectTimer.value}
    ensures d.reconnectTimer.None? ==> d.PendingTimers() == {}
  {
    if d.reconnectTimer.Some? {
      assert d.PendingTimers() == {d.reconnectTimer.value};
    } else {
      assert d.PendingTimers() == {};
    }
  }
}
