/**
 Who owns the tunnel and the UDP socket in internal/p2p/manager.go, after Start: the connection handlers, the timeout,
 the consumer of the result channel, and Close, one step per critical section or channel operation.
 */
module P2PManager {

  datatype Item = Tunnel | Fallback

  const CAPACITY: nat := 2

  /** Where the tunnel is. */
  datatype Where = NoTunnel | Held | Queued | Received | Closed

  /** onP2PConnected. */
  datatype Handler =
    | Entered   // before the connected check
    | First     // the one that set connected
    | Building  // saw that background mode is off
    | Holding   // has made the tunnel
    | Refused   // could not hand it over
    | Finished

  datatype Timer = Armed | Expired | Flagged | Over

  datatype Closer = Idle | Stopped | Draining | Done

  datatype World = World(
    connected: bool, background: bool, handlers: map<nat, Handler>, winner: nat,
    made: nat, tunnel: Where, tunnelCreated: bool, channel: seq<Item>,
    timer: Timer, closer: Closer, socketClosed: bool)

  function Start(): World {
    World(false, false, map[], 0, 0, NoTunnel, false, [], Armed, Idle, false)
  }

  datatype Step =
    | Enter(h: nat)
    | Check(h: nat)
    | LookBackground(h: nat)
    | Make(h: nat)
    | Deliver(h: nat)
    | CloseRefused(h: nat)
    | Expire
    | Flag
    | Push
    | Consume
    | Stop
    | Lock
    | Drain
    | Unlock

  predicate At(w: World, h: nat, s: Handler) { h in w.handlers && w.handlers[h] == s }

  predicate StopClosed(w: World) { w.closer != Idle }

  /** In required mode the timeout pushes an error without the background flag: Push from Expired. */
  predicate Enabled(w: World, s: Step) {
    match s
    case Enter(h) => h !in w.handlers
    case Check(h) => At(w, h, Entered)
    case LookBackground(h) => At(w, h, First)
    case Make(h) => At(w, h, Building)
    case Deliver(h) => At(w, h, Holding) && w.closer != Draining
    case CloseRefused(h) => At(w, h, Refused)
    case Expire => w.timer == Armed
    case Flag => w.timer == Expired
    case Push => (w.timer == Flagged || w.timer == Expired) && |w.channel| < CAPACITY
    case Consume => w.channel != []
    case Stop => w.closer == Idle
    case Lock => w.closer == Stopped
    case Drain => w.closer == Draining && w.channel != []
    case Unlock => w.closer == Draining && w.channel == []
  }

  function Set(w: World, h: nat, s: Handler): World { w.(handlers := w.handlers[h := s]) }

  function Apply(w: World, s: Step): World
    requires Enabled(w, s)
  {
    match s
    case Enter(h) => Set(w, h, Entered)
    case Check(h) => if w.connected then Set(w, h, Finished) else Set(w, h, First).(connected := true, winner := h)
    case LookBackground(h) => Set(w, h, if w.background then Finished else Building)
    case Make(h) => Set(w, h, Holding).(made := w.made + 1, tunnel := Held)
    case Deliver(h) =>
      if StopClosed(w) || |w.channel| >= CAPACITY then Set(w, h, Refused)
      else Set(w, h, Finished).(channel := w.channel + [Tunnel], tunnelCreated := true, tunnel := Queued)
    case CloseRefused(h) => Set(w, h, Finished).(tunnel := Closed, socketClosed := true)
    case Expire => w.(timer := if StopClosed(w) || w.connected then Over else Expired)
    case Flag => w.(background := true, timer := Flagged)
    case Push => w.(channel := w.channel + [Fallback], timer := Over)
    case Consume =>
      w.(channel := w.channel[1..], tunnel := if w.channel[0] == Tunnel then Received else w.tunnel)
    case Stop => w.(closer := Stopped)
    case Lock => w.(closer := Draining)
    case Drain =>
      if w.channel[0] == Tunnel then w.(channel := w.channel[1..], tunnel := Closed, socketClosed := true)
      else w.(channel := w.channel[1..])
    case Unlock => w.(closer := Done, socketClosed := w.socketClosed || !w.tunnelCreated)
  }

  ghost predicate Moves(w: World, w': World) { exists s :: Enabled(w, s) && w' == Apply(w, s) }

  ghost predicate Run(ws: seq<World>) {
    ws != [] && ws[0] == Start() && forall i :: 0 < i < |ws| ==> Moves(ws[i - 1], ws[i])
  }

  // ---------- the invariant ----------

  predicate Committed(s: Handler) { s.First? || s.Building? || s.Holding? || s.Refused? }

  /** Only the handler that set connected goes on, and it alone can be holding the tunnel. */
  ghost predicate HandlersOk(connected: bool, handlers: map<nat, Handler>, winner: nat, tunnel: Where) {
    && (forall h :: h in handlers && Committed(handlers[h]) ==> connected && h == winner)
    && (connected ==> winner in handlers)
    && (connected && (handlers[winner].First? || handlers[winner].Building?) ==> tunnel == NoTunnel)
    && (!connected ==> tunnel == NoTunnel)
    && (tunnel == Held <==> connected && (handlers[winner].Holding? || handlers[winner].Refused?))
  }

  predicate ChannelOk(channel: seq<Item>, tunnel: Where) {
    && (tunnel == Queued <==> Tunnel in channel)
    && (forall i, j :: 0 <= i < j < |channel| ==> channel[i] != Tunnel || channel[j] != Tunnel)
  }

  predicate OwnerOk(w: World) {
    && w.made == (if w.tunnel == NoTunnel then 0 else 1)
    && (w.tunnel == Queued || w.tunnel == Received ==> w.tunnelCreated && !w.socketClosed)
    && (w.tunnelCreated ==> w.tunnel == Queued || w.tunnel == Received || w.tunnel == Closed)
    && (w.tunnel == Closed ==> w.socketClosed)
    && (w.closer == Done ==> w.tunnel != Queued && (w.socketClosed || w.tunnel == Received))
    && (w.socketClosed ==> w.tunnel == Closed || w.closer == Done)
  }

  ghost predicate Inv(w: World) {
    && HandlersOk(w.connected, w.handlers, w.winner, w.tunnel)
    && ChannelOk(w.channel, w.tunnel)
    && OwnerOk(w)
  }

  lemma TakeFront(channel: seq<Item>, tunnel: Where, tunnel': Where)
    requires ChannelOk(channel, tunnel) && channel != [] && tunnel' != Queued
    ensures ChannelOk(channel[1..], if channel[0] == Tunnel then tunnel' else tunnel)
  {
    if Tunnel in channel && channel[0] != Tunnel {
      var i :| 0 <= i < |channel| && channel[i] == Tunnel;
      assert channel[1..][i - 1] == Tunnel;
    }
  }

  lemma PutBack(channel: seq<Item>, tunnel: Where)
    requires ChannelOk(channel, tunnel)
    ensures tunnel != Queued ==> ChannelOk(channel + [Tunnel], Queued)
    ensures ChannelOk(channel + [Fallback], tunnel)
  {
  }

  lemma ApplyKeeps(w: World, s: Step)
    requires Inv(w) && Enabled(w, s)
    ensures Inv(Apply(w, s))
  {
    match s
    case Deliver(h) => PutBack(w.channel, w.tunnel);
    case Push => PutBack(w.channel, w.tunnel);
    case Consume => TakeFront(w.channel, w.tunnel, Received);
    case Drain => TakeFront(w.channel, w.tunnel, Closed);
    case _ =>
  }

  lemma {:induction false} RunKeeps(ws: seq<World>, i: nat)
    requires Run(ws) && i < |ws|
    ensures Inv(ws[i])
  {
    if i > 0 {
      RunKeeps(ws, i - 1);
      assert Moves(ws[i - 1], ws[i]);
      var s :| Enabled(ws[i - 1], s) && ws[i] == Apply(ws[i - 1], s);
      ApplyKeeps(ws[i - 1], s);
    }
  }

  // ---------- progress ----------

  ghost predicate Does(w: World, s: Step, w': World) { Enabled(w, s) && w' == Apply(w, s) }

  /** w with handler h, the first to connect, at this point. */
  function With(w: World, h: nat, s: Handler): World { Set(w, h, s).(connected := true, winner := h) }

  function Made(w: World, h: nat): World { With(w, h, Holding).(made := w.made + 1, tunnel := Held) }

  function Handed(w: World, h: nat): World {
    With(w, h, Finished).(made := w.made + 1, tunnel := Queued, tunnelCreated := true, channel := w.channel + [Tunnel])
  }

  lemma Replaced(hs: map<nat, Handler>, h: nat, a: Handler, b: Handler)
    ensures hs[h := a][h := b] == hs[h := b]
  {
  }

  lemma Connects(w: World, h: nat)
    requires !w.connected && !w.background && h !in w.handlers
    ensures Does(w, Enter(h), Set(w, h, Entered)) && Does(Set(w, h, Entered), Check(h), With(w, h, First))
    ensures Does(With(w, h, First), LookBackground(h), With(w, h, Building))
    ensures Does(With(w, h, Building), Make(h), Made(w, h))
  {
    Replaced(w.handlers, h, Entered, First);
    Replaced(w.handlers, h, First, Building);
    Replaced(w.handlers, h, Building, Holding);
  }

  /** A connection in time: before the timeout and before Close, the first handler to come makes the tunnel and hands it
      over, and the consumer is the one who gets it. */
  lemma TunnelReaches(w: World, h: nat)
    requires !w.connected && !w.background && h !in w.handlers && w.closer == Idle && w.channel == []
    ensures Does(w, Enter(h), Set(w, h, Entered)) && Does(Set(w, h, Entered), Check(h), With(w, h, First))
    ensures Does(With(w, h, First), LookBackground(h), With(w, h, Building))
    ensures Does(With(w, h, Building), Make(h), Made(w, h)) && Does(Made(w, h), Deliver(h), Handed(w, h))
    ensures Does(Handed(w, h), Consume, Handed(w, h).(channel := [], tunnel := Received))
  {
    Connects(w, h);
    Replaced(w.handlers, h, Holding, Finished);
    assert (w.channel + [Tunnel])[1..] == [];
  }

  /** Without a connection the timeout flags background mode and tells the consumer to fall back; a handler that comes
      afterwards makes no tunnel. */
  lemma TimeoutFallsBack(w: World, h: nat)
    requires !w.connected && w.timer == Armed && w.closer == Idle && w.channel == [] && h !in w.handlers
    ensures var late := w.(timer := Over, background := true, channel := [Fallback]);
            && Does(w, Expire, w.(timer := Expired))
            && Does(w.(timer := Expired), Flag, w.(timer := Flagged, background := true))
            && Does(w.(timer := Flagged, background := true), Push, late)
            && Does(late, Enter(h), Set(late, h, Entered))
               && Does(Set(late, h, Entered), Check(h), With(late, h, First))
            && Does(With(late, h, First), LookBackground(h), With(late, h, Finished))
  {
    Replaced(w.handlers, h, Entered, First);
    Replaced(w.handlers, h, First, Finished);
  }

  // ---------- the theorems ----------

  /** At most one tunnel is ever made, and while it waits or is in the consumer's hands its socket is open. */
  lemma OneTunnel(ws: seq<World>, i: nat)
    requires Run(ws) && i < |ws|
    ensures ws[i].made <= 1
    ensures ws[i].tunnel == Queued || ws[i].tunnel == Received ==> !ws[i].socketClosed
  {
    RunKeeps(ws, i);
  }

  /** Once Close and every handler have finished, a tunnel that was made has been received or closed, and unless it
      was received the socket is closed. */
  lemma NothingLeaks(ws: seq<World>, i: nat)
    requires Run(ws) && i < |ws| && ws[i].closer == Done
    requires forall h :: h in ws[i].handlers ==> ws[i].handlers[h] == Finished
    ensures ws[i].made == 1 ==> ws[i].tunnel == Received || ws[i].tunnel == Closed
    ensures ws[i].tunnel != Received ==> ws[i].socketClosed
  {
    RunKeeps(ws, i);
  }
}
