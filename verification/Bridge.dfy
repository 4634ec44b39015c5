/**
 Callers, inbound replies and Disconnect of internal/mcp/bridge.go, one step per access to shared state.

 Disconnect walks the pending table without holding it still: every call that is in the table when the walk begins
 is visited unless it leaves first, a call that enters later may or may not be.
 */
module Bridge {

  datatype Reply = FromPeer | TunnelLost

  /** Where a caller is in callToolInner. */
  datatype PC =
    | Ready                 // before the first look at closed
    | Allocated             // has its id and channel, not in the table yet
    | Stored                // in the table, before the second look at closed
    | Sending               // past both looks
    | Waiting               // request sent, at the select
    | Returning(sent: bool) // result decided, still in the table
    | Gone

  datatype Phase = Open | Flagged | Walking(toVisit: set<nat>) | Finished

  /** box holds the one-place reply channels that are full; sent records which callers put a request on the wire. */
  datatype World = World(phase: Phase, pcs: map<nat, PC>, pending: set<nat>, box: map<nat, Reply>, sent: set<nat>)

  predicate Closed(w: World) { w.phase != Open }

  datatype Step =
    | Begin(id: nat)
    | FirstLook(id: nat)
    | Store(id: nat)
    | SecondLook(id: nat)
    | SendRequest(id: nat, ok: bool)
    | Take(id: nat)
    | GiveUp(id: nat)
    | Leave(id: nat)
    | Inbound(id: nat)
    | SetClosed
    | StartWalk
    | Visit(id: nat)
    | EndWalk

  predicate At(w: World, id: nat, pc: PC) { id in w.pcs && w.pcs[id] == pc }

  predicate Enabled(w: World, s: Step) {
    match s
    case Begin(id) => id !in w.pcs
    case FirstLook(id) => At(w, id, Ready)
    case Store(id) => At(w, id, Allocated)
    case SecondLook(id) => At(w, id, Stored)
    case SendRequest(id, _) => At(w, id, Sending)
    case Take(id) => At(w, id, Waiting) && id in w.box
    case GiveUp(id) => At(w, id, Waiting)
    case Leave(id) => id in w.pcs && w.pcs[id].Returning?
    case Inbound(id) => id in w.pcs
    case SetClosed => w.phase == Open
    case StartWalk => w.phase == Flagged
    case Visit(id) => w.phase.Walking? && (id in w.phase.toVisit || id in w.pending)
    case EndWalk => w.phase.Walking? && w.phase.toVisit == {}
  }

  function Go(w: World, id: nat, pc: PC): World { w.(pcs := w.pcs[id := pc]) }

  /** A non-blocking send into a channel of one place. */
  function Offer(box: map<nat, Reply>, id: nat, r: Reply): map<nat, Reply> { if id in box then box else box[id := r] }

  function Apply(w: World, s: Step): World
    requires Enabled(w, s)
  {
    match s
    case Begin(id) => Go(w, id, Ready)
    case FirstLook(id) => Go(w, id, if Closed(w) then Gone else Allocated)
    case Store(id) => Go(w, id, Stored).(pending := w.pending + {id})
    case SecondLook(id) => Go(w, id, if Closed(w) then Returning(false) else Sending)
    case SendRequest(id, ok) => Go(w, id, if ok then Waiting else Returning(true)).(sent := w.sent + {id})
    case Take(id) => Go(w, id, Returning(true)).(box := w.box - {id})
    case GiveUp(id) => Go(w, id, Returning(true))
    case Leave(id) => Go(w, id, Gone).(pending := w.pending - {id})
    case Inbound(id) => w.(box := Offer(w.box, id, FromPeer))
    case SetClosed => w.(phase := Flagged)
    case StartWalk => w.(phase := Walking(w.pending))
    case Visit(id) =>
      w.(phase := Walking(w.phase.toVisit - {id}),
         box := if id in w.pending then Offer(w.box, id, TunnelLost) else w.box)
    case EndWalk => w.(phase := Finished)
  }

  /** All runs of one bridge: a chain of worlds, each from the last by an enabled step. */
  ghost predicate Run(ws: seq<World>) {
    && ws != [] && ws[0] == World(Open, map[], {}, map[], {})
    && forall i :: 0 < i < |ws| ==> Moves(ws[i - 1], ws[i])
  }

  ghost predicate Moves(w: World, w': World) { exists s :: Enabled(w, s) && w' == Apply(w, s) }

  // ---------- the invariant ----------

  /** Past its second look and not yet decided. */
  predicate Expecting(pc: PC) { pc == Sending || pc == Waiting }

  predicate InTable(pc: PC) { pc == Stored || Expecting(pc) || pc.Returning? }

  predicate Covered(phase: Phase, box: map<nat, Reply>, id: nat) {
    match phase
    case Open => true
    case Flagged => true
    case Walking(toVisit) => id in toVisit || id in box
    case Finished => id in box
  }

  ghost predicate Inv(w: World) {
    && (forall id :: id in w.pcs ==> (InTable(w.pcs[id]) <==> id in w.pending))
    && (forall id :: id in w.pending ==> id in w.pcs)
    && (forall id :: id in w.pcs && Expecting(w.pcs[id]) ==> Covered(w.phase, w.box, id))
  }

  lemma ApplyKeeps(w: World, s: Step)
    requires Inv(w) && Enabled(w, s)
    ensures Inv(Apply(w, s))
  {
  }

  lemma {:induction false} RunKeeps(ws: seq<World>, i: nat)
    requires Run(ws) && i < |ws|
    ensures Inv(ws[i])
  {
    if i > 0 {
      RunKeeps(ws, i - 1);
      assert Moves(ws[i - 1], ws[i]);
      var s :| Enabled(ws[i - 1], s) && ws[i] == Apply(ws[i - 1], s);
      ApplyKeeps(ws[i - 1], s);
    }
  }

  // ---------- progress ----------

  ghost predicate Does(w: World, s: Step, w': World) { Enabled(w, s) && w' == Apply(w, s) }

  /** w with one more caller, who is here. */
  function With(w: World, id: nat, pc: PC): World {
    w.(pcs := w.pcs[id := pc],
       pending := if InTable(pc) then w.pending + {id} else w.pending,
       sent := if pc == Waiting || pc.Returning? || pc == Gone then w.sent + {id} else w.sent)
  }

  function Answered(w: World, id: nat): World { With(w, id, Waiting).(box := w.box[id := FromPeer]) }

  lemma Moved(pcs: map<nat, PC>, id: nat, a: PC, b: PC)
    ensures pcs[id := a][id := b] == pcs[id := b]
  {
  }

  lemma AsksFirst(w: World, id: nat)
    requires w.phase == Open && id !in w.pcs
    ensures Does(w, Begin(id), With(w, id, Ready)) && Does(With(w, id, Ready), FirstLook(id), With(w, id, Allocated))
    ensures Does(With(w, id, Allocated), Store(id), With(w, id, Stored))
  {
    Moved(w.pcs, id, Ready, Allocated);
    Moved(w.pcs, id, Allocated, Stored);
  }

  lemma AsksThen(w: World, id: nat)
    requires w.phase == Open
    ensures Does(With(w, id, Stored), SecondLook(id), With(w, id, Sending))
    ensures Does(With(w, id, Sending), SendRequest(id, true), With(w, id, Waiting))
  {
    Moved(w.pcs, id, Stored, Sending);
    Moved(w.pcs, id, Sending, Waiting);
  }

  lemma IsAnswered(w: World, id: nat)
    requires id !in w.box && id !in w.pending
    ensures Does(With(w, id, Waiting), Inbound(id), Answered(w, id))
    ensures Does(Answered(w, id), Take(id), With(w, id, Returning(true)))
    ensures Does(With(w, id, Returning(true)), Leave(id), With(w, id, Gone))
  {
    Moved(w.pcs, id, Waiting, Returning(true));
    Moved(w.pcs, id, Returning(true), Gone);
    assert w.box[id := FromPeer] - {id} == w.box;
    assert w.pending + {id} - {id} == w.pending;
  }

  /** While the bridge is open a new caller gets through: its request is sent, the peer's reply is in its channel and is
      what it takes, and it leaves the table and all other callers as they were. */
  lemma CallCompletes(w: World, id: nat)
    requires w.phase == Open && id !in w.pcs && id !in w.box && Inv(w)
    ensures Does(w, Begin(id), With(w, id, Ready)) && Does(With(w, id, Ready), FirstLook(id), With(w, id, Allocated))
    ensures Does(With(w, id, Allocated), Store(id), With(w, id, Stored))
    ensures Does(With(w, id, Stored), SecondLook(id), With(w, id, Sending))
    ensures Does(With(w, id, Sending), SendRequest(id, true), With(w, id, Waiting))
    ensures Does(With(w, id, Waiting), Inbound(id), Answered(w, id))
    ensures Does(Answered(w, id), Take(id), With(w, id, Returning(true)))
    ensures Does(With(w, id, Returning(true)), Leave(id), With(w, id, Gone))
    ensures With(w, id, Gone) == w.(pcs := w.pcs[id := Gone], sent := w.sent + {id})
  {
    AsksFirst(w, id);
    AsksThen(w, id);
    IsAnswered(w, id);
  }

  /** A caller that Disconnect finds waiting is told that the tunnel is lost, unless it already has an answer: the first
      reply is the one that counts. */
  lemma WokenByDisconnect(w: World, id: nat)
    requires w.phase.Walking? && id in w.phase.toVisit && At(w, id, Waiting) && id in w.pending
    ensures var w' := Apply(w, Visit(id));
            && Enabled(w', Take(id)) && id !in w'.phase.toVisit
            && w'.box[id] == if id in w.box then w.box[id] else TunnelLost
    ensures id in w.box ==> Apply(w, Inbound(id)) == w
  {
  }

  // ---------- the theorems ----------

  /** Once Disconnect has finished, every caller past its second look finds a reply in its channel. */
  lemma NoneStranded(ws: seq<World>, i: nat)
    requires Run(ws) && i < |ws| && ws[i].phase == Finished
    ensures forall id :: id in ws[i].pcs && Expecting(ws[i].pcs[id]) ==> id in ws[i].box
  {
    RunKeeps(ws, i);
    forall id | id in ws[i].pcs && Expecting(ws[i].pcs[id]) ensures id in ws[i].box {
      assert Covered(ws[i].phase, ws[i].box, id);
    }
  }

  /** The only callers that may still send once the flag is up are those already past their second look. */
  predicate MaySend(w: World, id: nat) { id in w.sent || At(w, id, Sending) }

  lemma ClosedStays(w: World, w': World)
    requires Moves(w, w') && Closed(w)
    ensures Closed(w') && forall id :: MaySend(w', id) ==> MaySend(w, id)
  {
  }

  /** From the moment closed is set, no caller that has not passed its second look ever sends a request. */
  lemma {:induction false} LaterCallersFail(ws: seq<World>, i: nat, j: nat)
    requires Run(ws) && i <= j < |ws| && Closed(ws[i])
    ensures Closed(ws[j]) && forall id :: MaySend(ws[j], id) ==> MaySend(ws[i], id)
    decreases j
  {
    if i < j {
      LaterCallersFail(ws, i, j - 1);
      ClosedStays(ws[j - 1], ws[j]);
    }
  }
}
