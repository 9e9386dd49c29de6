/**
 Routing of TSS messages through the server (utils/tss/serviceAdd.go, utils/tss/peerManager.go,
 utils/ws/ws.go). Two devices talk to the server only; the server relays what one device sends
 to the other. One outgoing queue on the server feeds both devices' websockets.

 A websocket carries TSS frames and the protocol's control frames (`C`) in one FIFO.
 */
module StarRouting {
  import opened Identities
  import opened Queues

  datatype Party = Server | NewDevice | OldDevice

  /** A library message: who produced it, and its content. */
  datatype Payload = Payload(from: Party, content: nat)

  type Tss = Message<Payload>

  datatype Ids = Ids(newId: string, oldId: string) {
    function Of(p: Party): string {
      match p
      case Server => SERVER_ID
      case NewDevice => newId
      case OldDevice => oldId
    }

    predicate Distinct() {
      && newId != oldId && newId != SERVER_ID && oldId != SERVER_ID
      && newId != "" && oldId != ""
    }
  }

  datatype Frame<+C> = Control(c: C) | TssFrame(m: Tss)

  function TssOf<C>(ws: seq<Frame<C>>): seq<Tss> {
    if ws == [] then []
    else if ws[0].TssFrame? then [ws[0].m] + TssOf(ws[1..])
    else TssOf(ws[1..])
  }

  function CtrlOf<C>(ws: seq<Frame<C>>): seq<C> {
    if ws == [] then []
    else if ws[0].Control? then [ws[0].c] + CtrlOf(ws[1..])
    else CtrlOf(ws[1..])
  }

  /** The messages produced by `f` and addressed to `id`, in order. */
  function Pick(q: seq<Tss>, f: Party, id: string): seq<Tss> {
    if q == [] then []
    else if q[0].body.from == f && q[0].peerID == id then [q[0]] + Pick(q[1..], f, id)
    else Pick(q[1..], f, id)
  }

  /**
   The three outgoing queues, the four directions of the two websockets, and three history logs:
   every message a library produced, every message handed to a library, every message relayed.
   */
  datatype Net<C> = Net(
    newQ: seq<Tss>, srvQ: seq<Tss>, oldQ: seq<Tss>,
    newUp: seq<Frame<C>>, newDown: seq<Frame<C>>,
    oldUp: seq<Frame<C>>, oldDown: seq<Frame<C>>,
    sent: seq<Tss>, handled: seq<Tss>, relayed: seq<Tss>)
  {
    function Queue(p: Party): seq<Tss> {
      match p case Server => srvQ case NewDevice => newQ case OldDevice => oldQ
    }

    /** From the device to the server. */
    function Up(p: Party): seq<Frame<C>> {
      match p case Server => [] case NewDevice => newUp case OldDevice => oldUp
    }

    /** From the server to the device. */
    function Down(p: Party): seq<Frame<C>> {
      match p case Server => [] case NewDevice => newDown case OldDevice => oldDown
    }

    function SetQueue(p: Party, q: seq<Tss>): Net<C> {
      match p
      case Server => this.(srvQ := q)
      case NewDevice => this.(newQ := q)
      case OldDevice => this.(oldQ := q)
    }

    function SetUp(p: Party, ws: seq<Frame<C>>): Net<C> {
      match p
      case Server => this
      case NewDevice => this.(newUp := ws)
      case OldDevice => this.(oldUp := ws)
    }

    function SetDown(p: Party, ws: seq<Frame<C>>): Net<C> {
      match p
      case Server => this
      case NewDevice => this.(newDown := ws)
      case OldDevice => this.(oldDown := ws)
    }

    /** A control frame written by the device, or by the server to the device. */
    function WriteUp(p: Party, c: C): Net<C> { SetUp(p, Up(p) + [Control(c)]) }

    function WriteDown(p: Party, c: C): Net<C> { SetDown(p, Down(p) + [Control(c)]) }

    function PopUp(p: Party): Net<C>
      requires Up(p) != []
    {
      SetUp(p, Up(p)[1..])
    }

    function PopDown(p: Party): Net<C>
      requires Down(p) != []
    {
      SetDown(p, Down(p)[1..])
    }

    /** The library of `p` produces a message (MustSend). */
    function Send(p: Party, target: string, content: nat): Net<C> {
      var m := Message(target, Payload(p, content));
      SetQueue(p, Queue(p) + [m]).(sent := sent + [m])
    }

    /** A device's sender moves its oldest message to the websocket (GetNextMessageToSendAll). */
    function Flush(p: Party): Net<C>
      requires p != Server && Queue(p) != []
    {
      SetQueue(p, Queue(p)[1..]).SetUp(p, Up(p) + [TssFrame(Queue(p)[0])])
    }

    /** A server sender moves the oldest message for `id` to device `p` (GetNextMessageToSendPeer). */
    function Forward(p: Party, id: string): Net<C>
      requires p != Server && For(srvQ, id) != []
    {
      this.(srvQ := DropFirst(srvQ, id)).SetDown(p, Down(p) + [TssFrame(For(srvQ, id)[0])])
    }

    /** A message reaches `p`, whose own id is `own`: consume it or queue it again (AdderGenericHandle). */
    function Handle(p: Party, own: string, m: Tss): Net<C> {
      if m.peerID == own then this.(handled := handled + [m])
      else if p == Server then this.(srvQ := srvQ + [m], relayed := relayed + [m])
      else SetQueue(p, Queue(p) + [m])
    }
  }

  function EmptyNet<C>(): Net<C> {
    Net([], [], [], [], [], [], [], [], [], [])
  }

  // ---- Projections ----

  lemma {:induction false} PickConcat(a: seq<Tss>, b: seq<Tss>, f: Party, id: string)
    ensures Pick(a + b, f, id) == Pick(a, f, id) + Pick(b, f, id)
  {
    if a == [] {
      assert a + b == b;
    } else {
      assert (a + b)[1..] == a[1..] + b;
      PickConcat(a[1..], b, f, id);
    }
  }

  lemma {:induction false} TssOfConcat<C>(a: seq<Frame<C>>, b: seq<Frame<C>>)
    ensures TssOf(a + b) == TssOf(a) + TssOf(b)
  {
    if a == [] {
      assert a + b == b;
    } else {
      assert (a + b)[0] == a[0] && (a + b)[1..] == a[1..] + b;
      TssOfConcat(a[1..], b);
    }
  }

  lemma {:induction false} CtrlOfConcat<C>(a: seq<Frame<C>>, b: seq<Frame<C>>)
    ensures CtrlOf(a + b) == CtrlOf(a) + CtrlOf(b)
  {
    if a == [] {
      assert a + b == b;
    } else {
      assert (a + b)[0] == a[0] && (a + b)[1..] == a[1..] + b;
      CtrlOfConcat(a[1..], b);
    }
  }

  lemma {:induction false} PickIsNoMore(q: seq<Tss>, f: Party, id: string)
    ensures |Pick(q, f, id)| <= |q|
    ensures (forall m :: m in q ==> m.body.from != f || m.peerID != id) ==> Pick(q, f, id) == []
    ensures For(q, id) == [] ==> Pick(q, f, id) == []
    ensures forall m :: m in Pick(q, f, id) ==> m in q && m.body.from == f && m.peerID == id
  {
    if q != [] {
      PickIsNoMore(q[1..], f, id);
      assert q == [q[0]] + q[1..];
    }
  }

  lemma PickOne(m: Tss, f: Party, id: string)
    ensures Pick([m], f, id) == if m.body.from == f && m.peerID == id then [m] else []
  {
    assert [m][1..] == [];
  }

  lemma FrameOne<C>(fr: Frame<C>)
    ensures TssOf([fr]) == if fr.TssFrame? then [fr.m] else []
    ensures CtrlOf([fr]) == if fr.Control? then [fr.c] else []
  {
    assert [fr][1..] == [];
  }

  lemma FrameHead<C>(ws: seq<Frame<C>>)
    requires ws != []
    ensures TssOf(ws) == (if ws[0].TssFrame? then [ws[0].m] else []) + TssOf(ws[1..])
    ensures CtrlOf(ws) == (if ws[0].Control? then [ws[0].c] else []) + CtrlOf(ws[1..])
  {
  }

  lemma FrameAppend<C>(ws: seq<Frame<C>>, fr: Frame<C>)
    ensures TssOf(ws + [fr]) == TssOf(ws) + if fr.TssFrame? then [fr.m] else []
    ensures CtrlOf(ws + [fr]) == CtrlOf(ws) + if fr.Control? then [fr.c] else []
  {
    TssOfConcat(ws, [fr]);
    CtrlOfConcat(ws, [fr]);
    FrameOne(fr);
  }

  // ---- What the star guarantees ----

  /** Who may appear where: no message strays from the way to its target. */
  ghost predicate OnTheWay<C>(net: Net<C>, ids: Ids) {
    && (forall m :: m in net.newQ ==> m.body.from == NewDevice && m.peerID in {SERVER_ID, ids.oldId})
    && (forall m :: m in net.oldQ ==> m.body.from == OldDevice && m.peerID in {SERVER_ID, ids.newId})
    && (forall m :: m in TssOf(net.newUp) ==> m.body.from == NewDevice && m.peerID in {SERVER_ID, ids.oldId})
    && (forall m :: m in TssOf(net.oldUp) ==> m.body.from == OldDevice && m.peerID in {SERVER_ID, ids.newId})
    && (forall m :: m in net.srvQ ==> m.peerID in {ids.newId, ids.oldId} && m.peerID != ids.Of(m.body.from))
    && (forall m :: m in TssOf(net.newDown) ==> m.peerID == ids.newId)
    && (forall m :: m in TssOf(net.oldDown) ==> m.peerID == ids.oldId)
  }

  /** Messages of `f` for `id` still on their way from `f`'s device to the server. */
  function Climbing<C>(net: Net<C>, f: Party, id: string): seq<Tss> {
    if f == Server then []
    else Pick(TssOf(net.Up(f)), f, id) + Pick(net.Queue(f), f, id)
  }

  /** Messages of `f` for party `t` waiting at the server or descending to `t`'s device. */
  function Descending<C>(net: Net<C>, ids: Ids, f: Party, t: Party): seq<Tss> {
    if t == Server then []
    else Pick(TssOf(net.Down(t)), f, ids.Of(t)) + Pick(net.srvQ, f, ids.Of(t))
  }

  /** The star seen as a direct FIFO from `f` to `t`: what is in flight, oldest first. */
  function Link<C>(net: Net<C>, ids: Ids, f: Party, t: Party): seq<Tss> {
    Descending(net, ids, f, t) + Climbing(net, f, ids.Of(t))
  }

  /**
   For one ordered pair: what was handled followed by what is in flight is exactly what was sent,
   and what was relayed followed by what still climbs is exactly what was sent.
   */
  ghost predicate PairRouted<C>(net: Net<C>, ids: Ids, f: Party, t: Party) {
    && Pick(net.sent, f, ids.Of(t)) == Pick(net.handled, f, ids.Of(t)) + Link(net, ids, f, t)
    && (f != Server && t != Server ==>
          Pick(net.sent, f, ids.Of(t)) == Pick(net.relayed, f, ids.Of(t)) + Climbing(net, f, ids.Of(t)))
  }

  ghost predicate Routed<C>(net: Net<C>, ids: Ids) {
    && OnTheWay(net, ids)
    && forall f: Party, t: Party :: f != t ==> PairRouted(net, ids, f, t)
  }

  lemma EmptyRouted<C>(ids: Ids)
    ensures Routed<C>(EmptyNet(), ids)
  {
  }

  /** A control frame is invisible to the routing. */
  lemma ControlRouted<C>(net: Net<C>, net': Net<C>, ids: Ids)
    requires Routed(net, ids)
    requires net' == net.(newUp := net'.newUp, newDown := net'.newDown, oldUp := net'.oldUp, oldDown := net'.oldDown)
    requires TssOf(net'.newUp) == TssOf(net.newUp) && TssOf(net'.newDown) == TssOf(net.newDown)
    requires TssOf(net'.oldUp) == TssOf(net.oldUp) && TssOf(net'.oldDown) == TssOf(net.oldDown)
    ensures Routed(net', ids)
  {
    forall f: Party, t: Party | f != t ensures PairRouted(net', ids, f, t) {
      assert PairRouted(net, ids, f, t);
      assert Descending(net', ids, f, t) == Descending(net, ids, f, t);
      assert Climbing(net', f, ids.Of(t)) == Climbing(net, f, ids.Of(t));
    }
  }

  lemma Assoc<T>(a: seq<T>, b: seq<T>, c: seq<T>)
    ensures (a + b) + c == a + (b + c)
  {
  }

  lemma PickAppend(q: seq<Tss>, m: Tss, f: Party, id: string)
    ensures Pick(q + [m], f, id) == Pick(q, f, id) + if m.body.from == f && m.peerID == id then [m] else []
  {
    PickConcat(q, [m], f, id);
    PickOne(m, f, id);
  }

  lemma PickHead(q: seq<Tss>, f: Party, id: string)
    requires q != []
    ensures Pick(q, f, id)
         == (if q[0].body.from == f && q[0].peerID == id then [q[0]] else []) + Pick(q[1..], f, id)
  {
  }

  /** A device's new message joins what climbs from it, the server's own what descends from it. */
  lemma SendFlights<C>(net: Net<C>, ids: Ids, p: Party, q: Party, content: nat, f: Party, t: Party)
    requires ids.Distinct() && p != q && f != t
    ensures var net' := net.Send(p, ids.Of(q), content);
            var mine := if p == f && ids.Of(q) == ids.Of(t) then [Message(ids.Of(q), Payload(p, content))] else [];
            && Climbing(net', f, ids.Of(t)) == Climbing(net, f, ids.Of(t)) + (if p == Server then [] else mine)
            && Descending(net', ids, f, t) == Descending(net, ids, f, t) + (if p == Server then mine else [])
  {
    hide Pick, TssOf;
    var m := Message(ids.Of(q), Payload(p, content));
    var mine := if p == f && ids.Of(q) == ids.Of(t) then [m] else [];
    PickAppend(net.Queue(p), m, f, ids.Of(t));
    if p == Server && t != Server {
      Assoc(Pick(TssOf(net.Down(t)), f, ids.Of(t)), Pick(net.srvQ, f, ids.Of(t)), mine);
    } else if p == f {
      Assoc(Pick(TssOf(net.Up(f)), f, ids.Of(t)), Pick(net.Queue(f), f, ids.Of(t)), mine);
    }
  }

  lemma SendPair<C>(net: Net<C>, ids: Ids, p: Party, q: Party, content: nat, f: Party, t: Party)
    requires ids.Distinct() && p != q && f != t && PairRouted(net, ids, f, t)
    ensures PairRouted(net.Send(p, ids.Of(q), content), ids, f, t)
  {
    hide Pick, TssOf, Climbing, Descending;
    var m := Message(ids.Of(q), Payload(p, content));
    var net' := net.Send(p, ids.Of(q), content);
    var id := ids.Of(t);
    var mine := if p == f && ids.Of(q) == id then [m] else [];
    PickAppend(net.sent, m, f, id);
    SendFlights(net, ids, p, q, content, f, t);
    if mine == [] {
      assert Link(net', ids, f, t) == Link(net, ids, f, t);
    } else {
      assert Link(net', ids, f, t) == Link(net, ids, f, t) + mine by {
        SendLink(net, ids, q, content, f, t);
      }
      Assoc(Pick(net.handled, f, id), Link(net, ids, f, t), mine);
      Assoc(Pick(net.relayed, f, id), Climbing(net, f, id), mine);
    }
  }

  /** The link from the producer grows by the new message at its end. */
  lemma SendLink<C>(net: Net<C>, ids: Ids, q: Party, content: nat, f: Party, t: Party)
    requires ids.Distinct() && f != q && f != t && ids.Of(q) == ids.Of(t)
    ensures Link(net.Send(f, ids.Of(q), content), ids, f, t)
         == Link(net, ids, f, t) + [Message(ids.Of(q), Payload(f, content))]
  {
    hide Pick, TssOf, Descending;
    SendFlights(net, ids, f, q, content, f, t);
    Assoc(Descending(net, ids, f, t), Climbing(net, f, ids.Of(t)), [Message(ids.Of(q), Payload(f, content))]);
  }

  lemma SendRouted<C>(net: Net<C>, ids: Ids, p: Party, q: Party, content: nat)
    requires ids.Distinct() && p != q && Routed(net, ids)
    ensures Routed(net.Send(p, ids.Of(q), content), ids)
  {
    forall f: Party, t: Party | f != t ensures PairRouted(net.Send(p, ids.Of(q), content), ids, f, t) {
      SendPair(net, ids, p, q, content, f, t);
    }
  }

  /** The oldest message of the queue becomes the youngest of the websocket. */
  lemma FlushClimbing<C>(net: Net<C>, p: Party, f: Party, id: string)
    requires p != Server && net.Queue(p) != []
    ensures Climbing(net.Flush(p), f, id) == Climbing(net, f, id)
  {
    hide Pick, TssOf;
    if f == p {
      var m := net.Queue(p)[0];
      var mine := if m.body.from == f && m.peerID == id then [m] else [];
      FrameAppend(net.Up(p), TssFrame(m));
      PickHead(net.Queue(p), f, id);
      PickAppend(TssOf(net.Up(p)), m, f, id);
      Assoc(Pick(TssOf(net.Up(p)), f, id), mine, Pick(net.Queue(p)[1..], f, id));
    }
  }

  lemma FlushPair<C>(net: Net<C>, ids: Ids, p: Party, f: Party, t: Party)
    requires p != Server && net.Queue(p) != [] && f != t && PairRouted(net, ids, f, t)
    ensures PairRouted(net.Flush(p), ids, f, t)
  {
    hide Pick, TssOf, Climbing;
    FlushClimbing(net, p, f, ids.Of(t));
  }

  lemma FlushRouted<C>(net: Net<C>, ids: Ids, p: Party)
    requires p != Server && net.Queue(p) != [] && Routed(net, ids)
    ensures Routed(net.Flush(p), ids)
  {
    FrameAppend(net.Up(p), TssFrame(net.Queue(p)[0]));
    forall f: Party, t: Party | f != t ensures PairRouted(net.Flush(p), ids, f, t) {
      FlushPair(net, ids, p, f, t);
    }
  }

  /** Taking the oldest message for `id` out of a queue, seen through `Pick`. */
  lemma PickDropFirst(q: seq<Tss>, id: string, f: Party, other: string)
    requires For(q, id) != []
    ensures Pick(q, f, other)
         == (if For(q, id)[0].body.from == f && id == other then [For(q, id)[0]] else [])
            + Pick(DropFirst(q, id), f, other)
    ensures For(q, id)[0].peerID == id && For(q, id)[0] in q
    ensures forall x :: x in DropFirst(q, id) ==> x in q
  {
    hide *;
    var k := DropFirstSplits(q, id);
    var a, m, b := q[..k], q[k], q[k + 1..];
    assert q == a + ([m] + b);
    PickConcat(a, [m] + b, f, other);
    PickConcat([m], b, f, other);
    PickConcat(a, b, f, other);
    PickOne(m, f, other);
    PickIsNoMore(a, f, other);
  }

  lemma ForwardDescending<C>(net: Net<C>, ids: Ids, p: Party, f: Party, t: Party)
    requires ids.Distinct() && p != Server && For(net.srvQ, ids.Of(p)) != []
    ensures Descending(net.Forward(p, ids.Of(p)), ids, f, t) == Descending(net, ids, f, t)
  {
    hide Pick, TssOf, For, DropFirst;
    var id := ids.Of(t);
    if t != Server {
      var m := For(net.srvQ, ids.Of(p))[0];
      var mine := if m.body.from == f && ids.Of(p) == id then [m] else [];
      PickDropFirst(net.srvQ, ids.Of(p), f, id);
      if t == p {
        FrameAppend(net.Down(p), TssFrame(m));
        PickAppend(TssOf(net.Down(p)), m, f, id);
        Assoc(Pick(TssOf(net.Down(p)), f, id), mine, Pick(DropFirst(net.srvQ, id), f, id));
      }
    }
  }

  lemma ForwardRouted<C>(net: Net<C>, ids: Ids, p: Party)
    requires ids.Distinct() && p != Server && For(net.srvQ, ids.Of(p)) != [] && Routed(net, ids)
    ensures Routed(net.Forward(p, ids.Of(p)), ids)
  {
    hide Pick, TssOf, For, DropFirst;
    FrameAppend(net.Down(p), TssFrame(For(net.srvQ, ids.Of(p))[0]));
    PickDropFirst(net.srvQ, ids.Of(p), Server, ids.Of(p));
    assert OnTheWay(net.Forward(p, ids.Of(p)), ids);
    forall f: Party, t: Party | f != t ensures PairRouted(net.Forward(p, ids.Of(p)), ids, f, t) {
      assert PairRouted(net, ids, f, t);
      ForwardDescending(net, ids, p, f, t);
      assert Climbing(net.Forward(p, ids.Of(p)), f, ids.Of(t)) == Climbing(net, f, ids.Of(t));
    }
  }

  lemma ServerHandleClimbing<C>(net: Net<C>, ids: Ids, p: Party, f: Party, id: string)
    requires p != Server && net.Up(p) != [] && net.Up(p)[0].TssFrame?
    requires net.Up(p)[0].m.body.from == p
    ensures var m := net.Up(p)[0].m;
            Climbing(net, f, id)
            == (if m.body.from == f && m.peerID == id then [m] else [])
               + Climbing(net.PopUp(p).Handle(Server, SERVER_ID, m), f, id)
  {
    hide Pick, TssOf;
    var m := net.Up(p)[0].m;
    if f == p {
      FrameHead(net.Up(p));
      var rest := TssOf(net.Up(p)[1..]);
      assert TssOf(net.Up(p)) == [m] + rest;
      PickConcat([m], rest, f, id);
      PickOne(m, f, id);
      Assoc(Pick([m], f, id), Pick(rest, f, id), Pick(net.Queue(f), f, id));
    }
  }

  lemma ServerHandlePair<C>(net: Net<C>, ids: Ids, p: Party, f: Party, t: Party)
    requires ids.Distinct() && p != Server && net.Up(p) != [] && net.Up(p)[0].TssFrame? && f != t
    requires net.Up(p)[0].m.body.from == p && net.Up(p)[0].m.peerID != ids.Of(p)
    requires PairRouted(net, ids, f, t)
    ensures PairRouted(net.PopUp(p).Handle(Server, SERVER_ID, net.Up(p)[0].m), ids, f, t)
  {
    hide Pick, TssOf, Climbing;
    if t == Server {
      ServerConsumesPair(net, ids, p, f);
    } else {
      ServerRelaysPair(net, ids, p, f, t);
    }
  }

  lemma ServerConsumesPair<C>(net: Net<C>, ids: Ids, p: Party, f: Party)
    requires ids.Distinct() && p != Server && net.Up(p) != [] && net.Up(p)[0].TssFrame? && f != Server
    requires net.Up(p)[0].m.body.from == p && PairRouted(net, ids, f, Server)
    ensures PairRouted(net.PopUp(p).Handle(Server, SERVER_ID, net.Up(p)[0].m), ids, f, Server)
  {
    hide Pick, TssOf, Climbing;
    var m := net.Up(p)[0].m;
    var net' := net.PopUp(p).Handle(Server, SERVER_ID, m);
    var mine := if m.body.from == f && m.peerID == SERVER_ID then [m] else [];
    ServerHandleClimbing(net, ids, p, f, SERVER_ID);
    PickAppend(net.handled, m, f, SERVER_ID);
    assert Link(net, ids, f, Server) == mine + Climbing(net', f, SERVER_ID);
    assert Link(net', ids, f, Server) == Climbing(net', f, SERVER_ID);
    Assoc(Pick(net.handled, f, SERVER_ID), mine, Climbing(net', f, SERVER_ID));
  }

  /** A message that the server queues again descends from then on. */
  lemma ServerRelaysDescending<C>(net: Net<C>, ids: Ids, p: Party, f: Party, t: Party)
    requires ids.Distinct() && p != Server && net.Up(p) != [] && net.Up(p)[0].TssFrame? && t != Server
    ensures var m := net.Up(p)[0].m;
            Descending(net.PopUp(p).Handle(Server, SERVER_ID, m), ids, f, t)
            == Descending(net, ids, f, t) + if m.body.from == f && m.peerID == ids.Of(t) then [m] else []
  {
    hide Pick, TssOf;
    var m := net.Up(p)[0].m;
    var mine := if m.body.from == f && m.peerID == ids.Of(t) then [m] else [];
    PickAppend(net.srvQ, m, f, ids.Of(t));
    Assoc(Pick(TssOf(net.Down(t)), f, ids.Of(t)), Pick(net.srvQ, f, ids.Of(t)), mine);
  }

  lemma ServerRelaysPair<C>(net: Net<C>, ids: Ids, p: Party, f: Party, t: Party)
    requires ids.Distinct() && p != Server && net.Up(p) != [] && net.Up(p)[0].TssFrame? && f != t && t != Server
    requires net.Up(p)[0].m.body.from == p && net.Up(p)[0].m.peerID != ids.Of(p)
    requires PairRouted(net, ids, f, t)
    ensures PairRouted(net.PopUp(p).Handle(Server, SERVER_ID, net.Up(p)[0].m), ids, f, t)
  {
    hide Pick, TssOf, Climbing, Descending;
    var m := net.Up(p)[0].m;
    var net' := net.PopUp(p).Handle(Server, SERVER_ID, m);
    var id := ids.Of(t);
    var mine := if m.body.from == f && m.peerID == id then [m] else [];
    ServerHandleClimbing(net, ids, p, f, id);
    PickAppend(net.handled, m, f, id);
    PickAppend(net.relayed, m, f, id);
    ServerRelaysDescending(net, ids, p, f, t);
    Assoc(Descending(net, ids, f, t), mine, Climbing(net', f, id));
    Assoc(Pick(net.relayed, f, id), mine, Climbing(net', f, id));
  }

  /** The server reads a TSS frame from device `p`: it handles it itself or relays it. */
  lemma ServerHandleRouted<C>(net: Net<C>, ids: Ids, p: Party)
    requires ids.Distinct() && p != Server && net.Up(p) != [] && net.Up(p)[0].TssFrame? && Routed(net, ids)
    ensures Routed(net.PopUp(p).Handle(Server, SERVER_ID, net.Up(p)[0].m), ids)
  {
    hide Pick, TssOf;
    var m := net.Up(p)[0].m;
    var net' := net.PopUp(p).Handle(Server, SERVER_ID, m);
    FrameHead(net.Up(p));
    assert TssOf(net.Up(p)) == [m] + TssOf(net.Up(p)[1..]);
    assert OnTheWay(net', ids);
    forall f: Party, t: Party | f != t ensures PairRouted(net', ids, f, t) {
      ServerHandlePair(net, ids, p, f, t);
    }
  }

  lemma DeviceHandleDescending<C>(net: Net<C>, ids: Ids, p: Party, f: Party, t: Party)
    requires ids.Distinct() && p != Server && net.Down(p) != [] && net.Down(p)[0].TssFrame?
    requires net.Down(p)[0].m.peerID == ids.Of(p)
    ensures var m := net.Down(p)[0].m;
            Descending(net, ids, f, t)
            == (if m.body.from == f && t == p then [m] else [])
               + Descending(net.PopDown(p).Handle(p, ids.Of(p), m), ids, f, t)
  {
    hide Pick, TssOf;
    if t == p {
      var m := net.Down(p)[0].m;
      FrameHead(net.Down(p));
      var rest := TssOf(net.Down(p)[1..]);
      assert TssOf(net.Down(p)) == [m] + rest;
      PickConcat([m], rest, f, ids.Of(t));
      PickOne(m, f, ids.Of(t));
      Assoc(Pick([m], f, ids.Of(t)), Pick(rest, f, ids.Of(t)), Pick(net.srvQ, f, ids.Of(t)));
    }
  }

  lemma DeviceHandlePair<C>(net: Net<C>, ids: Ids, p: Party, f: Party, t: Party)
    requires ids.Distinct() && p != Server && net.Down(p) != [] && net.Down(p)[0].TssFrame? && f != t
    requires net.Down(p)[0].m.peerID == ids.Of(p)
    requires PairRouted(net, ids, f, t)
    ensures PairRouted(net.PopDown(p).Handle(p, ids.Of(p), net.Down(p)[0].m), ids, f, t)
  {
    hide Pick, TssOf, Descending;
    var m := net.Down(p)[0].m;
    var net' := net.PopDown(p).Handle(p, ids.Of(p), m);
    var id := ids.Of(t);
    var mine := if m.body.from == f && m.peerID == id then [m] else [];
    DeviceHandleDescending(net, ids, p, f, t);
    PickAppend(net.handled, m, f, id);
    assert Climbing(net', f, id) == Climbing(net, f, id);
    Assoc(mine, Descending(net', ids, f, t), Climbing(net, f, id));
    Assoc(Pick(net.handled, f, id), mine, Link(net', ids, f, t));
  }

  /** A device reads a TSS frame: it is always its own, so a device never queues it again. */
  lemma DeviceHandleRouted<C>(net: Net<C>, ids: Ids, p: Party)
    requires ids.Distinct() && p != Server && net.Down(p) != [] && net.Down(p)[0].TssFrame? && Routed(net, ids)
    ensures Routed(net.PopDown(p).Handle(p, ids.Of(p), net.Down(p)[0].m), ids)
    ensures net.PopDown(p).Handle(p, ids.Of(p), net.Down(p)[0].m).Queue(p) == net.Queue(p)
  {
    hide Pick, TssOf;
    var m := net.Down(p)[0].m;
    FrameHead(net.Down(p));
    assert TssOf(net.Down(p)) == [m] + TssOf(net.Down(p)[1..]);
    assert TssOf(net.Down(p))[0] == m;
    var net' := net.PopDown(p).Handle(p, ids.Of(p), m);
    forall f: Party, t: Party | f != t ensures PairRouted(net', ids, f, t) {
      DeviceHandlePair(net, ids, p, f, t);
    }
  }

  // ---- The star's queues are peer managers ----

  /** Producing puts a message in the party's own queue; a device's sender takes the oldest to the websocket. */
  lemma DeviceQueueMoves<C>(net: Net<C>, p: Party, target: string, content: nat)
    ensures var m := Message(target, Payload(p, content));
            net.Send(p, target, content).Queue(p) == Apply(Trace(net.Queue(p), [], []), Put(m)).queue
    ensures p != Server && net.Queue(p) != [] ==>
              var net' := net.Flush(p);
              && net.Queue(p) == [net.Queue(p)[0]] + net'.Queue(p)
              && net'.Up(p) == net.Up(p) + [TssFrame(net.Queue(p)[0])] && net'.Down(p) == net.Down(p)
  {
  }

  /** A server sender takes for its peer as a peer manager does, and what it takes goes to that device. */
  lemma ServerQueueMoves<C>(net: Net<C>, p: Party, id: string)
    requires p != Server && id != "" && For(net.srvQ, id) != []
    ensures var net', t := net.Forward(p, id), Apply(Trace(net.srvQ, [], []), Get(id, true));
            && net'.srvQ == t.queue && |t.delivered| == 1
            && net'.Down(p) == net.Down(p) + [TssFrame(t.delivered[0])] && net'.Up(p) == net.Up(p)
  {
  }

  /** A message that arrives is given to the library or queued again for its target, at every party alike. */
  lemma HandleConsumesOrRequeues<C>(net: Net<C>, p: Party, own: string, m: Tss)
    ensures var net' := net.Handle(p, own, m);
            && net'.handled == net.handled + (if m.peerID == own then [m] else [])
            && net'.Queue(p) == net.Queue(p) + (if m.peerID == own then [] else [m])
            && (forall q: Party :: q != p ==> net'.Queue(q) == net.Queue(q))
            && (forall q: Party :: net'.Up(q) == net.Up(q) && net'.Down(q) == net.Down(q))
            && net'.sent == net.sent
  {
  }

  // ---- Whole runs of the star ----

  /** One move of the star; TSS traffic only. */
  datatype Hop =
    | Produce(p: Party, q: Party, content: nat)
    | Climb(p: Party)
    | Reach(p: Party)
    | Descend(p: Party)
    | Land(p: Party)

  predicate CanHop(net: Net<()>, ids: Ids, h: Hop) {
    match h
    case Produce(p, q, _) => p != q
    case Climb(p) => p != Server && net.Queue(p) != []
    case Reach(p) => p != Server && net.Up(p) != [] && net.Up(p)[0].TssFrame?
    case Descend(p) => p != Server && For(net.srvQ, ids.Of(p)) != []
    case Land(p) => p != Server && net.Down(p) != [] && net.Down(p)[0].TssFrame?
  }

  function DoHop(net: Net<()>, ids: Ids, h: Hop): Net<()>
    requires CanHop(net, ids, h)
  {
    match h
    case Produce(p, q, content) => net.Send(p, ids.Of(q), content)
    case Climb(p) => net.Flush(p)
    case Reach(p) => net.PopUp(p).Handle(Server, SERVER_ID, net.Up(p)[0].m)
    case Descend(p) => net.Forward(p, ids.Of(p))
    case Land(p) => net.PopDown(p).Handle(p, ids.Of(p), net.Down(p)[0].m)
  }

  /** The star after a sequence of moves; moves that cannot happen are skipped. */
  function RunStar(ids: Ids, hops: seq<Hop>): Net<()> {
    if hops == [] then EmptyNet()
    else
      var net := RunStar(ids, hops[..|hops| - 1]);
      var h := hops[|hops| - 1];
      if CanHop(net, ids, h) then DoHop(net, ids, h) else net
  }

  lemma HopRouted(net: Net<()>, ids: Ids, h: Hop)
    requires ids.Distinct() && Routed(net, ids) && CanHop(net, ids, h)
    ensures Routed(DoHop(net, ids, h), ids)
  {
    hide Routed, Pick, TssOf, For, DropFirst;
    match h
    case Produce(p, q, content) => SendRouted(net, ids, p, q, content);
    case Climb(p) => FlushRouted(net, ids, p);
    case Reach(p) => ServerHandleRouted(net, ids, p);
    case Descend(p) => ForwardRouted(net, ids, p);
    case Land(p) => DeviceHandleRouted(net, ids, p);
  }

  lemma {:induction false} RunRouted(ids: Ids, hops: seq<Hop>)
    requires ids.Distinct()
    ensures Routed(RunStar(ids, hops), ids)
  {
    hide Routed, Pick, TssOf, For, DropFirst;
    if hops == [] {
      EmptyRouted<()>(ids);
    } else {
      var net := RunStar(ids, hops[..|hops| - 1]);
      RunRouted(ids, hops[..|hops| - 1]);
      if CanHop(net, ids, hops[|hops| - 1]) {
        HopRouted(net, ids, hops[|hops| - 1]);
      }
    }
  }

  /**
   End to end, in every run: what `t` has handled from `f` is a prefix of what `f` sent to `t`
   (each message once, in sending order), what the server has relayed is also a prefix (each
   message at most once), and once nothing is in flight everything has arrived.
   */
  lemma EndToEnd(ids: Ids, hops: seq<Hop>, f: Party, t: Party)
    requires ids.Distinct() && f != t
    ensures var net := RunStar(ids, hops);
            && Pick(net.handled, f, ids.Of(t)) <= Pick(net.sent, f, ids.Of(t))
            && (f != Server && t != Server ==> Pick(net.relayed, f, ids.Of(t)) <= Pick(net.sent, f, ids.Of(t)))
            && (Link(net, ids, f, t) == [] ==> Pick(net.handled, f, ids.Of(t)) == Pick(net.sent, f, ids.Of(t)))
  {
    hide Pick, TssOf, For, DropFirst, RunStar;
    RunRouted(ids, hops);
    assert PairRouted(RunStar(ids, hops), ids, f, t);
  }

  /** No device ever queues a message it has received: whatever lands is consumed. */
  lemma DevicesNeverRequeue(ids: Ids, hops: seq<Hop>, p: Party)
    requires ids.Distinct() && CanHop(RunStar(ids, hops), ids, Land(p))
    ensures var net := RunStar(ids, hops);
            var net' := DoHop(net, ids, Land(p));
            net'.Queue(p) == net.Queue(p) && net'.handled == net.handled + [net.Down(p)[0].m]
  {
    hide Pick, TssOf, For, DropFirst, RunStar;
    RunRouted(ids, hops);
    FrameHead(RunStar(ids, hops).Down(p));
    assert RunStar(ids, hops).Down(p)[0].m in TssOf(RunStar(ids, hops).Down(p));
  }

  /**
   The star refines a direct FIFO from `f` to `t`: a move appends one message to the link, or
   takes the link's head and hands it to `t`, or leaves both the link and what `t` handled alone.
   */
  lemma StarRefinesDirectLink(ids: Ids, hops: seq<Hop>, h: Hop, f: Party, t: Party)
    requires ids.Distinct() && f != t && CanHop(RunStar(ids, hops), ids, h)
    ensures var net := RunStar(ids, hops);
            var net' := DoHop(net, ids, h);
            var id := ids.Of(t);
            || (h.Produce? && h.p == f && h.q == t
                && Link(net', ids, f, t) == Link(net, ids, f, t) + [Message(id, Payload(f, h.content))]
                && Pick(net'.handled, f, id) == Pick(net.handled, f, id))
            || (Link(net, ids, f, t) != []
                && Link(net', ids, f, t) == Link(net, ids, f, t)[1..]
                && Pick(net'.handled, f, id) == Pick(net.handled, f, id) + [Link(net, ids, f, t)[0]])
            || (Link(net', ids, f, t) == Link(net, ids, f, t)
                && Pick(net'.handled, f, id) == Pick(net.handled, f, id))
  {
    hide Pick, TssOf, For, DropFirst, RunStar, Link, OnTheWay;
    var net := RunStar(ids, hops);
    var net' := DoHop(net, ids, h);
    var id := ids.Of(t);
    RunRouted(ids, hops);
    HopRouted(net, ids, h);
    assert PairRouted(net, ids, f, t) && PairRouted(net', ids, f, t);
    HistoryGrows(net, ids, h, f, id);
    var sent, sent' := Pick(net.sent, f, id), Pick(net'.sent, f, id);
    var got, got' := Pick(net.handled, f, id), Pick(net'.handled, f, id);
    var link, link' := Link(net, ids, f, t), Link(net', ids, f, t);
    assert sent == got + link && sent' == got' + link';
    if h.Produce? {
      assert got' == got;
      if sent' != sent {
        var m := Message(ids.Of(h.q), Payload(h.p, h.content));
        assert link' == sent'[|got|..] == link + [m];
        assert m.peerID == id && m.body.from == f;
        assert h.q == t;
      } else {
        assert link' == sent'[|got|..];
        assert link == sent[|got|..];
      }
    } else if got' == got {
      assert link' == sent'[|got|..];
      assert link == sent[|got|..];
    } else {
      var m := got'[|got|];
      assert got' == got + [m];
      assert link == sent[|got|..];
      assert link' == sent[|got| + 1..];
      assert |sent| == |got| + 1 + |link'|;
      assert link[0] == sent[|got|] == m;
    }
  }

  /** A move adds at most one message to the history of a pair, on exactly one side. */
  lemma HistoryGrows(net: Net<()>, ids: Ids, h: Hop, f: Party, id: string)
    requires CanHop(net, ids, h)
    ensures var net' := DoHop(net, ids, h);
            if h.Produce? then
              var m := Message(ids.Of(h.q), Payload(h.p, h.content));
              && net'.handled == net.handled
              && Pick(net'.sent, f, id)
                 == Pick(net.sent, f, id) + (if h.p == f && ids.Of(h.q) == id then [m] else [])
            else
              && net'.sent == net.sent
              && (|| Pick(net'.handled, f, id) == Pick(net.handled, f, id)
                  || exists m: Tss :: Pick(net'.handled, f, id) == Pick(net.handled, f, id) + [m])
  {
    hide Pick, TssOf, For, DropFirst;
    match h
    case Produce(p, q, content) => PickAppend(net.sent, Message(ids.Of(q), Payload(p, content)), f, id);
    case Reach(p) => PickAppend(net.handled, net.Up(p)[0].m, f, id);
    case Land(p) => PickAppend(net.handled, net.Down(p)[0].m, f, id);
    case Climb(p) =>
    case Descend(p) =>
  }
}
