/**
 The outgoing queue of one TSS actor (utils/tss/peerManager.go).

 `Queues` defines the queue on values: what is waiting for one peer, and the queue left
 once that peer's oldest message is taken. `PeerManagers` is the object itself; its methods
 are proved against `Queues`. The runs at the end of `Queues` interleave producers and the
 per-peer consumers in any order.
 */
module Queues {
  datatype Message<+T> = Message(peerID: string, body: T)

  /** The messages waiting for `id`, oldest first. */
  function For<T>(q: seq<Message<T>>, id: string): seq<Message<T>> {
    if q == [] then []
    else if q[0].peerID == id then [q[0]] + For(q[1..], id)
    else For(q[1..], id)
  }

  /** The queue without its oldest message for `id`. */
  function DropFirst<T>(q: seq<Message<T>>, id: string): seq<Message<T>> {
    if q == [] then []
    else if q[0].peerID == id then q[1..]
    else [q[0]] + DropFirst(q[1..], id)
  }

  /** The queue without any message for `id`. */
  function DropAll<T>(q: seq<Message<T>>, id: string): seq<Message<T>> {
    if q == [] then []
    else if q[0].peerID == id then DropAll(q[1..], id)
    else [q[0]] + DropAll(q[1..], id)
  }

  /**
   The queue left by taking for `id`: the code recognises "already found one" by the found id
   being non-empty, so for the empty id it keeps on taking.
   */
  function Left<T>(q: seq<Message<T>>, id: string): seq<Message<T>> {
    if id == "" then DropAll(q, id) else DropFirst(q, id)
  }

  lemma {:induction false} ForConcat<T>(a: seq<Message<T>>, b: seq<Message<T>>, id: string)
    ensures For(a + b, id) == For(a, id) + For(b, id)
  {
    if a == [] {
      assert a + b == b;
    } else {
      assert (a + b)[1..] == a[1..] + b;
      ForConcat(a[1..], b, id);
    }
  }

  lemma {:induction false} DropAllConcat<T>(a: seq<Message<T>>, b: seq<Message<T>>, id: string)
    ensures DropAll(a + b, id) == DropAll(a, id) + DropAll(b, id)
  {
    if a == [] {
      assert a + b == b;
    } else {
      assert (a + b)[1..] == a[1..] + b;
      DropAllConcat(a[1..], b, id);
    }
  }

  lemma ForAppend<T>(q: seq<Message<T>>, m: Message<T>, id: string)
    ensures For(q + [m], id) == For(q, id) + if m.peerID == id then [m] else []
  {
    ForConcat(q, [m], id);
    assert [m][1..] == [];
  }

  lemma DropAllAppend<T>(q: seq<Message<T>>, m: Message<T>, id: string)
    ensures DropAll(q + [m], id) == DropAll(q, id) + if m.peerID == id then [] else [m]
  {
    DropAllConcat(q, [m], id);
    assert [m][1..] == [];
  }

  lemma NothingThere<T>(id: string)
    ensures For<T>([], id) == [] && DropAll<T>([], id) == []
  {
  }

  lemma {:induction false} ForOnly<T>(q: seq<Message<T>>, id: string)
    ensures forall m :: m in For(q, id) ==> m.peerID == id && m in q
    ensures For(q, id) == [] <==> forall m :: m in q ==> m.peerID != id
  {
    if q != [] {
      ForOnly(q[1..], id);
      assert q == [q[0]] + q[1..];
      if For(q, id) == [] {
        assert forall m :: m in q ==> m == q[0] || m in q[1..];
      }
    }
  }

  /** The oldest message for `id` splits the queue; everything before it is for somebody else. */
  lemma {:induction false} DropFirstSplits<T>(q: seq<Message<T>>, id: string) returns (k: nat)
    requires For(q, id) != []
    ensures k < |q| && q[k] == For(q, id)[0] && q[k].peerID == id
    ensures For(q[..k], id) == []
    ensures DropFirst(q, id) == q[..k] + q[k + 1..]
  {
    if q[0].peerID == id {
      k := 0;
      assert q[..0] == [] && q[..0] + q[1..] == q[1..];
    } else {
      var rest := q[1..];
      var j := DropFirstSplits(rest, id);
      k := j + 1;
      var before := q[..k];
      assert before != [] && before[0] == q[0] && before[1..] == rest[..j];
      assert For(before, id) == For(rest[..j], id);
      assert before == [q[0]] + rest[..j];
      assert q[k + 1..] == rest[j + 1..];
      assert DropFirst(q, id) == [q[0]] + (rest[..j] + rest[j + 1..]);
    }
  }

  /** Conversely, that splitting determines what is taken and what is left. */
  lemma {:induction false} DropFirstAt<T>(a: seq<Message<T>>, m: Message<T>, b: seq<Message<T>>, id: string)
    requires For(a, id) == [] && m.peerID == id
    ensures DropFirst(a + [m] + b, id) == a + b
    ensures For(a + [m] + b, id) == [m] + For(b, id)
  {
    if a == [] {
      assert a + [m] + b == [m] + b;
      assert ([m] + b)[1..] == b;
      assert a + b == b;
    } else {
      assert a[0].peerID != id;
      assert (a + [m] + b)[1..] == a[1..] + [m] + b;
      DropFirstAt(a[1..], m, b, id);
      assert a + b == [a[0]] + (a[1..] + b);
    }
  }

  /** Taking for one peer removes the head of that peer's own FIFO and touches no other peer's. */
  lemma {:induction false} DropFirstIsPerPeer<T>(q: seq<Message<T>>, id: string, other: string)
    ensures For(DropFirst(q, id), other) ==
            if other == id && For(q, id) != [] then For(q, id)[1..] else For(q, other)
  {
    if q != [] {
      if q[0].peerID != id {
        assert ([q[0]] + DropFirst(q[1..], id))[1..] == DropFirst(q[1..], id);
        DropFirstIsPerPeer(q[1..], id, other);
      }
    }
  }

  lemma {:induction false} NothingToDrop<T>(q: seq<Message<T>>, id: string)
    requires For(q, id) == []
    ensures DropFirst(q, id) == q && DropAll(q, id) == q
  {
    if q != [] {
      NothingToDrop(q[1..], id);
    }
  }

  /** What leaves the queue when everything for one id is dropped. */
  lemma {:induction false} DropAllSplits<T>(q: seq<Message<T>>, id: string)
    ensures multiset(q) == multiset(DropAll(q, id)) + multiset(For(q, id))
  {
    if q != [] {
      DropAllSplits(q[1..], id);
      assert q == [q[0]] + q[1..];
    }
  }

  // ---- Runs: any interleaving of producers and per-peer consumers ----

  /** One call on the queue; `encodes` says whether the taken message can be marshalled. */
  datatype Call<T> = Put(m: Message<T>) | Get(id: string, encodes: bool)

  /** What the queue holds, everything ever put in it and everything ever taken from it. */
  datatype Trace<T> = Trace(queue: seq<Message<T>>, sent: seq<Message<T>>, delivered: seq<Message<T>>)

  function Apply<T>(t: Trace<T>, c: Call<T>): Trace<T> {
    match c
    case Put(m) => t.(queue := t.queue + [m], sent := t.sent + [m])
    case Get(id, encodes) =>
      if !encodes || For(t.queue, id) == [] then t
      else t.(queue := Left(t.queue, id),
              delivered := t.delivered + if id == "" then [] else [For(t.queue, id)[0]])
  }

  function Run<T>(calls: seq<Call<T>>): Trace<T> {
    if calls == [] then Trace([], [], [])
    else Apply(Run(calls[..|calls| - 1]), calls[|calls| - 1])
  }

  /** Dropping everything for one id touches no other peer's FIFO. */
  lemma {:induction false} DropAllIsPerPeer<T>(q: seq<Message<T>>, id: string, other: string)
    requires other != id
    ensures For(DropAll(q, id), other) == For(q, other)
  {
    if q != [] {
      DropAllIsPerPeer(q[1..], id, other);
      assert ([q[0]] + DropAll(q[1..], id))[1..] == DropAll(q[1..], id);
    }
  }

  lemma StepDrainsInOrder<T>(t: Trace<T>, c: Call<T>, id: string)
    requires id != "" && For(t.sent, id) == For(t.delivered, id) + For(t.queue, id)
    ensures For(Apply(t, c).sent, id) == For(Apply(t, c).delivered, id) + For(Apply(t, c).queue, id)
  {
    hide For, DropFirst, DropAll;
    match c
    case Put(m) =>
      ForAppend(t.queue, m, id);
      ForAppend(t.sent, m, id);
    case Get(who, encodes) =>
      if who == "" {
        DropAllIsPerPeer(t.queue, "", id);
        assert t.delivered + [] == t.delivered;
      } else if For(t.queue, who) != [] {
        ForOnly(t.queue, who);
        ForAppend(t.delivered, For(t.queue, who)[0], id);
        DropFirstIsPerPeer(t.queue, who, id);
      }
  }

  /** Whatever the interleaving, each peer has drained a prefix of its own subsequence, in order. */
  lemma {:induction false} EachPeerDrainsInOrder<T>(calls: seq<Call<T>>, id: string)
    requires id != ""
    ensures var t := Run(calls); For(t.sent, id) == For(t.delivered, id) + For(t.queue, id)
  {
    if calls == [] {
    } else {
      var before, c := calls[..|calls| - 1], calls[|calls| - 1];
      EachPeerDrainsInOrder(before, id);
      StepDrainsInOrder(Run(before), c, id);
    }
  }

  // ---- Conservation ----

  /** Everything sent has either been delivered or is still queued, counted with multiplicity. */
  ghost predicate Conserves<T>(t: Trace<T>) {
    multiset(t.sent) == multiset(t.delivered) + multiset(t.queue)
  }

  /** How many of the messages sent are neither delivered nor queued. */
  function Missing<T>(t: Trace<T>): int {
    |t.sent| - |t.delivered| - |t.queue|
  }

  predicate TakesForNobody<T>(c: Call<T>) {
    c.Get? && c.id == "" && c.encodes
  }

  predicate PutsForNobody<T>(c: Call<T>) {
    c.Put? && c.m.peerID == ""
  }

  /** A message without a target is queued and some later call takes for the empty id. */
  predicate Discards<T>(calls: seq<Call<T>>) {
    exists i, j :: 0 <= i < j < |calls| && PutsForNobody(calls[i]) && TakesForNobody(calls[j])
  }

  /** A call keeps messages unless it takes for the empty id: then all that wait for it go missing. */
  lemma StepConserves<T>(t: Trace<T>, c: Call<T>)
    ensures Missing(Apply(t, c)) == Missing(t) + if TakesForNobody(c) then |For(t.queue, "")| else 0
    ensures Conserves(t) && !(TakesForNobody(c) && For(t.queue, "") != []) ==> Conserves(Apply(t, c))
  {
    hide For, DropFirst, DropAll;
    match c
    case Put(m) =>
    case Get(who, encodes) =>
      if encodes && For(t.queue, who) != [] {
        if who == "" {
          DropAllSplits(t.queue, who);
          assert |multiset(t.queue)| == |multiset(DropAll(t.queue, who))| + |multiset(For(t.queue, who))|;
          assert t.delivered + [] == t.delivered;
        } else {
          var k := DropFirstSplits(t.queue, who);
          assert t.queue == t.queue[..k] + [t.queue[k]] + t.queue[k + 1..];
          assert multiset(t.queue)
              == multiset(t.queue[..k]) + multiset{t.queue[k]} + multiset(t.queue[k + 1..]);
        }
      }
  }

  lemma StepForNobody<T>(t: Trace<T>, c: Call<T>)
    ensures For(Apply(t, c).queue, "") != []
       <==> !TakesForNobody(c) && (PutsForNobody(c) || For(t.queue, "") != [])
  {
    match c
    case Put(m) =>
      ForConcat(t.queue, [m], "");
    case Get(who, encodes) =>
      if who != "" {
        DropFirstIsPerPeer(t.queue, who, "");
      } else {
        NoneAfterDropAll(t.queue, "");
      }
  }

  lemma {:induction false} NoneAfterDropAll<T>(q: seq<Message<T>>, id: string)
    ensures For(DropAll(q, id), id) == []
  {
    if q != [] {
      NoneAfterDropAll(q[1..], id);
      assert ([q[0]] + DropAll(q[1..], id))[1..] == DropAll(q[1..], id);
    }
  }

  /** A message without a target waits exactly when one was put after the last taking for the empty id. */
  lemma {:induction false} WaitsForNobody<T>(calls: seq<Call<T>>)
    ensures For(Run(calls).queue, "") != []
       <==> exists i :: 0 <= i < |calls| && PutsForNobody(calls[i])
                        && forall j :: i < j < |calls| ==> !TakesForNobody(calls[j])
  {
    hide TakesForNobody, PutsForNobody;
    if calls != [] {
      var n := |calls| - 1;
      var before := calls[..n];
      WaitsForNobody(before);
      StepForNobody(Run(before), calls[n]);
      PutIsNoTake(calls[n]);
      assert forall i | 0 <= i < n :: before[i] == calls[i];
      if For(Run(before).queue, "") != [] && !TakesForNobody(calls[n]) {
        var i :| 0 <= i < |before| && PutsForNobody(before[i])
                 && forall j :: i < j < |before| ==> !TakesForNobody(before[j]);
        assert PutsForNobody(calls[i]);
      }
    }
  }

  lemma PutIsNoTake<T>(c: Call<T>)
    ensures !(PutsForNobody(c) && TakesForNobody(c))
  {
  }

  lemma DiscardsNext<T>(calls: seq<Call<T>>)
    requires calls != []
    ensures var before, c := calls[..|calls| - 1], calls[|calls| - 1];
            Discards(calls)
            <==> Discards(before) || (TakesForNobody(c) && exists i :: 0 <= i < |before| && PutsForNobody(before[i]))
  {
    var n := |calls| - 1;
    var before := calls[..n];
    if i, j :| 0 <= i < j < |calls| && PutsForNobody(calls[i]) && TakesForNobody(calls[j]) {
      assert PutsForNobody(before[i]);
      assert j < n ==> TakesForNobody(before[j]);
    }
    if i, j :| 0 <= i < j < |before| && PutsForNobody(before[i]) && TakesForNobody(before[j]) {
      assert PutsForNobody(calls[i]) && TakesForNobody(calls[j]);
    }
    if i :| 0 <= i < |before| && PutsForNobody(before[i]) && TakesForNobody(calls[n]) {
      assert PutsForNobody(calls[i]);
    }
  }

  lemma {:induction false} LossStays<T>(calls: seq<Call<T>>)
    ensures if Discards(calls) then Missing(Run(calls)) > 0 else Conserves(Run(calls))
  {
    hide TakesForNobody, PutsForNobody, Discards;
    if calls == [] {
      assert !Discards(calls) by { NothingDiscarded<T>(); }
    } else {
      var before, c := calls[..|calls| - 1], calls[|calls| - 1];
      LossStays(before);
      DiscardsNext(calls);
      StepConserves(Run(before), c);
      WaitsForNobody(before);
      if !Discards(before) && TakesForNobody(c) {
        NoTakeAfterPut(before);
      }
    }
  }

  lemma NothingDiscarded<T>()
    ensures !Discards<T>([])
  {
  }

  lemma NoTakeAfterPut<T>(calls: seq<Call<T>>)
    requires !Discards(calls)
    ensures forall i, j :: 0 <= i < j < |calls| && PutsForNobody(calls[i]) ==> !TakesForNobody(calls[j])
  {
  }

  /**
   Over whole runs: nothing is lost and nothing duplicated exactly when no call takes for the empty
   id after a message without a target was put. What is lost never comes back.
   */
  lemma NothingLostExactlyWhen<T>(calls: seq<Call<T>>)
    ensures Conserves(Run(calls)) <==> !Discards(calls)
  {
    LossStays(calls);
    var t := Run(calls);
    if Conserves(t) {
      assert |multiset(t.sent)| == |multiset(t.delivered)| + |multiset(t.queue)|;
    }
  }
}

module PeerManagers {
  import opened Wrappers
  import opened Queues

  /** What the sender puts on the wire: the target and the hex of the marshalled message, if any. */
  datatype Outgoing = Outgoing(peerID: string, hex: Option<string>)

  datatype QueueError = NothingToSend | CannotMarshal

  class PeerManager<T> {
    const id: string
    const marshal: T -> Option<string>
    var peers: set<string>
    var outwardMessages: seq<Message<T>>
    /** What the registered message handler has been given. */
    var handled: seq<T>

    constructor (id: string, marshal: T -> Option<string>)
      ensures this.id == id && this.marshal == marshal
      ensures peers == {} && outwardMessages == [] && handled == []
    {
      this.id := id;
      this.marshal := marshal;
      peers := {};
      outwardMessages := [];
      handled := [];
    }

    method HandleMessage(body: T)
      modifies this`handled
      ensures handled == old(handled) + [body]
    {
      handled := handled + [body];
    }

    method AddPeer(peerID: string)
      modifies this`peers
      ensures peers == old(peers) + {peerID}
    {
      peers := peers + {peerID};
    }

    method MustSend(peerID: string, body: T)
      modifies this`outwardMessages
      ensures outwardMessages == old(outwardMessages) + [Message(peerID, body)]
    {
      outwardMessages := outwardMessages + [Message(peerID, body)];
    }

    /** Takes the oldest message, whoever it is for. */
    method GetNextMessageToSendAll() returns (r: Result<Outgoing, QueueError>)
      modifies this`outwardMessages
      ensures r == Err(NothingToSend) <==> old(outwardMessages) == []
      ensures old(outwardMessages) != [] ==> (r == Err(CannotMarshal) <==> marshal(old(outwardMessages[0]).body).None?)
      ensures r.Err? ==> outwardMessages == old(outwardMessages)
      ensures r.Ok? ==> old(outwardMessages) == [old(outwardMessages[0])] + outwardMessages
                        && r.value == Outgoing(old(outwardMessages[0]).peerID, marshal(old(outwardMessages[0]).body))
                        && r.value.hex.Some?
    {
      if |outwardMessages| == 0 {
        return Err(NothingToSend);
      }
      var ret := outwardMessages[0];
      var hex := marshal(ret.body);
      if hex.None? {
        return Err(CannotMarshal);
      }
      outwardMessages := outwardMessages[1..];
      return Ok(Outgoing(ret.peerID, hex));
    }

    /**
     Takes the oldest message for one peer, rebuilding the queue from everything else. For the
     empty id every message for it leaves the queue and the result names no peer, which the sender
     reads as "nothing to send".
     */
    method GetNextMessageToSendPeer(peerID: string) returns (r: Result<Outgoing, QueueError>)
      modifies this`outwardMessages
      ensures r.Err? ==> outwardMessages == old(outwardMessages)
                         && exists m :: m in For(old(outwardMessages), peerID) && marshal(m.body).None?
      ensures peerID != "" && For(old(outwardMessages), peerID) != [] ==>
                var m := For(old(outwardMessages), peerID)[0];
                (r.Err? <==> marshal(m.body).None?)
                && (r.Ok? ==> r.value == Outgoing(peerID, marshal(m.body)))
      ensures For(old(outwardMessages), peerID) == [] ==> r == Ok(Outgoing("", None))
      ensures r.Ok? ==> outwardMessages == Left(old(outwardMessages), peerID)
      ensures peerID == "" ==> (r.Ok? <==> forall m :: m in For(old(outwardMessages), "") ==> marshal(m.body).Some?)
      ensures r.Ok? && peerID == "" ==> r.value.peerID == ""
    {
      hide For, DropFirst, DropAll;
      NothingThere<T>(peerID);
      var nextMsg := Outgoing("", None);
      var newOutwardMessages: seq<Message<T>> := [];
      ghost var q := outwardMessages;
      ghost var at: nat := 0;
      var i := 0;
      while i < |outwardMessages|
        invariant 0 <= i <= |q| && outwardMessages == q
        invariant nextMsg.peerID == "" || nextMsg.peerID == peerID
        invariant For(q[..i], peerID) == [] ==> newOutwardMessages == q[..i] && nextMsg == Outgoing("", None)
        invariant nextMsg.peerID != "" ==>
                    at < i && q[at].peerID == peerID && For(q[..at], peerID) == []
                    && newOutwardMessages == q[..at] + q[at + 1..i]
                    && nextMsg.hex == marshal(q[at].body) && nextMsg.hex.Some?
        invariant peerID != "" && nextMsg.peerID == "" ==> For(q[..i], peerID) == []
        invariant peerID == "" ==> newOutwardMessages == DropAll(q[..i], "")
        invariant peerID == "" ==> forall m :: m in For(q[..i], "") ==> marshal(m.body).Some?
      {
        var el := outwardMessages[i];
        assert q[..i + 1] == q[..i] + [el];
        ForAppend(q[..i], el, peerID);
        DropAllAppend(q[..i], el, "");
        if el.peerID == peerID && |nextMsg.peerID| == 0 {
          nextMsg := nextMsg.(peerID := el.peerID);
          var hex := marshal(el.body);
          if hex.None? {
            assert el in For(q[..i + 1], peerID);
            Whole(q, i + 1, peerID);
            FailsAtFirst(q, i, peerID);
            return Err(CannotMarshal);
          }
          nextMsg := nextMsg.(hex := hex);
          at := i;
        } else {
          newOutwardMessages := newOutwardMessages + [el];
        }
        i := i + 1;
      }
      assert q[..i] == q;
      if peerID != "" && nextMsg.peerID != "" {
        assert q == q[..at] + [q[at]] + q[at + 1..];
        DropFirstAt(q[..at], q[at], q[at + 1..], peerID);
      }
      if For(q, peerID) == [] {
        NothingToDrop(q, peerID);
      }
      outwardMessages := newOutwardMessages;
      return Ok(nextMsg);
    }

    /** What waits for a peer in a part of the queue waits for it in the whole queue. */
    static lemma Whole(q: seq<Message<T>>, i: nat, peerID: string)
      requires i <= |q|
      ensures For(q, peerID) == For(q[..i], peerID) + For(q[i..], peerID)
    {
      assert q == q[..i] + q[i..];
      ForConcat(q[..i], q[i..], peerID);
    }

    /** The first message met for a peer is the oldest one waiting for it. */
    static lemma FailsAtFirst(q: seq<Message<T>>, i: nat, peerID: string)
      requires i < |q| && q[i].peerID == peerID
      ensures For(q[..i], peerID) == [] ==> For(q, peerID) != [] && For(q, peerID)[0] == q[i]
    {
      if For(q[..i], peerID) == [] {
        assert q == q[..i] + [q[i]] + q[i + 1..];
        DropFirstAt(q[..i], q[i], q[i + 1..], peerID);
      }
    }
  }

  /**
   A message from the wire: consumed if it names `peerID`, queued again for its target otherwise.
   Text that does not decode changes nothing.
   */
  method AdderGenericHandle<T>(msg: Message<string>, decode: string -> Option<T>, pm: PeerManager<T>, peerID: string)
    returns (ok: bool)
    modifies pm`handled, pm`outwardMessages
    ensures ok <==> decode(msg.body).Some?
    ensures pm.handled == old(pm.handled) + if ok && msg.peerID == peerID then [decode(msg.body).value] else []
    ensures pm.outwardMessages
            == old(pm.outwardMessages)
               + if ok && msg.peerID != peerID then [Message(msg.peerID, decode(msg.body).value)] else []
  {
    var body := decode(msg.body);
    if body.None? {
      return false;
    }
    if msg.peerID == peerID {
      pm.HandleMessage(body.value);
    } else {
      pm.MustSend(msg.peerID, body.value);
    }
    return true;
  }
}
