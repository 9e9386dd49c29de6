/**
 The threshold library seen from outside. Its cryptography is not part of this model; what the
 repository relies on is the order in which each party produces and waits for messages.

 Each party follows a fixed script of sends and receives. A receive waits for the next message
 from one named party; messages from others wait meanwhile. `Contract` collects what is assumed.
 */
module TssLibrary {
  import opened StarRouting

  datatype Act = Send(to: Party) | Recv(from: Party)

  /** How far each party has advanced in its script. */
  datatype Pos = Pos(server: nat, newDevice: nat, oldDevice: nat) {
    function At(p: Party): nat {
      match p case Server => server case NewDevice => newDevice case OldDevice => oldDevice
    }

    function Advance(p: Party): Pos {
      match p
      case Server => this.(server := server + 1)
      case NewDevice => this.(newDevice := newDevice + 1)
      case OldDevice => this.(oldDevice := oldDevice + 1)
    }
  }

  datatype Scripts = Scripts(server: seq<Act>, newDevice: seq<Act>, oldDevice: seq<Act>) {
    function At(p: Party): seq<Act> {
      match p case Server => server case NewDevice => newDevice case OldDevice => oldDevice
    }
  }

  function SendsTo(acts: seq<Act>, to: Party): nat {
    if acts == [] then 0
    else SendsTo(acts[..|acts| - 1], to) + if acts[|acts| - 1] == Send(to) then 1 else 0
  }

  function RecvsFrom(acts: seq<Act>, from: Party): nat {
    if acts == [] then 0
    else RecvsFrom(acts[..|acts| - 1], from) + if acts[|acts| - 1] == Recv(from) then 1 else 0
  }

  /** Messages `f` has produced for `t` once at `pos`, and messages `t` has consumed from `f`. */
  function Produced(s: Scripts, pos: Pos, f: Party, t: Party): nat
    requires InScripts(s, pos)
  {
    SendsTo(s.At(f)[..pos.At(f)], t)
  }

  function Consumed(s: Scripts, pos: Pos, f: Party, t: Party): nat
    requires InScripts(s, pos)
  {
    RecvsFrom(s.At(t)[..pos.At(t)], f)
  }

  predicate InScripts(s: Scripts, pos: Pos) {
    pos.server <= |s.server| && pos.newDevice <= |s.newDevice| && pos.oldDevice <= |s.oldDevice|
  }

  predicate Finished(s: Scripts, pos: Pos, p: Party) {
    pos.At(p) == |s.At(p)|
  }

  /** Only sends are left in the script: nothing more is needed from anybody. */
  ghost predicate NeedsNothing(s: Scripts, pos: Pos, p: Party)
    requires InScripts(s, pos)
  {
    forall i :: pos.At(p) <= i < |s.At(p)| ==> s.At(p)[i].Send?
  }

  /** The next act of `p` is possible when every produced message is available at once. */
  predicate CanAct(s: Scripts, pos: Pos, p: Party)
    requires InScripts(s, pos)
  {
    && pos.At(p) < |s.At(p)|
    && (s.At(p)[pos.At(p)].Recv? ==>
          var f := s.At(p)[pos.At(p)].from;
          Produced(s, pos, f, p) > Consumed(s, pos, f, p))
  }

  /** `order` names, act after act, who moves; the whole of it can be played from `pos`. */
  predicate Playable(s: Scripts, pos: Pos, order: seq<Party>)
    decreases |order|
  {
    InScripts(s, pos) && (order != [] ==> CanAct(s, pos, order[0]) && Playable(s, pos.Advance(order[0]), order[1..]))
  }

  function Play(pos: Pos, order: seq<Party>): Pos
    decreases |order|
  {
    if order == [] then pos else Play(pos.Advance(order[0]), order[1..])
  }

  /**
   What is assumed of the add-share library:
   - nobody addresses or awaits itself;
   - some order of acts plays all three scripts to their end;
   - each old peer waits for at least one message from each other party;
   - each old peer waits for a message the new peer produces only after its own last receive
     (an old peer finishes only after the new peer has all it needs).
   */
  ghost predicate Contract(s: Scripts) {
    && (forall p: Party, i :: 0 <= i < |s.At(p)| ==> s.At(p)[i] != Send(p) && s.At(p)[i] != Recv(p))
    && (exists order :: Complete(s, order))
    && (forall p: Party, q: Party :: p != NewDevice && q != p ==> RecvsFrom(s.At(p), q) >= 1)
    && (forall p: Party :: p != NewDevice ==> NewPeerSpeaksLast(s, p))
  }

  ghost predicate Complete(s: Scripts, order: seq<Party>) {
    && Playable(s, Pos(0, 0, 0), order)
    && Play(Pos(0, 0, 0), order) == Pos(|s.server|, |s.newDevice|, |s.oldDevice|)
  }

  ghost predicate NewPeerSpeaksLast(s: Scripts, p: Party) {
    forall i :: 0 <= i < |s.newDevice| && s.newDevice[i].Recv? ==>
      SendsTo(s.newDevice[..i], p) < RecvsFrom(s.At(p), NewDevice)
  }

  // ---- Counting ----

  lemma CountStep(acts: seq<Act>, k: nat, q: Party)
    requires k < |acts|
    ensures SendsTo(acts[..k + 1], q) == SendsTo(acts[..k], q) + (if acts[k] == Send(q) then 1 else 0)
    ensures RecvsFrom(acts[..k + 1], q) == RecvsFrom(acts[..k], q) + (if acts[k] == Recv(q) then 1 else 0)
  {
    assert acts[..k + 1][..k] == acts[..k];
  }

  lemma {:induction false} CountMonotone(acts: seq<Act>, j: nat, k: nat, q: Party)
    requires j <= k <= |acts|
    ensures SendsTo(acts[..j], q) <= SendsTo(acts[..k], q)
    ensures RecvsFrom(acts[..j], q) <= RecvsFrom(acts[..k], q)
  {
    if j < k {
      CountMonotone(acts, j, k - 1, q);
      CountStep(acts, k - 1, q);
    }
  }

  // ---- Consequences of the contract ----

  /** An old peer that has finished has consumed something from everyone. */
  lemma FinishedHeardEveryone(s: Scripts, pos: Pos, p: Party, q: Party)
    requires Contract(s) && InScripts(s, pos)
    requires p != NewDevice && q != p && Finished(s, pos, p)
    ensures Consumed(s, pos, q, p) >= 1
  {
    assert s.At(p)[..pos.At(p)] == s.At(p);
  }

  /** When an old peer has finished, the new peer needs nothing more. */
  lemma OldPeersFinishAfterNew(s: Scripts, pos: Pos, p: Party)
    requires Contract(s) && InScripts(s, pos)
    requires p != NewDevice && Finished(s, pos, p)
    requires Consumed(s, pos, NewDevice, p) <= Produced(s, pos, NewDevice, p)
    ensures NeedsNothing(s, pos, NewDevice)
  {
    assert s.At(p)[..pos.At(p)] == s.At(p);
    forall i | pos.newDevice <= i < |s.newDevice| ensures s.newDevice[i].Send? {
      if s.newDevice[i].Recv? {
        assert NewPeerSpeaksLast(s, p);
        CountMonotone(s.newDevice, pos.newDevice, i, p);
      }
    }
  }

  /** Nobody can act although every produced message has been delivered. */
  ghost predicate Stuck(s: Scripts, pos: Pos)
    requires InScripts(s, pos)
  {
    forall p: Party :: !CanAct(s, pos, p)
  }

  lemma {:induction false} StuckIsAhead(s: Scripts, pos: Pos, sim: Pos, order: seq<Party>)
    requires InScripts(s, pos) && Stuck(s, pos) && Playable(s, sim, order)
    requires forall p: Party :: sim.At(p) <= pos.At(p)
    ensures forall p: Party :: Play(sim, order).At(p) <= pos.At(p)
    decreases |order|
  {
    if order != [] {
      var p := order[0];
      if sim.At(p) == pos.At(p) {
        assert !CanAct(s, pos, p);
        var f := s.At(p)[pos.At(p)].from;
        CountMonotone(s.At(f), sim.At(f), pos.At(f), p);
        assert false;
      }
      StuckIsAhead(s, pos, sim.Advance(p), order[1..]);
    }
  }

  /**
   Scripts that can be played to the end in one order cannot get stuck in any other: if nobody
   can act, everybody has finished.
   */
  lemma StuckMeansFinished(s: Scripts, pos: Pos)
    requires Contract(s) && InScripts(s, pos) && Stuck(s, pos)
    ensures forall p: Party :: Finished(s, pos, p)
  {
    var order :| Complete(s, order);
    StuckIsAhead(s, pos, Pos(0, 0, 0), order);
    var end := Play(Pos(0, 0, 0), order);
    assert end.At(Server) <= pos.server && end.At(NewDevice) <= pos.newDevice && end.At(OldDevice) <= pos.oldDevice;
  }
}
