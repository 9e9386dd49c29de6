/**
 The contract assumed of the library can be met: a one-round share addition keeps it. The old
 peers hand their parts to the new peer and to each other; the new peer closes with a proof.
 */
module OneRoundAddShare {
  import opened StarRouting
  import opened TssLibrary

  function OneRoundScripts(): Scripts {
    Scripts(
      [Send(NewDevice), Send(OldDevice), Recv(OldDevice), Recv(NewDevice)],
      [Recv(Server), Recv(OldDevice), Send(Server), Send(OldDevice)],
      [Send(NewDevice), Send(Server), Recv(Server), Recv(NewDevice)])
  }

  /** One more act in front of a playable order. */
  lemma PlayOneMore(s: Scripts, pos: Pos, p: Party, rest: seq<Party>)
    requires InScripts(s, pos) && CanAct(s, pos, p) && Playable(s, pos.Advance(p), rest)
    ensures Playable(s, pos, [p] + rest) && Play(pos, [p] + rest) == Play(pos.Advance(p), rest)
  {
    assert ([p] + rest)[1..] == rest;
  }

  /** The counts of a script of four acts. */
  lemma CountFour(a: seq<Act>, q: Party)
    requires |a| == 4
    ensures SendsTo(a[..0], q) == 0 && RecvsFrom(a[..0], q) == 0
    ensures forall i :: 0 <= i < 4 ==>
              && SendsTo(a[..i + 1], q) == SendsTo(a[..i], q) + (if a[i] == Send(q) then 1 else 0)
              && RecvsFrom(a[..i + 1], q) == RecvsFrom(a[..i], q) + (if a[i] == Recv(q) then 1 else 0)
  {
    forall i | 0 <= i < 4
      ensures SendsTo(a[..i + 1], q) == SendsTo(a[..i], q) + (if a[i] == Send(q) then 1 else 0)
      ensures RecvsFrom(a[..i + 1], q) == RecvsFrom(a[..i], q) + (if a[i] == Recv(q) then 1 else 0)
    {
      CountStep(a, i, q);
    }
  }

  lemma ServerCounts()
    ensures var a := OneRoundScripts().server;
            && SendsTo(a[..0], NewDevice) == 0 && RecvsFrom(a[..0], NewDevice) == 0
            && SendsTo(a[..1], NewDevice) == 1 && RecvsFrom(a[..1], NewDevice) == 0
            && SendsTo(a[..2], NewDevice) == 1 && RecvsFrom(a[..2], NewDevice) == 0
            && SendsTo(a[..3], NewDevice) == 1 && RecvsFrom(a[..3], NewDevice) == 0
            && SendsTo(a[..4], NewDevice) == 1 && RecvsFrom(a[..4], NewDevice) == 1
            && SendsTo(a[..0], OldDevice) == 0 && RecvsFrom(a[..0], OldDevice) == 0
            && SendsTo(a[..1], OldDevice) == 0 && RecvsFrom(a[..1], OldDevice) == 0
            && SendsTo(a[..2], OldDevice) == 1 && RecvsFrom(a[..2], OldDevice) == 0
            && SendsTo(a[..3], OldDevice) == 1 && RecvsFrom(a[..3], OldDevice) == 1
            && SendsTo(a[..4], OldDevice) == 1 && RecvsFrom(a[..4], OldDevice) == 1
  {
    hide SendsTo, RecvsFrom;
    CountFour(OneRoundScripts().server, NewDevice);
    CountFour(OneRoundScripts().server, OldDevice);
  }

  lemma NewDeviceCounts()
    ensures var a := OneRoundScripts().newDevice;
            && SendsTo(a[..0], Server) == 0 && RecvsFrom(a[..0], Server) == 0
            && SendsTo(a[..1], Server) == 0 && RecvsFrom(a[..1], Server) == 1
            && SendsTo(a[..2], Server) == 0 && RecvsFrom(a[..2], Server) == 1
            && SendsTo(a[..3], Server) == 1 && RecvsFrom(a[..3], Server) == 1
            && SendsTo(a[..4], Server) == 1 && RecvsFrom(a[..4], Server) == 1
            && SendsTo(a[..0], OldDevice) == 0 && RecvsFrom(a[..0], OldDevice) == 0
            && SendsTo(a[..1], OldDevice) == 0 && RecvsFrom(a[..1], OldDevice) == 0
            && SendsTo(a[..2], OldDevice) == 0 && RecvsFrom(a[..2], OldDevice) == 1
            && SendsTo(a[..3], OldDevice) == 0 && RecvsFrom(a[..3], OldDevice) == 1
            && SendsTo(a[..4], OldDevice) == 1 && RecvsFrom(a[..4], OldDevice) == 1
  {
    hide SendsTo, RecvsFrom;
    CountFour(OneRoundScripts().newDevice, Server);
    CountFour(OneRoundScripts().newDevice, OldDevice);
  }

  lemma OldDeviceCounts()
    ensures var a := OneRoundScripts().oldDevice;
            && SendsTo(a[..0], Server) == 0 && RecvsFrom(a[..0], Server) == 0
            && SendsTo(a[..1], Server) == 0 && RecvsFrom(a[..1], Server) == 0
            && SendsTo(a[..2], Server) == 1 && RecvsFrom(a[..2], Server) == 0
            && SendsTo(a[..3], Server) == 1 && RecvsFrom(a[..3], Server) == 1
            && SendsTo(a[..4], Server) == 1 && RecvsFrom(a[..4], Server) == 1
            && SendsTo(a[..0], NewDevice) == 0 && RecvsFrom(a[..0], NewDevice) == 0
            && SendsTo(a[..1], NewDevice) == 1 && RecvsFrom(a[..1], NewDevice) == 0
            && SendsTo(a[..2], NewDevice) == 1 && RecvsFrom(a[..2], NewDevice) == 0
            && SendsTo(a[..3], NewDevice) == 1 && RecvsFrom(a[..3], NewDevice) == 0
            && SendsTo(a[..4], NewDevice) == 1 && RecvsFrom(a[..4], NewDevice) == 1
  {
    hide SendsTo, RecvsFrom;
    CountFour(OneRoundScripts().oldDevice, Server);
    CountFour(OneRoundScripts().oldDevice, NewDevice);
  }

  lemma PlayFrom6() returns (order: seq<Party>)
    ensures Playable(OneRoundScripts(), Pos(3, 0, 3), order)
    ensures Play(Pos(3, 0, 3), order) == Pos(4, 4, 4)
  {
    hide SendsTo, RecvsFrom;
    var s := OneRoundScripts();
    ServerCounts();
    NewDeviceCounts();
    OldDeviceCounts();
    order := [];
    PlayOneMore(s, Pos(4, 4, 3), OldDevice, order);
    order := [OldDevice] + order;
    PlayOneMore(s, Pos(3, 4, 3), Server, order);
    order := [Server] + order;
    PlayOneMore(s, Pos(3, 3, 3), NewDevice, order);
    order := [NewDevice] + order;
    PlayOneMore(s, Pos(3, 2, 3), NewDevice, order);
    order := [NewDevice] + order;
    PlayOneMore(s, Pos(3, 1, 3), NewDevice, order);
    order := [NewDevice] + order;
    PlayOneMore(s, Pos(3, 0, 3), NewDevice, order);
    order := [NewDevice] + order;
  }

  lemma PlayFrom0() returns (order: seq<Party>)
    ensures Playable(OneRoundScripts(), Pos(0, 0, 0), order)
    ensures Play(Pos(0, 0, 0), order) == Pos(4, 4, 4)
  {
    hide SendsTo, RecvsFrom, Play, Playable;
    var s := OneRoundScripts();
    ServerCounts();
    NewDeviceCounts();
    OldDeviceCounts();
    order := PlayFrom6();
    PlayOneMore(s, Pos(3, 0, 2), OldDevice, order);
    order := [OldDevice] + order;
    PlayOneMore(s, Pos(2, 0, 2), Server, order);
    order := [Server] + order;
    PlayOneMore(s, Pos(2, 0, 1), OldDevice, order);
    order := [OldDevice] + order;
    PlayOneMore(s, Pos(2, 0, 0), OldDevice, order);
    order := [OldDevice] + order;
    PlayOneMore(s, Pos(1, 0, 0), Server, order);
    order := [Server] + order;
    PlayOneMore(s, Pos(0, 0, 0), Server, order);
    order := [Server] + order;
  }

  /** The assumptions about the library can be met. */
  lemma OneRoundMeetsContract()
    ensures Contract(OneRoundScripts())
  {
    hide Play, Playable, SendsTo, RecvsFrom;
    var s := OneRoundScripts();
    var order := PlayFrom0();
    assert Complete(s, order);
    ServerCounts();
    NewDeviceCounts();
    OldDeviceCounts();
    assert s.server[..4] == s.server && s.oldDevice[..4] == s.oldDevice;
  }
}
