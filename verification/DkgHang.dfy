/**
 Exactly when key generation can hang. If the server's side of the library can finish while the
 client still waits for a message, the message may still be queued when the client answers the
 metadata; the answer stops the server's sender, and the client waits for ever — with the wallet
 already stored.
 */
module DkgHang {
  import opened DkgProtocol
  import opened DkgProgress

  // ---- Composing runs ----

  lemma {:induction false} RunThen(sc: DkgScripts, s: State, run: seq<Action>, a: Action)
    requires IsRun(sc, s, run) && Enabled(sc, After(sc, s, run), a)
    ensures IsRun(sc, s, run + [a]) && After(sc, s, run + [a]) == Step(sc, After(sc, s, run), a)
    decreases |run|
  {
    hide Enabled, Step;
    if run == [] {
      assert [] + [a] == [a] && [a][1..] == [];
    } else {
      RunThen(sc, Step(sc, s, run[0]), run[1..], a);
      assert (run + [a])[1..] == run[1..] + [a];
    }
  }

  /** The program reaches state `s` in a run without faults. */
  ghost predicate Reaches(sc: DkgScripts, s: State) {
    exists run :: IsRun(sc, INIT, run) && FaultFree(run) && After(sc, INIT, run) == s
  }

  lemma ReachesNext(sc: DkgScripts, s: State, a: Action)
    requires Reaches(sc, s) && Enabled(sc, s, a) && !IsFault(a)
    ensures Reaches(sc, Step(sc, s, a))
  {
    hide Enabled, Step;
    var run :| IsRun(sc, INIT, run) && FaultFree(run) && After(sc, INIT, run) == s;
    RunThen(sc, INIT, run, a);
    assert FaultFree(run + [a]);
  }

  // ---- A schedule that delivers a message only when its receiver waits for it ----

  function Lazy(sc: DkgScripts, p: DkgPos): State
    requires InScripts(sc, p)
  {
    var s, c := Consumed(sc, p, Server), Consumed(sc, p, Client);
    State(p, [], [], Processing, Running, false, false,
          Program(true, true, false, false, c, s), Program(true, true, false, false, s, c))
  }

  lemma LazyStart(sc: DkgScripts)
    ensures Reaches(sc, Lazy(sc, DkgPos(0, 0)))
  {
    hide Count;
    assert IsRun(sc, INIT, []) && After(sc, INIT, []) == INIT;
    ReachesNext(sc, INIT, Dial);
    var s1 := Step(sc, INIT, Dial);
    ReachesNext(sc, s1, Read(Server));
    var s2 := Step(sc, s1, Read(Server));
    ReachesNext(sc, s2, Handover);
    NothingYet(sc);
    assert Step(sc, s2, Handover) == Lazy(sc, DkgPos(0, 0));
  }

  lemma NothingYet(sc: DkgScripts)
    ensures Consumed(sc, DkgPos(0, 0), Server) == 0 && Consumed(sc, DkgPos(0, 0), Client) == 0
  {
    assert sc.server[..0] == [] && sc.client[..0] == [];
  }

  /** A send needs nothing; before a receive the other sender writes one message and the reader takes it. */
  lemma LazyStep(sc: DkgScripts, p: DkgPos, side: Side)
    requires InScripts(sc, p) && Reaches(sc, Lazy(sc, p))
    requires ActPossible(sc, p, side, Produced(sc, p, Other(side)))
    ensures InScripts(sc, p.Advance(side)) && Reaches(sc, Lazy(sc, p.Advance(side)))
  {
    hide Count, Reaches;
    var s := Lazy(sc, p);
    CountNext(sc.At(side), p.At(side), Recv);
    if sc.At(side)[p.At(side)].Send? {
      ReachesNext(sc, s, LibStep(side));
    } else {
      ReachesNext(sc, s, SenderWrite(Other(side)));
      var s1 := Step(sc, s, SenderWrite(Other(side)));
      ReachesNext(sc, s1, Read(side));
      var s2 := Step(sc, s1, Read(side));
      assert s2.toServer == [] && s2.toClient == [];
      ReachesNext(sc, s2, LibStep(side));
      assert Step(sc, s2, LibStep(side)) == Lazy(sc, p.Advance(side));
    }
  }

  lemma {:induction false} LazyPath(sc: DkgScripts, p: DkgPos, path: seq<Side>)
    requires InScripts(sc, p) && Reaches(sc, Lazy(sc, p)) && IsPath(sc, p, path)
    ensures InScripts(sc, EndOf(p, path)) && Reaches(sc, Lazy(sc, EndOf(p, path)))
    decreases |path|
  {
    hide Reaches, Lazy, ActPossible;
    if path != [] {
      LazyStep(sc, p, path[0]);
      LazyPath(sc, p.Advance(path[0]), path[1..]);
    }
  }

  lemma LazyReachable(sc: DkgScripts, p: DkgPos)
    requires ReachablePos(sc, p)
    ensures InScripts(sc, p) && Reaches(sc, Lazy(sc, p))
  {
    hide Reaches, Lazy;
    var path :| IsPath(sc, DkgPos(0, 0), path) && EndOf(DkgPos(0, 0), path) == p;
    LazyStart(sc);
    LazyPath(sc, DkgPos(0, 0), path);
  }

  // ---- The hang ----

  /** If the client still needs a message, it can be brought to the point of waiting for it. */
  lemma {:induction false} ClientComesToWait(sc: DkgScripts, p: DkgPos) returns (q: DkgPos)
    requires ReachablePos(sc, p) && InScripts(sc, p) && Finished(sc, p, Server) && !OnlySends(sc, p, Client)
    ensures ReachablePos(sc, q) && InScripts(sc, q) && Finished(sc, q, Server)
    ensures q.client < |sc.client| && sc.client[q.client].Recv?
    decreases |sc.client| - p.client
  {
    hide ReachablePos, Count;
    if sc.client[p.client].Recv? {
      q := p;
    } else {
      ReachableStep(sc, p, Client);
      q := ClientComesToWait(sc, p.Advance(Client));
    }
  }

  /** The server has returned with the wallet stored; the client waits for a message nobody will send. */
  function Hung(sc: DkgScripts, p: DkgPos): State
    requires InScripts(sc, p)
  {
    var s := Lazy(sc, p);
    s.(serverMain := ServerReturned, stored := true,
       server := s.server.(sender := false, closed := true),
       client := s.client.(reader := false, sender := false, closed := true, errs := true))
  }

  lemma ReachesHung(sc: DkgScripts, p: DkgPos)
    requires InScripts(sc, p) && Reaches(sc, Lazy(sc, p)) && Finished(sc, p, Server)
    ensures Reaches(sc, Hung(sc, p))
  {
    hide Count, Reaches, Produced, Consumed;
    var s0 := Lazy(sc, p);
    ReachesNext(sc, s0, TssDone(Server));
    var s1 := Step(sc, s0, TssDone(Server));
    ReachesNext(sc, s1, Store);
    var s2 := Step(sc, s1, Store);
    ReachesNext(sc, s2, Read(Client));
    var s3 := Step(sc, s2, Read(Client));
    ReachesNext(sc, s3, Read(Server));
    var s4 := Step(sc, s3, Read(Server));
    ReachesNext(sc, s4, SenderExit(Server));
    var s5 := Step(sc, s4, SenderExit(Server));
    ReachesNext(sc, s5, SenderExit(Client));
    var s6 := Step(sc, s5, SenderExit(Client));
    ReachesNext(sc, s6, ServerReturn);
    ReachesNext(sc, s6, ServerReturn);
    var s7 := Step(sc, s6, ServerReturn);
    ReachesNext(sc, s7, ReaderClosed(Client, true));
    assert Step(sc, s7, ReaderClosed(Client, true)) == Hung(sc, p);
  }

  lemma HungIsStuck(sc: DkgScripts, p: DkgPos)
    requires InScripts(sc, p) && p.client < |sc.client| && sc.client[p.client].Recv?
    ensures Stuck(sc, Hung(sc, p))
  {
    hide Count;
    forall a | Enabled(sc, Hung(sc, p), a)
      ensures IsFault(a)
    {
    }
  }

  /** A reachable state in which nothing can happen, the wallet is stored and the client never returns. */
  ghost predicate CanHang(sc: DkgScripts) {
    exists s :: Reaches(sc, s) && Stuck(sc, s) && s.stored && s.clientMain == Running
  }

  /** Every run without faults ends, and every run that cannot be continued has both sides returned. */
  ghost predicate AlwaysReturns(sc: DkgScripts) {
    forall s :: Reaches(sc, s) && Stuck(sc, s) ==> BothReturned(s)
  }

  lemma HangsUnlessServerFinishesLast(sc: DkgScripts)
    requires !ServerFinishesLast(sc)
    ensures CanHang(sc)
  {
    hide ReachablePos, Reaches, Stuck, Count, OnlySends;
    var p :| ReachablePos(sc, p) && InScripts(sc, p) && Finished(sc, p, Server) && !OnlySends(sc, p, Client);
    var q := ClientComesToWait(sc, p);
    LazyReachable(sc, q);
    ReachesHung(sc, q);
    HungIsStuck(sc, q);
  }

  /**
   For a library that never gets stuck itself: key generation always returns exactly when the server
   finishes last.
   */
  lemma AlwaysReturnsIff(sc: DkgScripts)
    requires NeverStuck(sc)
    ensures AlwaysReturns(sc) <==> ServerFinishesLast(sc)
    ensures CanHang(sc) <==> !ServerFinishesLast(sc)
  {
    hide NeverStuck, ServerFinishesLast, Stuck;
    if ServerFinishesLast(sc) {
      forall s | Reaches(sc, s) && Stuck(sc, s)
        ensures BothReturned(s)
      {
        ReturnedWhenStuck(sc, s);
      }
    } else {
      HangsUnlessServerFinishesLast(sc);
    }
  }

  lemma ReturnedWhenStuck(sc: DkgScripts, s: State)
    requires NeverStuck(sc) && ServerFinishesLast(sc) && Reaches(sc, s) && Stuck(sc, s)
    ensures BothReturned(s)
  {
    hide NeverStuck, ServerFinishesLast, Enabled;
    var run :| IsRun(sc, INIT, run) && FaultFree(run) && After(sc, INIT, run) == s;
    InitInv(sc);
    RunKeepsInv(sc, INIT, run);
    RunKeepsCalm(sc, INIT, run);
    hide Inv, Calm;
    if !BothReturned(s) {
      Progress(sc, s);
    }
  }

  // ---- Two libraries ----

  /** Both sides send and then wait: the usual last round. */
  const SYMMETRIC: DkgScripts := DkgScripts([Send, Recv], [Send, Recv])

  /** The client's message closes the protocol. */
  const CLIENT_FIRST: DkgScripts := DkgScripts([Send, Recv], [Recv, Send])

  lemma SymmetricRoundCanHang()
    ensures NeverStuck(SYMMETRIC) && CanHang(SYMMETRIC)
  {
    var sc := SYMMETRIC;
    SymmetricRoundNeverStuck();
    hide NeverStuck;
    StartReachable(sc);
    hide ReachablePos;
    CountsOf(sc);
    ReachableStep(sc, DkgPos(0, 0), Server);
    ReachableStep(sc, DkgPos(1, 0), Client);
    ReachableStep(sc, DkgPos(1, 1), Server);
    assert ReachablePos(sc, DkgPos(2, 1)) && !OnlySends(sc, DkgPos(2, 1), Client) by {
      assert sc.client[1].Recv?;
    }
    HangsUnlessServerFinishesLast(sc);
  }

  /** Positions of the symmetric round: nobody has received before the other has sent. */
  predicate Exchanging(p: DkgPos) {
    p.server <= 2 && p.client <= 2 && (p.server == 2 ==> p.client >= 1) && (p.client == 2 ==> p.server >= 1)
  }

  lemma ExchangingNext(p: DkgPos, side: Side)
    requires Exchanging(p)
    ensures var sc := SYMMETRIC;
            && InScripts(sc, p)
            && (ActPossible(sc, p, side, Produced(sc, p, Other(side))) ==> Exchanging(p.Advance(side)))
            && (p != DkgPos(2, 2) ==> ActPossible(sc, p, Server, Produced(sc, p, Client))
                                      || ActPossible(sc, p, Client, Produced(sc, p, Server)))
  {
    var sc := SYMMETRIC;
    CountNext(sc.server, 0, Send);
    CountNext(sc.server, 0, Recv);
    CountNext(sc.server, 1, Send);
    CountNext(sc.client, 0, Send);
    CountNext(sc.client, 0, Recv);
    CountNext(sc.client, 1, Send);
    assert sc.client[..0] == [] && sc.server[..0] == [];
    hide Count;
    assert Count([], Send) == 0 && Count([], Recv) == 0 by {
      EmptyCount();
    }
  }

  lemma {:induction false} ExchangingPath(p: DkgPos, path: seq<Side>)
    requires Exchanging(p) && InScripts(SYMMETRIC, p) && IsPath(SYMMETRIC, p, path)
    ensures Exchanging(EndOf(p, path))
    decreases |path|
  {
    hide ActPossible, Produced;
    if path != [] {
      ExchangingNext(p, path[0]);
      ExchangingPath(p.Advance(path[0]), path[1..]);
    }
  }

  /** The round itself never gets stuck when its messages are delivered: the hang is the program's. */
  lemma SymmetricRoundNeverStuck()
    ensures NeverStuck(SYMMETRIC)
  {
    var sc := SYMMETRIC;
    forall p | ReachablePos(sc, p)
      ensures Exchanging(p)
    {
      var path :| IsPath(sc, DkgPos(0, 0), path) && EndOf(DkgPos(0, 0), path) == p;
      ExchangingPath(DkgPos(0, 0), path);
    }
    hide ReachablePos, ActPossible, Produced;
    forall p | ReachablePos(sc, p) && p != DkgPos(2, 2)
      ensures ActPossible(sc, p, Server, Produced(sc, p, Client)) || ActPossible(sc, p, Client, Produced(sc, p, Server))
    {
      ExchangingNext(p, Server);
    }
  }

  lemma CountsOf(sc: DkgScripts)
    requires sc == SYMMETRIC
    ensures Produced(sc, DkgPos(1, 1), Client) == 1 && Consumed(sc, DkgPos(1, 1), Server) == 0
  {
    CountNext(sc.client, 0, Send);
    CountNext(sc.server, 0, Recv);
    assert sc.client[..0] == [] && sc.server[..0] == [];
  }

  /** The positions of the second library: each message in turn. */
  predicate InTurn(p: DkgPos) {
    p == DkgPos(0, 0) || p == DkgPos(1, 0) || p == DkgPos(1, 1) || p == DkgPos(1, 2) || p == DkgPos(2, 2)
  }

  lemma InTurnNext(p: DkgPos, side: Side)
    requires InTurn(p)
    ensures var sc := CLIENT_FIRST;
            && InScripts(sc, p)
            && (ActPossible(sc, p, side, Produced(sc, p, Other(side))) ==>
                  InTurn(p.Advance(side)) && InScripts(sc, p.Advance(side)))
            && (p != DkgPos(2, 2) ==>
                  || ActPossible(sc, p, Server, Produced(sc, p, Client))
                  || ActPossible(sc, p, Client, Produced(sc, p, Server)))
  {
    var sc := CLIENT_FIRST;
    CountNext(sc.server, 0, Send);
    CountNext(sc.server, 0, Recv);
    CountNext(sc.server, 1, Send);
    CountNext(sc.client, 0, Send);
    CountNext(sc.client, 0, Recv);
    CountNext(sc.client, 1, Send);
    assert sc.client[..0] == [] && sc.server[..0] == [];
    hide Count;
    assert Count([], Send) == 0 && Count([], Recv) == 0 by {
      EmptyCount();
    }
  }

  lemma EmptyCount()
    ensures Count([], Send) == 0 && Count([], Recv) == 0
  {
  }

  lemma {:induction false} InTurnPath(p: DkgPos, path: seq<Side>)
    requires InTurn(p) && InScripts(CLIENT_FIRST, p) && IsPath(CLIENT_FIRST, p, path)
    ensures InTurn(EndOf(p, path))
    decreases |path|
  {
    hide ActPossible, InTurn, Produced;
    if path != [] {
      InTurnNext(p, path[0]);
      InTurnPath(p.Advance(path[0]), path[1..]);
    }
  }

  lemma ClientFirstAlwaysReturns()
    ensures NeverStuck(CLIENT_FIRST) && ServerFinishesLast(CLIENT_FIRST) && AlwaysReturns(CLIENT_FIRST)
  {
    var sc := CLIENT_FIRST;
    forall p | ReachablePos(sc, p)
      ensures InTurn(p)
    {
      var path :| IsPath(sc, DkgPos(0, 0), path) && EndOf(DkgPos(0, 0), path) == p;
      InTurnPath(DkgPos(0, 0), path);
    }
    hide ReachablePos, ActPossible, Produced, Stuck, Reaches;
    forall p | ReachablePos(sc, p) && p != DkgPos(2, 2)
      ensures ActPossible(sc, p, Server, Produced(sc, p, Client)) || ActPossible(sc, p, Client, Produced(sc, p, Server))
    {
      InTurnNext(p, Server);
    }
    AlwaysReturnsIff(sc);
  }
}
