/**
 When client ids of overlapping connections differ, a leave takes effect exactly when it
 holds the room lock. With duplicate ids that fails, and this file says exactly when.
 */
module HubDistinct {
  import opened Common
  import opened HubDirectory
  import opened HubMachine
  import opened HubMembers
  import opened HubRefinement

  /** The flat directory, with every leave counted at its room section. */
  ghost function Direct(s: State): Flat {
    Flat(FlatDir(s.dir), map c | c in s.threads :: Entry(s.threads[c].conn, !Seated(s, c)))
  }

  /** No two clients of one bastion that have joined and not passed their room section share an id. */
  ghost predicate Distinct(s: State) {
    forall c, j :: SeatedClient(s, c) && SeatedClient(s, j) && c != j &&
                   s.threads[c].conn.bastion == s.threads[j].conn.bastion ==>
                   s.threads[c].conn.id != s.threads[j].conn.id
  }

  ghost predicate SeatedClient(s: State, c: ConnId) {
    c in s.threads && Seated(s, c) && s.threads[c].conn.role.Client?
  }

  /** The one operation, if any, that a label stands for. */
  ghost function OpOf(s: State, l: Label): Option<FlatOp> {
    if !Enabled(s, l) then None else
      match l
      case Join(c, role, b, id) => Some(FlatJoin(c, Conn(role, b, id)))
      case Lookup(c) => if s.threads[c].conn.bastion in s.dir.current then None else Some(FlatLeave(c))
      case Depart(c) => Some(FlatLeave(c))
      case _ => None
  }

  lemma DirectMembers(s: State, b: string)
    requires Inv(s)
    ensures Members(Direct(s), b) == if b in s.dir.current then s.dir.At(s.dir.current[b]) else FreshRoom(b)
  {
    MembersOf(s, b);
  }

  /** A daemon that has found a deleted room is in no slot of its bastion. */
  lemma StaleDaemon(s: State, c: ConnId)
    requires Inv(s) && Enabled(s, Depart(c)) && !s.dir.Live(s.threads[c].pc.found)
    ensures !Mentions(Members(Direct(s), s.threads[c].conn.bastion), c)
  {
    var b := s.threads[c].conn.bastion;
    assert ThreadOk(s, c) && BastionOk(s, b);
    DirectMembers(s, b);
    if Mentions(Members(Direct(s), b), c) { MentionedIsSeated(s, s.dir.current[b], c); }
  }

  lemma WhoMoved(s: State, s': State, c: ConnId)
    requires c in s.threads && c in s'.threads && s'.threads == Move(s, c, s'.threads[c].pc)
    ensures Direct(s').who == Direct(s).who[c := Entry(s.threads[c].conn, !Seated(s', c))]
  {
    forall j | j in s.threads && j != c ensures Seated(s', j) == Seated(s, j) {}
  }

  lemma DepartMoves(s: State, c: ConnId)
    requires Enabled(s, Depart(c))
    ensures
      var ts := Fire(s, Depart(c)).threads;
      c in ts && ts == Move(s, c, ts[c].pc) && (ts[c].pc.Emptied? || ts[c].pc.Gone?)
  {}

  lemma DepartDirect(s: State, c: ConnId)
    requires Enabled(s, Depart(c))
    ensures Direct(Fire(s, Depart(c))).who == Direct(s).who[c := Entry(s.threads[c].conn, true)]
  {
    var s' := Fire(s, Depart(c));
    DepartMoves(s, c);
    assert !Seated(s', c);
    WhoMoved(s, s', c);
  }

  lemma SeatedEntry(s: State, c: ConnId)
    requires c in s.threads && Seated(s, c)
    ensures FlatEnabled(Direct(s), FlatLeave(c))
  {}

  lemma LeaveLive(s: State, c: ConnId)
    requires Inv(s) && Enabled(s, Depart(c)) && s.dir.Live(s.threads[c].pc.found)
    ensures Takes(Direct(s), FlatLeave(c), Direct(Fire(s, Depart(c))))
  {
    var k, q := s.threads[c].conn, s.threads[c].pc.found;
    assert ThreadOk(s, c);
    SeatedEntry(s, c);
    DepartDirect(s, c);
    DirectMembers(s, k.bastion);
    RoomsApart(s);
    PutView(s.dir, k.bastion, Exit(s.dir.At(q), c, k.role, k.id));
  }

  lemma LeaveStale(s: State, c: ConnId)
    requires Inv(s) && Enabled(s, Depart(c)) && !s.dir.Live(s.threads[c].pc.found)
    ensures
      var k := s.threads[c].conn;
      Takes(Direct(s), FlatLeave(c), Direct(Fire(s, Depart(c)))) <==>
      Store(FlatDir(s.dir), k.bastion, Exit(Members(Direct(s), k.bastion), c, k.role, k.id)) == FlatDir(s.dir)
  {
    SeatedEntry(s, c);
    DepartDirect(s, c);
    DepartStale(s, c);
    assert Direct(Fire(s, Depart(c))).dir == FlatDir(s.dir);
  }

  /**
   A leave takes effect at its room section if and only if the room it found is still
   current, or it is a daemon's, or nobody is filed under its id any more.
   */
  lemma LeaveAtSection(s: State, c: ConnId)
    requires Inv(s) && Enabled(s, Depart(c))
    ensures
      var k := s.threads[c].conn;
      Takes(Direct(s), FlatLeave(c), Direct(Fire(s, Depart(c)))) <==>
      || s.dir.Live(s.threads[c].pc.found)
      || k.role.Daemon?
      || k.id !in Members(Direct(s), k.bastion).clients
  {
    var k := s.threads[c].conn;
    if s.dir.Live(s.threads[c].pc.found) {
      LeaveLive(s, c);
    } else {
      LeaveStale(s, c);
      StaleDaemon(s, c);
      StoreSame(s, k.bastion, c, k.role, k.id);
    }
  }

  lemma ExitSame(room: Room<ConnId>, c: ConnId, role: Role, id: string)
    ensures
      Exit(room, c, role, id) == room <==>
      match role
      case Daemon => room.daemon != Some(c)
      case Client => id !in room.clients
  {
    if role.Client? {
      if id in room.clients {
        assert id !in Exit(room, c, role, id).clients;
      } else {
        assert room.clients - {id} == room.clients;
      }
    }
  }

  lemma StoreExactly(dir: map<string, Room<ConnId>>, b: string, after: Room<ConnId>)
    requires b in dir ==> !dir[b].Empty()
    requires b !in dir ==> after.Empty()
    ensures Store(dir, b, after) == dir <==> (b in dir ==> after == dir[b])
  {
    if b in dir && after != dir[b] {
      var stored := Store(dir, b, after);
      assert b !in stored || stored[b] != dir[b];
    }
  }

  /** Taking a slot out of the flat directory changes it exactly when the slot was taken. */
  lemma StoreSame(s: State, b: string, c: ConnId, role: Role, id: string)
    requires Inv(s)
    ensures
      var room := Members(Direct(s), b);
      Store(FlatDir(s.dir), b, Exit(room, c, role, id)) == FlatDir(s.dir) <==>
      match role
      case Daemon => room.daemon != Some(c)
      case Client => id !in room.clients
  {
    var room := Members(Direct(s), b);
    var after := Exit(room, c, role, id);
    ExitSame(room, c, role, id);
    ExitEffect(room, c, Conn(role, b, id));
    StoreExactly(FlatDir(s.dir), b, after);
  }

  lemma SeatsStay(s: State, l: Label, j: ConnId)
    requires l.Join? && Enabled(s, l) && Joined(s, Fire(s, l), l) && j in s.threads
    ensures Seated(Fire(s, l), j) == Seated(s, j)
  {}

  lemma DirectJoinWho(s: State, l: Label)
    requires l.Join? && Enabled(s, l) && Joined(s, Fire(s, l), l)
    ensures Direct(Fire(s, l)).who == Direct(s).who[l.c := Entry(Conn(l.role, l.bastion, l.id), false)]
  {
    forall j | j in s.threads ensures Seated(Fire(s, l), j) == Seated(s, j) { SeatsStay(s, l, j); }
  }

  lemma DirectJoin(s: State, l: Label)
    requires Inv(s) && l.Join? && Enabled(s, l)
    ensures Takes(Direct(s), FlatJoin(l.c, Conn(l.role, l.bastion, l.id)), Direct(Fire(s, l)))
  {
    JoinEffect(s, l);
    DirectJoinWho(s, l);
    MembersOf(s, l.bastion);
    DirectMembers(s, l.bastion);
    JoinView(s, l.bastion, Enter(Members(Direct(s), l.bastion), l.c, l.role, l.id));
  }

  lemma SameSeats(s: State, s': State)
    requires s'.threads.Keys == s.threads.Keys
    requires forall j :: j in s.threads ==> s'.threads[j].conn == s.threads[j].conn && Seated(s', j) == Seated(s, j)
    ensures Direct(s').who == Direct(s).who
  {}

  lemma DirectMiss(s: State, c: ConnId)
    requires Enabled(s, Lookup(c)) && s.threads[c].conn.bastion !in s.dir.current
    ensures Takes(Direct(s), FlatLeave(c), Direct(Fire(s, Lookup(c))))
  {
    var s' := Fire(s, Lookup(c));
    WhoMoved(s, s', c);
    LeaveAbsent(Direct(s), c, Direct(s'));
  }

  lemma DirectHit(s: State, c: ConnId)
    requires Enabled(s, Lookup(c)) && s.threads[c].conn.bastion in s.dir.current
    ensures Direct(Fire(s, Lookup(c))) == Direct(s)
  {
    WhoMoved(s, Fire(s, Lookup(c)), c);
    assert Direct(s).who[c := Direct(s).who[c]] == Direct(s).who;
  }

  lemma DirectRecheck(s: State, c: ConnId)
    requires Enabled(s, Recheck(c))
    ensures Direct(Fire(s, Recheck(c))) == Direct(s)
  {
    SweepView(s.dir, s.threads[c].conn.bastion, s.threads[c].pc.found);
    SameSeats(s, Fire(s, Recheck(c)));
  }

  lemma DirectQuiet(s: State, l: Label)
    requires Enabled(s, l) && !l.Join? && !l.Lookup? && !l.Depart? && !l.Recheck?
    ensures Direct(Fire(s, l)) == Direct(s)
  {
    QuietEffect(s, l);
    var s' := Fire(s, l);
    forall j | j in s.threads ensures s'.threads[j].conn == s.threads[j].conn && Seated(s', j) == Seated(s, j) {
      assert StillIn(s.threads[j], s'.threads[j]);
    }
    SameSeats(s, s');
  }

  lemma DirectStep(s: State, l: Label)
    requires Inv(s) && Distinct(s)
    ensures match OpOf(s, l)
            case None => Direct(Step(s, l)) == Direct(s)
            case Some(op) => Takes(Direct(s), op, Direct(Step(s, l)))
  {
    if Enabled(s, l) {
      match l
      case Join(_, _, _, _) => DirectJoin(s, l);
      case Lookup(c) =>
        if s.threads[c].conn.bastion in s.dir.current { DirectHit(s, c); } else { DirectMiss(s, c); }
      case Depart(c) =>
        DistinctDepart(s, c);
        LeaveAtSection(s, c);
      case Recheck(c) => DirectRecheck(s, c);
      case _ => DirectQuiet(s, l);
    }
  }

  /** With distinct ids, whoever is filed under the leaver's id is the leaver, in the room it found. */
  lemma DistinctDepart(s: State, c: ConnId)
    requires Inv(s) && Distinct(s) && Enabled(s, Depart(c))
    ensures
      var k := s.threads[c].conn;
      s.dir.Live(s.threads[c].pc.found) || k.role.Daemon? || k.id !in Members(Direct(s), k.bastion).clients
  {
    var k := s.threads[c].conn;
    DirectMembers(s, k.bastion);
    if k.role.Client? && k.id in Members(Direct(s), k.bastion).clients {
      var r := s.dir.current[k.bastion];
      var j := s.dir.At(r).clients[k.id];
      assert RoomOk(s, r) && BastionOk(s, k.bastion) && Filed(s, r, k.id, j) && ThreadOk(s, j);
      assert SeatedClient(s, j) && SeatedClient(s, c);
    }
  }

  ghost function History(ls: seq<Label>): seq<FlatOp> {
    if ls == [] then [] else
      var front := ls[..|ls| - 1];
      match OpOf(Exec(front), ls[|ls| - 1])
      case None => History(front)
      case Some(op) => History(front) + [op]
  }

  /** With ids distinct throughout, the joins and room sections themselves are the flat run. */
  lemma {:induction false} DirectRefinement(ls: seq<Label>)
    requires forall n :: 0 <= n <= |ls| ==> Distinct(Exec(ls[..n]))
    ensures FlatRun(Flat(map[], map[]), History(ls), Direct(Exec(ls)))
  {
    if ls == [] {
      assert Direct(INIT) == Flat(map[], map[]);
      FlatRunNone(Direct(INIT));
    } else {
      var front, l := ls[..|ls| - 1], ls[|ls| - 1];
      assert forall n :: 0 <= n <= |front| ==> front[..n] == ls[..n];
      DirectRefinement(front);
      InvAlways(front);
      assert front == ls[..|ls| - 1];
      DirectStep(Exec(front), l);
      match OpOf(Exec(front), l)
      case None =>
      case Some(op) =>
        FlatRunOne(Direct(Exec(front)), op, Direct(Exec(ls)));
        FlatRunAppend(Flat(map[], map[]), History(front), Direct(Exec(front)), [op], Direct(Exec(ls)));
    }
  }

  // ---- Ids the relay makes are distinct ----

  ghost predicate Minted(ls: seq<Label>) {
    forall i :: 0 <= i < |ls| && ls[i].Join? && ls[i].role.Client? ==> ls[i].id == EffectiveID("", ls[i].c)
  }

  lemma {:induction false} MintedIds(ls: seq<Label>, c: ConnId)
    requires Minted(ls) && c in Exec(ls).threads && Exec(ls).threads[c].conn.role.Client?
    ensures Exec(ls).threads[c].conn.id == EffectiveID("", c)
  {
    var front, l := ls[..|ls| - 1], ls[|ls| - 1];
    if c in Exec(front).threads {
      MintedIds(front, c);
    }
    if l.Join? && Enabled(Exec(front), l) {
      InvAlways(front);
      JoinEffect(Exec(front), l);
    }
  }

  /** If every client leaves its id to the relay, ids are distinct in every reachable state. */
  lemma MintedAreDistinct(ls: seq<Label>)
    requires Minted(ls)
    ensures Distinct(Exec(ls))
  {
    var s := Exec(ls);
    forall c, j | SeatedClient(s, c) && SeatedClient(s, j) && s.threads[c].conn.id == s.threads[j].conn.id
      ensures c == j
    {
      MintedIds(ls, c);
      MintedIds(ls, j);
      assert s.threads[c].conn.id[4..] == Hex(c) && s.threads[j].conn.id[4..] == Hex(j);
      HexInjective(c, j);
    }
  }

  // ---- Duplicate ids: a leave that is not felt at its room section ----

  /** Connection 2 takes over the id of connection 1, whose leave then looks its room up. */
  lemma TakenOver() returns (ls: seq<Label>)
    ensures ls == [Join(1, Client, "b", "x"), Join(2, Client, "b", "x"), Lookup(1)]
    ensures Exec(ls) == INIT.(dir := Directory(map["b" := 0], [Room("b", None, map["x" := 2])]),
                              threads := map[1 := Thread(Conn(Client, "b", "x"), 0, Leaving(0)),
                                             2 := Thread(Conn(Client, "b", "x"), 0, Reading)])
  {
    var l1, l2 := Join(1, Client, "b", "x"), Join(2, Client, "b", "x");
    ExecThen([], l1);
    ExecThen([] + [l1], l2);
    ExecThen([] + [l1] + [l2], Lookup(1));
    ls := [] + [l1] + [l2] + [Lookup(1)];
    assert Exec([] + [l1]).dir == Directory(map["b" := 0], [Room("b", None, map["x" := 1])]);
    assert map["x" := 1 as ConnId]["x" := 2] == map["x" := 2];
    assert Exec([] + [l1] + [l2]).dir == Directory(map["b" := 0], [Room("b", None, map["x" := 2])]);
  }

  /** Connection 2 looks the room up as well. */
  lemma TwoLeavers() returns (ls: seq<Label>)
    ensures Exec(ls) == INIT.(dir := Directory(map["b" := 0], [Room("b", None, map["x" := 2])]),
                              threads := map[1 := Thread(Conn(Client, "b", "x"), 0, Leaving(0)),
                                             2 := Thread(Conn(Client, "b", "x"), 0, Leaving(0))])
  {
    ls := TakenOver();
    ExecThen(ls, Lookup(2));
    ls := ls + [Lookup(2)];
  }

  /** 2's leave deletes the room that 1's leave has found. */
  lemma SecondDeparts() returns (ls: seq<Label>)
    ensures Exec(ls) == INIT.(dir := Directory(map["b" := 0], [FreshRoom("b")]),
                              threads := map[1 := Thread(Conn(Client, "b", "x"), 0, Leaving(0)),
                                             2 := Thread(Conn(Client, "b", "x"), 0, Emptied(0))])
  {
    ls := TwoLeavers();
    ExecThen(ls, Depart(2));
    ls := ls + [Depart(2)];
    assert Exec(ls).dir == Directory(map["b" := 0], [FreshRoom("b")]);
  }

  lemma FirstLeaver() returns (ls: seq<Label>)
    ensures Exec(ls) == INIT.(dir := Directory(map[], [FreshRoom("b")]),
                              threads := map[1 := Thread(Conn(Client, "b", "x"), 0, Leaving(0)),
                                             2 := Thread(Conn(Client, "b", "x"), 0, Gone)])
  {
    ls := SecondDeparts();
    ExecThen(ls, Recheck(2));
    ls := ls + [Recheck(2)];
  }

  /** 3 then joins under the same id, in a new room. */
  lemma ThirdJoiner() returns (ls: seq<Label>)
    ensures Exec(ls) == INIT.(dir := Directory(map["b" := 1], [FreshRoom("b"), Room("b", None, map["x" := 3])]),
                              threads := map[1 := Thread(Conn(Client, "b", "x"), 0, Leaving(0)),
                                             2 := Thread(Conn(Client, "b", "x"), 0, Gone),
                                             3 := Thread(Conn(Client, "b", "x"), 1, Reading)])
  {
    var before := FirstLeaver();
    ExecThen(before, Join(3, Client, "b", "x"));
    ls := before + [Join(3, Client, "b", "x")];
    assert Exec(ls).dir == Directory(map["b" := 1], [FreshRoom("b"), Room("b", None, map["x" := 3])]);
  }

  /** So with duplicate ids some room section is not the flat leave: 3 stays, the flat leave evicts it. */
  lemma DuplicateIdsNeedHelp() returns (ls: seq<Label>, c: ConnId)
    ensures Enabled(Exec(ls), Depart(c))
    ensures !Takes(Direct(Exec(ls)), FlatLeave(c), Direct(Fire(Exec(ls), Depart(c))))
  {
    ls := ThirdJoiner();
    c := 1;
    InvAlways(ls);
    DirectMembers(Exec(ls), "b");
    LeaveAtSection(Exec(ls), c);
  }
}
