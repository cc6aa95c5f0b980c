/**
 The client slots, with any ids: who is filed under an id after any schedule, exactly when
 a client that has not left is filed nowhere, and that it then stays so.
 */
module HubClients {
  import opened Common
  import opened HubDirectory
  import opened HubMachine
  import opened HubMembers
  import opened HubRefinement
  import opened HubDistinct

  /** The client filed under id in bastion b's current room. */
  ghost function ClientSlot(s: State, b: string, id: string): Option<ConnId> {
    if b in s.dir.current then SlotIn(s.dir.At(s.dir.current[b]), id) else None
  }

  function SlotIn(room: Room<ConnId>, id: string): Option<ConnId> {
    if id in room.clients then Some(room.clients[id]) else None
  }

  /** A client of b joins under id. */
  ghost predicate Files(s: State, l: Label, b: string, id: string) {
    l.Join? && Enabled(s, l) && l.role.Client? && l.bastion == b && l.id == id
  }

  /** A client of b with this id passes its room section in the current room: whoever is filed is taken out. */
  ghost predicate Evicts(s: State, l: Label, b: string, id: string) {
    l.Depart? && Enabled(s, l) && s.threads[l.c].conn == Conn(Client, b, id) && s.dir.Live(s.threads[l.c].pc.found)
  }

  ghost function Refiled(s: State, l: Label, b: string, id: string, before: Option<ConnId>): Option<ConnId> {
    if Files(s, l, b, id) then Some(l.c) else if Evicts(s, l, b, id) then None else before
  }

  /** The last client to join b under id, but for one since whose room section an id's owner has passed. */
  ghost function LastFiled(ls: seq<Label>, b: string, id: string): Option<ConnId> {
    if ls == [] then None
    else Refiled(Exec(ls[..|ls| - 1]), ls[|ls| - 1], b, id, LastFiled(ls[..|ls| - 1], b, id))
  }

  lemma FiledJoin(s: State, s': State, l: Label, b: string, id: string)
    requires l.Join? && Enabled(s, l) && BastionOk(s, l.bastion) && BastionOk(s, b) && Joined(s, s', l)
    ensures ClientSlot(s', b, id) == if Files(s, l, b, id) then Some(l.c) else ClientSlot(s, b, id)
  {
    if b != l.bastion && b in s.dir.current { assert s'.dir.At(s.dir.current[b]) == s.dir.At(s.dir.current[b]); }
  }

  lemma FiledExit(room: Room<ConnId>, c: ConnId, k: Conn, id: string)
    ensures SlotIn(Exit(room, c, k.role, k.id), id) == if k.role.Client? && k.id == id then None else SlotIn(room, id)
  {}

  lemma FiledDepart(s: State, c: ConnId, b: string, id: string)
    requires ThreadOk(s, c) && BastionOk(s, b) && Enabled(s, Depart(c))
    ensures ClientSlot(Fire(s, Depart(c)), b, id) == if Evicts(s, Depart(c), b, id) then None else ClientSlot(s, b, id)
  {
    var t := s.threads[c];
    DepartOwns(s, c);
    FiledExit(s.dir.At(t.pc.found), c, t.conn, id);
    assert t.pc.found < |s.dir.rooms|;
    assert Fire(s, Depart(c)).dir.At(t.pc.found) == Exit(s.dir.At(t.pc.found), c, t.conn.role, t.conn.id);
  }

  lemma FiledRecheck(s: State, s': State, c: ConnId, b: string, id: string)
    requires c in s.threads && s.threads[c].pc.Emptied? && Rechecked(s, s', c)
    ensures ClientSlot(s', b, id) == ClientSlot(s, b, id)
  {
    if b in s.dir.current && s.dir.At(s.dir.current[b]).Empty() {
      assert id !in s.dir.At(s.dir.current[b]).clients;
    }
  }

  lemma FiledStep(s: State, l: Label, b: string, id: string)
    requires Inv(s)
    ensures ClientSlot(Step(s, l), b, id) == Refiled(s, l, b, id, ClientSlot(s, b, id))
  {
    if Enabled(s, l) {
      assert BastionOk(s, b);
      match l
      case Join(_, _, bj, _) =>
        assert BastionOk(s, bj);
        JoinEffect(s, l);
        FiledJoin(s, Fire(s, l), l, b, id);
      case Depart(c) =>
        assert ThreadOk(s, c);
        FiledDepart(s, c, b, id);
      case Recheck(c) =>
        RecheckEffect(s, c);
        FiledRecheck(s, Fire(s, l), c, b, id);
      case Lookup(_) =>
      case _ => QuietEffect(s, l);
    }
  }

  /** After any schedule, whatever the ids, a slot holds whom the joins and room sections under its id say. */
  lemma {:induction false} FiledLast(ls: seq<Label>, b: string, id: string)
    ensures ClientSlot(Exec(ls), b, id) == LastFiled(ls, b, id)
  {
    if ls != [] {
      FiledLast(ls[..|ls| - 1], b, id);
      InvAlways(ls[..|ls| - 1]);
      FiledStep(Exec(ls[..|ls| - 1]), ls[|ls| - 1], b, id);
    }
  }

  // ---- A client from its join on ----

  /** c joins b under id at label n of the schedule. */
  ghost predicate FiledAt(ls: seq<Label>, n: nat, c: ConnId, b: string, id: string) {
    n < |ls| && Files(Exec(ls[..n]), ls[n], b, id) && ls[n].c == c
  }

  /** Since label n nobody has joined b under id, and no room section has taken the id out. */
  ghost predicate Undisturbed(ls: seq<Label>, n: nat, b: string, id: string) {
    forall m :: n < m < |ls| ==> !Disturbs(ls, m, b, id)
  }

  ghost predicate Disturbs(ls: seq<Label>, m: nat, b: string, id: string)
    requires m < |ls|
  {
    Files(Exec(ls[..m]), ls[m], b, id) || Evicts(Exec(ls[..m]), ls[m], b, id)
  }

  lemma FrontDisturbs(ls: seq<Label>, m: nat, b: string, id: string)
    requires m < |ls| - 1
    ensures Disturbs(ls[..|ls| - 1], m, b, id) == Disturbs(ls, m, b, id)
  {
    assert ls[..|ls| - 1][..m] == ls[..m];
  }

  lemma UndisturbedFront(ls: seq<Label>, n: nat, b: string, id: string)
    requires n < |ls| - 1
    ensures Undisturbed(ls, n, b, id) <==>
            Undisturbed(ls[..|ls| - 1], n, b, id) && !Disturbs(ls, |ls| - 1, b, id)
  {
    var front := ls[..|ls| - 1];
    forall m: nat | m < |front| ensures Disturbs(front, m, b, id) == Disturbs(ls, m, b, id) {
      FrontDisturbs(ls, m, b, id);
    }
    if Undisturbed(ls, n, b, id) {
      forall m | n < m < |front| ensures !Disturbs(front, m, b, id) { assert !Disturbs(ls, m, b, id); }
    }
    if Undisturbed(front, n, b, id) && !Disturbs(ls, |front|, b, id) {
      forall m | n < m < |ls| ensures !Disturbs(ls, m, b, id) {
        if m < |front| { assert !Disturbs(front, m, b, id); }
      }
    }
  }

  lemma ConnStays(s: State, l: Label, c: ConnId)
    requires c in s.threads
    ensures c in Step(s, l).threads && Step(s, l).threads[c].conn == s.threads[c].conn
    ensures Seated(Step(s, l), c) ==> Seated(s, c)
  {}

  /** Who a connection is does not change, and one that has passed its room section stays past it. */
  lemma {:induction false} ConnBefore(ls: seq<Label>, n: nat, c: ConnId)
    requires n <= |ls| && c in Exec(ls[..n]).threads
    ensures c in Exec(ls).threads && Exec(ls).threads[c].conn == Exec(ls[..n]).threads[c].conn
    ensures Seated(Exec(ls), c) ==> Seated(Exec(ls[..n]), c)
  {
    if n == |ls| {
      assert ls[..n] == ls;
    } else {
      var front := ls[..|ls| - 1];
      assert front[..n] == ls[..n];
      ConnBefore(front, n, c);
      ConnStays(Exec(front), ls[|ls| - 1], c);
    }
  }

  lemma JoinSeats(s: State, l: Label, c: ConnId, b: string, id: string)
    requires Files(s, l, b, id) && l.c == c
    ensures c in Step(s, l).threads && Step(s, l).threads[c].conn == Conn(Client, b, id)
  {}

  lemma JoinedHere(ls: seq<Label>, n: nat, c: ConnId, b: string, id: string)
    requires FiledAt(ls, n, c, b, id)
    ensures c in Exec(ls[..n + 1]).threads && Exec(ls[..n + 1]).threads[c].conn == Conn(Client, b, id)
  {
    JoinSeats(Exec(ls[..n]), ls[n], c, b, id);
    ExecThen(ls[..n], ls[n]);
    assert ls[..n + 1] == ls[..n] + [ls[n]];
  }

  lemma JoinedStays(ls: seq<Label>, n: nat, m: nat, c: ConnId, b: string, id: string)
    requires FiledAt(ls, n, c, b, id) && n < m <= |ls|
    ensures c in Exec(ls[..m]).threads && Exec(ls[..m]).threads[c].conn == Conn(Client, b, id)
  {
    JoinedHere(ls, n, c, b, id);
    var part := ls[..m];
    assert part[..n + 1] == ls[..n + 1];
    ConnBefore(part, n + 1, c);
  }

  /** Since its join a client is filed exactly as long as nothing has disturbed its id. */
  lemma {:induction false} FiledWhile(ls: seq<Label>, n: nat, c: ConnId, b: string, id: string)
    requires FiledAt(ls, n, c, b, id)
    ensures LastFiled(ls, b, id) == Some(c) <==> Undisturbed(ls, n, b, id)
  {
    var front, l := ls[..|ls| - 1], ls[|ls| - 1];
    if n < |front| {
      assert front[..n] == ls[..n];
      FiledWhile(front, n, c, b, id);
      JoinedStays(front, n, |front|, c, b, id);
      assert front[..|front|] == front;
      UndisturbedFront(ls, n, b, id);
    }
  }

  /**
   A client that joined at label n is filed under its id if and only if since then nobody
   has joined under it and no room section has taken it out, its own or another's.
   */
  lemma FiledExactly(ls: seq<Label>, n: nat, c: ConnId, b: string, id: string)
    requires FiledAt(ls, n, c, b, id)
    ensures ClientSlot(Exec(ls), b, id) == Some(c) <==> Undisturbed(ls, n, b, id)
  {
    FiledLast(ls, b, id);
    FiledWhile(ls, n, c, b, id);
  }

  /** A client that is in any room at all is in its slot. */
  lemma NowhereElse(s: State, c: ConnId, r: nat)
    requires Inv(s) && c in s.threads && s.threads[c].conn.role.Client? && Mentions(s.dir.At(r), c)
    ensures ClientSlot(s, s.threads[c].conn.bastion, s.threads[c].conn.id) == Some(c)
  {
    assert RoomOk(s, r) && ThreadOk(s, c);
    if c in s.dir.At(r).clients.Values {
      var id :| id in s.dir.At(r).clients && s.dir.At(r).clients[id] == c;
      assert Filed(s, r, id, s.dir.At(r).clients[id]);
    }
  }

  /** Once out of its slot a client is in no room, and never will be, though its read loop may go on. */
  lemma EvictedForever(ls: seq<Label>, more: seq<Label>, n: nat, c: ConnId, b: string, id: string)
    requires FiledAt(ls, n, c, b, id) && ClientSlot(Exec(ls), b, id) != Some(c)
    ensures forall r: nat :: !Mentions(Exec(ls + more).dir.At(r), c)
  {
    var all := ls + more;
    FiledExactly(ls, n, c, b, id);
    assert all[..n] == ls[..n];
    FiledExactly(all, n, c, b, id);
    var m :| n < m < |ls| && Disturbs(ls, m, b, id);
    assert all[..m] == ls[..m];
    assert Disturbs(all, m, b, id);
    JoinedStays(all, n, |all|, c, b, id);
    assert all[..|all|] == all;
    InvAlways(all);
    forall r: nat ensures !Mentions(Exec(all).dir.At(r), c) {
      if Mentions(Exec(all).dir.At(r), c) { NowhereElse(Exec(all), c, r); }
    }
  }

  // ---- The id asked for ----

  /** A client of b joins that asks for this id, "" being none, and has this address. */
  function JoinAs(c: ConnId, b: string, asked: string, address: nat): Label {
    Join(c, Client, b, EffectiveID(asked, address))
  }

  /** An id that is made up is "c-0x" and the client's address in hexadecimal, without leading zeros. */
  lemma MintedText(address: nat) returns (ds: seq<nat>)
    ensures
      var text := EffectiveID("", address);
      && |text| == 4 + |ds| && text[..4] == "c-0x"
      && (forall i :: 0 <= i < |ds| ==> ds[i] < 16 && text[4 + i] == "0123456789abcdef"[ds[i]])
      && Base16Value(ds) == address && ds != [] && (ds[0] == 0 ==> ds == [0])
  {
    ds := HexReads(address);
  }

  ghost predicate JoinsAt(ls: seq<Label>, n: nat, c: ConnId, b: string, asked: string, address: nat) {
    n < |ls| && ls[n] == JoinAs(c, b, asked, address) && Enabled(Exec(ls[..n]), ls[n])
  }

  /**
   A client that asks for an id is filed under that very id. If another asks for the same
   one later, that one has the slot from then on, if it has not left, and the first is in no room.
   */
  lemma SameIdTakesOver(ls: seq<Label>, n: nat, m: nat, c: ConnId, j: ConnId, b: string, asked: string,
                        address: nat, other: nat)
    requires asked != "" && n < m && JoinsAt(ls, n, c, b, asked, address) && JoinsAt(ls, m, j, b, asked, other)
    ensures ClientSlot(Exec(ls[..n + 1]), b, asked) == Some(c)
    ensures ClientSlot(Exec(ls[..m + 1]), b, asked) == Some(j)
    ensures ClientSlot(Exec(ls), b, asked) == Some(j) <==> Undisturbed(ls, m, b, asked)
    ensures forall r: nat :: !Mentions(Exec(ls).dir.At(r), c)
  {
    FiledThere(ls, n, c, b, asked);
    FiledThere(ls, m, j, b, asked);
    FiledExactly(ls, m, j, b, asked);
    assert Disturbs(ls, m, b, asked);
    FiledExactly(ls, n, c, b, asked);
    assert ls == ls + [];
    EvictedForever(ls, [], n, c, b, asked);
  }

  lemma FiledThere(ls: seq<Label>, n: nat, c: ConnId, b: string, id: string)
    requires FiledAt(ls, n, c, b, id)
    ensures ClientSlot(Exec(ls[..n + 1]), b, id) == Some(c)
  {
    var part := ls[..n + 1];
    assert part[..n] == ls[..n];
    FiledExactly(part, n, c, b, id);
  }

  /** Clients at different addresses that ask for none are filed apart, and neither disturbs the other. */
  lemma NoIdFiledApart(ls: seq<Label>, n: nat, m: nat, c: ConnId, j: ConnId, b: string, address: nat, other: nat)
    requires address != other && n < m && JoinsAt(ls, n, c, b, "", address) && JoinsAt(ls, m, j, b, "", other)
    ensures
      var id, id' := EffectiveID("", address), EffectiveID("", other);
      && id != id' && !Disturbs(ls, m, b, id)
      && (ClientSlot(Exec(ls), b, id) == Some(c) <==> Undisturbed(ls, n, b, id))
      && (ClientSlot(Exec(ls), b, id') == Some(j) <==> Undisturbed(ls, m, b, id'))
  {
    var id, id' := EffectiveID("", address), EffectiveID("", other);
    assert id[4..] == Hex(address) && id'[4..] == Hex(other);
    if id == id' { HexInjective(address, other); }
    FiledExactly(ls, n, c, b, id);
    FiledExactly(ls, m, j, b, id');
  }

  /** So two such clients that join one after the other are both members. */
  lemma BothMembers(ls: seq<Label>, c: ConnId, j: ConnId, b: string, address: nat, other: nat)
    requires address != other
    requires Enabled(Exec(ls), JoinAs(c, b, "", address))
    requires Enabled(Exec(ls + [JoinAs(c, b, "", address)]), JoinAs(j, b, "", other))
    ensures
      var s := Exec(ls + [JoinAs(c, b, "", address)] + [JoinAs(j, b, "", other)]);
      && ClientSlot(s, b, EffectiveID("", address)) == Some(c)
      && ClientSlot(s, b, EffectiveID("", other)) == Some(j)
  {
    var one := ls + [JoinAs(c, b, "", address)];
    var all := one + [JoinAs(j, b, "", other)];
    assert all[..|ls|] == ls && all[..|ls| + 1] == one;
    NoIdFiledApart(all, |ls|, |ls| + 1, c, j, b, address, other);
  }

  // ---- Clients whose id nobody shares ----

  /** While c is seated nobody else is under its bastion and id. */
  ghost predicate Alone(s: State, c: ConnId) {
    forall j :: SeatedClient(s, c) && SeatedClient(s, j) && s.threads[j].conn == s.threads[c].conn ==> j == c
  }

  lemma JoinNeedsOther(ls: seq<Label>, m: nat, c: ConnId, b: string, id: string)
    requires m < |ls| && Files(Exec(ls[..m]), ls[m], b, id)
    requires c in Exec(ls[..m]).threads && SeatedClient(Exec(ls[..m + 1]), c)
    requires Exec(ls[..m + 1]).threads[c].conn == Conn(Client, b, id)
    ensures !Alone(Exec(ls[..m + 1]), c)
  {
    ExecThen(ls[..m], ls[m]);
    assert ls[..m + 1] == ls[..m] + [ls[m]];
    assert SeatedClient(Exec(ls[..m + 1]), ls[m].c);
  }

  lemma EvictionNeedsOther(ls: seq<Label>, m: nat, c: ConnId, b: string, id: string)
    requires m < |ls| && Evicts(Exec(ls[..m]), ls[m], b, id)
    requires SeatedClient(Exec(ls[..m]), c) && SeatedClient(Exec(ls[..m + 1]), c)
    requires Exec(ls[..m]).threads[c].conn == Conn(Client, b, id)
    ensures !Alone(Exec(ls[..m]), c)
  {
    ExecThen(ls[..m], ls[m]);
    assert ls[..m + 1] == ls[..m] + [ls[m]];
    assert SeatedClient(Exec(ls[..m]), ls[m].c);
  }

  /** Only another client under its id disturbs a client that has not left. */
  lemma AloneUndisturbed(ls: seq<Label>, n: nat, c: ConnId, b: string, id: string)
    requires FiledAt(ls, n, c, b, id) && Seated(Exec(ls), c)
    requires forall m :: 0 <= m <= |ls| ==> Alone(Exec(ls[..m]), c)
    ensures Undisturbed(ls, n, b, id)
  {
    forall m: nat | n < m <= |ls|
      ensures SeatedClient(Exec(ls[..m]), c) && Exec(ls[..m]).threads[c].conn == Conn(Client, b, id)
    {
      JoinedStays(ls, n, m, c, b, id);
      ConnBefore(ls, m, c);
    }
    forall m: nat | n < m < |ls| ensures !Disturbs(ls, m, b, id) {
      if Files(Exec(ls[..m]), ls[m], b, id) {
        JoinNeedsOther(ls, m, c, b, id);
      } else if Evicts(Exec(ls[..m]), ls[m], b, id) {
        EvictionNeedsOther(ls, m, c, b, id);
      }
    }
  }

  lemma {:induction false} JoinOf(ls: seq<Label>, c: ConnId, b: string, id: string)
    requires c in Exec(ls).threads && Exec(ls).threads[c].conn == Conn(Client, b, id)
    ensures exists n: nat :: FiledAt(ls, n, c, b, id)
  {
    var front, l := ls[..|ls| - 1], ls[|ls| - 1];
    if c in Exec(front).threads {
      ConnStays(Exec(front), l, c);
      JoinOf(front, c, b, id);
      var n: nat :| FiledAt(front, n, c, b, id);
      assert front[..n] == ls[..n];
      assert FiledAt(ls, n, c, b, id);
    } else {
      JoinMade(Exec(front), l, c);
      assert FiledAt(ls, |front|, c, b, id);
    }
  }

  lemma JoinMade(s: State, l: Label, c: ConnId)
    requires c !in s.threads && c in Step(s, l).threads
    ensures l.Join? && Enabled(s, l) && l.c == c
    ensures Step(s, l).threads[c].conn == Conn(l.role, l.bastion, l.id)
  {}

  /**
   A client whose id nobody shares while it is seated is filed exactly while it is: from its
   join until its leave has passed its room section.
   */
  lemma ClientSlots(ls: seq<Label>, b: string, id: string, c: ConnId)
    requires forall n :: 0 <= n <= |ls| ==> Alone(Exec(ls[..n]), c)
    ensures ClientSlot(Exec(ls), b, id) == Some(c) <==>
            SeatedClient(Exec(ls), c) && Exec(ls).threads[c].conn == Conn(Client, b, id)
  {
    var s := Exec(ls);
    InvAlways(ls);
    assert BastionOk(s, b);
    if ClientSlot(s, b, id) == Some(c) {
      assert RoomOk(s, s.dir.current[b]) && Filed(s, s.dir.current[b], id, c) && ThreadOk(s, c);
    }
    if SeatedClient(s, c) && s.threads[c].conn == Conn(Client, b, id) {
      JoinOf(ls, c, b, id);
      var n: nat :| FiledAt(ls, n, c, b, id);
      AloneUndisturbed(ls, n, c, b, id);
      FiledExactly(ls, n, c, b, id);
    }
  }

  // ---- A client that reconnects before its old leave has run ----

  lemma SecondJoins(ls: seq<Label>)
    requires [Join(1, Client, "b", "x"), Join(2, Client, "b", "x")] <= ls
    ensures FiledAt(ls, 1, 2, "b", "x")
  {
    ExecThen([], ls[0]);
    assert ls[..1] == [] + [ls[0]];
  }

  /**
   The leave deletes by id: connection 2, still in its read loop, is then registered in no
   room, and never will be again.
   */
  lemma ReconnectEvicted(more: seq<Label>) returns (ls: seq<Label>)
    ensures 2 in Exec(ls).threads && Exec(ls).threads[2] == Thread(Conn(Client, "b", "x"), 0, Reading)
    ensures forall r: nat :: !Mentions(Exec(ls + more).dir.At(r), 2)
  {
    var before := TakenOver();
    ls := before + [Depart(1)];
    ExecThen(before, Depart(1));
    SecondJoins(ls);
    assert ClientSlot(Exec(ls), "b", "x") == None;
    EvictedForever(ls, more, 1, 2, "b", "x");
  }
}
