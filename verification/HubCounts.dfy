/** What the totals of the hub count: the connections registered, once each. */
module HubCounts {
  import opened Common
  import opened HubDirectory
  import opened HubMachine
  import opened HubMembers
  import opened HubRefinement
  import opened HubFrames
  import opened HubStats

  /** The connections of this role that are registered. */
  ghost function AllRegistered(s: State, role: Role): set<ConnId> {
    set c | c in s.threads && s.threads[c].conn.role == role && Registered(s, c)
  }

  /** A registered connection is in the slot of its bastion and id, or of its bastion. */
  lemma RegisteredExactly(s: State, c: ConnId)
    requires Inv(s) && c in s.threads
    ensures
      var k := s.threads[c].conn;
      Registered(s, c) <==> k.bastion in s.dir.current && Member(s.dir.At(s.dir.current[k.bastion]), c, k)
  {
    MembersOf(s, s.threads[c].conn.bastion);
  }

  lemma SlotHolder(s: State, b: string, id: string)
    requires Inv(s) && b in s.dir.current && id in s.dir.At(s.dir.current[b]).clients
    ensures
      var c := s.dir.At(s.dir.current[b]).clients[id];
      c in AllRegistered(s, Client) && s.threads[c].conn == Conn(Client, b, id)
  {
    var r := s.dir.current[b];
    var c := s.dir.At(r).clients[id];
    assert BastionOk(s, b) && RoomOk(s, r) && Filed(s, r, id, c) && ThreadOk(s, c);
    RegisteredExactly(s, c);
  }

  lemma ClientsCounted(s: State)
    requires Inv(s)
    ensures |Slots(s.dir, s.dir.current.Keys)| == |AllRegistered(s, Client)|
  {
    var slots := Slots(s.dir, s.dir.current.Keys);
    var f := map p | p in slots :: s.dir.At(s.dir.current[p.0]).clients[p.1];
    forall p | p in slots ensures f[p] in AllRegistered(s, Client) && s.threads[f[p]].conn == Conn(Client, p.0, p.1) {
      SlotHolder(s, p.0, p.1);
    }
    forall c | c in AllRegistered(s, Client) ensures c in f.Values {
      RegisteredExactly(s, c);
      var p := (s.threads[c].conn.bastion, s.threads[c].conn.id);
      assert p in slots && f[p] == c;
    }
    assert f.Values == AllRegistered(s, Client);
    SameSize(slots, AllRegistered(s, Client), f);
  }

  lemma DaemonHolder(s: State, b: string)
    requires Inv(s) && b in s.dir.current && s.dir.At(s.dir.current[b]).daemon.Some?
    ensures
      var c := s.dir.At(s.dir.current[b]).daemon.value;
      c in AllRegistered(s, Daemon) && s.threads[c].conn.bastion == b
  {
    var r := s.dir.current[b];
    var c := s.dir.At(r).daemon.value;
    assert BastionOk(s, b) && RoomOk(s, r) && ThreadOk(s, c);
    RegisteredExactly(s, c);
  }

  lemma DaemonsCounted(s: State)
    requires Inv(s)
    ensures |Manned(s.dir, s.dir.current.Keys)| == |AllRegistered(s, Daemon)|
  {
    var manned := Manned(s.dir, s.dir.current.Keys);
    var f := map b | b in manned :: s.dir.At(s.dir.current[b]).daemon.value;
    forall b | b in manned ensures f[b] in AllRegistered(s, Daemon) && s.threads[f[b]].conn.bastion == b {
      DaemonHolder(s, b);
    }
    forall c | c in AllRegistered(s, Daemon) ensures c in f.Values {
      RegisteredExactly(s, c);
      var b := s.threads[c].conn.bastion;
      assert b in manned && f[b] == c;
    }
    assert f.Values == AllRegistered(s, Daemon);
    SameSize(manned, AllRegistered(s, Daemon), f);
  }

  /** In every reachable state the totals are the rooms in the map and the registered connections of either role. */
  lemma TotalsRegistered(ls: seq<Label>)
    ensures
      var s := Exec(ls);
      Totals(s.dir) == Stats(|s.dir.current|, |AllRegistered(s, Daemon)|, |AllRegistered(s, Client)|)
  {
    InvAlways(ls);
    TotalsCount(Exec(ls).dir);
    ClientsCounted(Exec(ls));
    DaemonsCounted(Exec(ls));
  }

  /** What a stats call starts from is what was registered when it took the lock, and none of it counted yet. */
  lemma CountStarts(ls: seq<Label>, q: nat)
    requires Enabled(Exec(ls), StatsBegin(q))
    ensures
      var s, after := Exec(ls), Exec(ls + [StatsBegin(q)]);
      && q in after.stats && after.stats[q].Counting? && after.stats[q].out == Stats(0, 0, 0)
      && after.stats[q].start == Stats(|s.dir.current|, |AllRegistered(s, Daemon)|, |AllRegistered(s, Client)|)
  {
    TotalsRegistered(ls);
    ExecThen(ls, StatsBegin(q));
  }

  /** So with nobody in between a stats call reports exactly what is registered when it ends. */
  lemma CountEnds(ls: seq<Label>, q: nat)
    requires Enabled(Exec(ls), StatsEnd(q))
    ensures
      var s, k := Exec(ls), Exec(ls + [StatsEnd(q)]).stats[q];
      && k.Counted? && k.out == s.stats[q].out && k.start == s.stats[q].start
      && k.end == Stats(|s.dir.current|, |AllRegistered(s, Daemon)|, |AllRegistered(s, Client)|)
  {
    TotalsRegistered(ls);
    ExecThen(ls, StatsEnd(q));
  }
}
