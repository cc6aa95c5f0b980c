/**
 Stats is not a snapshot: leavers go on while it walks the rooms. What it reports lies
 between what was true when it gave the hub lock up and when it took it.
 */
module HubStats {
  import opened Common
  import opened HubDirectory
  import opened HubMachine
  import opened HubMembers

  /** out is on its way from start down to now: the rooms counted, and those in todo still to count. */
  ghost predicate Between(per: map<string, nat>, todo: set<string>, out: nat, start: nat) {
    && todo <= per.Keys
    && SumOver(per, per.Keys - todo) <= out
    && out + SumOver(per, todo) <= start
  }

  /** What has been and will be counted falls short of start by no more than the leavers that have left since. */
  ghost predicate Short(per: map<string, nat>, todo: set<string>, out: nat, start: nat, leavers: nat, now: nat)
    requires todo <= per.Keys
  {
    now <= leavers && start <= out + SumOver(per, todo) + leavers - now
  }

  ghost predicate StatsOk(s: State, q: nat) {
    q in s.stats ==>
      match s.stats[q]
      case Counting(todo, out, start, leavers) =>
        && start.openRooms == |s.dir.current| == out.openRooms + |todo|
        && Between(ClientsPer(s.dir), todo, out.openClientWs, start.openClientWs)
        && Between(DaemonsPer(s.dir), todo, out.roomsWithDaemon, start.roomsWithDaemon)
        && Short(ClientsPer(s.dir), todo, out.openClientWs, start.openClientWs, leavers.clients, |Leavers(s, Client)|)
        && Short(DaemonsPer(s.dir), todo, out.roomsWithDaemon, start.roomsWithDaemon,
                 leavers.daemons, |Leavers(s, Daemon)|)
      case Counted(out, start, leavers, end) => Bracketed(out, start, leavers, end)
  }

  ghost predicate Bracketed(out: Stats, start: Stats, leavers: Absent, end: Stats) {
    && out.openRooms == start.openRooms == end.openRooms
    && end.openClientWs <= out.openClientWs <= start.openClientWs <= out.openClientWs + leavers.clients
    && end.roomsWithDaemon <= out.roomsWithDaemon <= start.roomsWithDaemon <= out.roomsWithDaemon + leavers.daemons
  }

  ghost predicate AllStats(s: State) {
    forall q: nat {:trigger StatsOk(s, q)} :: StatsOk(s, q)
  }

  /** Taking a room from todo into out keeps the bounds. */
  lemma BetweenVisit(per: map<string, nat>, todo: set<string>, out: nat, start: nat, b: string)
    requires Between(per, todo, out, start) && b in todo
    ensures Between(per, todo - {b}, out + per[b], start)
    ensures SumOver(per, todo) == per[b] + SumOver(per, todo - {b})
  {
    SumTake(per, todo, b);
    var seen := per.Keys - (todo - {b});
    SumTake(per, seen, b);
    assert seen - {b} == per.Keys - todo;
  }

  /** So does a count that falls somewhere meanwhile. */
  lemma BetweenLower(per: map<string, nat>, per': map<string, nat>, todo: set<string>, out: nat, start: nat, b: string)
    requires Between(per, todo, out, start) && per'.Keys == per.Keys
    requires forall k :: k in per && k != b ==> per'[k] == per[k]
    requires b in per ==> per'[b] <= per[b] <= per'[b] + 1
    ensures Between(per', todo, out, start)
    ensures SumOver(per, todo) <= SumOver(per', todo) + 1
    ensures b !in per || per'[b] == per[b] ==> SumOver(per, todo) == SumOver(per', todo)
  {
    SumLower(per, per', per.Keys - todo, b);
    SumLower(per, per', todo, b);
    if b !in per || per'[b] == per[b] { SumSame(per, per', todo); }
  }

  /** d' differs from d in at most b's current room, which lost at most one slot. */
  ghost predicate Lower(d: Directory<ConnId>, d': Directory<ConnId>, b: string, role: Role) {
    && d'.current == d.current
    && (forall a :: a in d.current && a != b ==> d'.At(d.current[a]) == d.At(d.current[a]))
    && (b in d.current ==> LostOne(d.At(d.current[b]), d'.At(d.current[b]), role))
  }

  predicate LostOne(room: Room<ConnId>, after: Room<ConnId>, role: Role) {
    && |after.clients| <= |room.clients| <= |after.clients| + (if role.Client? then 1 else 0)
    && (after.daemon.Some? ==> room.daemon.Some?)
    && (role.Client? ==> after.daemon == room.daemon)
  }

  lemma ExitLosesOne(room: Room<ConnId>, c: ConnId, k: Conn)
    ensures LostOne(room, Exit(room, c, k.role, k.id), k.role)
  {
    if k.role.Client? {
      var after := room.clients - {k.id};
      if k.id in room.clients {
        assert after.Keys == room.clients.Keys - {k.id};
        assert |after.Keys| == |after| && |room.clients.Keys| == |room.clients|;
      } else {
        assert after == room.clients;
      }
    }
  }

  lemma DepartLower(s: State, c: ConnId)
    requires Inv(s) && Enabled(s, Depart(c))
    ensures Lower(s.dir, Fire(s, Depart(c)).dir, s.threads[c].conn.bastion, s.threads[c].conn.role)
  {
    var k, r := s.threads[c].conn, s.threads[c].pc.found;
    assert ThreadOk(s, c);
    ExitLosesOne(s.dir.At(r), c, k);
    forall a | a in s.dir.current && a != k.bastion ensures s.dir.current[a] != r { assert BastionOk(s, a); }
  }

  lemma LowerClients(d: Directory<ConnId>, d': Directory<ConnId>, b: string, role: Role,
                     todo: set<string>, out: nat, start: nat)
    requires Lower(d, d', b, role) && Between(ClientsPer(d), todo, out, start)
    ensures Between(ClientsPer(d'), todo, out, start)
    ensures SumOver(ClientsPer(d), todo) <= SumOver(ClientsPer(d'), todo) + (if role.Client? then 1 else 0)
  {
    BetweenLower(ClientsPer(d), ClientsPer(d'), todo, out, start, b);
  }

  lemma LowerDaemons(d: Directory<ConnId>, d': Directory<ConnId>, b: string, role: Role,
                     todo: set<string>, out: nat, start: nat)
    requires Lower(d, d', b, role) && Between(DaemonsPer(d), todo, out, start)
    ensures Between(DaemonsPer(d'), todo, out, start)
    ensures SumOver(DaemonsPer(d), todo) <= SumOver(DaemonsPer(d'), todo) + (if role.Daemon? then 1 else 0)
  {
    BetweenLower(DaemonsPer(d), DaemonsPer(d'), todo, out, start, b);
  }

  lemma LeaversAfter(s: State, c: ConnId, role: Role)
    requires Enabled(s, Depart(c))
    ensures Leavers(Fire(s, Depart(c)), role) == Leavers(s, role) - {c}
    ensures c in Leavers(s, role) <==> s.threads[c].conn.role == role
  {
    var s' := Fire(s, Depart(c));
    forall j | j in s.threads && j != c ensures j in Leavers(s', role) <==> j in Leavers(s, role) {
      assert s'.threads[j] == s.threads[j];
    }
  }

  lemma DepartLeavers(s: State, c: ConnId, role: Role)
    requires Enabled(s, Depart(c))
    ensures |Leavers(Fire(s, Depart(c)), role)| == |Leavers(s, role)| - if s.threads[c].conn.role == role then 1 else 0
  {
    LeaversAfter(s, c, role);
    if s.threads[c].conn.role != role { assert Leavers(s, role) - {c} == Leavers(s, role); }
  }

  lemma DepartStats(s: State, c: ConnId, q: nat)
    requires Inv(s) && Enabled(s, Depart(c)) && StatsOk(s, q)
    ensures StatsOk(Fire(s, Depart(c)), q)
  {
    var s' := Fire(s, Depart(c));
    var b, role := s.threads[c].conn.bastion, s.threads[c].conn.role;
    DepartLower(s, c);
    DepartLeavers(s, c, Client);
    DepartLeavers(s, c, Daemon);
    if q in s.stats && s.stats[q].Counting? {
      var k := s.stats[q];
      LowerClients(s.dir, s'.dir, b, role, k.todo, k.out.openClientWs, k.start.openClientWs);
      LowerDaemons(s.dir, s'.dir, b, role, k.todo, k.out.roomsWithDaemon, k.start.roomsWithDaemon);
    }
  }

  lemma SameThreads(s: State, s': State)
    requires s'.threads == s.threads
    ensures LeaversNow(s') == LeaversNow(s)
  {
    assert Leavers(s', Client) == Leavers(s, Client) && Leavers(s', Daemon) == Leavers(s, Daemon);
  }

  lemma VisitStats(s: State, q: nat, b: string, j: nat)
    requires Enabled(s, StatsVisit(q, b)) && StatsOk(s, j)
    ensures StatsOk(Fire(s, StatsVisit(q, b)), j)
  {
    SameThreads(s, Fire(s, StatsVisit(q, b)));
    if j == q {
      var k := s.stats[q];
      BetweenVisit(ClientsPer(s.dir), k.todo, k.out.openClientWs, k.start.openClientWs, b);
      BetweenVisit(DaemonsPer(s.dir), k.todo, k.out.roomsWithDaemon, k.start.roomsWithDaemon, b);
    }
  }

  /** Before anything is counted all is still to count. */
  lemma BetweenStart(per: map<string, nat>)
    ensures Between(per, per.Keys, 0, SumOver(per, per.Keys))
  {
    assert per.Keys - per.Keys == {};
  }

  lemma BeginStats(s: State, q: nat, j: nat)
    requires Enabled(s, StatsBegin(q)) && StatsOk(s, j)
    ensures StatsOk(Fire(s, StatsBegin(q)), j)
  {
    SameThreads(s, Fire(s, StatsBegin(q)));
    assert ClientsPer(s.dir).Keys == DaemonsPer(s.dir).Keys == s.dir.current.Keys;
    BetweenStart(ClientsPer(s.dir));
    BetweenStart(DaemonsPer(s.dir));
    assert |s.dir.current.Keys| == |s.dir.current|;
  }

  /** With nothing left to count the count lies between now and the start. */
  lemma BetweenEnd(per: map<string, nat>, out: nat, start: nat)
    requires Between(per, {}, out, start)
    ensures SumOver(per, per.Keys) <= out <= start && SumOver(per, {}) == 0
  {
    assert per.Keys - {} == per.Keys;
  }

  lemma EndStats(s: State, q: nat, j: nat)
    requires Enabled(s, StatsEnd(q)) && StatsOk(s, j)
    ensures StatsOk(Fire(s, StatsEnd(q)), j)
  {
    SameThreads(s, Fire(s, StatsEnd(q)));
    if j == q {
      var k := s.stats[q];
      assert ClientsPer(s.dir).Keys == DaemonsPer(s.dir).Keys == s.dir.current.Keys;
      BetweenEnd(ClientsPer(s.dir), k.out.openClientWs, k.start.openClientWs);
      BetweenEnd(DaemonsPer(s.dir), k.out.roomsWithDaemon, k.start.roomsWithDaemon);
    }
  }

  /** Steps of the read loop move no leaver; the others wait for the hub lock. */
  lemma OtherStats(s: State, l: Label, q: nat)
    requires Enabled(s, l) && StatsOk(s, q) && !l.Depart? && !l.StatsBegin? && !l.StatsVisit? && !l.StatsEnd?
    ensures StatsOk(Fire(s, l), q)
  {
    if q in s.stats && s.stats[q].Counting? {
      match l
      case Read(c, _) => SameLeavers(s, Fire(s, l), c);
      case Snapshot(c) => SameLeavers(s, Fire(s, l), c);
      case Write(c, _, _) => SameLeavers(s, Fire(s, l), c);
      case _ =>
    }
  }

  lemma SameLeavers(s: State, s': State, c: ConnId)
    requires c in s.threads && !s.threads[c].pc.Leaving?
    requires c in s'.threads && !s'.threads[c].pc.Leaving? && s'.threads == Move(s, c, s'.threads[c].pc)
    ensures LeaversNow(s') == LeaversNow(s)
  {
    assert Leavers(s', Client) == Leavers(s, Client) && Leavers(s', Daemon) == Leavers(s, Daemon);
  }

  lemma StatsStep(s: State, l: Label)
    requires Inv(s) && AllStats(s)
    ensures AllStats(Step(s, l))
  {
    if Enabled(s, l) {
      forall j: nat ensures StatsOk(Fire(s, l), j) {
        assert StatsOk(s, j);
        match l
        case Depart(c) => DepartStats(s, c, j);
        case StatsBegin(q) => BeginStats(s, q, j);
        case StatsVisit(q, b) => VisitStats(s, q, b, j);
        case StatsEnd(q) => EndStats(s, q, j);
        case _ => OtherStats(s, l, j);
      }
    }
  }

  lemma {:induction false} StatsAlways(ls: seq<Label>)
    ensures AllStats(Exec(ls))
  {
    if ls != [] {
      StatsAlways(ls[..|ls| - 1]);
      InvAlways(ls[..|ls| - 1]);
      StatsStep(Exec(ls[..|ls| - 1]), ls[|ls| - 1]);
    }
  }

  /**
   A finished stats call saw every room, and between its end and its start as many clients
   and daemons; it missed no more of either than there were leavers past their lookup.
   */
  lemma StatsBracketed(ls: seq<Label>, q: nat)
    requires q in Exec(ls).stats && Exec(ls).stats[q].Counted?
    ensures
      var k := Exec(ls).stats[q];
      && k.out.openRooms == k.start.openRooms == k.end.openRooms
      && k.end.openClientWs <= k.out.openClientWs <= k.start.openClientWs <= k.out.openClientWs + k.leavers.clients
      && k.end.roomsWithDaemon <= k.out.roomsWithDaemon
      && k.out.roomsWithDaemon <= k.start.roomsWithDaemon <= k.out.roomsWithDaemon + k.leavers.daemons
  {
    StatsAlways(ls);
    assert StatsOk(Exec(ls), q);
  }

  lemma FrozenStep(s: State, l: Label, q: nat)
    requires q in s.stats && s.stats[q].Counting? && Enabled(s, l)
    ensures Fire(s, l).dir.current == s.dir.current
  {
    assert !NoReader(s);
    match l
    case Depart(c) => DepartOwns(s, c);
    case _ => QuietEffect(s, l);
  }

  /** While a stats call runs the hub map does not change. */
  lemma MapFrozen(ls: seq<Label>, l: Label, q: nat)
    requires q in Exec(ls).stats && Exec(ls).stats[q].Counting?
    ensures Exec(ls + [l]).dir.current == Exec(ls).dir.current
    ensures |Exec(ls).dir.current| == Exec(ls).stats[q].start.openRooms
  {
    ExecThen(ls, l);
    StatsAlways(ls);
    assert StatsOk(Exec(ls), q);
    if Enabled(Exec(ls), l) { FrozenStep(Exec(ls), l, q); }
  }
}
