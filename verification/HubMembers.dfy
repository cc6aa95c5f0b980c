/**
 Who is registered where, over every interleaving: retired rooms stay empty, no empty
 room outlives the leavers that emptied it, no connection is registered after its leave,
 and a daemon slot holds the latest daemon or nothing.
 */
module HubMembers {
  import opened Common
  import opened HubDirectory
  import opened HubMachine

  /** c may be registered in room r: it captured r, and its leave has not passed r's lock. */
  ghost predicate Entitled(s: State, c: ConnId, r: nat, role: Role) {
    && c in s.threads
    && s.threads[c].room == r
    && s.threads[c].conn.role == role
    && (s.threads[c].Staying() || s.threads[c].pc == Leaving(r))
  }

  ghost predicate Filed(s: State, r: nat, id: string, c: ConnId) {
    Entitled(s, c, r, Client) && s.threads[c].conn.id == id
  }

  /** Only entitled connections are members, and a room outside the hub map has none. */
  ghost predicate RoomOk(s: State, r: nat)
  {
    var room := s.dir.At(r);
    && (room.daemon.Some? ==> Entitled(s, room.daemon.value, r, Daemon))
    && (forall id {:trigger Filed(s, r, id, room.clients[id])} :: id in room.clients ==>
          Filed(s, r, id, room.clients[id]))
    && (!s.dir.Live(r) ==> room.Empty())
  }

  /** Every room a thread knows of was made, and belongs to its bastion. */
  ghost predicate ThreadOk(s: State, c: ConnId) {
    c in s.threads ==>
      var t := s.threads[c];
      && Owns(s, t.room, t.conn.bastion)
      && (t.pc.Leaving? || t.pc.Emptied? ==> Owns(s, t.pc.found, t.conn.bastion))
  }

  ghost predicate Owns(s: State, r: nat, b: string) {
    r < |s.dir.rooms| && s.dir.rooms[r].bastion == b
  }

  /** Some leaver has seen r empty and is about to recheck it. */
  ghost predicate Owed(s: State, r: nat) {
    exists c :: c in s.threads && s.threads[c].pc == Emptied(r)
  }

  ghost predicate BastionOk(s: State, b: string) {
    b in s.dir.current ==>
      && Owns(s, s.dir.current[b], b)
      && (s.dir.At(s.dir.current[b]).Empty() ==> Owed(s, s.dir.current[b]))
  }

  ghost predicate Inv(s: State) {
    && (forall r: nat {:trigger RoomOk(s, r)} :: RoomOk(s, r))
    && (forall c: ConnId {:trigger ThreadOk(s, c)} :: ThreadOk(s, c))
    && (forall b: string {:trigger BastionOk(s, b)} :: BastionOk(s, b))
  }

  /** A witness for Owed survives every step but its own. */
  lemma StillOwed(s: State, s': State, c: ConnId, b: string)
    requires b in s.dir.current && BastionOk(s, b)
    requires s.dir.At(s.dir.current[b]).Empty()
    requires s'.threads.Keys >= s.threads.Keys
    requires forall j :: j in s.threads && j != c ==> s'.threads[j] == s.threads[j]
    requires c in s.threads ==> s.threads[c].pc != Emptied(s.dir.current[b])
    ensures Owed(s', s.dir.current[b])
  {
    var j :| j in s.threads && s.threads[j].pc == Emptied(s.dir.current[b]);
    assert s'.threads[j].pc == Emptied(s.dir.current[b]);
  }

  /** The thread has not moved, or only within its read loop. */
  predicate StillIn(t: Thread, t': Thread) {
    t' == t || (t.Staying() && t'.Staying() && t'.conn == t.conn && t'.room == t.room)
  }

  /** What the read loop and the stats calls leave alone. */
  lemma QuietEffect(s: State, l: Label)
    requires Enabled(s, l) && !l.Join? && !l.Lookup? && !l.Depart? && !l.Recheck?
    ensures Fire(s, l).dir == s.dir && Fire(s, l).threads.Keys == s.threads.Keys
    ensures forall c {:trigger Fire(s, l).threads[c]} :: c in s.threads ==> StillIn(s.threads[c], Fire(s, l).threads[c])
  {
    match l
    case Read(_, _) =>
    case Snapshot(_) =>
    case Write(_, _, _) =>
    case _ =>
  }

  /** The read loop and the stats calls touch no membership. */
  lemma InvFrame(s: State, s': State, c: ConnId)
    requires Inv(s)
    requires s'.dir == s.dir && s'.threads.Keys == s.threads.Keys
    requires forall j :: j in s.threads && j != c ==> s'.threads[j] == s.threads[j]
    requires c in s.threads && s'.threads[c] != s.threads[c] ==>
               && s.threads[c].Staying() && s'.threads[c].Staying()
               && s'.threads[c] == s.threads[c].(pc := s'.threads[c].pc)
    ensures Inv(s')
  {
    forall r: nat ensures RoomOk(s', r) {
      assert RoomOk(s, r);
      forall id | id in s'.dir.At(r).clients ensures Filed(s', r, id, s'.dir.At(r).clients[id]) {
        assert Filed(s, r, id, s.dir.At(r).clients[id]);
      }
    }
    forall j: ConnId ensures ThreadOk(s', j) { assert ThreadOk(s, j); }
    forall b: string ensures BastionOk(s', b) {
      assert BastionOk(s, b);
      if b in s.dir.current && s.dir.At(s.dir.current[b]).Empty() {
        var j :| j in s.threads && s.threads[j].pc == Emptied(s.dir.current[b]);
        assert s'.threads[j].pc == Emptied(s.dir.current[b]);
      }
    }
  }

  /** A registered connection's room is current, so its own lookup finds it. */
  lemma RegisteredIsLive(s: State, c: ConnId)
    requires Inv(s) && c in s.threads
    requires Member(s.dir.At(s.threads[c].room), c, s.threads[c].conn)
    ensures s.dir.Live(s.threads[c].room)
    ensures s.threads[c].conn.bastion in s.dir.current
    ensures s.dir.current[s.threads[c].conn.bastion] == s.threads[c].room
  {
    assert RoomOk(s, s.threads[c].room);
    assert ThreadOk(s, c);
  }

  /** c is in the room's slot for its role. */
  ghost predicate Member(room: Room<ConnId>, c: ConnId, k: Conn) {
    match k.role
    case Daemon => room.daemon == Some(c)
    case Client => k.id in room.clients && room.clients[k.id] == c
  }

  lemma MemberEntitled(s: State, r: nat, c: ConnId)
    requires RoomOk(s, r) && c in s.threads
    requires Member(s.dir.At(r), c, s.threads[c].conn)
    ensures Entitled(s, c, r, s.threads[c].conn.role)
  {
    var k := s.threads[c].conn;
    assert k.role.Client? ==> Filed(s, r, k.id, s.dir.At(r).clients[k.id]);
  }

  /** A room whose record did not grow keeps its invariant through a step of thread c. */
  lemma RoomKept(s: State, s': State, r: nat, c: ConnId)
    requires RoomOk(s, r)
    requires s'.dir.At(r).daemon == s.dir.At(r).daemon || s'.dir.At(r).daemon == None
    requires s'.dir.At(r).clients.Keys <= s.dir.At(r).clients.Keys
    requires forall id :: id in s'.dir.At(r).clients ==> s'.dir.At(r).clients[id] == s.dir.At(r).clients[id]
    requires s'.dir.Live(r) || s'.dir.At(r).Empty()
    requires forall j :: j in s.threads && j != c ==> j in s'.threads && s'.threads[j] == s.threads[j]
    requires c in s.threads && Member(s'.dir.At(r), c, s.threads[c].conn) ==>
               Entitled(s', c, r, s.threads[c].conn.role) && s'.threads[c].conn == s.threads[c].conn
    ensures RoomOk(s', r)
  {
    forall id | id in s'.dir.At(r).clients ensures Filed(s', r, id, s'.dir.At(r).clients[id]) {
      assert Filed(s, r, id, s.dir.At(r).clients[id]);
    }
  }

  /** A join changes one room record, adds one thread, and leaves its room current and in use. */
  ghost predicate Joined(s: State, s': State, l: Label)
    requires l.Join?
  {
    var id, q := l.id, Locate(s.dir, l.bastion).1;
    var before := if q < |s.dir.rooms| then s.dir.At(q) else FreshRoom(l.bastion);
    && |s.dir.rooms| <= |s'.dir.rooms|
    && (forall r: nat :: r < |s.dir.rooms| && r != q ==> s'.dir.rooms[r] == s.dir.rooms[r])
    && (forall r: nat :: r != q ==> s'.dir.At(r) == s.dir.At(r))
    && Owns(s', q, l.bastion)
    && s'.dir.At(q) == Enter(before, l.c, l.role, id)
    && before.bastion == l.bastion && !s'.dir.At(q).Empty()
    && s'.dir.current == s.dir.current[l.bastion := q]
    && s'.threads == s.threads[l.c := Thread(Conn(l.role, l.bastion, id), q, Reading)]
  }

  /** What joinRoom does to the directory: one room, new or not, gains an entry and is current. */
  lemma JoinDirectory(d: Directory<ConnId>, b: string, c: ConnId, role: Role, id: string)
    requires b in d.current ==> d.current[b] < |d.rooms|
    ensures
      var (d', q) := JoinRoom(d, b, c, role, id);
      var before := if q < |d.rooms| then d.At(q) else FreshRoom(b);
      && q == Locate(d, b).1 && q < |d'.rooms| && |d.rooms| <= |d'.rooms|
      && (forall r: nat :: r < |d.rooms| && r != q ==> d'.rooms[r] == d.rooms[r])
      && (forall r: nat :: r != q ==> d'.At(r) == d.At(r))
      && d'.rooms[q] == Enter(before, c, role, id) && d'.current == d.current[b := q]
  {}

  lemma EnterInUse(room: Room<ConnId>, c: ConnId, role: Role, id: string)
    ensures Enter(room, c, role, id).bastion == room.bastion && !Enter(room, c, role, id).Empty()
  {
    if role.Client? { assert id in Enter(room, c, role, id).clients; }
  }

  lemma JoinEffect(s: State, l: Label)
    requires Inv(s) && l.Join? && Enabled(s, l)
    ensures Joined(s, Fire(s, l), l)
  {
    assert BastionOk(s, l.bastion);
    JoinDirectory(s.dir, l.bastion, l.c, l.role, l.id);
    var q := Locate(s.dir, l.bastion).1;
    EnterInUse(if q < |s.dir.rooms| then s.dir.At(q) else FreshRoom(l.bastion), l.c, l.role, l.id);
  }

  lemma JoinRooms(s: State, s': State, l: Label)
    requires Inv(s) && l.Join? && l.c !in s.threads && Joined(s, s', l)
    ensures forall r: nat {:trigger RoomOk(s', r)} :: RoomOk(s', r)
  {
    var q := Locate(s.dir, l.bastion).1;
    var before := if q < |s.dir.rooms| then s.dir.At(q) else FreshRoom(l.bastion);
    forall r: nat ensures RoomOk(s', r) {
      if r != q {
        assert RoomOk(s, r);
        RoomKept(s, s', r, l.c);
      } else {
        if q < |s.dir.rooms| { assert RoomOk(s, q); }
        forall i | i in s'.dir.At(q).clients ensures Filed(s', q, i, s'.dir.At(q).clients[i]) {
          if i in before.clients { assert Filed(s, q, i, before.clients[i]); }
        }
      }
    }
  }

  lemma JoinBastions(s: State, s': State, l: Label)
    requires Inv(s) && l.Join? && l.c !in s.threads && Joined(s, s', l)
    ensures forall b: string {:trigger BastionOk(s', b)} :: BastionOk(s', b)
  {
    forall b: string ensures BastionOk(s', b) {
      if b != l.bastion {
        assert BastionOk(s, b);
        if b in s.dir.current && s.dir.At(s.dir.current[b]).Empty() { StillOwed(s, s', l.c, b); }
      }
    }
  }

  lemma InvJoin(s: State, l: Label)
    requires Inv(s) && l.Join? && Enabled(s, l)
    ensures Inv(Fire(s, l))
  {
    JoinEffect(s, l);
    JoinRooms(s, Fire(s, l), l);
    JoinBastions(s, Fire(s, l), l);
    forall j | j in Fire(s, l).threads ensures ThreadOk(Fire(s, l), j) {
      if j in s.threads { assert ThreadOk(s, j); }
    }
  }

  lemma InvLookup(s: State, l: Label)
    requires Inv(s) && l.Lookup? && Enabled(s, l)
    ensures Inv(Fire(s, l))
  {
    var s' := Fire(s, l);
    forall r: nat ensures RoomOk(s', r) {
      assert RoomOk(s, r);
      if Member(s.dir.At(r), l.c, s.threads[l.c].conn) {
        MemberEntitled(s, r, l.c);
        RegisteredIsLive(s, l.c);
      }
      RoomKept(s, s', r, l.c);
    }
    assert BastionOk(s, s.threads[l.c].conn.bastion);
    forall j: ConnId ensures ThreadOk(s', j) { assert ThreadOk(s, j); }
    forall b: string ensures BastionOk(s', b) {
      assert BastionOk(s, b);
      if b in s.dir.current && s.dir.At(s.dir.current[b]).Empty() { StillOwed(s, s', l.c, b); }
    }
  }

  /** Leaving takes the leaver's own slot away, and an empty room stays empty. */
  lemma ExitEffect(room: Room<ConnId>, c: ConnId, k: Conn)
    ensures
      var after := Exit(room, c, k.role, k.id);
      && after.bastion == room.bastion
      && (after.daemon == room.daemon || after.daemon == None)
      && after.clients.Keys <= room.clients.Keys
      && (forall id :: id in after.clients ==> after.clients[id] == room.clients[id])
      && (room.Empty() ==> after == room)
      && !Member(after, c, k)
  {
    if room.Empty() { assert room.clients == map[]; }
  }

  lemma DepartRooms(s: State, s': State, c: ConnId)
    requires Inv(s) && Enabled(s, Depart(c)) && s' == Fire(s, Depart(c))
    ensures forall r: nat {:trigger RoomOk(s', r)} :: RoomOk(s', r)
  {
    var t := s.threads[c];
    ExitEffect(s.dir.At(t.pc.found), c, t.conn);
    forall r: nat ensures RoomOk(s', r) {
      assert RoomOk(s, r);
      if r != t.pc.found && Member(s.dir.At(r), c, t.conn) { MemberEntitled(s, r, c); }
      RoomKept(s, s', r, c);
    }
  }

  lemma DepartOwns(s: State, c: ConnId)
    requires Enabled(s, Depart(c))
    ensures forall r: nat, b :: Owns(Fire(s, Depart(c)), r, b) == Owns(s, r, b)
    ensures forall r: nat :: r != s.threads[c].pc.found ==> Fire(s, Depart(c)).dir.At(r) == s.dir.At(r)
    ensures Fire(s, Depart(c)).dir.current == s.dir.current
  {
    var k, q := s.threads[c].conn, s.threads[c].pc.found;
    ExitEffect(s.dir.At(q), c, k);
    assert Fire(s, Depart(c)).dir == s.dir.Put(q, Exit(s.dir.At(q), c, k.role, k.id));
  }

  lemma DepartBastion(s: State, c: ConnId, b: string)
    requires ThreadOk(s, c) && BastionOk(s, b) && Enabled(s, Depart(c))
    ensures BastionOk(Fire(s, Depart(c)), b)
  {
    var s', q := Fire(s, Depart(c)), s.threads[c].pc.found;
    DepartOwns(s, c);
    if b in s.dir.current && s.dir.current[b] == q {
      assert s'.dir.At(q).Empty() ==> s'.threads[c].pc == Emptied(q);
    } else if b in s.dir.current && s.dir.At(s.dir.current[b]).Empty() {
      StillOwed(s, s', c, b);
    }
  }

  lemma InvDepart(s: State, c: ConnId)
    requires Inv(s) && Enabled(s, Depart(c))
    ensures Inv(Fire(s, Depart(c)))
  {
    var s' := Fire(s, Depart(c));
    DepartRooms(s, s', c);
    DepartOwns(s, c);
    assert ThreadOk(s, c);
    forall j: ConnId ensures ThreadOk(s', j) { assert ThreadOk(s, j); }
    forall b: string ensures BastionOk(s', b) {
      assert BastionOk(s, b);
      DepartBastion(s, c, b);
    }
  }

  /** A recheck ends its thread and deletes at most the room it found, if that is empty. */
  ghost predicate Rechecked(s: State, s': State, c: ConnId)
    requires c in s.threads && s.threads[c].pc.Emptied?
  {
    var b, q := s.threads[c].conn.bastion, s.threads[c].pc.found;
    && s'.dir.rooms == s.dir.rooms && s'.threads == Move(s, c, Gone)
    && (|| s'.dir.current == s.dir.current
        || (&& b in s.dir.current && s.dir.current[b] == q && s.dir.At(q).Empty()
            && s'.dir.current == s.dir.current - {b}))
    && (b in s'.dir.current && s'.dir.current[b] == q ==> !s.dir.At(q).Empty())
  }

  lemma RecheckEffect(s: State, c: ConnId)
    requires Enabled(s, Recheck(c))
    ensures Rechecked(s, Fire(s, Recheck(c)), c)
  {}

  lemma SweptRoom(s: State, s': State, c: ConnId, r: nat)
    requires ThreadOk(s, c) && RoomOk(s, r)
    requires c in s.threads && s.threads[c].pc.Emptied? && Rechecked(s, s', c)
    ensures RoomOk(s', r)
  {
    assert s'.dir.At(r) == s.dir.At(r);
    forall id | id in s'.dir.At(r).clients ensures Filed(s', r, id, s'.dir.At(r).clients[id]) {
      assert Filed(s, r, id, s.dir.At(r).clients[id]);
    }
  }

  lemma SweptBastion(s: State, s': State, c: ConnId, b: string)
    requires BastionOk(s, b)
    requires c in s.threads && s.threads[c].pc.Emptied? && ThreadOk(s, c) && Rechecked(s, s', c)
    ensures BastionOk(s', b)
  {
    if b in s'.dir.current && s.dir.At(s.dir.current[b]).Empty() { StillOwed(s, s', c, b); }
  }

  lemma InvRecheck(s: State, c: ConnId)
    requires Inv(s) && Enabled(s, Recheck(c))
    ensures Inv(Fire(s, Recheck(c)))
  {
    var s' := Fire(s, Recheck(c));
    RecheckEffect(s, c);
    assert ThreadOk(s, c);
    forall r: nat ensures RoomOk(s', r) {
      assert RoomOk(s, r);
      SweptRoom(s, s', c, r);
    }
    forall j: ConnId ensures ThreadOk(s', j) { assert ThreadOk(s, j); }
    forall b: string ensures BastionOk(s', b) {
      assert BastionOk(s, b);
      SweptBastion(s, s', c, b);
    }
  }

  lemma InvStep(s: State, l: Label)
    requires Inv(s)
    ensures Inv(Step(s, l))
  {
    if Enabled(s, l) {
      match l
      case Join(_, _, _, _) => InvJoin(s, l);
      case Lookup(_) => InvLookup(s, l);
      case Depart(c) => InvDepart(s, c);
      case Recheck(c) => InvRecheck(s, c);
      case Read(c, _) => InvFrame(s, Fire(s, l), c);
      case Snapshot(c) => InvFrame(s, Fire(s, l), c);
      case Write(c, _, _) => InvFrame(s, Fire(s, l), c);
      case StatsBegin(_) => InvFrame(s, Fire(s, l), 0);
      case StatsVisit(_, _) => InvFrame(s, Fire(s, l), 0);
      case StatsEnd(_) => InvFrame(s, Fire(s, l), 0);
    }
  }

  lemma {:induction false} InvAlways(ls: seq<Label>)
    ensures Inv(Exec(ls))
  {
    if ls != [] {
      InvAlways(ls[..|ls| - 1]);
      InvStep(Exec(ls[..|ls| - 1]), ls[|ls| - 1]);
    }
  }

  // ---- What the invariant means over whole runs ----

  lemma RetiredJoin(s: State, s': State, l: Label, r: nat)
    requires l.Join? && BastionOk(s, l.bastion) && Joined(s, s', l)
    requires r < |s.dir.rooms| && !s.dir.Live(r)
    ensures r < |s'.dir.rooms| && !s'.dir.Live(r)
  {}

  lemma RetiredDepart(s: State, c: ConnId, r: nat)
    requires Enabled(s, Depart(c)) && r < |s.dir.rooms| && !s.dir.Live(r)
    ensures r < |Fire(s, Depart(c)).dir.rooms| && !Fire(s, Depart(c)).dir.Live(r)
  {
    DepartOwns(s, c);
    assert Owns(s, r, s.dir.rooms[r].bastion);
  }

  lemma RetiredStep(s: State, l: Label, r: nat)
    requires Inv(s) && r < |s.dir.rooms| && !s.dir.Live(r)
    ensures r < |Step(s, l).dir.rooms| && !Step(s, l).dir.Live(r)
    ensures Step(s, l).dir.At(r).Empty()
  {
    assert RoomOk(s, r);
    InvStep(s, l);
    assert RoomOk(Step(s, l), r);
    if Enabled(s, l) {
      match l
      case Join(_, _, b, _) =>
        JoinEffect(s, l);
        assert BastionOk(s, b);
        RetiredJoin(s, Fire(s, l), l, r);
      case Depart(c) => RetiredDepart(s, c, r);
      case Recheck(c) => RecheckEffect(s, c);
      case Lookup(_) =>
      case _ => QuietEffect(s, l);
    }
  }

  /** A room taken out of the hub map never comes back, and never gains a member again. */
  lemma {:induction false} RetiredForever(ls: seq<Label>, more: seq<Label>, r: nat)
    requires r < |Exec(ls).dir.rooms| && !Exec(ls).dir.Live(r)
    ensures r < |Exec(ls + more).dir.rooms| && !Exec(ls + more).dir.Live(r)
    ensures Exec(ls + more).dir.At(r).Empty()
    decreases |more|
  {
    if more == [] {
      assert ls + more == ls;
      InvAlways(ls);
      assert RoomOk(Exec(ls), r);
    } else {
      var front := more[..|more| - 1];
      RetiredForever(ls, front, r);
      InvAlways(ls + front);
      RetiredStep(Exec(ls + front), more[|more| - 1], r);
      ExecMore(ls, more);
    }
  }

  /** Of the rooms ever made for a bastion at most one has members, and it is the current one. */
  lemma OneRoomInUse(ls: seq<Label>, r: nat)
    requires r < |Exec(ls).dir.rooms| && !Exec(ls).dir.rooms[r].Empty()
    ensures
      var d := Exec(ls).dir;
      d.rooms[r].bastion in d.current && d.current[d.rooms[r].bastion] == r
  {
    InvAlways(ls);
    assert RoomOk(Exec(ls), r);
  }

  /** Without a leaver about to recheck, the hub map holds exactly the rooms in use. */
  lemma NoRoomLeaks(ls: seq<Label>, r: nat)
    requires r < |Exec(ls).dir.rooms|
    requires forall c :: c in Exec(ls).threads ==> !Exec(ls).threads[c].pc.Emptied?
    ensures Exec(ls).dir.Live(r) <==> !Exec(ls).dir.rooms[r].Empty()
  {
    InvAlways(ls);
    var s := Exec(ls);
    assert RoomOk(s, r) && BastionOk(s, s.dir.rooms[r].bastion);
  }

  /** c occupies some slot of the room, under whatever id. */
  ghost predicate Mentions(room: Room<ConnId>, c: ConnId) {
    room.daemon == Some(c) || c in room.clients.Values
  }

  lemma MentionedIsSeated(s: State, r: nat, c: ConnId)
    requires Inv(s) && Mentions(s.dir.At(r), c)
    ensures exists role :: Entitled(s, c, r, role)
  {
    assert RoomOk(s, r);
    if c in s.dir.At(r).clients.Values {
      var id :| id in s.dir.At(r).clients && s.dir.At(r).clients[id] == c;
      assert Filed(s, r, id, s.dir.At(r).clients[id]);
    }
  }

  /** Once c's leave has passed its room section no room, live or retired, refers to c. */
  lemma NoGhostMembers(ls: seq<Label>, c: ConnId, r: nat)
    requires c in Exec(ls).threads && (Exec(ls).threads[c].pc.Emptied? || Exec(ls).threads[c].pc.Gone?)
    ensures !Mentions(Exec(ls).dir.At(r), c)
  {
    InvAlways(ls);
    if Mentions(Exec(ls).dir.At(r), c) { MentionedIsSeated(Exec(ls), r, c); }
  }

  // ---- The daemon slot ----

  /** The daemon that joined bastion b last in this schedule. */
  ghost function LastDaemon(ls: seq<Label>, b: string): Option<ConnId> {
    if ls == [] then None else
      var front, l := ls[..|ls| - 1], ls[|ls| - 1];
      if l.Join? && Enabled(Exec(front), l) && l.role.Daemon? && l.bastion == b then Some(l.c)
      else LastDaemon(front, b)
  }

  ghost function Slot(s: State, b: string): Option<ConnId> {
    if b in s.dir.current then s.dir.At(s.dir.current[b]).daemon else None
  }

  /** c's leave has not passed its room section. */
  ghost predicate Seated(s: State, c: ConnId) {
    c in s.threads && (s.threads[c].Staying() || s.threads[c].pc.Leaving?)
  }

  ghost function Expected(s: State, last: Option<ConnId>): Option<ConnId> {
    if last.Some? && Seated(s, last.value) then last else None
  }

  /** The slot holds last, the daemon that joined b last, while it is seated, and nothing then. */
  ghost predicate SlotOk(s: State, b: string, last: Option<ConnId>) {
    && Slot(s, b) == Expected(s, last)
    && (last.Some? ==>
          && last.value in s.threads && s.threads[last.value].conn.bastion == b
          && s.threads[last.value].conn.role.Daemon?)
  }

  lemma SlotJoin(s: State, s': State, l: Label, b: string, last: Option<ConnId>)
    requires l.Join? && l.c !in s.threads && BastionOk(s, l.bastion) && BastionOk(s, b) && Joined(s, s', l)
    requires SlotOk(s, b, last)
    ensures SlotOk(s', b, if l.role.Daemon? && l.bastion == b then Some(l.c) else last)
  {
    if b != l.bastion && b in s.dir.current { assert s'.dir.At(s.dir.current[b]) == s.dir.At(s.dir.current[b]); }
  }

  lemma SlotLookup(s: State, c: ConnId, b: string, last: Option<ConnId>)
    requires ThreadOk(s, c) && BastionOk(s, b) && Enabled(s, Lookup(c)) && SlotOk(s, b, last)
    ensures SlotOk(Fire(s, Lookup(c)), b, last)
  {}

  lemma SlotRecheck(s: State, s': State, c: ConnId, b: string, last: Option<ConnId>)
    requires c in s.threads && s.threads[c].pc.Emptied? && ThreadOk(s, c) && Rechecked(s, s', c)
    requires SlotOk(s, b, last)
    ensures SlotOk(s', b, last)
  {}

  /** In a slot's own room a daemon takes itself out and nobody else; other rooms stay. */
  lemma SlotExit(s: State, c: ConnId, b: string)
    requires ThreadOk(s, c) && BastionOk(s, b) && Enabled(s, Depart(c))
    ensures
      Slot(Fire(s, Depart(c)), b) ==
      if Slot(s, b) == Some(c) && s.threads[c].conn.role.Daemon? && s.dir.current[b] == s.threads[c].pc.found
      then None else Slot(s, b)
  {
    DepartOwns(s, c);
  }

  lemma SlotDepart(s: State, c: ConnId, b: string, last: Option<ConnId>)
    requires Inv(s) && Enabled(s, Depart(c)) && SlotOk(s, b, last)
    ensures SlotOk(Fire(s, Depart(c)), b, last)
  {
    assert ThreadOk(s, c) && BastionOk(s, b);
    SlotExit(s, c, b);
    if Slot(s, b) == Some(c) { assert RoomOk(s, s.dir.current[b]); }
  }

  lemma SlotQuiet(s: State, l: Label, b: string, last: Option<ConnId>)
    requires Enabled(s, l) && !l.Join? && !l.Lookup? && !l.Depart? && !l.Recheck? && SlotOk(s, b, last)
    ensures SlotOk(Fire(s, l), b, last)
  {
    QuietEffect(s, l);
    if last.Some? { assert StillIn(s.threads[last.value], Fire(s, l).threads[last.value]); }
  }

  lemma SlotStep(s: State, l: Label, b: string, last: Option<ConnId>)
    requires Inv(s) && Enabled(s, l) && SlotOk(s, b, last)
    ensures SlotOk(Fire(s, l), b, if l.Join? && l.role.Daemon? && l.bastion == b then Some(l.c) else last)
  {
    assert BastionOk(s, b);
    match l
    case Join(_, _, bj, _) =>
      JoinEffect(s, l);
      assert BastionOk(s, bj);
      SlotJoin(s, Fire(s, l), l, b, last);
    case Lookup(c) =>
      assert ThreadOk(s, c);
      SlotLookup(s, c, b, last);
    case Depart(c) => SlotDepart(s, c, b, last);
    case Recheck(c) =>
      assert ThreadOk(s, c);
      RecheckEffect(s, c);
      SlotRecheck(s, Fire(s, l), c, b, last);
    case _ => SlotQuiet(s, l, b, last);
  }

  lemma {:induction false} SlotAlways(ls: seq<Label>, b: string)
    ensures SlotOk(Exec(ls), b, LastDaemon(ls, b))
  {
    if ls != [] {
      var front, l := ls[..|ls| - 1], ls[|ls| - 1];
      SlotAlways(front, b);
      InvAlways(front);
      if Enabled(Exec(front), l) { SlotStep(Exec(front), l, b, LastDaemon(front, b)); }
    }
  }

  /** A bastion's slot holds the daemon that joined last, or nothing once that one has left. */
  lemma DaemonSlot(ls: seq<Label>, b: string)
    ensures
      var last := LastDaemon(ls, b);
      Slot(Exec(ls), b) == if last.Some? && Seated(Exec(ls), last.value) then last else None
  {
    SlotAlways(ls, b);
  }
}
