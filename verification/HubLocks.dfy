/**
 The hub with its locks written out: h.mu as a readers-writer lock and one mutex a room,
 taken and given up in separate steps. Every run of this system is a run of HubMachine,
 and in no reachable state are all threads stuck.
 */
module HubLocks {
  import opened Common
  import opened HubDirectory
  import opened HubMachine
  import opened HubMembers
  import opened HubStats
  import HubTraffic

  /** What a connection thread has begun. */
  datatype Op = OpJoin(role: Role, bastion: string, id: string) | OpLookup | OpDepart | OpRecheck | OpSnapshot {
    predicate NeedsHub() {
      OpJoin? || OpLookup? || OpRecheck?
    }
  }

  datatype Phase =
    | WantHub(op: Op)
    | HubHeld(op: Op)                           // next: look at h.rooms
    | WantRoom(op: Op, r: nat, made: bool)      // made: by this thread, just now
    | RoomHeld(op: Op, r: nat, made: bool)      // next: read or write the room
    | RoomDone(op: Op, r: nat)                  // next: unlock the room
    | HubDone(op: Op)                           // next: unlock the hub
  {
    predicate HoldsHub() {
      op.NeedsHub() && !WantHub?
    }

    predicate InRoom() {
      RoomHeld? || RoomDone?
    }

    predicate HoldsRoom(q: nat) {
      InRoom() && r == q
    }
  }

  /** Where a stats call is. */
  datatype Walk = WantRead | Looping | WantNext(b: string, r: nat) | NextHeld(b: string, r: nat) | NextDone(r: nat) {
    predicate HoldsRoom(q: nat) {
      (NextHeld? || NextDone?) && r == q
    }
  }

  datatype Holder = ByConn(c: ConnId) | ByStats(q: nat)

  datatype Locked = Locked(
    data: State,
    writer: Option<ConnId>,
    readers: set<nat>,
    rooms: map<nat, Holder>,
    conns: map<ConnId, Phase>,
    walks: map<nat, Walk>)

  datatype Action =
    | Begin(c: ConnId, op: Op)
    | LockHub(c: ConnId)
    | UseMap(c: ConnId)
    | LockRoom(c: ConnId)
    | UseRoom(c: ConnId)
    | UnlockRoom(c: ConnId)
    | UnlockHub(c: ConnId)
    | Free(l: Label)
    | StatsCall(q: nat)
    | ReadLock(q: nat)
    | PickRoom(q: nat, b: string)
    | LockNext(q: nat)
    | CountRoom(q: nat)
    | UnlockNext(q: nat)
    | ReadUnlock(q: nat)

  const INIT_LOCKED := Locked(INIT, None, {}, map[], map[], map[])

  /** The thread is at the statement that begins this operation. */
  ghost predicate Ready(s: State, c: ConnId, op: Op) {
    match op
    case OpJoin(_, _, _) => c !in s.threads
    case OpLookup => c in s.threads && s.threads[c].pc.Reading?
    case OpDepart => c in s.threads && s.threads[c].pc.Leaving?
    case OpRecheck => c in s.threads && s.threads[c].pc.Emptied?
    case OpSnapshot => c in s.threads && s.threads[c].pc.Fanning?
  }

  ghost predicate Can(k: Locked, m: Action) {
    match m
    case Begin(c, op) => c !in k.conns && Ready(k.data, c, op)
    case LockHub(c) => c in k.conns && k.conns[c].WantHub? && k.writer.None? && k.readers == {}
    case UseMap(c) => c in k.conns && k.conns[c].HubHeld? && Ready(k.data, c, k.conns[c].op)
    case LockRoom(c) => c in k.conns && k.conns[c].WantRoom? && k.conns[c].r !in k.rooms
    case UseRoom(c) => c in k.conns && k.conns[c].RoomHeld? && Ready(k.data, c, k.conns[c].op)
    case UnlockRoom(c) => c in k.conns && k.conns[c].RoomDone?
    case UnlockHub(c) => c in k.conns && k.conns[c].HubDone?
    case Free(l) => (l.Read? || l.Write?) && l.c !in k.conns && Enabled(k.data, l)
    case StatsCall(q) => q !in k.walks && q !in k.data.stats
    case ReadLock(q) => q in k.walks && k.walks[q].WantRead? && k.writer.None? && q !in k.data.stats
    case PickRoom(q, b) =>
      && q in k.walks && k.walks[q].Looping? && q in k.data.stats && k.data.stats[q].Counting?
      && b in k.data.stats[q].todo && b in k.data.dir.current
    case LockNext(q) => q in k.walks && k.walks[q].WantNext? && k.walks[q].r !in k.rooms
    case CountRoom(q) => q in k.walks && k.walks[q].NextHeld? && Enabled(k.data, StatsVisit(q, k.walks[q].b))
    case UnlockNext(q) => q in k.walks && k.walks[q].NextDone?
    case ReadUnlock(q) => q in k.walks && k.walks[q].Looping? && Enabled(k.data, StatsEnd(q))
  }

  ghost function At(k: Locked, c: ConnId, p: Phase): Locked {
    k.(conns := k.conns[c := p])
  }

  ghost function AtWalk(k: Locked, q: nat, w: Walk): Locked {
    k.(walks := k.walks[q := w])
  }

  /** The statement of the operation that reads h.rooms, the hub lock being held. */
  ghost function MapStep(k: Locked, c: ConnId, op: Op): Locked
    requires Ready(k.data, c, op)
  {
    match op
    case OpJoin(_, b, _) =>
      var (d, r) := Locate(k.data.dir, b);
      At(k.(data := k.data.(dir := d)), c, WantRoom(op, r, b !in k.data.dir.current))
    case OpRecheck =>
      var t := k.data.threads[c];
      if t.conn.bastion in k.data.dir.current && k.data.dir.current[t.conn.bastion] == t.pc.found
      then At(k, c, WantRoom(op, t.pc.found, false))
      else At(k.(data := k.data.(threads := Move(k.data, c, Gone))), c, HubDone(op))
    case OpLookup =>
      var b := k.data.threads[c].conn.bastion;
      var pc := if b in k.data.dir.current then Leaving(k.data.dir.current[b]) else Gone;
      At(k.(data := k.data.(threads := Move(k.data, c, pc))), c, HubDone(op))
    case _ => k
  }

  /** The statements that read and write the room, its lock being held. */
  ghost function RoomStep(s: State, c: ConnId, op: Op, r: nat): State
    requires Ready(s, c, op)
  {
    match op
    case OpJoin(role, b, id) =>
      s.(dir := s.dir.Put(r, Enter(s.dir.At(r), c, role, id)),
         threads := s.threads[c := Thread(Conn(role, b, id), r, Reading)])
    case OpDepart =>
      var t := s.threads[c];
      var room := Exit(s.dir.At(r), c, t.conn.role, t.conn.id);
      s.(dir := s.dir.Put(r, room), threads := Move(s, c, if room.Empty() then Emptied(r) else Gone))
    case OpRecheck =>
      var b := s.threads[c].conn.bastion;
      s.(dir := if s.dir.At(r).Empty() then s.dir.(current := s.dir.current - {b}) else s.dir,
         threads := Move(s, c, Gone))
    case OpSnapshot =>
      var t := s.threads[c];
      var targets := Targets(s.dir.At(r), t.conn.role);
      s.(snaps := Append(s.snaps, c, Snap(t.pc.idx, targets)),
         threads := Move(s, c, Resume(t.pc.idx, t.pc.frame, targets)))
    case OpLookup => s
  }

  /** The first lock the operation asks for. */
  ghost function FirstPhase(s: State, c: ConnId, op: Op): Phase
    requires Ready(s, c, op)
  {
    match op
    case OpDepart => WantRoom(op, s.threads[c].pc.found, false)
    case OpSnapshot => WantRoom(op, s.threads[c].room, false)
    case _ => WantHub(op)
  }

  ghost function Do(k: Locked, m: Action): Locked
    requires Can(k, m)
  {
    match m
    case Begin(c, op) => At(k, c, FirstPhase(k.data, c, op))
    case LockHub(c) => At(k.(writer := Some(c)), c, HubHeld(k.conns[c].op))
    case UseMap(c) => MapStep(k, c, k.conns[c].op)
    case LockRoom(c) =>
      var p := k.conns[c];
      At(k.(rooms := k.rooms[p.r := ByConn(c)]), c, RoomHeld(p.op, p.r, p.made))
    case UseRoom(c) =>
      var p := k.conns[c];
      At(k.(data := RoomStep(k.data, c, p.op, p.r)), c, RoomDone(p.op, p.r))
    case UnlockRoom(c) =>
      var p := k.conns[c];
      var k' := k.(rooms := k.rooms - {p.r});
      if p.op.NeedsHub() then At(k', c, HubDone(p.op)) else k'.(conns := k.conns - {c})
    case UnlockHub(c) => k.(writer := None, conns := k.conns - {c})
    case Free(l) => k.(data := Fire(k.data, l))
    case StatsCall(q) => AtWalk(k, q, WantRead)
    case ReadLock(q) => AtWalk(k.(readers := k.readers + {q}, data := Fire(k.data, StatsBegin(q))), q, Looping)
    case PickRoom(q, b) => AtWalk(k, q, WantNext(b, k.data.dir.current[b]))
    case LockNext(q) =>
      var w := k.walks[q];
      AtWalk(k.(rooms := k.rooms[w.r := ByStats(q)]), q, NextHeld(w.b, w.r))
    case CountRoom(q) => AtWalk(k.(data := Fire(k.data, StatsVisit(q, k.walks[q].b))), q, NextDone(k.walks[q].r))
    case UnlockNext(q) => AtWalk(k.(rooms := k.rooms - {k.walks[q].r}), q, Looping)
    case ReadUnlock(q) =>
      k.(data := Fire(k.data, StatsEnd(q)), readers := k.readers - {q}, walks := k.walks - {q})
  }

  ghost function Next(k: Locked, m: Action): Locked {
    if Can(k, m) then Do(k, m) else k
  }

  ghost function Run(ms: seq<Action>): Locked {
    if ms == [] then INIT_LOCKED else Next(Run(ms[..|ms| - 1]), ms[|ms| - 1])
  }

  // ---- Who holds what ----

  ghost predicate ConnLocks(k: Locked, c: ConnId) {
    && (k.writer == Some(c) <==> c in k.conns && k.conns[c].HoldsHub())
    && (forall r: nat :: r in k.rooms && k.rooms[r] == ByConn(c) <==> c in k.conns && k.conns[c].HoldsRoom(r))
  }

  ghost predicate WalkLocks(k: Locked, q: nat) {
    && (q in k.readers <==> q in k.walks && !k.walks[q].WantRead?)
    && (forall r: nat :: r in k.rooms && k.rooms[r] == ByStats(q) <==> q in k.walks && k.walks[q].HoldsRoom(r))
    && (q in k.readers <==> q in k.data.stats && k.data.stats[q].Counting?)
  }

  ghost predicate Locks(k: Locked) {
    && (k.writer.Some? ==> k.readers == {})
    && (forall c: ConnId {:trigger ConnLocks(k, c)} :: ConnLocks(k, c))
    && (forall q: nat {:trigger WalkLocks(k, q)} :: WalkLocks(k, q))
  }

  // ---- Where each operation has got to ----

  /** c, inside joinRoom, has put a room in the map and not yet registered in it. */
  ghost predicate HalfMade(k: Locked, c: ConnId) {
    && c in k.conns && k.conns[c].op.OpJoin?
    && (k.conns[c].WantRoom? || k.conns[c].RoomHeld?) && k.conns[c].made
  }

  /** The rooms as they were before a join in progress made one. */
  ghost function Settled(k: Locked): Directory<ConnId> {
    if k.writer.Some? && HalfMade(k, k.writer.value) && |k.data.dir.rooms| > 0
    then Directory(k.data.dir.current - {k.conns[k.writer.value].op.bastion},
                   k.data.dir.rooms[..|k.data.dir.rooms| - 1])
    else k.data.dir
  }

  /** The state of the atomic system. */
  ghost function Abs(k: Locked): State {
    k.data.(dir := Settled(k))
  }

  ghost predicate PhaseOk(k: Locked, c: ConnId) {
    c in k.conns ==>
      var p := k.conns[c];
      && (!p.op.NeedsHub() ==> !p.HubHeld? && !p.HubDone? && !p.WantHub?)
      && (p.op.OpLookup? ==> !p.WantRoom? && !p.RoomHeld? && !p.RoomDone?)
      && (p.WantHub? || p.HubHeld? || p.WantRoom? || p.RoomHeld? ==> Ready(k.data, c, p.op))
      && (p.WantRoom? || p.RoomHeld? ==> RoomKnown(k, c, p.op, p.r, p.made))
  }

  /** Between learning of a room and using it. */
  ghost predicate RoomKnown(k: Locked, c: ConnId, op: Op, r: nat, made: bool)
    requires Ready(k.data, c, op)
  {
    var d := k.data.dir;
    match op
    case OpJoin(_, b, _) =>
      && b in d.current && d.current[b] == r && r < |d.rooms|
      && (made ==> r == |d.rooms| - 1 && d.rooms[r] == FreshRoom(b))
    case OpRecheck =>
      var t := k.data.threads[c];
      r == t.pc.found && t.conn.bastion in d.current && d.current[t.conn.bastion] == r
    case OpDepart => r == k.data.threads[c].pc.found
    case OpSnapshot => r == k.data.threads[c].room
    case OpLookup => true
  }

  ghost predicate WalkOk(k: Locked, q: nat) {
    q in k.walks ==>
      match k.walks[q]
      case WantRead => q !in k.data.stats
      case WantNext(b, r) => Chosen(k, q, b, r)
      case NextHeld(b, r) => Chosen(k, q, b, r)
      case _ => true
  }

  ghost predicate Chosen(k: Locked, q: nat, b: string, r: nat) {
    && q in k.data.stats && k.data.stats[q].Counting? && b in k.data.stats[q].todo
    && b in k.data.dir.current && k.data.dir.current[b] == r
  }

  /** Every thread holds the locks its place calls for, and knows what it should. */
  ghost predicate Discipline(k: Locked) {
    && Locks(k)
    && (forall c: ConnId {:trigger PhaseOk(k, c)} :: PhaseOk(k, c))
    && (forall q: nat {:trigger WalkOk(k, q)} :: WalkOk(k, q))
  }

  ghost predicate LockInv(k: Locked) {
    Discipline(k) && Inv(Abs(k)) && AllStats(Abs(k))
  }

  // ---- Preservation ----

  /** Every action but a read or write of the read loop is some thread's own. */
  predicate ByConnection(m: Action) {
    m.Begin? || m.LockHub? || m.UseMap? || m.LockRoom? || m.UseRoom? || m.UnlockRoom? || m.UnlockHub?
  }

  lemma LocksConnSelf(k: Locked, m: Action)
    requires Locks(k) && ByConnection(m) && PhaseOk(k, m.c) && Can(k, m)
    ensures ConnLocks(Do(k, m), m.c)
  {
    assert ConnLocks(k, m.c);
  }

  lemma LocksConnOther(k: Locked, m: Action)
    requires Locks(k) && ByConnection(m) && PhaseOk(k, m.c) && Can(k, m)
    ensures forall c: ConnId {:trigger ConnLocks(Do(k, m), c)} :: c != m.c ==> ConnLocks(Do(k, m), c)
  {
    assert ConnLocks(k, m.c);
    forall c: ConnId | c != m.c ensures ConnLocks(Do(k, m), c) { assert ConnLocks(k, c); }
  }

  lemma LocksConnWalk(k: Locked, m: Action)
    requires Locks(k) && ByConnection(m) && PhaseOk(k, m.c) && Can(k, m)
    ensures forall q: nat {:trigger WalkLocks(Do(k, m), q)} :: WalkLocks(Do(k, m), q)
  {
    forall q: nat ensures WalkLocks(Do(k, m), q) {
      assert WalkLocks(k, q) && ConnLocks(k, m.c);
    }
  }

  lemma LocksReadLock(k: Locked, q: nat)
    requires WalkLocks(k, q) && Can(k, ReadLock(q))
    ensures WalkLocks(Do(k, ReadLock(q)), q)
  {}

  lemma LocksCountRoom(k: Locked, q: nat)
    requires WalkLocks(k, q) && Can(k, CountRoom(q))
    ensures WalkLocks(Do(k, CountRoom(q)), q)
  {}

  lemma LocksReadUnlock(k: Locked, q: nat)
    requires WalkLocks(k, q) && Can(k, ReadUnlock(q))
    ensures WalkLocks(Do(k, ReadUnlock(q)), q)
  {}

  lemma LocksWalkSelf(k: Locked, m: Action)
    requires m.StatsCall? || m.PickRoom? || m.LockNext? || m.UnlockNext?
    requires WalkLocks(k, m.q) && Can(k, m)
    ensures WalkLocks(Do(k, m), m.q)
  {}

  lemma LocksWalk(k: Locked, m: Action)
    requires Locks(k) && !ByConnection(m) && !m.Free? && Can(k, m)
    ensures WalkLocks(Do(k, m), m.q)
  {
    assert WalkLocks(k, m.q);
    match m
    case ReadLock(q) => LocksReadLock(k, q);
    case CountRoom(q) => LocksCountRoom(k, q);
    case ReadUnlock(q) => LocksReadUnlock(k, q);
    case _ => LocksWalkSelf(k, m);
  }

  lemma LocksWalkOther(k: Locked, m: Action)
    requires Locks(k) && !ByConnection(m) && !m.Free? && Can(k, m)
    ensures forall q: nat {:trigger WalkLocks(Do(k, m), q)} :: q != m.q ==> WalkLocks(Do(k, m), q)
  {
    assert WalkLocks(k, m.q);
    forall q: nat | q != m.q ensures WalkLocks(Do(k, m), q) { assert WalkLocks(k, q); }
  }

  lemma LocksWalkConn(k: Locked, m: Action)
    requires Locks(k) && !ByConnection(m) && !m.Free? && Can(k, m)
    ensures forall c: ConnId {:trigger ConnLocks(Do(k, m), c)} :: ConnLocks(Do(k, m), c)
  {
    forall c: ConnId ensures ConnLocks(Do(k, m), c) {
      assert ConnLocks(k, c) && WalkLocks(k, m.q);
    }
  }

  lemma LocksFree(k: Locked, l: Label)
    requires Locks(k) && Can(k, Free(l))
    ensures Locks(Do(k, Free(l)))
  {
    var k' := Do(k, Free(l));
    forall c: ConnId ensures ConnLocks(k', c) { assert ConnLocks(k, c); }
    forall q: nat ensures WalkLocks(k', q) { assert WalkLocks(k, q); }
  }

  lemma LocksStep(k: Locked, m: Action)
    requires Discipline(k) && Can(k, m)
    ensures Locks(Do(k, m))
  {
    if m.Free? {
      LocksFree(k, m.l);
    } else if ByConnection(m) {
      assert PhaseOk(k, m.c) && ConnLocks(k, m.c);
      LocksConnSelf(k, m);
      LocksConnOther(k, m);
      LocksConnWalk(k, m);
    } else {
      LocksWalkConn(k, m);
      LocksWalk(k, m);
      LocksWalkOther(k, m);
    }
  }

  // ---- Every action is one atomic step, or is not seen ----

  /** The step of the atomic system that an action completes. */
  ghost function Atomic(k: Locked, m: Action): Option<Label>
    requires Can(k, m)
  {
    match m
    case UseMap(c) =>
      (match k.conns[c].op
       case OpLookup => Some(Lookup(c))
       case OpRecheck => if MapStep(k, c, OpRecheck).conns[c].HubDone? then Some(Recheck(c)) else None
       case _ => None)
    case UseRoom(c) =>
      (match k.conns[c].op
       case OpJoin(role, b, id) => Some(Join(c, role, b, id))
       case OpDepart => Some(Depart(c))
       case OpRecheck => Some(Recheck(c))
       case OpSnapshot => Some(Snapshot(c))
       case OpLookup => None)
    case Free(l) => Some(l)
    case ReadLock(q) => Some(StatsBegin(q))
    case CountRoom(q) => Some(StatsVisit(q, k.walks[q].b))
    case ReadUnlock(q) => Some(StatsEnd(q))
    case _ => None
  }

  /** The state after the step, if it is enabled or there is none to take. */
  ghost function Taken(s: State, step: Option<Label>): Option<State> {
    match step
    case None => Some(s)
    case Some(l) => if Enabled(s, l) then Some(Fire(s, l)) else None
  }

  ghost predicate Refines(k: Locked, m: Action)
    requires Can(k, m)
  {
    Taken(Abs(k), Atomic(k, m)) == Some(Abs(Do(k, m)))
  }

  lemma WriterAlone(k: Locked)
    requires Locks(k) && k.writer.Some?
    ensures NoReader(k.data)
  {
    forall q | q in k.data.stats ensures k.data.stats[q].Counted? { assert WalkLocks(k, q); }
  }

  lemma RefinesUseMap(k: Locked, c: ConnId)
    requires Discipline(k) && Can(k, UseMap(c))
    ensures Refines(k, UseMap(c))
  {
    assert ConnLocks(k, c) && PhaseOk(k, c);
    WriterAlone(k);
    match k.conns[c].op
    case OpJoin(_, b, _) =>
      var d := k.data.dir;
      if b !in d.current {
        assert d.current[b := |d.rooms|] - {b} == d.current;
        assert (d.rooms + [FreshRoom(b)])[..|d.rooms|] == d.rooms;
      }
    case OpRecheck =>
    case _ =>
  }

  /** The rooms other threads know of come before a half-made one. */
  lemma SettledAt(k: Locked, r: nat, room: Room<ConnId>)
    requires r < |Settled(k).rooms|
    ensures Settled(k).At(r) == k.data.dir.At(r)
    ensures Settled(k.(data := k.data.(dir := k.data.dir.Put(r, room)))) == Settled(k).Put(r, room)
    ensures k.data.dir.Put(r, room).current == k.data.dir.current
  {}

  lemma RefinesJoin(k: Locked, c: ConnId)
    requires Discipline(k) && Can(k, UseRoom(c)) && k.conns[c].op.OpJoin?
    ensures Refines(k, UseRoom(c))
  {
    assert ConnLocks(k, c) && PhaseOk(k, c);
    WriterAlone(k);
    var p, d, s := k.conns[c], k.data.dir, Settled(k);
    assert Do(k, UseRoom(c)).data.dir == d.Put(p.r, Enter(d.At(p.r), c, p.op.role, p.op.id));
    if p.made {
      assert s.current[p.op.bastion := |s.rooms|] == d.current;
      assert s.rooms + [FreshRoom(p.op.bastion)] == d.rooms;
      assert Locate(s, p.op.bastion) == (d, p.r);
    } else {
      assert Locate(s, p.op.bastion) == (d, p.r);
    }
  }

  lemma DepartSettled(k: Locked, c: ConnId)
    requires Discipline(k) && Can(k, UseRoom(c)) && k.conns[c].op.OpDepart?
    requires ThreadOk(Abs(k), c)
    ensures
      var t, k' := k.data.threads[c], Do(k, UseRoom(c));
      && t.pc.found == k.conns[c].r < |Settled(k).rooms|
      && Settled(k).At(t.pc.found) == k.data.dir.At(t.pc.found)
      && Settled(k') == DepartRoom(Settled(k), t.pc.found, c, t.conn.role, t.conn.id)
  {
    assert PhaseOk(k, c);
    var t := k.data.threads[c];
    var room := Exit(k.data.dir.At(t.pc.found), c, t.conn.role, t.conn.id);
    SettledAt(k, t.pc.found, room);
    assert ConnLocks(k, c);
    SameSettled(k.(data := k.data.(dir := k.data.dir.Put(t.pc.found, room))), Do(k, UseRoom(c)));
  }

  lemma RefinesDepart(k: Locked, c: ConnId)
    requires Discipline(k) && Can(k, UseRoom(c)) && k.conns[c].op.OpDepart?
    requires ThreadOk(Abs(k), c)
    ensures Refines(k, UseRoom(c))
  {
    DepartSettled(k, c);
    var t := k.data.threads[c];
    assert Settled(Do(k, UseRoom(c))).At(t.pc.found) == Exit(k.data.dir.At(t.pc.found), c, t.conn.role, t.conn.id);
  }

  /** Settled depends on the rooms and on where the writer is. */
  lemma SameSettled(k: Locked, k': Locked)
    requires k'.data.dir == k.data.dir && k'.writer == k.writer
    requires k.writer.Some? ==>
               (k.writer.value in k.conns <==> k.writer.value in k'.conns) &&
               (k.writer.value in k.conns ==> k'.conns[k.writer.value] == k.conns[k.writer.value])
    ensures Settled(k') == Settled(k)
  {}

  lemma RefinesSnapshot(k: Locked, c: ConnId)
    requires Discipline(k) && Can(k, UseRoom(c)) && k.conns[c].op.OpSnapshot?
    requires ThreadOk(Abs(k), c)
    ensures Refines(k, UseRoom(c))
  {
    assert ConnLocks(k, c) && PhaseOk(k, c);
    SettledAt(k, k.data.threads[c].room, FreshRoom(""));
    SameSettled(k, Do(k, UseRoom(c)));
  }

  lemma RefinesRecheck(k: Locked, c: ConnId)
    requires Discipline(k) && Can(k, UseRoom(c)) && k.conns[c].op.OpRecheck?
    ensures Refines(k, UseRoom(c))
  {
    assert ConnLocks(k, c) && PhaseOk(k, c);
    WriterAlone(k);
  }

  lemma RefinesWalk(k: Locked, m: Action)
    requires Discipline(k) && Can(k, m) && !ByConnection(m) && !m.Free?
    ensures Refines(k, m)
  {
    assert WalkLocks(k, m.q) && WalkOk(k, m.q);
  }

  /** A thread that has just got the hub lock, or gives it up, has made no room it is not in. */
  lemma RefinesHubLock(k: Locked, m: Action)
    requires Discipline(k) && Can(k, m) && (m.LockHub? || m.UnlockHub?)
    ensures Refines(k, m)
  {
    assert ConnLocks(k, m.c) && PhaseOk(k, m.c);
  }

  lemma RefinesRoomLock(k: Locked, m: Action)
    requires Discipline(k) && Can(k, m) && (m.Begin? || m.LockRoom? || m.UnlockRoom?)
    ensures Refines(k, m)
  {
    assert ConnLocks(k, m.c) && PhaseOk(k, m.c);
    if k.writer.Some? { assert ConnLocks(k, k.writer.value); }
  }

  lemma RefinesFree(k: Locked, l: Label)
    requires Can(k, Free(l))
    ensures Refines(k, Free(l))
  {}

  lemma RefinesUseRoom(k: Locked, c: ConnId)
    requires LockInv(k) && Can(k, UseRoom(c))
    ensures Refines(k, UseRoom(c))
  {
    assert PhaseOk(k, c) && ThreadOk(Abs(k), c);
    match k.conns[c].op
    case OpJoin(_, _, _) => RefinesJoin(k, c);
    case OpDepart => RefinesDepart(k, c);
    case OpRecheck => RefinesRecheck(k, c);
    case OpSnapshot => RefinesSnapshot(k, c);
    case OpLookup =>
  }

  lemma RefinesStep(k: Locked, m: Action)
    requires LockInv(k) && Can(k, m)
    ensures Refines(k, m)
  {
    if m.UseMap? {
      RefinesUseMap(k, m.c);
    } else if m.UseRoom? {
      RefinesUseRoom(k, m.c);
    } else if m.Free? {
      RefinesFree(k, m.l);
    } else if m.LockHub? || m.UnlockHub? {
      RefinesHubLock(k, m);
    } else if ByConnection(m) {
      RefinesRoomLock(k, m);
    } else {
      RefinesWalk(k, m);
    }
  }

  // ---- The invariant over all runs ----

  lemma PhaseOther(k: Locked, m: Action)
    requires Discipline(k) && ByConnection(m) && Can(k, m)
    requires Inv(Abs(k))
    ensures forall c: ConnId {:trigger PhaseOk(Do(k, m), c)} :: c != m.c ==> PhaseOk(Do(k, m), c)
  {
    assert PhaseOk(k, m.c) && ConnLocks(k, m.c) && ThreadOk(Abs(k), m.c);
    if m.UseRoom? {
      RoomOther(k, m.c);
    } else if m.UseMap? {
      MapOther(k, m.c);
    } else {
      forall c: ConnId | c != m.c ensures PhaseOk(Do(k, m), c) { assert PhaseOk(k, c) && ConnLocks(k, c); }
    }
  }

  lemma MapOtherJoin(k: Locked, j: ConnId)
    requires Discipline(k) && Can(k, UseMap(j)) && k.conns[j].op.OpJoin?
    ensures forall c: ConnId {:trigger PhaseOk(Do(k, UseMap(j)), c)} :: c != j ==> PhaseOk(Do(k, UseMap(j)), c)
  {
    assert ConnLocks(k, j);
    forall c: ConnId | c != j ensures PhaseOk(Do(k, UseMap(j)), c) { assert PhaseOk(k, c) && ConnLocks(k, c); }
  }

  lemma MapOtherKeeps(k: Locked, j: ConnId)
    requires Discipline(k) && Can(k, UseMap(j)) && !k.conns[j].op.OpJoin?
    ensures forall c: ConnId {:trigger PhaseOk(Do(k, UseMap(j)), c)} :: c != j ==> PhaseOk(Do(k, UseMap(j)), c)
  {
    assert PhaseOk(k, j) && ConnLocks(k, j);
    forall c: ConnId | c != j ensures PhaseOk(Do(k, UseMap(j)), c) { assert PhaseOk(k, c) && ConnLocks(k, c); }
  }

  lemma MapOther(k: Locked, j: ConnId)
    requires Discipline(k) && Can(k, UseMap(j))
    ensures forall c: ConnId {:trigger PhaseOk(Do(k, UseMap(j)), c)} :: c != j ==> PhaseOk(Do(k, UseMap(j)), c)
  {
    if k.conns[j].op.OpJoin? { MapOtherJoin(k, j); } else { MapOtherKeeps(k, j); }
  }

  /** Of what other threads know a room section changes nothing, but for the map if it is a recheck. */
  lemma RoomOtherKeeps(k: Locked, j: ConnId)
    requires Discipline(k) && Can(k, UseRoom(j)) && !k.conns[j].op.OpDepart?
    ensures forall c: ConnId {:trigger PhaseOk(Do(k, UseRoom(j)), c)} :: c != j ==> PhaseOk(Do(k, UseRoom(j)), c)
  {
    assert PhaseOk(k, j) && ConnLocks(k, j);
    forall c: ConnId | c != j ensures PhaseOk(Do(k, UseRoom(j)), c) { assert PhaseOk(k, c) && ConnLocks(k, c); }
  }

  lemma RoomOther(k: Locked, j: ConnId)
    requires Discipline(k) && Can(k, UseRoom(j))
    requires ThreadOk(Abs(k), j)
    ensures forall c: ConnId {:trigger PhaseOk(Do(k, UseRoom(j)), c)} :: c != j ==> PhaseOk(Do(k, UseRoom(j)), c)
  {
    if k.conns[j].op.OpDepart? {
      DepartSettled(k, j);
      assert PhaseOk(k, j) && ConnLocks(k, j);
      forall c: ConnId | c != j ensures PhaseOk(Do(k, UseRoom(j)), c) { assert PhaseOk(k, c) && ConnLocks(k, c); }
    } else {
      RoomOtherKeeps(k, j);
    }
  }

  lemma PhaseFree(k: Locked, l: Label, c: ConnId)
    requires Can(k, Free(l)) && PhaseOk(k, c)
    ensures PhaseOk(Do(k, Free(l)), c)
  {}

  lemma PhaseWalk(k: Locked, m: Action, c: ConnId)
    requires Discipline(k) && !ByConnection(m) && !m.Free? && Can(k, m)
    ensures PhaseOk(Do(k, m), c)
  {
    assert PhaseOk(k, c);
  }

  lemma PhaseSelfMap(k: Locked, c: ConnId)
    requires Discipline(k) && Can(k, UseMap(c)) && Inv(Abs(k))
    ensures PhaseOk(Do(k, UseMap(c)), c)
  {
    assert PhaseOk(k, c) && ConnLocks(k, c);
    if k.conns[c].op.OpJoin? { assert BastionOk(Abs(k), k.conns[c].op.bastion); }
  }

  lemma PhaseSelf(k: Locked)
    requires Discipline(k) && Inv(Abs(k))
    ensures forall m :: ByConnection(m) && Can(k, m) ==> PhaseOk(Do(k, m), m.c)
  {
    forall m | ByConnection(m) && Can(k, m) ensures PhaseOk(Do(k, m), m.c) {
      if m.UseMap? { PhaseSelfMap(k, m.c); } else { assert PhaseOk(k, m.c); }
    }
  }

  /** While anybody reads the hub map, only room sections and copies of targets are under way. */
  lemma ReadersKeepOut(k: Locked, c: ConnId)
    requires Discipline(k) && k.readers != {} && c in k.conns
    ensures !k.conns[c].HubHeld?
    ensures k.conns[c].RoomHeld? ==> k.conns[c].op.OpDepart? || k.conns[c].op.OpSnapshot?
  {
    assert PhaseOk(k, c) && ConnLocks(k, c);
  }

  lemma MapSameFree(s: State, l: Label)
    requires Enabled(s, l) && (l.Read? || l.Write? || l.StatsBegin? || l.StatsVisit? || l.StatsEnd?)
    ensures Fire(s, l).dir == s.dir
  {}

  lemma MapSame(k: Locked, m: Action)
    requires Can(k, m) && !m.UseMap? && !m.UseRoom?
    ensures Do(k, m).data.dir == k.data.dir
  {
    match m
    case Free(l) => MapSameFree(k.data, l);
    case ReadLock(q) => MapSameFree(k.data, StatsBegin(q));
    case CountRoom(q) => MapSameFree(k.data, StatsVisit(q, k.walks[q].b));
    case ReadUnlock(q) => MapSameFree(k.data, StatsEnd(q));
    case _ =>
  }

  lemma MapKept(k: Locked, m: Action)
    requires Discipline(k) && Can(k, m) && k.readers != {}
    ensures Do(k, m).data.dir.current == k.data.dir.current
  {
    if m.UseMap? {
      ReadersKeepOut(k, m.c);
    } else if m.UseRoom? {
      ReadersKeepOut(k, m.c);
      RoomStepMap(k.data, m.c, k.conns[m.c].op, k.conns[m.c].r);
    } else {
      MapSame(k, m);
    }
  }

  lemma RoomStepMap(s: State, c: ConnId, op: Op, r: nat)
    requires Ready(s, c, op) && !op.OpRecheck?
    ensures RoomStep(s, c, op, r).dir.current == s.dir.current
  {}

  lemma RoomStepStats(s: State, c: ConnId, op: Op, r: nat)
    requires Ready(s, c, op)
    ensures RoomStep(s, c, op, r).stats == s.stats
  {}

  lemma MapStepStats(k: Locked, c: ConnId, op: Op)
    requires Ready(k.data, c, op)
    ensures MapStep(k, c, op).walks == k.walks && MapStep(k, c, op).data.stats == k.data.stats
  {}

  lemma WalksSame(k: Locked, m: Action)
    requires Can(k, m) && ByConnection(m)
    ensures Do(k, m).walks == k.walks && Do(k, m).data.stats == k.data.stats
  {
    if m.UseMap? {
      MapStepStats(k, m.c, k.conns[m.c].op);
    } else if m.UseRoom? {
      RoomStepStats(k.data, m.c, k.conns[m.c].op, k.conns[m.c].r);
    }
  }

  lemma WalkKeptByConn(k: Locked, m: Action)
    requires Discipline(k) && Can(k, m) && ByConnection(m)
    ensures forall q: nat {:trigger WalkOk(Do(k, m), q)} :: WalkOk(Do(k, m), q)
  {
    WalksSame(k, m);
    if k.readers != {} { MapKept(k, m); }
    forall q: nat ensures WalkOk(Do(k, m), q) { assert WalkOk(k, q) && WalkLocks(k, q); }
  }

  lemma WalkKeptByFree(k: Locked, l: Label)
    requires Discipline(k) && Can(k, Free(l))
    ensures forall q: nat {:trigger WalkOk(Do(k, Free(l)), q)} :: WalkOk(Do(k, Free(l)), q)
  {
    forall q: nat ensures WalkOk(Do(k, Free(l)), q) { assert WalkOk(k, q); }
  }

  lemma WalkKeptByWalk(k: Locked, m: Action)
    requires Discipline(k) && Can(k, m) && !ByConnection(m) && !m.Free?
    ensures forall q: nat {:trigger WalkOk(Do(k, m), q)} :: WalkOk(Do(k, m), q)
  {
    assert WalkLocks(k, m.q) && WalkOk(k, m.q);
    forall q: nat ensures WalkOk(Do(k, m), q) { assert WalkOk(k, q) && WalkLocks(k, q); }
  }

  lemma WalkKept(k: Locked, m: Action)
    requires Discipline(k) && Can(k, m)
    ensures forall q: nat {:trigger WalkOk(Do(k, m), q)} :: WalkOk(Do(k, m), q)
  {
    if ByConnection(m) {
      WalkKeptByConn(k, m);
    } else if m.Free? {
      WalkKeptByFree(k, m.l);
    } else {
      WalkKeptByWalk(k, m);
    }
  }

  lemma PhaseStep(k: Locked, m: Action)
    requires LockInv(k) && Can(k, m)
    ensures forall c: ConnId {:trigger PhaseOk(Do(k, m), c)} :: PhaseOk(Do(k, m), c)
  {
    if ByConnection(m) {
      PhaseSelf(k);
      PhaseOther(k, m);
    } else {
      forall c: ConnId ensures PhaseOk(Do(k, m), c) {
        assert PhaseOk(k, c);
        if m.Free? { PhaseFree(k, m.l, c); } else { PhaseWalk(k, m, c); }
      }
    }
  }

  lemma AbsStep(k: Locked, m: Action)
    requires LockInv(k) && Can(k, m)
    ensures Inv(Abs(Do(k, m))) && AllStats(Abs(Do(k, m)))
  {
    RefinesStep(k, m);
    match Atomic(k, m)
    case None =>
    case Some(l) =>
      InvStep(Abs(k), l);
      StatsStep(Abs(k), l);
  }

  /** No action breaks the invariant. */
  lemma LockInvStep(k: Locked)
    requires LockInv(k)
    ensures forall m :: LockInv(Next(k, m))
  {
    forall m ensures LockInv(Next(k, m)) {
      if Can(k, m) {
        LocksStep(k, m);
        PhaseStep(k, m);
        WalkKept(k, m);
        AbsStep(k, m);
      }
    }
  }

  /** The atomic step an action completes, if it can be taken and completes one. */
  ghost function Seen(k: Locked, m: Action): seq<Label> {
    if Can(k, m) && Atomic(k, m).Some? then [Atomic(k, m).value] else []
  }

  /** The atomic steps of a run. */
  ghost function Schedule(ms: seq<Action>): seq<Label> {
    if ms == [] then [] else Schedule(ms[..|ms| - 1]) + Seen(Run(ms[..|ms| - 1]), ms[|ms| - 1])
  }

  /** What an action does to the atomic state is what its atomic step, if any, does. */
  lemma SeenStep(k: Locked, m: Action, ls: seq<Label>)
    requires LockInv(k) && Abs(k) == Exec(ls)
    ensures Abs(Next(k, m)) == Exec(ls + Seen(k, m))
  {
    assert ls + [] == ls;
    if Can(k, m) {
      RefinesStep(k, m);
      if Atomic(k, m).Some? { ExecThen(ls, Atomic(k, m).value); }
    }
  }

  /** The lock-by-lock hub is the atomic hub, run by the atomic steps of its actions. */
  lemma {:induction false} LocksRefine(ms: seq<Action>)
    ensures LockInv(Run(ms))
    ensures Abs(Run(ms)) == Exec(Schedule(ms))
  {
    if ms == [] {
      InvAlways([]);
      StatsAlways([]);
      assert Abs(INIT_LOCKED) == INIT;
    } else {
      var front := ms[..|ms| - 1];
      LocksRefine(front);
      LockInvStep(Run(front));
      SeenStep(Run(front), ms[|ms| - 1], Schedule(front));
    }
  }

  lemma ScheduleThen(ms: seq<Action>, more: seq<Action>)
    requires more != []
    ensures
      var front := ms + more[..|more| - 1];
      Schedule(ms + more) == Schedule(front) + Seen(Run(front), more[|more| - 1])
  {
    var all := ms + more;
    assert all[..|all| - 1] == ms + more[..|more| - 1];
  }

  /** A run that goes on extends its schedule, so what holds along schedules holds along runs. */
  lemma {:induction false} ScheduleGrows(ms: seq<Action>, more: seq<Action>) returns (rest: seq<Label>)
    ensures Schedule(ms + more) == Schedule(ms) + rest
    decreases |more|
  {
    if more == [] {
      assert ms + more == ms;
      rest := [];
    } else {
      var front := more[..|more| - 1];
      var ls := ScheduleGrows(ms, front);
      ScheduleThen(ms, more);
      var seen := Seen(Run(ms + front), more[|more| - 1]);
      assert Schedule(ms) + ls + seen == Schedule(ms) + (ls + seen);
      rest := ls + seen;
    }
  }

  /** For one: under locks too a room taken out of the map stays out, and empty. */
  lemma RetiredUnderLocks(ms: seq<Action>, more: seq<Action>, r: nat)
    requires r < |Abs(Run(ms)).dir.rooms| && !Abs(Run(ms)).dir.Live(r)
    ensures r < |Abs(Run(ms + more)).dir.rooms| && !Abs(Run(ms + more)).dir.Live(r)
    ensures Abs(Run(ms + more)).dir.At(r).Empty()
  {
    LocksRefine(ms);
    LocksRefine(ms + more);
    var rest := ScheduleGrows(ms, more);
    RetiredForever(Schedule(ms), rest, r);
  }

  // ---- Somebody can always go on ----

  /** Go's RWMutex: a reader also waits while a writer is waiting. */
  ghost predicate CanStrictly(k: Locked, m: Action) {
    Can(k, m) && (m.ReadLock? ==> forall c :: c in k.conns ==> !k.conns[c].WantHub?)
  }

  /** The action carries on what has begun: it is no new join, leave or stats call, and no read. */
  predicate Continues(m: Action) {
    match m
    case Begin(_, op) => op.OpDepart? || op.OpRecheck? || op.OpSnapshot?
    case StatsCall(_) => false
    case Free(l) => l.Write?
    case _ => true
  }

  /** The action is a step of this thread or stats call, in what it has begun. */
  predicate StepOf(m: Action, h: Holder) {
    Continues(m) &&
    match h
    case ByConn(c) => (ByConnection(m) && m.c == c) || (m.Free? && m.l.c == c)
    case ByStats(q) => !ByConnection(m) && !m.Free? && m.q == q
  }

  ghost predicate CanGo(k: Locked, h: Holder) {
    exists m :: CanStrictly(k, m) && StepOf(m, h)
  }

  /** h asks for a lock that g holds, or, to read the hub map, waits behind the writer g. */
  ghost predicate WaitsFor(k: Locked, h: Holder, g: Holder) {
    match h
    case ByConn(c) =>
      c in k.conns && (
        match k.conns[c]
        case WantHub(_) => if g.ByConn? then k.writer == Some(g.c) else g.q in k.readers
        case WantRoom(_, r, _) => r in k.rooms && k.rooms[r] == g
        case _ => false)
    case ByStats(q) =>
      q in k.walks && (
        match k.walks[q]
        case WantRead => g.ByConn? && (k.writer == Some(g.c) || (g.c in k.conns && k.conns[g.c].WantHub?))
        case WantNext(_, r) => r in k.rooms && k.rooms[r] == g
        case _ => false)
  }

  /** h can take its next step, or waits, through at most n others, for one that can. */
  ghost predicate GoesOn(k: Locked, h: Holder, n: nat)
    decreases n
  {
    CanGo(k, h) || (n > 0 && exists g :: WaitsFor(k, h, g) && GoesOn(k, g, n - 1))
  }

  /** The join, leave, fanout or stats call of h has begun and not finished. */
  ghost predicate Begun(k: Locked, h: Holder) {
    match h
    case ByConn(c) =>
      c in k.conns || (c in k.data.threads && !k.data.threads[c].pc.Reading? && !k.data.threads[c].pc.Gone?)
    case ByStats(q) => q in k.walks
  }

  lemma Goes(k: Locked, m: Action, h: Holder, n: nat)
    requires CanStrictly(k, m) && StepOf(m, h)
    ensures GoesOn(k, h, n)
  {}

  lemma Waits(k: Locked, h: Holder, g: Holder, n: nat)
    requires WaitsFor(k, h, g) && GoesOn(k, g, n)
    ensures GoesOn(k, h, n + 1)
  {}

  lemma {:induction false} WaitsLonger(k: Locked, h: Holder, n: nat)
    requires GoesOn(k, h, n)
    ensures GoesOn(k, h, n + 1)
    decreases n
  {
    if !CanGo(k, h) {
      var g :| WaitsFor(k, h, g) && GoesOn(k, g, n - 1);
      WaitsLonger(k, g, n - 1);
    }
  }

  /** Who holds a room's lock can go on. */
  lemma HolderGoes(k: Locked, r: nat)
    requires Discipline(k) && r in k.rooms
    ensures GoesOn(k, k.rooms[r], 0)
  {
    match k.rooms[r]
    case ByConn(c) =>
      assert ConnLocks(k, c) && PhaseOk(k, c);
      Goes(k, if k.conns[c].RoomHeld? then UseRoom(c) else UnlockRoom(c), ByConn(c), 0);
    case ByStats(q) =>
      assert WalkLocks(k, q) && WalkOk(k, q);
      Goes(k, if k.walks[q].NextHeld? then CountRoom(q) else UnlockNext(q), ByStats(q), 0);
  }

  /** Past its wait for the hub a thread waits for a room at most. */
  lemma InsideGoes(k: Locked, c: ConnId)
    requires Discipline(k) && c in k.conns && !k.conns[c].WantHub?
    ensures GoesOn(k, ByConn(c), 1)
  {
    assert PhaseOk(k, c);
    match k.conns[c]
    case HubHeld(_) => Goes(k, UseMap(c), ByConn(c), 1);
    case WantRoom(_, r, _) =>
      if r in k.rooms {
        HolderGoes(k, r);
        Waits(k, ByConn(c), k.rooms[r], 0);
      } else {
        Goes(k, LockRoom(c), ByConn(c), 1);
      }
    case RoomHeld(_, _, _) => Goes(k, UseRoom(c), ByConn(c), 1);
    case RoomDone(_, _) => Goes(k, UnlockRoom(c), ByConn(c), 1);
    case HubDone(_) => Goes(k, UnlockHub(c), ByConn(c), 1);
  }

  /** What a stats call has yet to visit is still in the map. */
  lemma TodoListed(k: Locked, q: nat, b: string)
    requires LockInv(k) && k.writer.None? && q in k.data.stats && k.data.stats[q].Counting?
    requires b in k.data.stats[q].todo
    ensures b in k.data.dir.current
  {
    assert StatsOk(Abs(k), q);
    assert b in ClientsPer(k.data.dir).Keys;
  }

  lemma LoopGoes(k: Locked, q: nat)
    requires LockInv(k) && q in k.readers && q in k.walks && k.walks[q].Looping?
    ensures GoesOn(k, ByStats(q), 1)
  {
    assert WalkLocks(k, q);
    if k.data.stats[q].todo == {} {
      Goes(k, ReadUnlock(q), ByStats(q), 1);
    } else {
      var b :| b in k.data.stats[q].todo;
      TodoListed(k, q, b);
      Goes(k, PickRoom(q, b), ByStats(q), 1);
    }
  }

  /** A stats call that holds the hub lock for reading waits for a room at most. */
  lemma ReaderGoes(k: Locked, q: nat)
    requires LockInv(k) && q in k.readers
    ensures GoesOn(k, ByStats(q), 1)
  {
    assert WalkLocks(k, q) && WalkOk(k, q);
    match k.walks[q]
    case Looping => LoopGoes(k, q);
    case WantNext(_, r) =>
      if r in k.rooms {
        HolderGoes(k, r);
        Waits(k, ByStats(q), k.rooms[r], 0);
      } else {
        Goes(k, LockNext(q), ByStats(q), 1);
      }
    case NextHeld(_, _) => Goes(k, CountRoom(q), ByStats(q), 1);
    case NextDone(_) => Goes(k, UnlockNext(q), ByStats(q), 1);
  }

  lemma WriterGoes(k: Locked)
    requires Discipline(k) && k.writer.Some?
    ensures GoesOn(k, ByConn(k.writer.value), 1)
  {
    assert ConnLocks(k, k.writer.value);
    InsideGoes(k, k.writer.value);
  }

  lemma ConnGoes(k: Locked, c: ConnId)
    requires LockInv(k) && c in k.conns
    ensures GoesOn(k, ByConn(c), 2)
  {
    if !k.conns[c].WantHub? {
      InsideGoes(k, c);
      WaitsLonger(k, ByConn(c), 1);
    } else if k.writer.Some? {
      WriterGoes(k);
      Waits(k, ByConn(c), ByConn(k.writer.value), 1);
    } else if q :| q in k.readers {
      ReaderGoes(k, q);
      Waits(k, ByConn(c), ByStats(q), 1);
    } else {
      Goes(k, LockHub(c), ByConn(c), 2);
    }
  }

  lemma StatsGoes(k: Locked, q: nat)
    requires LockInv(k) && q in k.walks
    ensures GoesOn(k, ByStats(q), 3)
  {
    assert WalkLocks(k, q) && WalkOk(k, q);
    if q in k.readers {
      ReaderGoes(k, q);
      WaitsLonger(k, ByStats(q), 1);
      WaitsLonger(k, ByStats(q), 2);
    } else if k.writer.Some? {
      ConnGoes(k, k.writer.value) by { assert ConnLocks(k, k.writer.value); }
      Waits(k, ByStats(q), ByConn(k.writer.value), 2);
    } else if c :| c in k.conns && k.conns[c].WantHub? {
      ConnGoes(k, c);
      Waits(k, ByStats(q), ByConn(c), 2);
    } else {
      Goes(k, ReadLock(q), ByStats(q), 3);
    }
  }

  /** A thread between two sections can begin the next, or write to its next target. */
  lemma NextOperation(k: Locked, c: ConnId)
    requires c in k.data.threads && c !in k.conns
    requires !k.data.threads[c].pc.Reading? && !k.data.threads[c].pc.Gone?
    requires k.data.threads[c].pc.Sending? ==> k.data.threads[c].pc.todo != {}
    ensures GoesOn(k, ByConn(c), 2)
  {
    match k.data.threads[c].pc
    case Fanning(_, _) => Goes(k, Begin(c, OpSnapshot), ByConn(c), 2);
    case Leaving(_) => Goes(k, Begin(c, OpDepart), ByConn(c), 2);
    case Emptied(_) => Goes(k, Begin(c, OpRecheck), ByConn(c), 2);
    case Sending(_, _, todo) =>
      var t :| t in todo;
      Goes(k, Free(Write(c, t, true)), ByConn(c), 2);
  }

  /**
   Nobody is stuck: in every reachable state whoever has begun a join, leave, fanout or
   stats call can take its next step, or waits for one that can. A connection waits through
   at most two others, a stats call through at most three.
   */
  lemma NobodyStuck(ms: seq<Action>, h: Holder)
    requires Begun(Run(ms), h)
    ensures GoesOn(Run(ms), h, if h.ByConn? then 2 else 3)
  {
    var k := Run(ms);
    LocksRefine(ms);
    match h
    case ByConn(c) =>
      if c in k.conns {
        ConnGoes(k, c);
      } else {
        HubTraffic.TrafficAlways(Schedule(ms));
        assert HubTraffic.SourceOk(Abs(k), c);
        NextOperation(k, c);
      }
    case ByStats(q) => StatsGoes(k, q);
  }

  /** So with anybody begun and unfinished there is a next step to take. */
  lemma {:induction false} SomebodyGoes(k: Locked, h: Holder, n: nat)
    requires GoesOn(k, h, n)
    ensures exists g :: CanGo(k, g)
    decreases n
  {
    if !CanGo(k, h) {
      var g :| WaitsFor(k, h, g) && GoesOn(k, g, n - 1);
      SomebodyGoes(k, g, n - 1);
    }
  }

  /** In every reachable state with something unfinished, some unfinished thread can take its next step. */
  lemma NoDeadlock(ms: seq<Action>, h: Holder)
    requires Begun(Run(ms), h)
    ensures exists g :: CanGo(Run(ms), g)
  {
    NobodyStuck(ms, h);
    SomebodyGoes(Run(ms), h, if h.ByConn? then 2 else 3);
  }
}
