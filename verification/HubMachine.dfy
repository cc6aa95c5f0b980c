/**
 The hub as a transition system over any number of connection threads and stats calls.
 Each label is one critical section of wsrelay.go, or one read or write of the read loop.
 A schedule is any sequence of labels; a label whose guard is false does nothing, so
 every sequence is an interleaving and every theorem below quantifies over all of them.
 */
module HubMachine {
  import opened Common
  import opened HubDirectory

  type ConnId = nat

  datatype Kind = Text | Binary | Other

  datatype Frame = Frame(kind: Kind, data: seq<bv8>)

  datatype Conn = Conn(role: Role, bastion: string, id: string)

  /** Where a connection's thread is; the room captured by joinRoom is kept beside it. */
  datatype Pc =
    | Reading                        // in ws.Read
    | Fanning(idx: nat, frame: Frame)    // frame number idx read, about to lock the captured room
    | Sending(idx: nat, frame: Frame, todo: set<ConnId>)    // targets copied, room unlocked, writing
    | Leaving(found: nat)            // leaveRoom has looked its room up
    | Emptied(found: nat)            // left it empty, about to recheck under the hub lock
    | Gone

  datatype Thread = Thread(conn: Conn, room: nat, pc: Pc) {
    /** Has not begun its leave, or has only looked its room up. */
    predicate Staying() {
      pc.Reading? || pc.Fanning? || pc.Sending?
    }
  }

  /** One fanout: the position of the frame in what the source read, and who was to get it. */
  datatype Snap = Snap(idx: nat, targets: set<ConnId>)

  /** One call of ws.Write, made on the recipient's connection. */
  datatype Attempt = Attempt(src: ConnId, idx: nat, frame: Frame, ok: bool)

  /** A stats call; start, leavers and end are what was true when it took and gave up the lock. */
  datatype Count =
    | Counting(todo: set<string>, out: Stats, start: Stats, leavers: Absent)
    | Counted(out: Stats, start: Stats, leavers: Absent, end: Stats)

  /** How many connections of either role were past their lookup and not their room section. */
  datatype Absent = Absent(clients: nat, daemons: nat)

  datatype State = State(
    dir: Directory<ConnId>,
    threads: map<ConnId, Thread>,
    heard: map<ConnId, seq<Frame>>,
    snaps: map<ConnId, seq<Snap>>,
    got: map<ConnId, seq<Attempt>>,
    stats: map<nat, Count>)

  datatype Label =
    | Join(c: ConnId, role: Role, bastion: string, id: string)
    | Read(c: ConnId, frame: Frame)
    | Snapshot(c: ConnId)
    | Write(c: ConnId, t: ConnId, ok: bool)
    | Lookup(c: ConnId)
    | Depart(c: ConnId)
    | Recheck(c: ConnId)
    | StatsBegin(q: nat)
    | StatsVisit(q: nat, b: string)
    | StatsEnd(q: nat)

  const INIT := State(Directory(map[], []), map[], map[], map[], map[], map[])

  /** No stats call holds the hub lock for reading. */
  ghost predicate NoReader(s: State) {
    forall q :: q in s.stats ==> s.stats[q].Counted?
  }

  /** Connections of this role between their lookup and their room section. */
  ghost function Leavers(s: State, role: Role): set<ConnId> {
    set c | c in s.threads && s.threads[c].pc.Leaving? && s.threads[c].conn.role == role
  }

  ghost function LeaversNow(s: State): Absent {
    Absent(|Leavers(s, Client)|, |Leavers(s, Daemon)|)
  }

  ghost predicate Enabled(s: State, l: Label)
  {
    match l
    case Join(c, _, _, _) => c !in s.threads && NoReader(s)
    case Read(c, _) => c in s.threads && s.threads[c].pc.Reading?
    case Snapshot(c) => c in s.threads && s.threads[c].pc.Fanning?
    case Write(c, t, _) => c in s.threads && s.threads[c].pc.Sending? && t in s.threads[c].pc.todo
    case Lookup(c) => c in s.threads && s.threads[c].pc.Reading? && NoReader(s)
    case Depart(c) => c in s.threads && s.threads[c].pc.Leaving?
    case Recheck(c) => c in s.threads && s.threads[c].pc.Emptied? && NoReader(s)
    case StatsBegin(q) => q !in s.stats
    case StatsVisit(q, b) => q in s.stats && s.stats[q].Counting? && b in s.stats[q].todo && b in s.dir.current
    case StatsEnd(q) => q in s.stats && s.stats[q].Counting? && s.stats[q].todo == {}
  }

  function Move(s: State, c: ConnId, pc: Pc): map<ConnId, Thread>
    requires c in s.threads
  {
    s.threads[c := s.threads[c].(pc := pc)]
  }

  function Resume(idx: nat, frame: Frame, todo: set<ConnId>): Pc {
    if todo == {} then Reading else Sending(idx, frame, todo)
  }

  ghost function Fire(s: State, l: Label): State
    requires Enabled(s, l)
  {
    match l
    case Join(c, role, b, id) =>
      var (d, r) := JoinRoom(s.dir, b, c, role, id);
      s.(dir := d, threads := s.threads[c := Thread(Conn(role, b, id), r, Reading)])
    case Read(c, frame) =>
      s.(heard := Append(s.heard, c, frame),
         threads := Move(s, c, if frame.kind.Other? then Reading else Fanning(|Log(s.heard, c)|, frame)))
    case Snapshot(c) =>
      var t := s.threads[c];
      var targets := Targets(s.dir.At(t.room), t.conn.role);
      s.(snaps := Append(s.snaps, c, Snap(t.pc.idx, targets)),
         threads := Move(s, c, Resume(t.pc.idx, t.pc.frame, targets)))
    case Write(c, t, ok) =>
      var pc := s.threads[c].pc;
      s.(got := Append(s.got, t, Attempt(c, pc.idx, pc.frame, ok)),
         threads := Move(s, c, Resume(pc.idx, pc.frame, pc.todo - {t})))
    case Lookup(c) =>
      var b := s.threads[c].conn.bastion;
      s.(threads := Move(s, c, if b in s.dir.current then Leaving(s.dir.current[b]) else Gone))
    case Depart(c) =>
      var t := s.threads[c];
      var r := t.pc.found;
      var d := DepartRoom(s.dir, r, c, t.conn.role, t.conn.id);
      s.(dir := d, threads := Move(s, c, if d.At(r).Empty() then Emptied(r) else Gone))
    case Recheck(c) =>
      var t := s.threads[c];
      s.(dir := Sweep(s.dir, t.conn.bastion, t.pc.found), threads := Move(s, c, Gone))
    case StatsBegin(q) =>
      s.(stats := s.stats[q := Counting(s.dir.current.Keys, Stats(0, 0, 0), Totals(s.dir), LeaversNow(s))])
    case StatsVisit(q, b) =>
      var k := s.stats[q];
      var out := Stats(k.out.openRooms + 1,
                       k.out.roomsWithDaemon + DaemonsPer(s.dir)[b],
                       k.out.openClientWs + ClientsPer(s.dir)[b]);
      s.(stats := s.stats[q := k.(todo := k.todo - {b}, out := out)])
    case StatsEnd(q) =>
      var k := s.stats[q];
      s.(stats := s.stats[q := Counted(k.out, k.start, k.leavers, Totals(s.dir))])
  }

  ghost function Step(s: State, l: Label): State {
    if Enabled(s, l) then Fire(s, l) else s
  }

  /** The state a schedule leads to. */
  ghost function Exec(ls: seq<Label>): State {
    if ls == [] then INIT else Step(Exec(ls[..|ls| - 1]), ls[|ls| - 1])
  }

  lemma ExecThen(ls: seq<Label>, l: Label)
    ensures Exec(ls + [l]) == Step(Exec(ls), l)
  {
    assert (ls + [l])[..|ls|] == ls;
  }

  /** The last step of a schedule that goes on. */
  lemma ExecMore(ls: seq<Label>, more: seq<Label>)
    requires more != []
    ensures Exec(ls + more) == Step(Exec(ls + more[..|more| - 1]), more[|more| - 1])
  {
    var all := ls + more;
    assert all[..|all| - 1] == ls + more[..|more| - 1];
  }
}
