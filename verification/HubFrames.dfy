/**
 What reaches whom: the frames written to a connection on behalf of another are, over
 every interleaving, an unmodified in-order subsequence without repeats of what was read
 from it, between opposite roles of one bastion; and which frames are attempted at all.
 */
module HubFrames {
  import opened Common
  import opened HubDirectory
  import opened HubMachine
  import opened HubMembers
  import opened HubRefinement
  import opened HubTraffic

  /** The frames successfully written on behalf of c, oldest first. */
  function Delivered(got: seq<Attempt>, c: ConnId): seq<Frame> {
    if got == [] then []
    else
      var a := got[|got| - 1];
      Delivered(got[..|got| - 1], c) + if a.src == c && a.ok then [a.frame] else []
  }

  /** Attempts numbered in rising order carry a subsequence of the frames they are numbered in. */
  lemma {:induction false} RisingIsSubsequence(got: seq<Attempt>, c: ConnId, heard: seq<Frame>, n: nat)
    requires n <= |heard|
    requires forall i :: 0 <= i < |got| && got[i].src == c ==> got[i].idx < n && heard[got[i].idx] == got[i].frame
    requires forall i, j :: 0 <= i < j < |got| && got[i].src == got[j].src ==> got[i].idx < got[j].idx
    ensures Subsequence(Delivered(got, c), heard[..n])
    decreases |got|
  {
    if got != [] {
      var front, a := got[..|got| - 1], got[|got| - 1];
      if a.src == c && a.ok {
        assert forall i :: 0 <= i < |front| ==> front[i] == got[i];
        assert heard[..n][..a.idx] == heard[..a.idx] && heard[..n][a.idx] == a.frame;
        RisingIsSubsequence(front, c, heard, a.idx);
        SubsequenceExtend(Delivered(front, c), heard[..n], a.idx);
      } else {
        RisingIsSubsequence(front, c, heard, n);
        assert Delivered(got, c) == Delivered(front, c);
      }
    }
  }

  /** Verbatim, in order, without repeats, to the other side of the same bastion only. */
  lemma Relayed(ls: seq<Label>, c: ConnId, t: ConnId)
    ensures Subsequence(Delivered(Log(Exec(ls).got, t), c), Log(Exec(ls).heard, c))
    ensures forall i :: 0 <= i < |Log(Exec(ls).got, t)| ==> Peers(Exec(ls), Log(Exec(ls).got, t)[i].src, t)
  {
    TrafficAlways(ls);
    var s := Exec(ls);
    var got := Log(s.got, t);
    var heard := Log(s.heard, c);
    assert OrderOk(s, t);
    forall i: nat | i < |got| ensures got[i].src == c ==> got[i].idx < |heard| && heard[got[i].idx] == got[i].frame
    {
      assert AttemptOk(s, t, i);
    }
    RisingIsSubsequence(got, c, heard, |heard|);
    assert heard[..|heard|] == heard;
    forall i: nat | i < |got| ensures Peers(s, got[i].src, t) {
      assert AttemptOk(s, t, i);
      var j :| 0 <= j < |Log(s.snaps, got[i].src)| && AimedAt(Log(s.snaps, got[i].src)[j], got[i].idx, t);
      assert SnapOk(s, got[i].src, j, t);
    }
  }

  /** A write that succeeds delivers the very frame that was read, and one that fails delivers nothing. */
  lemma WriteDelivers(ls: seq<Label>, c: ConnId, t: ConnId, ok: bool)
    requires Enabled(Exec(ls), Write(c, t, ok))
    ensures
      var s, idx := Exec(ls), Exec(ls).threads[c].pc.idx;
      var before, after := Log(s.got, t), Log(Exec(ls + [Write(c, t, ok)]).got, t);
      && idx < |Log(s.heard, c)|
      && Delivered(after, c) == Delivered(before, c) + (if ok then [Log(s.heard, c)[idx]] else [])
      && forall j :: j != c ==> Delivered(after, j) == Delivered(before, j)
  {
    TrafficAlways(ls);
    ExecThen(ls, Write(c, t, ok));
    assert SourceOk(Exec(ls), c);
    var pc := Exec(ls).threads[c].pc;
    var before := Log(Exec(ls).got, t);
    var last := Attempt(c, pc.idx, pc.frame, ok);
    assert (before + [last])[..|before|] == before;
  }

  /** A write to t is attempted exactly when a fanout copied t and its loop has come to t. */
  lemma AttemptedExactly(ls: seq<Label>, c: ConnId, idx: nat, t: ConnId)
    ensures Reached(Exec(ls), c, idx, t) <==> Aimed(Exec(ls), c, idx, t) && !Pending(Exec(ls), c, idx, t)
  {
    TrafficAlways(ls);
    var s := Exec(ls);
    if Reached(s, c, idx, t) {
      var i: nat :| i < |Log(s.got, t)| && From(Log(s.got, t)[i], c, idx);
      assert AttemptOk(s, t, i);
    }
    if Aimed(s, c, idx, t) {
      var j: nat :| j < |Log(s.snaps, c)| && AimedAt(Log(s.snaps, c)[j], idx, t);
      assert SnapOk(s, c, j, t);
    }
  }

  // ---- Which frames are attempted at all ----

  /** t is in the directory, in the slot of its own bastion, role and id. */
  ghost predicate Registered(s: State, t: ConnId) {
    t in s.threads && Member(Members(View(s), s.threads[t].conn.bastion), t, s.threads[t].conn)
  }

  lemma RegisteredRoom(s: State, t: ConnId)
    requires Inv(s) && Registered(s, t)
    ensures s.threads[t].conn.bastion in s.dir.current
    ensures s.dir.current[s.threads[t].conn.bastion] == s.threads[t].room && s.dir.Live(s.threads[t].room)
  {
    var b := s.threads[t].conn.bastion;
    MembersOf(s, b);
    assert BastionOk(s, b);
    var r := s.dir.current[b];
    assert RoomOk(s, r);
    MemberEntitled(s, r, t);
  }

  /** The slots a fanout reads are those of the registered peers, unless the room is a deleted one. */
  lemma TargetsExactly(s: State, c: ConnId, t: ConnId)
    requires Inv(s) && c in s.threads
    ensures t in Targets(s.dir.At(s.threads[c].room), s.threads[c].conn.role) <==>
            s.dir.Live(s.threads[c].room) && Registered(s, t) && Peers(s, c, t)
  {
    var r, k := s.threads[c].room, s.threads[c].conn;
    assert ThreadOk(s, c) && RoomOk(s, r);
    MembersOf(s, k.bastion);
    if t in Targets(s.dir.At(r), k.role) {
      TargetsArePeers(s, c, t);
      if k.role.Daemon? {
        var id :| id in s.dir.At(r).clients && s.dir.At(r).clients[id] == t;
        assert Filed(s, r, id, s.dir.At(r).clients[id]);
      }
    }
  }

  /** A fanout copies the registered peers of its source, or nobody if its captured room was deleted. */
  lemma FanoutTargets(ls: seq<Label>, c: ConnId, t: ConnId)
    requires Enabled(Exec(ls), Snapshot(c))
    ensures
      var s := Exec(ls);
      var before, after := Log(s.snaps, c), Log(Exec(ls + [Snapshot(c)]).snaps, c);
      && |after| == |before| + 1 && before <= after
      && after[|before|].idx == s.threads[c].pc.idx
      && (t in after[|before|].targets <==>
          s.dir.Live(s.threads[c].room) && Registered(s, t) && Peers(s, c, t))
  {
    InvAlways(ls);
    ExecThen(ls, Snapshot(c));
    TargetsExactly(Exec(ls), c, t);
  }

  lemma TwoDaemons() returns (ls: seq<Label>)
    ensures Exec(ls) == INIT.(dir := Directory(map["b" := 0], [Room("b", Some(2), map[])]),
                              threads := map[1 := Thread(Conn(Daemon, "b", ""), 0, Reading),
                                             2 := Thread(Conn(Daemon, "b", ""), 0, Reading)])
  {
    var l1, l2 := Join(1, Daemon, "b", ""), Join(2, Daemon, "b", "");
    ExecThen([], l1);
    assert Exec([] + [l1]).dir == Directory(map["b" := 0], [Room("b", Some(1), map[])]);
    ExecThen([] + [l1], l2);
    ls := [] + [l1] + [l2];
  }

  // The three sections of a daemon's leave, when nobody else is about.

  lemma LookupFinds(s: State, c: ConnId, b: string)
    requires c in s.threads && s.threads[c].pc.Reading? && s.stats == map[]
    requires s.threads[c].conn.bastion == b && b in s.dir.current
    ensures Step(s, Lookup(c)) == s.(threads := Move(s, c, Leaving(s.dir.current[b])))
  {}

  lemma DepartEmpties(s: State, c: ConnId, b: string, r: nat)
    requires c in s.threads && s.threads[c].pc == Leaving(r) && r < |s.dir.rooms|
    requires s.threads[c].conn.role.Daemon? && s.dir.rooms[r] == Room(b, Some(c), map[])
    ensures Step(s, Depart(c)) == s.(dir := s.dir.Put(r, FreshRoom(b)), threads := Move(s, c, Emptied(r)))
  {}

  lemma RecheckDeletes(s: State, c: ConnId, b: string, r: nat)
    requires c in s.threads && s.threads[c].pc == Emptied(r) && s.stats == map[]
    requires s.threads[c].conn.bastion == b && b in s.dir.current && s.dir.current[b] == r && s.dir.At(r).Empty()
    ensures Step(s, Recheck(c)) == s.(dir := s.dir.(current := s.dir.current - {b}), threads := Move(s, c, Gone))
  {}

  /** A daemon alone in its room leaves it undisturbed: all three sections run, and the room is deleted. */
  lemma LastDaemonLeaves(ls: seq<Label>, c: ConnId, b: string, r: nat)
    requires c in Exec(ls).threads && Exec(ls).threads[c].pc.Reading? && Exec(ls).stats == map[]
    requires Exec(ls).threads[c].conn.role.Daemon? && Exec(ls).threads[c].conn.bastion == b
    requires b in Exec(ls).dir.current && Exec(ls).dir.current[b] == r < |Exec(ls).dir.rooms|
    requires Exec(ls).dir.rooms[r] == Room(b, Some(c), map[])
    ensures
      var s := Exec(ls);
      var d := Directory(s.dir.current - {b}, s.dir.rooms[r := FreshRoom(b)]);
      Exec(ls + [Lookup(c)] + [Depart(c)] + [Recheck(c)]) == s.(dir := d, threads := Move(s, c, Gone))
  {
    var s := Exec(ls);
    ExecThen(ls, Lookup(c));
    LookupFinds(s, c, b);
    var s1 := s.(threads := Move(s, c, Leaving(r)));
    ExecThen(ls + [Lookup(c)], Depart(c));
    DepartEmpties(s1, c, b, r);
    var s2 := s1.(dir := s.dir.Put(r, FreshRoom(b)), threads := Move(s1, c, Emptied(r)));
    ExecThen(ls + [Lookup(c)] + [Depart(c)], Recheck(c));
    RecheckDeletes(s2, c, b, r);
    assert Move(s2, c, Gone) == Move(s, c, Gone);
  }

  /** Daemon 2 displaces daemon 1 and leaves; their room is deleted while 1 goes on reading. */
  lemma DisplacedDaemon() returns (ls: seq<Label>)
    ensures Exec(ls) == INIT.(dir := Directory(map[], [FreshRoom("b")]),
                              threads := map[1 := Thread(Conn(Daemon, "b", ""), 0, Reading),
                                             2 := Thread(Conn(Daemon, "b", ""), 0, Gone)])
  {
    var two := TwoDaemons();
    LastDaemonLeaves(two, 2, "b", 0);
    ls := two + [Lookup(2)] + [Depart(2)] + [Recheck(2)];
  }

  /** Client 3 joins the bastion's next room, and daemon 1 reads a frame in the deleted one. */
  lemma OtherRoom(s: State)
    requires s.dir == Directory(map[], [FreshRoom("b")]) && s.threads.Keys == {1, 2}
    requires s.stats == map[] && s.heard == map[]
    requires s.threads[1] == Thread(Conn(Daemon, "b", ""), 0, Reading)
    ensures
      var s1 := Step(s, Join(3, Client, "b", "x"));
      var s2 := Step(s1, Read(1, Frame(Text, [])));
      && s2.dir == Directory(map["b" := 1], [FreshRoom("b"), Room("b", None, map["x" := 3])])
      && s2.snaps == s.snaps && s2.threads.Keys == {1, 2, 3}
      && s2.threads[1] == Thread(Conn(Daemon, "b", ""), 0, Fanning(0, Frame(Text, [])))
      && s2.threads[3] == Thread(Conn(Client, "b", "x"), 1, Reading)
  {
    assert Step(s, Join(3, Client, "b", "x")).dir ==
           Directory(map["b" := 1], [FreshRoom("b"), Room("b", None, map["x" := 3])]);
  }

  lemma CopiesNobody(s: State)
    requires s.dir.At(0) == FreshRoom("b") && Log(s.snaps, 1) == [] && 1 in s.threads
    requires s.threads[1] == Thread(Conn(Daemon, "b", ""), 0, Fanning(0, Frame(Text, [])))
    ensures Enabled(s, Snapshot(1)) && Log(Step(s, Snapshot(1)).snaps, 1) == [Snap(0, {})]
  {
    assert Targets(FreshRoom<ConnId>("b"), Daemon) == {};
  }

  /**
   So a registered client can miss a frame of a daemon that has not left: 1 was displaced,
   its room is gone, and client 3 has joined the bastion's next room.
   */
  lemma DisplacedDaemonIsUnheard() returns (ls: seq<Label>)
    ensures Enabled(Exec(ls), Snapshot(1))
    ensures Registered(Exec(ls), 3) && Peers(Exec(ls), 1, 3)
    ensures Log(Exec(ls + [Snapshot(1)]).snaps, 1) == [Snap(0, {})]
  {
    var before := DisplacedDaemon();
    var l3, l4 := Join(3, Client, "b", "x"), Read(1, Frame(Text, []));
    ExecThen(before, l3);
    ExecThen(before + [l3], l4);
    ls := before + [l3] + [l4];
    OtherRoom(Exec(before));
    assert Registered(Exec(ls), 3) by {
      InvAlways(ls);
      MembersOf(Exec(ls), "b");
    }
    assert Log(Exec(ls).snaps, 1) == [] by { TrafficAlways(before); assert SourceOk(Exec(before), 1); }
    ExecThen(ls, Snapshot(1));
    CopiesNobody(Exec(ls));
  }

  lemma ThreadStep(s: State, l: Label, c: ConnId)
    requires c in s.threads
    ensures c in Step(s, l).threads
    ensures Step(s, l).threads[c].room == s.threads[c].room && Step(s, l).threads[c].conn == s.threads[c].conn
    ensures Log(s.heard, c) <= Log(Step(s, l).heard, c)
  {
  }

  /** Who and where a thread is does not change, whatever it and the others do; what it has read grows. */
  lemma {:induction false} ThreadStays(ls: seq<Label>, more: seq<Label>, c: ConnId)
    requires c in Exec(ls).threads
    ensures c in Exec(ls + more).threads
    ensures Exec(ls + more).threads[c] == Exec(ls).threads[c].(pc := Exec(ls + more).threads[c].pc)
    ensures Log(Exec(ls).heard, c) <= Log(Exec(ls + more).heard, c)
    decreases |more|
  {
    if more == [] {
      assert ls + more == ls;
    } else {
      var front := more[..|more| - 1];
      ThreadStays(ls, front, c);
      ThreadStep(Exec(ls + front), more[|more| - 1], c);
      ExecMore(ls, more);
    }
  }

  /** t is among those a fanout of c would copy. */
  ghost predicate Facing(s: State, c: ConnId, t: ConnId) {
    c in s.threads && t in Targets(s.dir.At(s.threads[c].room), s.threads[c].conn.role)
  }

  lemma SnapsGrow(s: State, l: Label, c: ConnId, t: ConnId)
    requires Facing(s, c, t)
    ensures
      || Log(Step(s, l).snaps, c) == Log(s.snaps, c)
      || exists snap :: Log(Step(s, l).snaps, c) == Log(s.snaps, c) + [snap] && t in snap.targets
  {
    if l == Snapshot(c) && Enabled(s, l) {
      var k := s.threads[c];
      var snap := Snap(k.pc.idx, Targets(s.dir.At(k.room), k.conn.role));
      assert Log(Step(s, l).snaps, c) == Log(s.snaps, c) + [snap];
    }
  }

  lemma {:induction false} AllAimed(ls: seq<Label>, more: seq<Label>, c: ConnId, t: ConnId)
    requires forall n :: 0 <= n <= |more| ==> Facing(Exec(ls + more[..n]), c, t)
    ensures
      var before, after := Log(Exec(ls).snaps, c), Log(Exec(ls + more).snaps, c);
      && before <= after
      && forall j :: |before| <= j < |after| ==> t in after[j].targets
    decreases |more|
  {
    if more == [] {
      assert ls + more == ls;
    } else {
      var front, l := more[..|more| - 1], more[|more| - 1];
      assert forall n :: 0 <= n <= |front| ==> front[..n] == more[..n];
      AllAimed(ls, front, c, t);
      ExecMore(ls, more);
      assert Facing(Exec(ls + more[..|front|]), c, t);
      SnapsGrow(Exec(ls + front), l, c, t);
    }
  }

  /** A peer that stays registered stays among c's recipients, if c's room was current to begin with. */
  lemma StaysFacing(ls: seq<Label>, more: seq<Label>, c: ConnId, t: ConnId)
    requires Peers(Exec(ls), c, t) && Exec(ls).dir.Live(Exec(ls).threads[c].room)
    requires Registered(Exec(ls), t) && Registered(Exec(ls + more), t)
    ensures Facing(Exec(ls + more), c, t)
  {
    ThreadStays(ls, more, c);
    ThreadStays(ls, more, t);
    InvAlways(ls);
    InvAlways(ls + more);
    assert ThreadOk(Exec(ls), c) && ThreadOk(Exec(ls + more), c);
    RegisteredRoom(Exec(ls), t);
    RegisteredRoom(Exec(ls + more), t);
    TargetsExactly(Exec(ls + more), c, t);
  }

  /** c's frame number i has been read but not fanned out. */
  ghost predicate Awaiting(s: State, c: ConnId, i: nat) {
    c in s.threads && s.threads[c].pc.Fanning? && s.threads[c].pc.idx == i
  }

  ghost predicate Fanned(s: State, c: ConnId, i: nat) {
    exists j :: 0 <= j < |Log(s.snaps, c)| && Numbered(Log(s.snaps, c)[j], i)
  }

  predicate Numbered(snap: Snap, i: nat) {
    snap.idx == i
  }

  /** Text and binary frames are fanned out, and no others. */
  ghost predicate FanOk(s: State, c: ConnId, i: nat) {
    i < |Log(s.heard, c)| ==> (Fanned(s, c, i) <==> !Log(s.heard, c)[i].kind.Other? && !Awaiting(s, c, i))
  }

  lemma RisingBelow(snaps: seq<Snap>, n: nat)
    requires forall i, j :: 0 <= i < j < |snaps| ==> snaps[i].idx < snaps[j].idx
    requires |snaps| > 0 ==> snaps[|snaps| - 1].idx < n
    ensures forall j :: 0 <= j < |snaps| ==> snaps[j].idx < n
  {
    forall j | 0 <= j < |snaps| - 1 ensures snaps[j].idx < n { assert snaps[j].idx < snaps[|snaps| - 1].idx; }
  }

  lemma FanRead(s: State, c: ConnId, frame: Frame, i: nat)
    requires SourceOk(s, c) && FanOk(s, c, i) && Enabled(s, Read(c, frame))
    ensures FanOk(Fire(s, Read(c, frame)), c, i)
  {
    var s' := Fire(s, Read(c, frame));
    assert Log(s'.snaps, c) == Log(s.snaps, c);
    assert Fanned(s', c, i) == Fanned(s, c, i);
    RisingBelow(Log(s.snaps, c), |Log(s.heard, c)|);
  }

  lemma FanSnapshot(s: State, c: ConnId, i: nat)
    requires SourceOk(s, c) && FanOk(s, c, i) && Enabled(s, Snapshot(c))
    requires i < |Log(s.heard, c)| && Awaiting(s, c, i) ==> !Log(s.heard, c)[i].kind.Other?
    ensures FanOk(Fire(s, Snapshot(c)), c, i)
  {
    var s' := Fire(s, Snapshot(c));
    var snaps, snaps' := Log(s.snaps, c), Log(s'.snaps, c);
    assert Numbered(snaps'[|snaps|], s.threads[c].pc.idx);
    assert forall j :: 0 <= j < |snaps| ==> snaps'[j] == snaps[j];
    if Fanned(s, c, i) {
      var j :| 0 <= j < |snaps| && Numbered(snaps[j], i);
      assert Numbered(snaps'[j], i);
    }
  }

  /** No control frame waits to be fanned out. */
  ghost predicate DataOnly(s: State, c: ConnId) {
    c in s.threads && s.threads[c].pc.Fanning? ==> !s.threads[c].pc.frame.kind.Other?
  }

  /** Where c waits to copy its recipients, if it does. */
  function Waits(s: State, c: ConnId): Option<Pc> {
    if c in s.threads && s.threads[c].pc.Fanning? then Some(s.threads[c].pc) else None
  }

  /** The other labels leave alone what c has read, what it has copied and whether it waits to copy. */
  lemma FanQuiet(s: State, l: Label, c: ConnId)
    requires Enabled(s, l) && !(l.Read? && l.c == c) && !(l.Snapshot? && l.c == c)
    ensures Log(Fire(s, l).heard, c) == Log(s.heard, c) && Log(Fire(s, l).snaps, c) == Log(s.snaps, c)
    ensures Waits(Fire(s, l), c) == Waits(s, c)
  {
  }

  lemma FanStep(s: State, l: Label, c: ConnId, i: nat)
    requires SourceOk(s, c) && FanOk(s, c, i) && DataOnly(s, c)
    ensures FanOk(Step(s, l), c, i) && DataOnly(Step(s, l), c)
  {
    if Enabled(s, l) {
      if l.Read? && l.c == c {
        FanRead(s, c, l.frame, i);
      } else if l.Snapshot? && l.c == c {
        FanSnapshot(s, c, i);
      } else {
        FanQuiet(s, l, c);
        assert Waits(s, c) == Waits(Fire(s, l), c);
        assert Fanned(Fire(s, l), c, i) == Fanned(s, c, i);
      }
    }
  }

  /** Of the frames read from c, the text and binary ones are fanned out, all but the one just read. */
  lemma {:induction false} FannedExactly(ls: seq<Label>, c: ConnId, i: nat)
    ensures FanOk(Exec(ls), c, i) && DataOnly(Exec(ls), c)
  {
    if ls != [] {
      FannedExactly(ls[..|ls| - 1], c, i);
      TrafficAlways(ls[..|ls| - 1]);
      assert SourceOk(Exec(ls[..|ls| - 1]), c);
      FanStep(Exec(ls[..|ls| - 1]), ls[|ls| - 1], c, i);
    }
  }

  /**
   If t stays registered over a stretch at whose start c's room is current, then every text
   or binary frame read from c in it has been written to t, unless c is not done with it yet.
   */
  lemma NothingMissed(ls: seq<Label>, more: seq<Label>, c: ConnId, t: ConnId, i: nat)
    requires Peers(Exec(ls), c, t) && Exec(ls).dir.Live(Exec(ls).threads[c].room)
    requires forall n :: 0 <= n <= |more| ==> Registered(Exec(ls + more[..n]), t)
    requires |Log(Exec(ls).heard, c)| <= i < |Log(Exec(ls + more).heard, c)|
    requires !Log(Exec(ls + more).heard, c)[i].kind.Other?
    ensures
      var s := Exec(ls + more);
      Reached(s, c, i, t) || Pending(s, c, i, t) || Awaiting(s, c, i)
  {
    assert ls + more[..0] == ls;
    forall n | 0 <= n <= |more| ensures Facing(Exec(ls + more[..n]), c, t) {
      StaysFacing(ls, more[..n], c, t);
    }
    AllAimed(ls, more, c, t);
    FannedExactly(ls + more, c, i);
    var before, after := Log(Exec(ls).snaps, c), Log(Exec(ls + more).snaps, c);
    if Fanned(Exec(ls + more), c, i) {
      var j :| 0 <= j < |after| && Numbered(after[j], i);
      NumbersBelow(ls, c);
      assert j >= |before|;
      assert AimedAt(after[j], i, t);
      AttemptedExactly(ls + more, c, i, t);
    }
  }

  lemma NumbersBelow(ls: seq<Label>, c: ConnId)
    ensures forall j :: 0 <= j < |Log(Exec(ls).snaps, c)| ==> Log(Exec(ls).snaps, c)[j].idx < |Log(Exec(ls).heard, c)|
  {
    TrafficAlways(ls);
    assert SourceOk(Exec(ls), c);
    RisingBelow(Log(Exec(ls).snaps, c), |Log(Exec(ls).heard, c)|);
  }
}
