/** The traffic invariant: where each frame that was read has got to, and to whom it went. */
module HubTraffic {
  import opened Common
  import opened HubDirectory
  import opened HubMachine
  import opened HubMembers

  /** c and t joined under the same bastion in opposite roles. */
  ghost predicate Peers(s: State, c: ConnId, t: ConnId) {
    && c in s.threads && t in s.threads
    && s.threads[c].conn.bastion == s.threads[t].conn.bastion
    && s.threads[c].conn.role != s.threads[t].conn.role
  }

  /** Some fanout of c's frame number idx copied t from the room. */
  ghost predicate Aimed(s: State, c: ConnId, idx: nat, t: ConnId) {
    exists j :: 0 <= j < |Log(s.snaps, c)| && AimedAt(Log(s.snaps, c)[j], idx, t)
  }

  predicate AimedAt(snap: Snap, idx: nat, t: ConnId) {
    snap.idx == idx && t in snap.targets
  }

  /** c's write loop for that frame has not come to t yet. */
  ghost predicate Pending(s: State, c: ConnId, idx: nat, t: ConnId) {
    c in s.threads && s.threads[c].pc.Sending? && s.threads[c].pc.idx == idx && t in s.threads[c].pc.todo
  }

  /** ws.Write was called on t with that frame, whether or not it succeeded. */
  ghost predicate Reached(s: State, c: ConnId, idx: nat, t: ConnId) {
    exists i :: 0 <= i < |Log(s.got, t)| && From(Log(s.got, t)[i], c, idx)
  }

  predicate From(a: Attempt, c: ConnId, idx: nat) {
    a.src == c && a.idx == idx
  }

  ghost predicate SourceOk(s: State, c: ConnId) {
    var heard, snaps := Log(s.heard, c), Log(s.snaps, c);
    && (c !in s.threads ==> heard == [] && snaps == [])
    && (forall i, j :: 0 <= i < j < |snaps| ==> snaps[i].idx < snaps[j].idx)
    && (|snaps| > 0 ==> snaps[|snaps| - 1].idx < |heard|)
    && (c in s.threads ==>
          match s.threads[c].pc
          case Fanning(idx, frame) =>
            && idx == |heard| - 1 && heard[idx] == frame
            && (|snaps| > 0 ==> snaps[|snaps| - 1].idx < idx)
          case Sending(idx, frame, todo) =>
            && idx == |heard| - 1 && heard[idx] == frame
            && |snaps| > 0 && snaps[|snaps| - 1].idx == idx && {} < todo <= snaps[|snaps| - 1].targets
          case _ => true)
  }

  /** Every copied target is a peer, and is written to once the loop is past it. */
  ghost predicate SnapOk(s: State, c: ConnId, j: nat, t: ConnId) {
    j < |Log(s.snaps, c)| && t in Log(s.snaps, c)[j].targets ==>
      var idx := Log(s.snaps, c)[j].idx;
      Peers(s, c, t) && (Pending(s, c, idx, t) || Reached(s, c, idx, t))
  }

  ghost predicate AttemptOk(s: State, t: ConnId, i: nat) {
    i < |Log(s.got, t)| ==>
      var a := Log(s.got, t)[i];
      && a.idx < |Log(s.heard, a.src)| && Log(s.heard, a.src)[a.idx] == a.frame
      && Aimed(s, a.src, a.idx, t)
      && !Pending(s, a.src, a.idx, t)
  }

  ghost predicate OrderOk(s: State, t: ConnId) {
    var got := Log(s.got, t);
    forall i, j :: 0 <= i < j < |got| && got[i].src == got[j].src ==> got[i].idx < got[j].idx
  }

  ghost predicate Traffic(s: State) {
    && (forall c: ConnId {:trigger SourceOk(s, c)} {:trigger OrderOk(s, c)} :: SourceOk(s, c) && OrderOk(s, c))
    && (forall c: ConnId, j: nat, t: ConnId {:trigger SnapOk(s, c, j, t)} :: SnapOk(s, c, j, t))
    && (forall t: ConnId, i: nat {:trigger AttemptOk(s, t, i)} :: AttemptOk(s, t, i))
  }

  /** A step outside the read loop. */
  ghost predicate Quiet(s: State, s': State) {
    && s'.heard == s.heard && s'.snaps == s.snaps && s'.got == s.got
    && s.threads.Keys <= s'.threads.Keys
    && (forall c :: c in s.threads ==> s'.threads[c].conn == s.threads[c].conn)
    && (forall c :: c in s'.threads ==>
          if c in s.threads && !Idle(s.threads[c].pc) then s'.threads[c].pc == s.threads[c].pc
          else Idle(s'.threads[c].pc))
  }

  predicate Idle(pc: Pc) {
    !pc.Fanning? && !pc.Sending?
  }

  lemma TrafficQuiet(s: State, s': State)
    requires Traffic(s) && Quiet(s, s')
    ensures Traffic(s')
  {
    forall c: ConnId ensures SourceOk(s', c) { assert SourceOk(s, c); }
    forall c: ConnId, j: nat, t: ConnId ensures SnapOk(s', c, j, t) {
      assert SnapOk(s, c, j, t);
      SameReached(s, s', c, t);
    }
    forall t: ConnId, i: nat ensures AttemptOk(s', t, i) {
      assert AttemptOk(s, t, i);
      if i < |Log(s.got, t)| {
        var a := Log(s.got, t)[i];
        var j :| 0 <= j < |Log(s.snaps, a.src)| && AimedAt(Log(s.snaps, a.src)[j], a.idx, t);
        assert SourceOk(s, a.src);
        assert AimedAt(Log(s'.snaps, a.src)[j], a.idx, t);
      }
    }
    forall t: ConnId ensures OrderOk(s', t) { assert OrderOk(s, t); }
  }

  lemma SameReached(s: State, s': State, c: ConnId, t: ConnId)
    requires s'.got == s.got
    ensures forall idx: nat :: Reached(s', c, idx, t) == Reached(s, c, idx, t)
  {}

  lemma ReadSources(s: State, s': State, c: ConnId, frame: Frame)
    requires Traffic(s) && Enabled(s, Read(c, frame)) && s' == Fire(s, Read(c, frame))
    ensures forall k: ConnId {:trigger SourceOk(s', k)} :: SourceOk(s', k)
    ensures forall k: ConnId, j: nat, t: ConnId {:trigger SnapOk(s', k, j, t)} :: SnapOk(s', k, j, t)
  {
    forall k: ConnId ensures SourceOk(s', k) { assert SourceOk(s, k); }
    forall k: ConnId, j: nat, t: ConnId ensures SnapOk(s', k, j, t) {
      assert SnapOk(s, k, j, t);
      SameReached(s, s', k, t);
    }
  }

  lemma ReadAttempts(s: State, s': State, c: ConnId, frame: Frame)
    requires Traffic(s) && Enabled(s, Read(c, frame)) && s' == Fire(s, Read(c, frame))
    ensures forall t: ConnId, i: nat {:trigger AttemptOk(s', t, i)} :: AttemptOk(s', t, i)
  {
    forall t: ConnId, i: nat ensures AttemptOk(s', t, i) {
      assert AttemptOk(s, t, i);
      if i < |Log(s.got, t)| { SameAimed(s, s', Log(s.got, t)[i].src, Log(s.got, t)[i].idx, t); }
    }
  }

  lemma SameAimed(s: State, s': State, c: ConnId, idx: nat, t: ConnId)
    requires Aimed(s, c, idx, t) && Log(s.snaps, c) <= Log(s'.snaps, c)
    ensures Aimed(s', c, idx, t)
  {
    var j :| 0 <= j < |Log(s.snaps, c)| && AimedAt(Log(s.snaps, c)[j], idx, t);
    assert AimedAt(Log(s'.snaps, c)[j], idx, t);
  }

  /** Whoever is copied from a room is a peer of whoever captured that room. */
  lemma TargetsArePeers(s: State, c: ConnId, t: ConnId)
    requires Inv(s) && c in s.threads && t in Targets(s.dir.At(s.threads[c].room), s.threads[c].conn.role)
    ensures Peers(s, c, t)
  {
    var r := s.threads[c].room;
    assert RoomOk(s, r) && ThreadOk(s, c);
    if s.threads[c].conn.role.Daemon? {
      var id :| id in s.dir.At(r).clients && s.dir.At(r).clients[id] == t;
      assert Filed(s, r, id, s.dir.At(r).clients[id]);
    }
    assert ThreadOk(s, t);
  }

  lemma SnapshotSelf(s: State, s': State, c: ConnId)
    requires SourceOk(s, c) && Enabled(s, Snapshot(c)) && s' == Fire(s, Snapshot(c))
    ensures SourceOk(s', c)
  {
    var snaps := Log(s.snaps, c);
    assert forall i :: 0 <= i < |snaps| ==> snaps[i].idx <= snaps[|snaps| - 1].idx;
  }

  lemma SnapshotSources(s: State, s': State, c: ConnId)
    requires Traffic(s) && Enabled(s, Snapshot(c)) && s' == Fire(s, Snapshot(c))
    ensures forall k: ConnId {:trigger SourceOk(s', k)} :: SourceOk(s', k)
  {
    forall k: ConnId ensures SourceOk(s', k) {
      assert SourceOk(s, k);
      if k == c { SnapshotSelf(s, s', c); }
    }
  }

  lemma SnapshotSnaps(s: State, s': State, c: ConnId)
    requires Inv(s) && Traffic(s) && Enabled(s, Snapshot(c)) && s' == Fire(s, Snapshot(c))
    ensures forall k: ConnId, j: nat, t: ConnId {:trigger SnapOk(s', k, j, t)} :: SnapOk(s', k, j, t)
  {
    forall k: ConnId, j: nat, t: ConnId ensures SnapOk(s', k, j, t) {
      assert SnapOk(s, k, j, t);
      SameReached(s, s', k, t);
      if k == c && j == |Log(s.snaps, c)| && t in Log(s'.snaps, c)[j].targets {
        TargetsArePeers(s, c, t);
      }
    }
  }

  lemma SnapshotAttempts(s: State, s': State, c: ConnId)
    requires Inv(s) && Traffic(s) && Enabled(s, Snapshot(c)) && s' == Fire(s, Snapshot(c))
    ensures forall t: ConnId, i: nat {:trigger AttemptOk(s', t, i)} :: AttemptOk(s', t, i)
  {
    forall t: ConnId, i: nat ensures AttemptOk(s', t, i) {
      assert AttemptOk(s, t, i);
      if i < |Log(s.got, t)| {
        var a := Log(s.got, t)[i];
        SameAimed(s, s', a.src, a.idx, t);
        if a.src == c { OlderThanCurrent(s, c, a.idx, t); }
      }
    }
  }

  /** Frames fanned out before the current one have smaller numbers. */
  lemma OlderThanCurrent(s: State, c: ConnId, idx: nat, t: ConnId)
    requires SourceOk(s, c) && c in s.threads && s.threads[c].pc.Fanning? && Aimed(s, c, idx, t)
    ensures idx < s.threads[c].pc.idx
  {
    var snaps := Log(s.snaps, c);
    var j :| 0 <= j < |snaps| && AimedAt(snaps[j], idx, t);
    assert j < |snaps| - 1 ==> snaps[j].idx < snaps[|snaps| - 1].idx;
  }

  lemma WriteSources(s: State, s': State, c: ConnId, t: ConnId, ok: bool)
    requires Traffic(s) && Enabled(s, Write(c, t, ok)) && s' == Fire(s, Write(c, t, ok))
    ensures forall k: ConnId {:trigger SourceOk(s', k)} :: SourceOk(s', k)
  {
    forall k: ConnId ensures SourceOk(s', k) { assert SourceOk(s, k); }
  }

  lemma WriteReached(s: State, s': State, c: ConnId, t: ConnId, ok: bool, k: ConnId, idx: nat, u: ConnId)
    requires Enabled(s, Write(c, t, ok)) && s' == Fire(s, Write(c, t, ok))
    ensures Reached(s, k, idx, u) ==> Reached(s', k, idx, u)
    ensures k == c && u == t && idx == s.threads[c].pc.idx ==> Reached(s', k, idx, u)
  {
    if Reached(s, k, idx, u) {
      var i :| 0 <= i < |Log(s.got, u)| && From(Log(s.got, u)[i], k, idx);
      assert From(Log(s'.got, u)[i], k, idx);
    }
    if k == c && u == t && idx == s.threads[c].pc.idx {
      assert From(Log(s'.got, t)[|Log(s.got, t)|], c, idx);
    }
  }

  lemma WriteSnaps(s: State, s': State, c: ConnId, t: ConnId, ok: bool)
    requires Traffic(s) && Enabled(s, Write(c, t, ok)) && s' == Fire(s, Write(c, t, ok))
    ensures forall k: ConnId, j: nat, u: ConnId {:trigger SnapOk(s', k, j, u)} :: SnapOk(s', k, j, u)
  {
    forall k: ConnId, j: nat, u: ConnId ensures SnapOk(s', k, j, u) {
      assert SnapOk(s, k, j, u);
      if j < |Log(s.snaps, k)| { WriteReached(s, s', c, t, ok, k, Log(s.snaps, k)[j].idx, u); }
    }
  }

  lemma WriteAttempts(s: State, s': State, c: ConnId, t: ConnId, ok: bool)
    requires Traffic(s) && Enabled(s, Write(c, t, ok)) && s' == Fire(s, Write(c, t, ok))
    ensures forall u: ConnId, i: nat {:trigger AttemptOk(s', u, i)} :: AttemptOk(s', u, i)
  {
    forall u: ConnId, i: nat ensures AttemptOk(s', u, i) {
      assert AttemptOk(s, u, i);
      if i < |Log(s.got, u)| {
        SameAimed(s, s', Log(s.got, u)[i].src, Log(s.got, u)[i].idx, u);
      } else if i < |Log(s'.got, u)| {
        assert SourceOk(s, c);
        assert AimedAt(Log(s'.snaps, c)[|Log(s.snaps, c)| - 1], s.threads[c].pc.idx, t);
      }
    }
  }

  lemma WriteOrder(s: State, s': State, c: ConnId, t: ConnId, ok: bool)
    requires Traffic(s) && Enabled(s, Write(c, t, ok)) && s' == Fire(s, Write(c, t, ok))
    ensures forall u: ConnId {:trigger OrderOk(s', u)} :: OrderOk(s', u)
  {
    forall u: ConnId ensures OrderOk(s', u) {
      assert OrderOk(s, u) && SourceOk(s, c);
      forall i: nat | i < |Log(s.got, t)| && Log(s.got, t)[i].src == c
        ensures Log(s.got, t)[i].idx < s.threads[c].pc.idx
      {
        assert AttemptOk(s, t, i);
      }
    }
  }

  lemma TrafficRead(s: State, c: ConnId, frame: Frame)
    requires Traffic(s) && Enabled(s, Read(c, frame))
    ensures Traffic(Fire(s, Read(c, frame)))
  {
    var s' := Fire(s, Read(c, frame));
    ReadSources(s, s', c, frame);
    ReadAttempts(s, s', c, frame);
    forall t: ConnId ensures OrderOk(s', t) { assert OrderOk(s, t); }
  }

  lemma TrafficSnapshot(s: State, c: ConnId)
    requires Inv(s) && Traffic(s) && Enabled(s, Snapshot(c))
    ensures Traffic(Fire(s, Snapshot(c)))
  {
    var s' := Fire(s, Snapshot(c));
    SnapshotSources(s, s', c);
    SnapshotSnaps(s, s', c);
    SnapshotAttempts(s, s', c);
    forall t: ConnId ensures OrderOk(s', t) { assert OrderOk(s, t); }
  }

  lemma TrafficWrite(s: State, c: ConnId, t: ConnId, ok: bool)
    requires Traffic(s) && Enabled(s, Write(c, t, ok))
    ensures Traffic(Fire(s, Write(c, t, ok)))
  {
    var s' := Fire(s, Write(c, t, ok));
    WriteSources(s, s', c, t, ok);
    WriteSnaps(s, s', c, t, ok);
    WriteAttempts(s, s', c, t, ok);
    WriteOrder(s, s', c, t, ok);
  }

  lemma QuietStep(s: State, l: Label)
    requires Enabled(s, l) && !l.Read? && !l.Snapshot? && !l.Write?
    ensures Quiet(s, Fire(s, l))
  {}

  lemma {:induction false} TrafficAlways(ls: seq<Label>)
    ensures Traffic(Exec(ls))
  {
    if ls != [] {
      var s, l := Exec(ls[..|ls| - 1]), ls[|ls| - 1];
      TrafficAlways(ls[..|ls| - 1]);
      InvAlways(ls[..|ls| - 1]);
      if Enabled(s, l) {
        match l
        case Read(c, frame) => TrafficRead(s, c, frame);
        case Snapshot(c) => TrafficSnapshot(s, c);
        case Write(c, t, ok) => TrafficWrite(s, c, t, ok);
        case _ =>
          QuietStep(s, l);
          TrafficQuiet(s, Fire(s, l));
      }
    }
  }
}
