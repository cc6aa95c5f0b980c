/**
 The trickled-candidate queues of main.go over any number of posts and polls. A label is
 one section under r.mu, one channel operation or one timeout; any sequence is a schedule.
 */
module Candidates {
  import opened Common

  const CANDIDATE_CAPACITY := 32

  datatype PostPc = Blocked | Acked | Refused

  /** A poll blocks for its first candidate, then takes what is there without blocking. */
  datatype PollPc = Waiting | Draining(out: seq<string>) | Replied(out: seq<string>) | Dropped

  datatype Call = Post(peer: string, q: nat, cand: string, post: PostPc) | Poll(peer: string, q: nat, poll: PollPc)

  /** A candidate that went into or out of a queue, and the call that put or took it. */
  datatype Move = Move(who: nat, cand: string)

  /** acked and taken are, for each peer, the sends into its queue and the receives from it. */
  datatype State = State(
    queueOf: map<string, nat>,
    queues: seq<seq<string>>,
    names: seq<string>,
    calls: map<nat, Call>,
    acked: map<string, seq<Move>>,
    taken: map<string, seq<Move>>)

  datatype Label =
    | PostBegin(k: nat, peer: string, cand: string)
    | PostSend(k: nat)
    | PostTimeout(k: nat)
    | PollBegin(k: nat, peer: string)
    | PollFirst(k: nat)
    | PollNext(k: nat)
    | PollDone(k: nat)
    | PollTimeout(k: nat)
    | PollCancel(k: nat)

  const INIT := State(map[], [], [], map[], map[], map[])

  function Queue(s: State, q: nat): seq<string> {
    if q < |s.queues| then s.queues[q] else []
  }

  /** candidateQueueLocked. */
  function QueueLocked(s: State, peer: string): (State, nat) {
    if peer in s.queueOf then (s, s.queueOf[peer])
    else (s.(queueOf := s.queueOf[peer := |s.queues|],
             queues := s.queues + [[]],
             names := s.names + [peer]), |s.queues|)
  }

  predicate IsPost(s: State, k: nat) {
    k in s.calls && s.calls[k].Post?
  }

  predicate IsPoll(s: State, k: nat) {
    k in s.calls && s.calls[k].Poll?
  }

  predicate Enabled(s: State, l: Label) {
    match l
    case PostBegin(k, _, _) => k !in s.calls
    case PostSend(k) => IsPost(s, k) && s.calls[k].post.Blocked? && |Queue(s, s.calls[k].q)| < CANDIDATE_CAPACITY
    case PostTimeout(k) => IsPost(s, k) && s.calls[k].post.Blocked?
    case PollBegin(k, _) => k !in s.calls
    case PollFirst(k) => IsPoll(s, k) && s.calls[k].poll.Waiting? && Queue(s, s.calls[k].q) != []
    case PollNext(k) => IsPoll(s, k) && s.calls[k].poll.Draining? && Queue(s, s.calls[k].q) != []
    case PollDone(k) => IsPoll(s, k) && s.calls[k].poll.Draining? && Queue(s, s.calls[k].q) == []
    case PollTimeout(k) => IsPoll(s, k) && s.calls[k].poll.Waiting?
    case PollCancel(k) => IsPoll(s, k) && s.calls[k].poll.Waiting?
  }

  /** What a poll has taken so far, in order. */
  function Out(pc: PollPc): seq<string> {
    match pc
    case Draining(out) => out
    case Replied(out) => out
    case _ => []
  }

  function Take(s: State, k: nat): State
    requires IsPoll(s, k) && s.calls[k].q < |s.queues| && s.queues[s.calls[k].q] != []
  {
    var c := s.calls[k];
    var buf := s.queues[c.q];
    s.(queues := s.queues[c.q := buf[1..]],
       taken := Append(s.taken, c.peer, Move(k, buf[0])),
       calls := s.calls[k := c.(poll := Draining(Out(c.poll) + [buf[0]]))])
  }

  function Fire(s: State, l: Label): State
    requires Enabled(s, l)
  {
    match l
    case PostBegin(k, peer, cand) =>
      var (s1, q) := QueueLocked(s, peer);
      s1.(calls := s1.calls[k := Post(peer, q, cand, Blocked)])
    case PostSend(k) =>
      var c := s.calls[k];
      s.(queues := if c.q < |s.queues| then s.queues[c.q := s.queues[c.q] + [c.cand]] else s.queues,
         acked := Append(s.acked, c.peer, Move(k, c.cand)),
         calls := s.calls[k := c.(post := Acked)])
    case PostTimeout(k) => s.(calls := s.calls[k := s.calls[k].(post := Refused)])
    case PollBegin(k, peer) =>
      var (s1, q) := QueueLocked(s, peer);
      s1.(calls := s1.calls[k := Poll(peer, q, Waiting)])
    case PollFirst(k) => Take(s, k)
    case PollNext(k) => Take(s, k)
    case PollDone(k) => s.(calls := s.calls[k := s.calls[k].(poll := Replied(Out(s.calls[k].poll)))])
    case PollTimeout(k) => s.(calls := s.calls[k := s.calls[k].(poll := Replied([]))])
    case PollCancel(k) => s.(calls := s.calls[k := s.calls[k].(poll := Dropped)])
  }

  function Step(s: State, l: Label): State {
    if Enabled(s, l) then Fire(s, l) else s
  }

  function Exec(ls: seq<Label>): State {
    if ls == [] then INIT else Step(Exec(ls[..|ls| - 1]), ls[|ls| - 1])
  }

  // ---- The invariant ----

  function Cands(ts: seq<Move>): seq<string> {
    if ts == [] then [] else Cands(ts[..|ts| - 1]) + [ts[|ts| - 1].cand]
  }

  /** Call k's share of a queue's history, in order. */
  function MovedBy(ts: seq<Move>, k: nat): seq<string> {
    if ts == [] then []
    else MovedBy(ts[..|ts| - 1], k) + if ts[|ts| - 1].who == k then [ts[|ts| - 1].cand] else []
  }

  lemma MovesThen(ts: seq<Move>, t: Move)
    ensures Cands(ts + [t]) == Cands(ts) + [t.cand]
    ensures forall k :: MovedBy(ts + [t], k) == MovedBy(ts, k) + if t.who == k then [t.cand] else []
  {
    assert (ts + [t])[..|ts|] == ts;
  }

  predicate QueueOf(s: State, peer: string, q: nat) {
    peer in s.queueOf && s.queueOf[peer] == q && q < |s.queues| && q < |s.names| && s.names[q] == peer
  }

  predicate PeerOk(s: State, peer: string) {
    if peer in s.queueOf then
      && QueueOf(s, peer, s.queueOf[peer])
      && Cands(Log(s.acked, peer)) == Cands(Log(s.taken, peer)) + s.queues[s.queueOf[peer]]
      && |s.queues[s.queueOf[peer]]| <= CANDIDATE_CAPACITY
    else Log(s.acked, peer) == [] && Log(s.taken, peer) == []
  }

  predicate CallOk(s: State, k: nat) {
    k in s.calls ==> QueueOf(s, s.calls[k].peer, s.calls[k].q)
  }

  /** What call k took from the peer's queue is what it has to show for it. */
  predicate TakenOk(s: State, k: nat, peer: string) {
    MovedBy(Log(s.taken, peer), k) == if IsPoll(s, k) && s.calls[k].peer == peer then Out(s.calls[k].poll) else []
  }

  /** A post is answered 204 if and only if its candidate went into the peer's queue, once. */
  predicate AckedOk(s: State, k: nat, peer: string) {
    MovedBy(Log(s.acked, peer), k) ==
    if IsPost(s, k) && s.calls[k].peer == peer && s.calls[k].post.Acked? then [s.calls[k].cand] else []
  }

  ghost predicate Inv(s: State) {
    && |s.names| == |s.queues|
    && (forall peer: string {:trigger PeerOk(s, peer)} :: PeerOk(s, peer))
    && (forall k: nat {:trigger CallOk(s, k)} :: CallOk(s, k))
    && (forall k: nat, peer: string {:trigger TakenOk(s, k, peer)} :: TakenOk(s, k, peer))
    && (forall k: nat, peer: string {:trigger AckedOk(s, k, peer)} :: AckedOk(s, k, peer))
  }

  lemma QueueStays(s: State, l: Label, peer: string, q: nat)
    requires |s.names| == |s.queues| && Enabled(s, l) && QueueOf(s, peer, q)
    ensures QueueOf(Fire(s, l), peer, q)
  {}

  /** A call keeps the queue it captured at its beginning. */
  lemma CaptureStays(s: State, l: Label, k: nat)
    requires Enabled(s, l) && k in s.calls
    ensures k in Fire(s, l).calls
    ensures Fire(s, l).calls[k].peer == s.calls[k].peer && Fire(s, l).calls[k].q == s.calls[k].q
  {}

  lemma CallBegins(s: State, l: Label)
    requires |s.names| == |s.queues| && Enabled(s, l) && (l.PostBegin? || l.PollBegin?) && PeerOk(s, l.peer)
    ensures Fire(s, l).calls.Keys == s.calls.Keys + {l.k} && CallOk(Fire(s, l), l.k)
  {}

  lemma CallStep(s: State, l: Label)
    requires Inv(s) && Enabled(s, l)
    ensures forall k: nat {:trigger CallOk(Fire(s, l), k)} :: CallOk(Fire(s, l), k)
  {
    if l.PostBegin? || l.PollBegin? {
      assert PeerOk(s, l.peer);
      CallBegins(s, l);
    } else {
      assert Fire(s, l).calls.Keys == s.calls.Keys;
    }
    forall k: nat ensures CallOk(Fire(s, l), k) {
      assert CallOk(s, k);
      if k in s.calls {
        CaptureStays(s, l, k);
        QueueStays(s, l, s.calls[k].peer, s.calls[k].q);
      }
    }
  }

  /** Putting one more in keeps the balance of a queue's history. */
  lemma SendBalance(acked: seq<Move>, taken: seq<Move>, queue: seq<string>, move: Move)
    requires Cands(acked) == Cands(taken) + queue
    ensures Cands(acked + [move]) == Cands(taken) + (queue + [move.cand])
  {
    MovesThen(acked, move);
    assert Cands(taken) + queue + [move.cand] == Cands(taken) + (queue + [move.cand]);
  }

  lemma PeerSendOwn(s: State, k: nat)
    requires Enabled(s, PostSend(k)) && CallOk(s, k) && PeerOk(s, s.calls[k].peer)
    ensures PeerOk(Fire(s, PostSend(k)), s.calls[k].peer)
  {
    var c, s' := s.calls[k], Fire(s, PostSend(k));
    var before, move := Log(s.acked, c.peer), Move(k, c.cand);
    SendBalance(before, Log(s.taken, c.peer), s.queues[c.q], move);
    assert Log(s'.acked, c.peer) == before + [move] && s'.queues[c.q] == s.queues[c.q] + [c.cand];
    assert s'.queueOf == s.queueOf && s'.names == s.names && s'.taken == s.taken;
  }

  lemma PeerFrame(s: State, s': State, peer: string)
    requires PeerOk(s, peer) && s'.queueOf == s.queueOf && s'.names == s.names && |s'.queues| == |s.queues|
    requires peer in s.queueOf ==> s'.queues[s.queueOf[peer]] == s.queues[s.queueOf[peer]]
    requires Log(s'.acked, peer) == Log(s.acked, peer) && Log(s'.taken, peer) == Log(s.taken, peer)
    ensures PeerOk(s', peer)
  {}

  lemma PeerSend(s: State, k: nat)
    requires Inv(s) && Enabled(s, PostSend(k))
    ensures forall peer: string {:trigger PeerOk(Fire(s, PostSend(k)), peer)} :: PeerOk(Fire(s, PostSend(k)), peer)
  {
    assert CallOk(s, k);
    forall peer: string ensures PeerOk(Fire(s, PostSend(k)), peer) {
      assert PeerOk(s, peer);
      if peer == s.calls[k].peer {
        PeerSendOwn(s, k);
      } else {
        assert peer in s.queueOf ==> s.queueOf[peer] != s.calls[k].q;
        PeerFrame(s, Fire(s, PostSend(k)), peer);
      }
    }
  }

  lemma PeerTake(s: State, k: nat)
    requires Inv(s) && IsPoll(s, k) && Queue(s, s.calls[k].q) != []
    ensures forall peer: string {:trigger PeerOk(Take(s, k), peer)} :: PeerOk(Take(s, k), peer)
  {
    forall peer: string ensures PeerOk(Take(s, k), peer) {
      assert PeerOk(s, peer) && CallOk(s, k);
      var c := s.calls[k];
      if peer == c.peer {
        var buf, ts := s.queues[c.q], Log(s.taken, peer);
        MovesThen(ts, Move(k, buf[0]));
        assert Cands(ts) + buf == Cands(ts) + [buf[0]] + buf[1..];
      } else if peer in s.queueOf {
        assert s.queueOf[peer] != c.q;
      }
    }
  }

  /** A new queue is empty, and its peer has no history. */
  lemma PeerMade(s: State, s': State, peer: string, made: string)
    requires |s.names| == |s.queues| && PeerOk(s, peer) && PeerOk(s, made)
    requires
      if made in s.queueOf
      then s'.queueOf == s.queueOf && s'.queues == s.queues && s'.names == s.names
      else && s'.queueOf == s.queueOf[made := |s.queues|]
           && s'.queues == s.queues + [[]] && s'.names == s.names + [made]
    requires s'.acked == s.acked && s'.taken == s.taken
    ensures PeerOk(s', peer)
  {}

  lemma PeerMake(s: State, l: Label)
    requires Inv(s) && Enabled(s, l) && (l.PostBegin? || l.PollBegin?)
    ensures forall peer: string {:trigger PeerOk(Fire(s, l), peer)} :: PeerOk(Fire(s, l), peer)
  {
    forall peer: string ensures PeerOk(Fire(s, l), peer) {
      assert PeerOk(s, peer) && PeerOk(s, l.peer);
      PeerMade(s, Fire(s, l), peer, l.peer);
    }
  }

  lemma PeerStep(s: State, l: Label)
    requires Inv(s) && Enabled(s, l)
    ensures forall peer: string {:trigger PeerOk(Fire(s, l), peer)} :: PeerOk(Fire(s, l), peer)
  {
    match l
    case PostSend(k) => PeerSend(s, k);
    case PollFirst(k) => PeerTake(s, k);
    case PollNext(k) => PeerTake(s, k);
    case PostBegin(_, _, _) => PeerMake(s, l);
    case PollBegin(_, _) => PeerMake(s, l);
    case _ => forall peer: string ensures PeerOk(Fire(s, l), peer) { assert PeerOk(s, peer); }
  }

  lemma TakenTake(s: State, j: nat)
    requires Inv(s) && IsPoll(s, j) && Queue(s, s.calls[j].q) != []
    ensures forall k: nat, peer: string {:trigger TakenOk(Take(s, j), k, peer)} :: TakenOk(Take(s, j), k, peer)
  {
    assert CallOk(s, j);
    var s', c := Take(s, j), s.calls[j];
    var move := Move(j, s.queues[c.q][0]);
    forall k: nat, peer: string ensures TakenOk(s', k, peer) {
      assert TakenOk(s, k, peer);
      var before, after := Log(s.taken, peer), Log(s'.taken, peer);
      if peer == c.peer {
        MovesThen(before, move);
        assert after == before + [move];
      } else {
        assert after == before;
      }
      assert k != j ==> IsPoll(s', k) == IsPoll(s, k) && (IsPoll(s, k) ==> s'.calls[k] == s.calls[k]);
    }
  }

  /** Labels that take nothing leave what each poll has taken. */
  lemma OutStays(s: State, l: Label, k: nat)
    requires Enabled(s, l) && !l.PollFirst? && !l.PollNext?
    ensures
      var s' := Fire(s, l);
      && (IsPoll(s, k) ==> IsPoll(s', k) && s'.calls[k].peer == s.calls[k].peer
                           && Out(s'.calls[k].poll) == Out(s.calls[k].poll))
      && (IsPoll(s', k) && !IsPoll(s, k) ==> Out(s'.calls[k].poll) == [])
  {}

  lemma TakenStep(s: State, l: Label)
    requires Inv(s) && Enabled(s, l)
    ensures forall k: nat, peer: string {:trigger TakenOk(Fire(s, l), k, peer)} :: TakenOk(Fire(s, l), k, peer)
  {
    match l
    case PollFirst(j) => TakenTake(s, j);
    case PollNext(j) => TakenTake(s, j);
    case _ =>
      assert Fire(s, l).taken == s.taken;
      forall k: nat, peer: string ensures TakenOk(Fire(s, l), k, peer) {
        assert TakenOk(s, k, peer);
        OutStays(s, l, k);
      }
  }

  lemma AckedSend(s: State, j: nat)
    requires Inv(s) && Enabled(s, PostSend(j))
    ensures forall k: nat, peer: string {:trigger AckedOk(Fire(s, PostSend(j)), k, peer)} ::
              AckedOk(Fire(s, PostSend(j)), k, peer)
  {
    forall k: nat, peer: string ensures AckedOk(Fire(s, PostSend(j)), k, peer) {
      assert AckedOk(s, k, peer);
      var s', c := Fire(s, PostSend(j)), s.calls[j];
      var before, after := Log(s.acked, peer), Log(s'.acked, peer);
      if peer == c.peer {
        MovesThen(before, Move(j, c.cand));
        assert after == before + [Move(j, c.cand)];
        assert k == j ==> MovedBy(before, k) == [];
      } else {
        assert after == before;
      }
      assert k != j ==> IsPost(s', k) == IsPost(s, k) && (IsPost(s, k) ==> s'.calls[k] == s.calls[k]);
    }
  }

  lemma AckedStep(s: State, l: Label)
    requires Inv(s) && Enabled(s, l)
    ensures forall k: nat, peer: string {:trigger AckedOk(Fire(s, l), k, peer)} :: AckedOk(Fire(s, l), k, peer)
  {
    if l.PostSend? {
      AckedSend(s, l.k);
    } else {
      assert Fire(s, l).acked == s.acked;
      forall k: nat, peer: string ensures AckedOk(Fire(s, l), k, peer) { assert AckedOk(s, k, peer); }
    }
  }

  lemma {:induction false} InvAlways(ls: seq<Label>)
    ensures Inv(Exec(ls))
  {
    if ls != [] {
      var s, l := Exec(ls[..|ls| - 1]), ls[|ls| - 1];
      InvAlways(ls[..|ls| - 1]);
      if Enabled(s, l) {
        CallStep(s, l);
        PeerStep(s, l);
        TakenStep(s, l);
        AckedStep(s, l);
      }
    }
  }

  // ---- What the queues promise ----

  /** Only a post answered 204 has put anything in a queue: its candidate, once, for its peer. */
  lemma AckedExactly(ls: seq<Label>, k: nat, peer: string)
    ensures
      var s := Exec(ls);
      MovedBy(Log(s.acked, peer), k) ==
      if k in s.calls && s.calls[k].Post? && s.calls[k].post.Acked? && s.calls[k].peer == peer
      then [s.calls[k].cand] else []
  {
    InvAlways(ls);
    assert AckedOk(Exec(ls), k, peer);
  }

  /** What was acknowledged is what the polls received, in order, and then what is queued. */
  lemma CandidatesConserved(ls: seq<Label>, peer: string)
    ensures
      var s := Exec(ls);
      var queue := if peer in s.queueOf then Queue(s, s.queueOf[peer]) else [];
      Cands(Log(s.acked, peer)) == Cands(Log(s.taken, peer)) + queue && |queue| <= 32
  {
    InvAlways(ls);
    assert PeerOk(Exec(ls), peer);
  }

  /** A candidate gets in, whenever its post is waiting to, if and only if fewer than 32 wait for its peer. */
  lemma CandidateGetsIn(ls: seq<Label>, k: nat)
    requires IsPost(Exec(ls), k) && Exec(ls).calls[k].post.Blocked?
    ensures
      var s, peer := Exec(ls), Exec(ls).calls[k].peer;
      peer in s.queueOf && (Enabled(s, PostSend(k)) <==> |Queue(s, s.queueOf[peer])| < 32)
  {
    InvAlways(ls);
    assert CallOk(Exec(ls), k);
  }

  /** A poll shows all it received and nothing else, and it received from its own peer's queue only. */
  lemma PollShowsWhatItTook(ls: seq<Label>, k: nat, peer: string)
    requires IsPoll(Exec(ls), k)
    ensures
      var c := Exec(ls).calls[k];
      MovedBy(Log(Exec(ls).taken, peer), k) == if peer == c.peer then Out(c.poll) else []
  {
    InvAlways(ls);
    assert TakenOk(Exec(ls), k, peer);
  }

  /** A post, or a poll that gave up before its first candidate, has taken nothing. */
  lemma NothingLost(ls: seq<Label>, k: nat, peer: string)
    requires k in Exec(ls).calls
    requires Exec(ls).calls[k].Post? || Exec(ls).calls[k].poll.Dropped? || Exec(ls).calls[k].poll == Replied([])
    ensures forall i :: 0 <= i < |Log(Exec(ls).taken, peer)| ==> Log(Exec(ls).taken, peer)[i].who != k
  {
    InvAlways(ls);
    assert TakenOk(Exec(ls), k, peer);
    NoneTaken(Log(Exec(ls).taken, peer), k);
  }

  lemma {:induction false} NoneTaken(ts: seq<Move>, k: nat)
    requires MovedBy(ts, k) == []
    ensures forall i :: 0 <= i < |ts| ==> ts[i].who != k
  {
    if ts != [] { NoneTaken(ts[..|ts| - 1], k); }
  }

  /** The label was taken at position n of the schedule. */
  predicate HappenedAt(ls: seq<Label>, n: nat, l: Label) {
    n < |ls| && ls[n] == l && Enabled(Exec(ls[..n]), l)
  }

  predicate GaveUp(s: State, k: nat, cancelled: bool) {
    IsPoll(s, k) && s.calls[k].poll == if cancelled then Dropped else Replied([])
  }

  /** A poll that drains has received something. */
  predicate HasFirst(s: State, k: nat) {
    IsPoll(s, k) && s.calls[k].poll.Draining? ==> s.calls[k].poll.out != []
  }

  function Ending(k: nat, cancelled: bool): Label {
    if cancelled then PollCancel(k) else PollTimeout(k)
  }

  lemma GaveUpStep(s: State, l: Label, k: nat, cancelled: bool)
    requires HasFirst(s, k)
    ensures HasFirst(Step(s, l), k)
    ensures GaveUp(Step(s, l), k, cancelled) <==>
            GaveUp(s, k, cancelled) || (l == Ending(k, cancelled) && Enabled(s, l))
  {}

  /** A poll ends without a reply exactly if it was cancelled, and with an empty list exactly if it timed out. */
  lemma {:induction false} GaveUpExactly(ls: seq<Label>, k: nat, cancelled: bool)
    ensures HasFirst(Exec(ls), k)
    ensures GaveUp(Exec(ls), k, cancelled) <==> exists n: nat :: HappenedAt(ls, n, Ending(k, cancelled))
  {
    if ls != [] {
      var front, l, end := ls[..|ls| - 1], ls[|ls| - 1], Ending(k, cancelled);
      GaveUpExactly(front, k, cancelled);
      GaveUpStep(Exec(front), l, k, cancelled);
      forall n: nat | n < |front| ensures HappenedAt(ls, n, end) == HappenedAt(front, n, end) {
        assert front[..n] == ls[..n];
      }
      assert HappenedAt(ls, |front|, end) <==> l == end && Enabled(Exec(front), l);
    }
  }

  // ---- The drain loop ----

  predicate IsDraining(s: State, k: nat) {
    IsPoll(s, k) && s.calls[k].poll.Draining?
  }

  /** The turns of the loop, once begun, that poll k has yet to take if nothing is put in its queue. */
  function TurnsLeft(s: State, k: nat): nat {
    if IsDraining(s, k) then |Queue(s, s.calls[k].q)| + 1 else 0
  }

  /** The label is a turn of k's loop: it takes the next candidate, or finds none and replies. */
  predicate IsTurn(s: State, l: Label, k: nat) {
    (l == PollNext(k) || l == PollDone(k)) && Enabled(s, l)
  }

  /** The label puts a candidate in queue q. */
  predicate SendsTo(s: State, l: Label, q: nat) {
    l.PostSend? && Enabled(s, l) && s.calls[l.k].q == q
  }

  /** How many turns of its loop k takes in more, which goes on from ls. */
  function Turns(ls: seq<Label>, more: seq<Label>, k: nat): nat {
    if more == [] then 0 else
      var front := more[..|more| - 1];
      Turns(ls, front, k) + if IsTurn(Exec(ls + front), more[|more| - 1], k) then 1 else 0
  }

  /**
   Poll k, whose queue held buf and whose output was out, has since taken some of the n
   candidates that have left the queue, in order; whoever took the others.
   */
  ghost predicate Drained(s: State, k: nat, q: nat, out: seq<string>, buf: seq<string>, n: nat) {
    && IsPoll(s, k) && s.calls[k].q == q && (s.calls[k].poll.Draining? || s.calls[k].poll.Replied?)
    && n <= |buf| && Queue(s, q) == buf[n..]
    && out <= Out(s.calls[k].poll) && Subsequence(Out(s.calls[k].poll)[|out|..], buf[..n])
  }

  lemma SubsequenceNext(xs: seq<string>, ys: seq<string>, n: nat)
    requires n < |ys| && Subsequence(xs, ys[..n])
    ensures Subsequence(xs, ys[..n + 1]) && Subsequence(xs + [ys[n]], ys[..n + 1])
  {
    assert ys[..n + 1][..n] == ys[..n];
    SubsequenceLonger(xs, ys[..n + 1], n);
    SubsequenceExtend(xs, ys[..n + 1], n);
  }

  /** A poll of this queue takes its oldest candidate. */
  lemma DrainTake(s: State, j: nat, k: nat, q: nat, out: seq<string>, buf: seq<string>, n: nat)
    requires Drained(s, k, q, out, buf, n) && q < |s.queues|
    requires IsPoll(s, j) && s.calls[j].q == q && Queue(s, q) != [] && (j == k ==> s.calls[k].poll.Draining?)
    ensures Drained(Take(s, j), k, q, out, buf, n + 1)
  {
    var xs := Out(s.calls[k].poll)[|out|..];
    SubsequenceNext(xs, buf, n);
    if j == k { assert Out(Take(s, j).calls[k].poll)[|out|..] == xs + [buf[n]]; }
  }

  lemma DrainFrame(s: State, s': State, k: nat, q: nat, out: seq<string>, buf: seq<string>, n: nat)
    requires Drained(s, k, q, out, buf, n) && Queue(s', q) == Queue(s, q)
    requires IsPoll(s', k) && s'.calls[k].q == q && (s'.calls[k].poll.Draining? || s'.calls[k].poll.Replied?)
    requires Out(s'.calls[k].poll) == Out(s.calls[k].poll)
    ensures Drained(s', k, q, out, buf, n)
  {}

  /** Who takes from q, if the label does. */
  predicate TakesFrom(s: State, l: Label, q: nat) {
    (l.PollFirst? || l.PollNext?) && Enabled(s, l) && s.calls[l.k].q == q
  }

  /** Any other label leaves the queue and k's output as they are, and at most ends k's loop. */
  lemma DrainOther(s: State, l: Label, k: nat, q: nat)
    requires Enabled(s, l) && q < |s.queues| && !SendsTo(s, l, q) && !TakesFrom(s, l, q)
    requires IsPoll(s, k) && s.calls[k].q == q && (s.calls[k].poll.Draining? || s.calls[k].poll.Replied?)
    ensures
      var s' := Fire(s, l);
      && Queue(s', q) == Queue(s, q) && IsPoll(s', k) && s'.calls[k].q == q
      && Out(s'.calls[k].poll) == Out(s.calls[k].poll)
      && s'.calls[k].poll == if l == PollDone(k) then Replied(Out(s.calls[k].poll)) else s.calls[k].poll
  {}

  lemma DrainStep(s: State, l: Label, k: nat, q: nat, out: seq<string>, buf: seq<string>, n: nat)
    requires Drained(s, k, q, out, buf, n) && q < |s.queues| && !SendsTo(s, l, q)
    ensures Drained(Step(s, l), k, q, out, buf, if TakesFrom(s, l, q) then n + 1 else n)
    ensures (if IsTurn(s, l, k) then 1 else 0) + TurnsLeft(Step(s, l), k) <= TurnsLeft(s, k)
  {
    if TakesFrom(s, l, q) {
      DrainTake(s, l.k, k, q, out, buf, n);
    } else if Enabled(s, l) {
      DrainOther(s, l, k, q);
      DrainFrame(s, Step(s, l), k, q, out, buf, n);
    }
  }

  /** Until it has replied a drain loop can always take its next turn. */
  lemma DrainGoesOn(s: State, k: nat)
    requires IsDraining(s, k)
    ensures IsTurn(s, PollNext(k), k) || IsTurn(s, PollDone(k), k)
  {}

  lemma ExecLast(ls: seq<Label>, front: seq<Label>, l: Label)
    ensures Exec(ls + (front + [l])) == Step(Exec(ls + front), l)
  {
    var all := ls + (front + [l]);
    assert all[..|all| - 1] == ls + front && all[|all| - 1] == l;
  }

  lemma TurnsLast(ls: seq<Label>, front: seq<Label>, l: Label, k: nat)
    ensures Turns(ls, front + [l], k) == Turns(ls, front, k) + if IsTurn(Exec(ls + front), l, k) then 1 else 0
  {
    assert (front + [l])[..|front|] == front;
  }

  /** Label i of more, which goes on from ls, puts a candidate in queue q. */
  predicate SentAt(ls: seq<Label>, more: seq<Label>, i: nat, q: nat)
    requires i < |more|
  {
    SendsTo(Exec(ls + more[..i]), more[i], q)
  }

  ghost predicate NoneSent(ls: seq<Label>, more: seq<Label>, q: nat) {
    forall i :: 0 <= i < |more| ==> !SentAt(ls, more, i, q)
  }

  lemma SentBefore(ls: seq<Label>, front: seq<Label>, l: Label, i: nat, q: nat)
    requires i <= |front|
    ensures i < |front| ==> SentAt(ls, front + [l], i, q) == SentAt(ls, front, i, q)
    ensures i == |front| ==> SentAt(ls, front + [l], i, q) == SendsTo(Exec(ls + front), l, q)
  {
    assert (front + [l])[..i] == front[..i];
    assert front[..|front|] == front;
  }

  lemma NoneSentBefore(ls: seq<Label>, front: seq<Label>, l: Label, q: nat)
    requires NoneSent(ls, front + [l], q)
    ensures NoneSent(ls, front, q) && !SendsTo(Exec(ls + front), l, q)
  {
    forall i: nat | i < |front| ensures !SentAt(ls, front, i, q) {
      SentBefore(ls, front, l, i, q);
      assert !SentAt(ls, front + [l], i, q);
    }
    SentBefore(ls, front, l, |front|, q);
    assert !SentAt(ls, front + [l], |front|, q);
  }

  lemma QueueKnown(ls: seq<Label>, k: nat)
    requires k in Exec(ls).calls
    ensures Exec(ls).calls[k].q < |Exec(ls).queues|
  {
    InvAlways(ls);
    assert CallOk(Exec(ls), k);
  }

  /**
   With no candidate put in its queue meanwhile a drain loop ends, whoever else polls: it
   takes at most one turn for each candidate there at the start and one to reply. What it
   adds to its output is some of those candidates, in order.
   */
  lemma {:induction false} DrainEnds(ls: seq<Label>, more: seq<Label>, k: nat) returns (n: nat)
    requires IsDraining(Exec(ls), k) && NoneSent(ls, more, Exec(ls).calls[k].q)
    ensures
      var s, c := Exec(ls), Exec(ls).calls[k];
      && Drained(Exec(ls + more), k, c.q, c.poll.out, Queue(s, c.q), n)
      && Turns(ls, more, k) + TurnsLeft(Exec(ls + more), k) <= |Queue(s, c.q)| + 1
    decreases |more|
  {
    var s, c := Exec(ls), Exec(ls).calls[k];
    if more == [] {
      assert ls + more == ls;
      assert c.poll.out[|c.poll.out|..] == [];
      n := 0;
    } else {
      var front, l := more[..|more| - 1], more[|more| - 1];
      assert more == front + [l];
      NoneSentBefore(ls, front, l, c.q);
      n := DrainEnds(ls, front, k);
      QueueKnown(ls + front, k);
      ExecLast(ls, front, l);
      TurnsLast(ls, front, l, k);
      DrainStep(Exec(ls + front), l, k, c.q, c.poll.out, Queue(s, c.q), n);
      n := if TakesFrom(Exec(ls + front), l, c.q) then n + 1 else n;
    }
  }

  /** The drain loop with nobody interleaved. */
  function Drain(s: State, k: nat): State
    requires IsDraining(s, k)
    decreases |Queue(s, s.calls[k].q)|
  {
    if Enabled(s, PollNext(k)) then Drain(Fire(s, PollNext(k)), k) else Fire(s, PollDone(k))
  }

  lemma NextTaken(s: State, k: nat)
    requires IsDraining(s, k) && Enabled(s, PollNext(k))
    ensures
      var s1, buf := Fire(s, PollNext(k)), Queue(s, s.calls[k].q);
      && IsDraining(s1, k) && s1.calls[k] == s.calls[k].(poll := Draining(s.calls[k].poll.out + [buf[0]]))
      && Queue(s1, s.calls[k].q) == buf[1..]
      && Drain(s, k) == Drain(s1, k)
  {}

  /** It ends, having taken the whole queue, and replies with all of it in order. */
  lemma {:induction false} DrainTakesAll(s: State, k: nat)
    requires IsDraining(s, k)
    ensures
      var q, s' := s.calls[k].q, Drain(s, k);
      && IsPoll(s', k) && s'.calls[k] == s.calls[k].(poll := Replied(s.calls[k].poll.out + Queue(s, q)))
      && Queue(s', q) == []
    decreases |Queue(s, s.calls[k].q)|
  {
    var out, buf := s.calls[k].poll.out, Queue(s, s.calls[k].q);
    if buf == [] {
      assert out + buf == out;
    } else {
      NextTaken(s, k);
      DrainTakesAll(Fire(s, PollNext(k)), k);
      assert out + [buf[0]] + buf[1..] == out + buf;
    }
  }
}
