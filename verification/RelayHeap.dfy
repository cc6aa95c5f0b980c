/**
 The signaling state of main.go on the heap: three maps to shared channels. The sections
 under r.mu and the channel operations do what the functions of Offers and Candidates say.
 */
module RelayHeap {
  import opened Common
  import Offers
  import Candidates

  type Envelope = Offers.Envelope

  /** A buffered channel of fixed capacity. */
  class Channel<T> {
    const capacity: nat
    ghost const serial: nat
    var buf: seq<T>

    constructor (capacity: nat, ghost serial: nat)
      ensures this.capacity == capacity && this.serial == serial && buf == []
    {
      this.capacity, this.serial, buf := capacity, serial, [];
    }

    /** A send in a select with a default or a timeout: it happens if there is room. */
    method TrySend(x: T) returns (ok: bool)
      modifies this
      ensures ok == (|old(buf)| < capacity)
      ensures buf == if ok then old(buf) + [x] else old(buf)
    {
      ok := |buf| < capacity;
      if ok {
        buf := buf + [x];
      }
    }

    method TryReceive() returns (x: Option<T>)
      modifies this
      ensures if old(buf) == [] then x.None? && buf == [] else x == Some(old(buf)[0]) && buf == old(buf)[1..]
    {
      if buf == [] {
        return None;
      }
      x := Some(buf[0]);
      buf := buf[1..];
    }

    /** One receive, and if it brings something, receives until there is nothing. */
    method Drain() returns (out: seq<T>)
      modifies this
      ensures out == old(buf) && buf == []
    {
      out := [];
      var next := TryReceive();
      while next.Some?
        invariant out + (if next.Some? then [next.value] else []) + buf == old(buf)
        invariant next.None? ==> buf == []
        decreases next.Some?, |buf|
      {
        out := out + [next.value];
        next := TryReceive();
      }
    }
  }

  ghost function Bufs<T>(chans: seq<Channel<T>>): (bs: seq<seq<T>>)
    reads chans
    ensures |bs| == |chans| && forall i :: 0 <= i < |chans| ==> bs[i] == chans[i].buf
  {
    seq(|chans|, i requires 0 <= i < |chans| reads chans => chans[i].buf)
  }

  ghost function Index<T>(m: map<string, Channel<T>>): (r: map<string, nat>)
    ensures r.Keys == m.Keys && forall k :: k in m ==> r[k] == m[k].serial
  {
    map k | k in m :: m[k].serial
  }

  lemma IndexAdd<T>(m: map<string, Channel<T>>, k: string, c: Channel<T>)
    ensures Index(m[k := c]) == Index(m)[k := c.serial]
  {}

  /** Every channel made is at its serial number, and the map leads to channels that were made. */
  ghost predicate Known<T>(m: map<string, Channel<T>>, chans: seq<Channel<T>>, capacity: nat) {
    && (forall i :: 0 <= i < |chans| ==> chans[i].serial == i && chans[i].capacity == capacity)
    && (forall k :: k in m ==> m[k].serial < |chans| && chans[m[k].serial] == m[k])
  }

  lemma KnownAdd<T>(m: map<string, Channel<T>>, chans: seq<Channel<T>>, capacity: nat, key: string, c: Channel<T>)
    requires Known(m, chans, capacity) && c.serial == |chans| && c.capacity == capacity
    ensures Known(m[key := c], chans + [c], capacity)
    ensures Index(m[key := c]) == Index(m)[key := |chans|]
  {
    IndexAdd(m, key, c);
  }

  lemma BufsAdd<T>(chans: seq<Channel<T>>, c: Channel<T>)
    ensures Bufs(chans + [c]) == Bufs(chans) + [c.buf]
  {}

  class Relay {
    var pendingOffers: map<string, Channel<Envelope>>
    var pendingAnswers: map<string, Channel<Envelope>>
    var candidateQueues: map<string, Channel<string>>
    ghost var offerChans: seq<Channel<Envelope>>
    ghost var answerChans: seq<Channel<Envelope>>
    ghost var candidateChans: seq<Channel<string>>
    ghost var names: seq<string>

    ghost predicate Valid()
      reads this
    {
      && Known(pendingOffers, offerChans, Offers.OFFER_CAPACITY)
      && Known(pendingAnswers, answerChans, Offers.ANSWER_CAPACITY)
      && Known(candidateQueues, candidateChans, Candidates.CANDIDATE_CAPACITY)
      && |names| == |candidateChans|
      && (forall c :: c in offerChans ==> c !in answerChans)
    }

    ghost function View(): Offers.Net
      reads this, offerChans, answerChans
    {
      Offers.Net(Index(pendingOffers), Bufs(offerChans), Index(pendingAnswers), Bufs(answerChans))
    }

    ghost function CandidateView(): Candidates.State
      reads this, candidateChans
    {
      Candidates.State(Index(candidateQueues), Bufs(candidateChans), names, map[], map[], map[])
    }

    constructor ()
      ensures Valid() && View() == Offers.INIT.net && CandidateView() == Candidates.INIT
    {
      pendingOffers, pendingAnswers, candidateQueues := map[], map[], map[];
      offerChans, answerChans, candidateChans, names := [], [], [], [];
    }

    /** A new queue for a bastion that has none. */
    method MakeOfferQueue(bastionID: string) returns (queue: Channel<Envelope>)
      requires Valid() && bastionID !in pendingOffers
      modifies this`pendingOffers, this`offerChans
      ensures Valid() && queue.serial == old(|offerChans|) && offerChans == old(offerChans) + [queue]
      ensures pendingOffers == old(pendingOffers)[bastionID := queue]
      ensures View() == Offers.OfferQueue(old(View()), bastionID).0
    {
      ghost var before, n := View(), |offerChans|;
      queue := new Channel(Offers.OFFER_CAPACITY, |offerChans|);
      assert View() == before;
      KnownAdd(pendingOffers, offerChans, Offers.OFFER_CAPACITY, bastionID, queue);
      BufsAdd(offerChans, queue);
      pendingOffers, offerChans := pendingOffers[bastionID := queue], offerChans + [queue];
      assert View() == before.(offerOf := before.offerOf[bastionID := n], offerQ := before.offerQ + [[]]);
    }

    /** The first section of signalingPoll: the queue to block on. */
    method OfferQueue(bastionID: string) returns (queue: Channel<Envelope>)
      requires Valid()
      modifies this`pendingOffers, this`offerChans
      ensures Valid() && View() == Offers.OfferQueue(old(View()), bastionID).0
      ensures queue.serial == Offers.OfferQueue(old(View()), bastionID).1 < |offerChans|
      ensures offerChans[queue.serial] == queue && old(offerChans) <= offerChans
    {
      if bastionID in pendingOffers {
        return pendingOffers[bastionID];
      }
      queue := MakeOfferQueue(bastionID);
    }

    /** The first section of signalingInitiate and signalingOffer: wait channel filed, queue found. */
    method Register(clientID: string, bastionID: string) returns (answerCh: Channel<Envelope>, queue: Channel<Envelope>)
      requires Valid()
      modifies this`pendingAnswers, this`answerChans, this`pendingOffers, this`offerChans
      ensures Valid()
      ensures
        var (n1, ch) := Offers.AwaitAnswer(old(View()), clientID);
        var (n2, q) := Offers.OfferQueue(n1, bastionID);
        && View() == n2
        && answerCh.serial == ch < |answerChans| && answerChans[ch] == answerCh
        && queue.serial == q < |offerChans| && offerChans[q] == queue
    {
      answerCh := new Channel(Offers.ANSWER_CAPACITY, |answerChans|);
      KnownAdd(pendingAnswers, answerChans, Offers.ANSWER_CAPACITY, clientID, answerCh);
      ghost var before := Bufs(answerChans);
      pendingAnswers := pendingAnswers[clientID := answerCh];
      answerChans := answerChans + [answerCh];
      assert Bufs(answerChans) == before + [[]];
      assert View() == Offers.AwaitAnswer(old(View()), clientID).0;
      queue := OfferQueue(bastionID);
    }

    /** The last section of both: the wait channel is forgotten, not closed. */
    method Cleanup(clientID: string)
      requires Valid()
      modifies this`pendingAnswers
      ensures Valid() && View() == old(View()).(answerOf := old(View()).answerOf - {clientID})
    {
      pendingAnswers := pendingAnswers - {clientID};
      assert Index(pendingAnswers) == old(Index(pendingAnswers)) - {clientID};
    }

    /** signalingAnswer with nobody interleaved. */
    method Answer(env: Envelope) returns (ok: bool)
      requires Valid()
      modifies answerChans
      ensures Valid()
      ensures (View(), ok) == Offers.AnswerNow(old(View()), env)
    {
      if env.peer !in pendingAnswers {
        return false;
      }
      ghost var before := View();
      var ch := pendingAnswers[env.peer];
      assert answerChans[ch.serial] == ch;
      ok := ch.TrySend(env);
      assert View().offerQ == before.offerQ;
      assert View().answerQ == Offers.Put(before.answerQ, ch.serial, ch.buf);
      assert Offers.Chan(before.answerQ, ch.serial) == old(ch.buf);
      assert View().answerOf == before.answerOf && before.answerOf[env.peer] == ch.serial;
      if !ok {
        assert View() == before;
      }
    }

    /** candidateQueueLocked. */
    method CandidateQueue(peer: string) returns (q: Channel<string>)
      requires Valid()
      modifies this`candidateQueues, this`candidateChans, this`names
      ensures Valid() && CandidateView() == Candidates.QueueLocked(old(CandidateView()), peer).0
      ensures q.serial == Candidates.QueueLocked(old(CandidateView()), peer).1 < |candidateChans|
      ensures candidateChans == if peer in old(candidateQueues) then old(candidateChans) else old(candidateChans) + [q]
      ensures candidateQueues ==
              if peer in old(candidateQueues) then old(candidateQueues) else old(candidateQueues)[peer := q]
      ensures peer in candidateQueues && candidateQueues[peer] == q
      ensures peer !in old(candidateQueues) ==> fresh(q) && q.buf == []
    {
      if peer in candidateQueues {
        return candidateQueues[peer];
      }
      ghost var before := CandidateView();
      q := new Channel(Candidates.CANDIDATE_CAPACITY, |candidateChans|);
      KnownAdd(candidateQueues, candidateChans, Candidates.CANDIDATE_CAPACITY, peer, q);
      candidateQueues := candidateQueues[peer := q];
      candidateChans := candidateChans + [q];
      names := names + [peer];
      assert CandidateView().queues == before.queues + [[]];
    }

    /** signalingPollCandidates with nobody interleaved: all that is queued, in order, and none left. */
    method PollCandidates(peer: string) returns (out: seq<string>)
      requires Valid()
      modifies this`candidateQueues, this`candidateChans, this`names, candidateChans
      ensures Valid() && peer in candidateQueues && candidateQueues[peer].buf == []
      ensures out == if peer in old(candidateQueues) then old(candidateQueues[peer].buf) else []
      ensures forall c :: c in old(candidateChans) && c != candidateQueues[peer] ==> c.buf == old(c.buf)
    {
      var q := CandidateQueue(peer);
      out := q.Drain();
    }
  }
}
