/** The invariant of the rendezvous, and that every step keeps it. */
module OfferInvariant {
  import opened Common
  import opened Offers

  /** The offer has been accepted by its queue. */
  predicate Sent(pc: ClientPc) {
    !pc.Sending? && pc != Finished(QueueFull)
  }

  /** The id is still in pendingAnswers: not cleaned up, or given up in the queue-full branch. */
  predicate Filed(pc: ClientPc) {
    !pc.Finished? || pc.out == QueueFull
  }

  function Received(pc: ClientPc): seq<Envelope> {
    match pc
    case Cleaning(Answered(a)) => [a]
    case Finished(Answered(a)) => [a]
    case _ => []
  }

  /** q is bastion b's queue, now as when it was looked up. */
  predicate QueueOf(s: State, b: string, q: nat) {
    b in s.net.offerOf && s.net.offerOf[b] == q && q < |s.net.offerQ| && q < |s.bastions| && s.bastions[q] == b
  }

  predicate ClientOk(s: State, k: nat) {
    IsClient(s, k) ==>
      var c := s.calls[k];
      && c.id in s.owner && s.owner[c.id] == k && c.env.peer == c.id
      && QueueOf(s, c.bastion, c.q)
      && c.ch < |s.net.answerQ| && c.ch < |s.makers| && s.makers[c.ch] == k
      && c.pc != Cleaning(QueueFull)
      && (c.id in s.net.answerOf <==> Filed(c.pc))
      && (c.id in s.net.answerOf ==> s.net.answerOf[c.id] == c.ch)
      && Log(s.answered, c.id) == Received(c.pc) + s.net.answerQ[c.ch]
      && |s.net.answerQ[c.ch]| <= ANSWER_CAPACITY
      && (c.env in Log(s.accepted, c.bastion) <==> Sent(c.pc))
  }

  predicate PollerOk(s: State, k: nat) {
    k in s.calls && s.calls[k].Poller? ==> QueueOf(s, s.calls[k].bastion, s.calls[k].q)
  }

  /** An answerer holds the channel of the client it answers. */
  predicate AnswererOk(s: State, k: nat) {
    k in s.calls && s.calls[k].Answerer? && s.calls[k].post.Offering? ==>
      var peer := s.calls[k].answer.peer;
      OwnerOf(s, peer).Some? && OwnerOf(s, peer).value.ch == s.calls[k].post.ch
  }

  /** Poll k received the i-th offer to leave b's queue. */
  predicate TookAt(s: State, b: string, i: nat, k: nat, env: Envelope) {
    i < |Log(s.polled, b)| && i < |Log(s.takers, b)| && Log(s.takers, b)[i] == k && Log(s.polled, b)[i] == env
  }

  /** What a poll returns it took from its queue. */
  ghost predicate PollOk(s: State, k: nat) {
    k in s.calls && s.calls[k].Poller? && s.calls[k].poll.Polled? ==>
      exists i: nat :: TookAt(s, s.calls[k].bastion, i, k, s.calls[k].poll.env)
  }

  /** The poll that took an offer returns it. */
  predicate TakerOk(s: State, b: string, i: nat) {
    && |Log(s.takers, b)| == |Log(s.polled, b)|
    && (i < |Log(s.polled, b)| ==>
          var k := Log(s.takers, b)[i];
          && k in s.calls && s.calls[k].Poller? && s.calls[k].bastion == b
          && s.calls[k].poll == Polled(Log(s.polled, b)[i]))
  }

  /** The client call that was given this id. */
  function OwnerOf(s: State, id: string): Option<Call> {
    if id in s.owner && IsClient(s, s.owner[id]) then Some(s.calls[s.owner[id]]) else None
  }

  predicate IdOk(s: State, id: string) {
    && (forall env :: env in Log(s.answered, id) ==> env.peer == id)
    && if id in s.owner then IsClient(s, s.owner[id]) && s.calls[s.owner[id]].id == id
       else id !in s.net.answerOf && Log(s.answered, id) == []
  }

  predicate BastionOk(s: State, b: string) {
    if b in s.net.offerOf then
      && QueueOf(s, b, s.net.offerOf[b])
      && Log(s.accepted, b) == Log(s.polled, b) + s.net.offerQ[s.net.offerOf[b]]
      && |s.net.offerQ[s.net.offerOf[b]]| <= OFFER_CAPACITY
    else Log(s.accepted, b) == [] && Log(s.polled, b) == []
  }

  /** An offer in a queue, or ever in one, is that of a client that has sent it, and is there once. */
  predicate OfferOk(s: State, b: string, i: nat) {
    i < |Log(s.accepted, b)| ==>
      var env := Log(s.accepted, b)[i];
      && OwnerOf(s, env.peer).Some? && OwnerOf(s, env.peer).value.env == env
      && OwnerOf(s, env.peer).value.bastion == b && Sent(OwnerOf(s, env.peer).value.pc)
      && env !in Log(s.accepted, b)[..i]
  }

  ghost predicate Clients(s: State) {
    forall k: nat {:trigger ClientOk(s, k)} :: ClientOk(s, k)
  }

  ghost predicate Pollers(s: State) {
    forall k: nat {:trigger PollerOk(s, k)} :: PollerOk(s, k)
  }

  ghost predicate Answerers(s: State) {
    forall k: nat {:trigger AnswererOk(s, k)} :: AnswererOk(s, k)
  }

  ghost predicate Ids(s: State) {
    forall id: string {:trigger IdOk(s, id)} :: IdOk(s, id)
  }

  ghost predicate Bastions(s: State) {
    forall b: string {:trigger BastionOk(s, b)} :: BastionOk(s, b)
  }

  ghost predicate Offered(s: State) {
    forall b: string, i: nat {:trigger OfferOk(s, b, i)} :: OfferOk(s, b, i)
  }

  ghost predicate Takers(s: State) {
    forall b: string, i: nat {:trigger TakerOk(s, b, i)} :: TakerOk(s, b, i)
  }

  ghost predicate Polls(s: State) {
    forall k: nat {:trigger PollOk(s, k)} :: PollOk(s, k)
  }

  predicate Counts(s: State) {
    |s.makers| == |s.net.answerQ| && |s.bastions| == |s.net.offerQ|
  }

  ghost predicate Inv(s: State) {
    && Counts(s) && Clients(s) && Pollers(s) && Answerers(s)
    && Ids(s) && Bastions(s) && Offered(s) && Takers(s) && Polls(s)
  }

  // ---- Queues and owners outlive every step ----

  lemma QueueGrows(s: State, l: Label, b: string, q: nat)
    requires Counts(s) && Enabled(s, l) && QueueOf(s, b, q) && (l.Register? || l.PollBegin?)
    ensures QueueOf(Fire(s, l), b, q)
  {}

  lemma QueueStays(s: State, l: Label, b: string, q: nat)
    requires Counts(s) && Enabled(s, l) && QueueOf(s, b, q)
    ensures QueueOf(Fire(s, l), b, q)
  {
    if l.Register? || l.PollBegin? {
      QueueGrows(s, l, b, q);
    } else {
      QueuesKept(s, l);
    }
  }

  lemma QueuesKept(s: State, l: Label)
    requires Enabled(s, l) && !l.Register? && !l.PollBegin?
    ensures
      var s' := Fire(s, l);
      s'.net.offerOf == s.net.offerOf && s'.bastions == s.bastions && |s'.net.offerQ| == |s.net.offerQ|
  {}

  /** A label is a step of one call, and leaves the others alone. */
  lemma OtherCall(s: State, l: Label, k: nat)
    requires Enabled(s, l) && k != l.k
    ensures k in Fire(s, l).calls <==> k in s.calls
    ensures k in s.calls ==> Fire(s, l).calls[k] == s.calls[k]
  {}

  /** A call stays what it is, and keeps what it has captured. */
  lemma SameClient(s: State, l: Label, k: nat)
    requires Enabled(s, l) && IsClient(s, k)
    ensures
      IsClient(Fire(s, l), k) && Fire(s, l).calls[k] == s.calls[k].(pc := Fire(s, l).calls[k].pc)
  {
    if k != l.k { OtherCall(s, l, k); }
  }

  lemma OwnerKept(s: State, l: Label, id: string)
    requires Enabled(s, l) && id in s.owner
    ensures id in Fire(s, l).owner && Fire(s, l).owner[id] == s.owner[id]
  {}

  lemma OwnerStays(s: State, l: Label, id: string)
    requires Enabled(s, l) && OwnerOf(s, id).Some?
    ensures OwnerOf(Fire(s, l), id).Some? && OwnerOf(Fire(s, l), id).value.ch == OwnerOf(s, id).value.ch
  {
    OwnerKept(s, l, id);
    SameClient(s, l, s.owner[id]);
  }

  lemma CountStep(s: State, l: Label)
    requires Counts(s) && Enabled(s, l)
    ensures Counts(Fire(s, l))
  {}

  // ---- Clients ----

  /** What a client's part of the invariant depends on. */
  lemma ClientFrame(s: State, s': State, k: nat)
    requires IsClient(s, k) && ClientOk(s, k) && k in s'.calls && s'.calls[k] == s.calls[k]
    requires
      var c := s.calls[k];
      && c.id in s'.owner && s'.owner[c.id] == k && QueueOf(s', c.bastion, c.q)
      && c.ch < |s'.makers| && s'.makers[c.ch] == k
      && c.ch < |s'.net.answerQ| && s'.net.answerQ[c.ch] == s.net.answerQ[c.ch]
      && Log(s'.answered, c.id) == Log(s.answered, c.id)
      && (c.id in s'.net.answerOf <==> c.id in s.net.answerOf)
      && (c.id in s'.net.answerOf ==> s'.net.answerOf[c.id] == s.net.answerOf[c.id])
      && (c.env in Log(s'.accepted, c.bastion) <==> c.env in Log(s.accepted, c.bastion))
    ensures ClientOk(s', k)
  {}

  /** An id nobody has taken is in no offer. */
  lemma NotYetOffered(s: State, b: string, id: string)
    requires Offered(s) && Clients(s) && id !in s.owner
    ensures forall env :: env in Log(s.accepted, b) ==> env.peer != id
  {
    forall env | env in Log(s.accepted, b) ensures env.peer != id {
      var i :| 0 <= i < |Log(s.accepted, b)| && Log(s.accepted, b)[i] == env;
      assert OfferOk(s, b, i);
    }
  }

  lemma RegisterSelf(s: State, l: Label)
    requires Inv(s) && Enabled(s, l) && l.Register?
    ensures ClientOk(Fire(s, l), l.k)
  {
    assert IdOk(s, l.id) && BastionOk(s, l.b);
    NotYetOffered(s, l.b, l.id);
  }

  lemma RegisterOther(s: State, l: Label, k: nat)
    requires Counts(s) && ClientOk(s, k) && Enabled(s, l) && l.Register? && k != l.k
    ensures ClientOk(Fire(s, l), k)
  {
    if IsClient(s, k) {
      QueueStays(s, l, s.calls[k].bastion, s.calls[k].q);
      ClientFrame(s, Fire(s, l), k);
    }
  }

  lemma ClientRegister(s: State, l: Label)
    requires Inv(s) && Enabled(s, l) && l.Register?
    ensures Clients(Fire(s, l))
  {
    forall k: nat ensures ClientOk(Fire(s, l), k) {
      if k == l.k {
        RegisterSelf(s, l);
      } else {
        assert ClientOk(s, k);
        RegisterOther(s, l, k);
      }
    }
  }

  lemma SendSelf(s: State, k: nat)
    requires ClientOk(s, k) && Enabled(s, SendOffer(k))
    ensures ClientOk(Fire(s, SendOffer(k)), k)
  {
    assert s.calls[k].env in Log(Fire(s, SendOffer(k)).accepted, s.calls[k].bastion);
  }

  /** Sending one client's offer adds no other's to any queue. */
  lemma SendOther(s: State, j: nat, k: nat)
    requires ClientOk(s, j) && ClientOk(s, k) && Enabled(s, SendOffer(j)) && k != j
    ensures ClientOk(Fire(s, SendOffer(j)), k)
  {
    if IsClient(s, k) {
      assert s.calls[k].env.peer != s.calls[j].env.peer;
      ClientFrame(s, Fire(s, SendOffer(j)), k);
    }
  }

  lemma ClientSend(s: State, j: nat)
    requires Clients(s) && Enabled(s, SendOffer(j))
    ensures Clients(Fire(s, SendOffer(j)))
  {
    forall k: nat ensures ClientOk(Fire(s, SendOffer(j)), k) {
      assert ClientOk(s, j) && ClientOk(s, k);
      if k == j { SendSelf(s, k); } else { SendOther(s, j, k); }
    }
  }

  lemma ReceiveSelf(s: State, k: nat)
    requires ClientOk(s, k) && Enabled(s, Receive(k))
    ensures ClientOk(Fire(s, Receive(k)), k)
  {
    var buf := s.net.answerQ[s.calls[k].ch];
    assert buf == [buf[0]] + buf[1..];
  }

  lemma ReceiveOther(s: State, j: nat, k: nat)
    requires ClientOk(s, j) && ClientOk(s, k) && Enabled(s, Receive(j)) && k != j
    ensures ClientOk(Fire(s, Receive(j)), k)
  {
    if IsClient(s, k) {
      assert s.calls[k].ch != s.calls[j].ch;
      ClientFrame(s, Fire(s, Receive(j)), k);
    }
  }

  lemma ClientReceive(s: State, j: nat)
    requires Clients(s) && Enabled(s, Receive(j))
    ensures Clients(Fire(s, Receive(j)))
  {
    forall k: nat ensures ClientOk(Fire(s, Receive(j)), k) {
      assert ClientOk(s, j) && ClientOk(s, k);
      if k == j { ReceiveSelf(s, k); } else { ReceiveOther(s, j, k); }
    }
  }

  lemma ClientCleanup(s: State, j: nat)
    requires Clients(s) && Enabled(s, Cleanup(j))
    ensures Clients(Fire(s, Cleanup(j)))
  {
    forall k: nat ensures ClientOk(Fire(s, Cleanup(j)), k) {
      assert ClientOk(s, j) && ClientOk(s, k);
      if k != j && IsClient(s, k) { CleanupOther(s, j, k); } else if k == j { CleanupSelf(s, j); }
    }
  }

  lemma CleanupSelf(s: State, k: nat)
    requires ClientOk(s, k) && Enabled(s, Cleanup(k))
    ensures ClientOk(Fire(s, Cleanup(k)), k)
  {}

  lemma CleanupOther(s: State, j: nat, k: nat)
    requires ClientOk(s, j) && ClientOk(s, k) && IsClient(s, k) && Enabled(s, Cleanup(j)) && k != j
    ensures ClientOk(Fire(s, Cleanup(j)), k)
  {
    assert s.calls[k].id != s.calls[j].id;
    ClientFrame(s, Fire(s, Cleanup(j)), k);
  }

  /** A client gives up sending or waiting. */
  lemma ClientGivesUp(s: State, l: Label)
    requires Clients(s) && Enabled(s, l) && (l.OfferTimeout? || l.GiveUp?)
    ensures Clients(Fire(s, l))
  {
    var s' := Fire(s, l);
    assert s' == s.(calls := s.calls[l.k := s'.calls[l.k]]);
    forall k: nat ensures ClientOk(s', k) {
      assert ClientOk(s, k);
      if k != l.k && IsClient(s, k) { ClientFrame(s, s', k); }
    }
  }

  /** The call that waits on the channel the answerer holds. */
  lemma AnswerOwner(s: State, a: nat)
    requires Clients(s) && Answerers(s) && Ids(s) && Enabled(s, AnswerSend(a))
    ensures
      var peer := s.calls[a].answer.peer;
      OwnerOf(s, peer).Some? && OwnerOf(s, peer).value.id == peer && OwnerOf(s, peer).value.ch == s.calls[a].post.ch
  {
    var peer := s.calls[a].answer.peer;
    assert AnswererOk(s, a) && IdOk(s, peer) && ClientOk(s, s.owner[peer]);
  }

  /** What an accepted or refused answer leaves as it was. */
  lemma AnswerEffect(s: State, a: nat)
    requires Enabled(s, AnswerSend(a))
    ensures
      var s', ch, peer := Fire(s, AnswerSend(a)), s.calls[a].post.ch, s.calls[a].answer.peer;
      && s'.calls.Keys == s.calls.Keys && (forall k :: k in s.calls && k != a ==> s'.calls[k] == s.calls[k])
      && s'.calls[a].Answerer? && !s'.calls[a].post.Offering?
      && s'.owner == s.owner && s'.makers == s.makers && s'.bastions == s.bastions
      && s'.net == s.net.(answerQ := s'.net.answerQ) && |s'.net.answerQ| == |s.net.answerQ|
      && (forall q: nat :: q < |s.net.answerQ| && q != ch ==> s'.net.answerQ[q] == s.net.answerQ[q])
      && (forall id :: id != peer ==> Log(s'.answered, id) == Log(s.answered, id))
      && s'.accepted == s.accepted && s'.polled == s.polled && s'.takers == s.takers
  {
    var c, s' := s.calls[a], Fire(s, AnswerSend(a));
    var buf := Chan(s.net.answerQ, c.post.ch);
    if |buf| < ANSWER_CAPACITY {
      assert s' == s.(net := s.net.(answerQ := Put(s.net.answerQ, c.post.ch, buf + [c.answer])),
                      answered := Append(s.answered, c.answer.peer, c.answer),
                      calls := s.calls[a := c.(post := Accepted)]);
    } else {
      assert s' == s.(calls := s.calls[a := c.(post := ChannelFull)]);
    }
  }

  lemma AnswerToOwner(s: State, a: nat, j: nat)
    requires Enabled(s, AnswerSend(a)) && IsClient(s, j) && ClientOk(s, j)
    requires s.calls[j].id == s.calls[a].answer.peer && s.calls[j].ch == s.calls[a].post.ch
    ensures ClientOk(Fire(s, AnswerSend(a)), j)
  {
    var answer, c, s' := s.calls[a].answer, s.calls[j], Fire(s, AnswerSend(a));
    var buf := s.net.answerQ[c.ch];
    AnswerEffect(s, a);
    if |buf| < ANSWER_CAPACITY {
      assert s'.net.answerQ[c.ch] == buf + [answer] && Log(s'.answered, c.id) == Log(s.answered, c.id) + [answer];
      assert Received(c.pc) + buf + [answer] == Received(c.pc) + (buf + [answer]);
    } else {
      assert s'.net.answerQ == s.net.answerQ && s'.answered == s.answered;
    }
  }

  lemma AnswerToOther(s: State, a: nat, k: nat)
    requires Enabled(s, AnswerSend(a)) && IsClient(s, k) && ClientOk(s, k)
    requires s.calls[k].id != s.calls[a].answer.peer && s.calls[k].ch != s.calls[a].post.ch
    ensures ClientOk(Fire(s, AnswerSend(a)), k)
  {
    AnswerEffect(s, a);
    ClientFrame(s, Fire(s, AnswerSend(a)), k);
  }

  lemma ClientAnswer(s: State, a: nat)
    requires Clients(s) && Answerers(s) && Ids(s) && Enabled(s, AnswerSend(a))
    ensures Clients(Fire(s, AnswerSend(a)))
  {
    AnswerOwner(s, a);
    AnswerEffect(s, a);
    var j := s.owner[s.calls[a].answer.peer];
    assert ClientOk(s, j);
    forall k: nat ensures ClientOk(Fire(s, AnswerSend(a)), k) {
      assert ClientOk(s, k);
      if k == j { AnswerToOwner(s, a, j); } else if IsClient(s, k) { AnswerToOther(s, a, k); }
    }
  }

  lemma PollBeginOther(s: State, l: Label, k: nat)
    requires Counts(s) && ClientOk(s, k) && Enabled(s, l) && l.PollBegin?
    ensures ClientOk(Fire(s, l), k)
  {
    if IsClient(s, k) {
      QueueStays(s, l, s.calls[k].bastion, s.calls[k].q);
      ClientFrame(s, Fire(s, l), k);
    }
  }

  /** Polls and the lookup of an answer touch no client. */
  lemma ClientQuiet(s: State, l: Label)
    requires Clients(s) && Enabled(s, l) && (l.PollReceive? || l.PollGiveUp? || l.AnswerBegin?)
    ensures Clients(Fire(s, l))
  {
    var s' := Fire(s, l);
    assert s' == s.(net := s.net.(offerQ := s'.net.offerQ), calls := s.calls[l.k := s'.calls[l.k]],
                    polled := s'.polled, takers := s'.takers);
    assert |s'.net.offerQ| == |s.net.offerQ| && !IsClient(s', l.k);
    forall k: nat ensures ClientOk(s', k) {
      assert ClientOk(s, k);
      if IsClient(s, k) { ClientFrame(s, s', k); }
    }
  }

  lemma ClientStep(s: State, l: Label)
    requires Inv(s) && Enabled(s, l)
    ensures Clients(Fire(s, l))
  {
    match l
    case Register(_, _, _, _, _) => ClientRegister(s, l);
    case SendOffer(k) => ClientSend(s, k);
    case OfferTimeout(_) => ClientGivesUp(s, l);
    case Receive(k) => ClientReceive(s, k);
    case GiveUp(_, _) => ClientGivesUp(s, l);
    case Cleanup(k) => ClientCleanup(s, k);
    case PollBegin(_, _) =>
      forall k: nat ensures ClientOk(Fire(s, l), k) {
        assert ClientOk(s, k);
        PollBeginOther(s, l, k);
      }
    case AnswerSend(a) => ClientAnswer(s, a);
    case _ => ClientQuiet(s, l);
  }

  // ---- Pollers and answerers ----

  /** A poll keeps the queue it looked up at its beginning. */
  lemma PollerBefore(s: State, l: Label, k: nat)
    requires Enabled(s, l) && k in Fire(s, l).calls && Fire(s, l).calls[k].Poller? && !(l.PollBegin? && k == l.k)
    ensures k in s.calls && s.calls[k].Poller?
    ensures Fire(s, l).calls[k].bastion == s.calls[k].bastion && Fire(s, l).calls[k].q == s.calls[k].q
  {
    if k != l.k { OtherCall(s, l, k); }
  }

  lemma PollerBegins(s: State, k: nat, b: string)
    requires Counts(s) && BastionOk(s, b) && Enabled(s, PollBegin(k, b))
    ensures PollerOk(Fire(s, PollBegin(k, b)), k)
  {}

  lemma PollerStep(s: State, l: Label)
    requires Counts(s) && Pollers(s) && Bastions(s) && Enabled(s, l)
    ensures Pollers(Fire(s, l))
  {
    var s' := Fire(s, l);
    forall k: nat ensures PollerOk(s', k) {
      if l.PollBegin? && k == l.k {
        assert BastionOk(s, l.b);
        PollerBegins(s, k, l.b);
      } else if k in s'.calls && s'.calls[k].Poller? {
        PollerBefore(s, l, k);
        assert PollerOk(s, k);
        QueueStays(s, l, s.calls[k].bastion, s.calls[k].q);
      }
    }
  }

  /** The channel on file for an id is that of the client it was given to. */
  lemma OnFile(s: State, id: string)
    requires Clients(s) && Ids(s) && id in s.net.answerOf
    ensures OwnerOf(s, id).Some? && OwnerOf(s, id).value.ch == s.net.answerOf[id]
  {
    assert IdOk(s, id) && ClientOk(s, s.owner[id]);
  }

  /** An answerer that holds a channel held it before, or has just looked it up. */
  lemma AnswererBefore(s: State, l: Label, k: nat)
    requires Enabled(s, l) && k in Fire(s, l).calls
    requires Fire(s, l).calls[k].Answerer? && Fire(s, l).calls[k].post.Offering?
    ensures
      var c := Fire(s, l).calls[k];
      || (k in s.calls && s.calls[k] == c)
      || (&& l == AnswerBegin(k, c.answer) && c.answer.peer in s.net.answerOf
          && c.post.ch == s.net.answerOf[c.answer.peer])
  {
    if k != l.k { OtherCall(s, l, k); }
  }

  lemma AnswererStep(s: State, l: Label)
    requires Clients(s) && Ids(s) && Answerers(s) && Enabled(s, l)
    ensures Answerers(Fire(s, l))
  {
    var s' := Fire(s, l);
    forall k: nat ensures AnswererOk(s', k) {
      if k in s'.calls && s'.calls[k].Answerer? && s'.calls[k].post.Offering? {
        var peer := s'.calls[k].answer.peer;
        AnswererBefore(s, l, k);
        if k in s.calls && s.calls[k] == s'.calls[k] { assert AnswererOk(s, k); } else { OnFile(s, peer); }
        OwnerStays(s, l, peer);
      }
    }
  }

  // ---- Ids ----

  lemma IdAnswer(s: State, a: nat)
    requires Clients(s) && Answerers(s) && Ids(s) && Enabled(s, AnswerSend(a))
    ensures Ids(Fire(s, AnswerSend(a)))
  {
    AnswerOwner(s, a);
    AnswerEffect(s, a);
    var s', answer := Fire(s, AnswerSend(a)), s.calls[a].answer;
    forall id: string ensures IdOk(s', id) {
      assert IdOk(s, id);
      if id == answer.peer {
        assert s'.answered == s.answered || Log(s'.answered, id) == Log(s.answered, id) + [answer];
      }
    }
  }

  lemma IdStep(s: State, l: Label)
    requires Clients(s) && Answerers(s) && Ids(s) && Enabled(s, l)
    ensures Ids(Fire(s, l))
  {
    if l.AnswerSend? {
      IdAnswer(s, l.k);
    } else {
      assert Fire(s, l).answered == s.answered;
      forall id: string ensures IdOk(Fire(s, l), id) {
        assert IdOk(s, id);
        if l.Cleanup? { assert ClientOk(s, l.k); }
      }
    }
  }

  // ---- Bastions ----

  lemma BastionFrame(s: State, s': State, b: string)
    requires BastionOk(s, b)
    requires s'.net.offerOf == s.net.offerOf && s'.bastions == s.bastions && |s'.net.offerQ| == |s.net.offerQ|
    requires b in s.net.offerOf ==> s'.net.offerQ[s.net.offerOf[b]] == s.net.offerQ[s.net.offerOf[b]]
    requires Log(s'.accepted, b) == Log(s.accepted, b) && Log(s'.polled, b) == Log(s.polled, b)
    ensures BastionOk(s', b)
  {}

  lemma BastionSend(s: State, k: nat)
    requires Bastions(s) && ClientOk(s, k) && Enabled(s, SendOffer(k))
    ensures Bastions(Fire(s, SendOffer(k)))
  {
    var c, s' := s.calls[k], Fire(s, SendOffer(k));
    forall b: string ensures BastionOk(s', b) {
      assert BastionOk(s, b);
      if b == c.bastion {
        var q := s.net.offerQ[c.q];
        assert s'.net.offerQ[c.q] == q + [c.env] && Log(s'.accepted, b) == Log(s.accepted, b) + [c.env];
        assert Log(s.polled, b) + q + [c.env] == Log(s.polled, b) + (q + [c.env]);
      } else {
        BastionFrame(s, s', b);
      }
    }
  }

  lemma BastionPoll(s: State, k: nat)
    requires Bastions(s) && PollerOk(s, k) && Enabled(s, PollReceive(k))
    ensures Bastions(Fire(s, PollReceive(k)))
  {
    var c, s' := s.calls[k], Fire(s, PollReceive(k));
    forall b: string ensures BastionOk(s', b) {
      assert BastionOk(s, b);
      if b == c.bastion {
        var q := s.net.offerQ[c.q];
        assert s'.net.offerQ[c.q] == q[1..] && Log(s'.polled, b) == Log(s.polled, b) + [q[0]];
        assert Log(s.polled, b) + q == Log(s.polled, b) + [q[0]] + q[1..];
      } else {
        BastionFrame(s, s', b);
      }
    }
  }

  /** A new queue is empty, and its bastion has no history. */
  lemma BastionMade(s: State, s': State, b: string, made: string)
    requires Counts(s) && BastionOk(s, b) && BastionOk(s, made)
    requires
      if made in s.net.offerOf
      then s'.net.offerOf == s.net.offerOf && s'.net.offerQ == s.net.offerQ && s'.bastions == s.bastions
      else && s'.net.offerOf == s.net.offerOf[made := |s.net.offerQ|]
           && s'.net.offerQ == s.net.offerQ + [[]] && s'.bastions == s.bastions + [made]
    requires s'.accepted == s.accepted && s'.polled == s.polled
    ensures BastionOk(s', b)
  {}

  ghost predicate OffersUntouched(s: State, s': State) {
    && s'.net.offerQ == s.net.offerQ && s'.net.offerOf == s.net.offerOf && s'.bastions == s.bastions
    && s'.accepted == s.accepted && s'.polled == s.polled
  }

  lemma ClientTouchesNoOffer(s: State, l: Label)
    requires Enabled(s, l) && (l.OfferTimeout? || l.Receive? || l.GiveUp? || l.Cleanup?)
    ensures OffersUntouched(s, Fire(s, l))
  {}

  lemma AnswerTouchesNoOffer(s: State, l: Label)
    requires Enabled(s, l) && (l.PollGiveUp? || l.AnswerBegin?)
    ensures OffersUntouched(s, Fire(s, l))
  {}

  lemma BastionQuiet(s: State, l: Label)
    requires Bastions(s) && Enabled(s, l)
    requires !l.SendOffer? && !l.PollReceive? && !l.Register? && !l.PollBegin?
    ensures Bastions(Fire(s, l))
  {
    var s' := Fire(s, l);
    if l.OfferTimeout? || l.Receive? || l.GiveUp? || l.Cleanup? {
      ClientTouchesNoOffer(s, l);
    } else if l.AnswerSend? {
      AnswerEffect(s, l.k);
    } else {
      AnswerTouchesNoOffer(s, l);
    }
    forall b: string ensures BastionOk(s', b) {
      assert BastionOk(s, b);
      BastionFrame(s, s', b);
    }
  }

  lemma BastionStep(s: State, l: Label)
    requires Inv(s) && Enabled(s, l)
    ensures Bastions(Fire(s, l))
  {
    match l
    case SendOffer(k) =>
      assert ClientOk(s, k);
      BastionSend(s, k);
    case PollReceive(k) =>
      assert PollerOk(s, k);
      BastionPoll(s, k);
    case Register(_, b, _, _, _) => BastionLookup(s, l);
    case PollBegin(_, b) => BastionLookup(s, l);
    case _ => BastionQuiet(s, l);
  }

  lemma BastionLookup(s: State, l: Label)
    requires Counts(s) && Bastions(s) && Enabled(s, l) && (l.Register? || l.PollBegin?)
    ensures Bastions(Fire(s, l))
  {
    forall b: string ensures BastionOk(Fire(s, l), b) {
      assert BastionOk(s, b) && BastionOk(s, l.b);
      BastionMade(s, Fire(s, l), b, l.b);
    }
  }

  // ---- Offers ----

  lemma OfferFrame(s: State, s': State, b: string, i: nat)
    requires OfferOk(s, b, i) && Log(s'.accepted, b) == Log(s.accepted, b)
    requires i < |Log(s.accepted, b)| ==>
               var peer := Log(s.accepted, b)[i].peer;
               && OwnerOf(s', peer).Some? && OwnerOf(s', peer).value.env == OwnerOf(s, peer).value.env
               && OwnerOf(s', peer).value.bastion == OwnerOf(s, peer).value.bastion && Sent(OwnerOf(s', peer).value.pc)
    ensures OfferOk(s', b, i)
  {}

  /** A client that has sent its offer remains the owner of its id, and has still sent it. */
  lemma SentStays(s: State, l: Label, id: string)
    requires Enabled(s, l) && OwnerOf(s, id).Some? && Sent(OwnerOf(s, id).value.pc)
    requires OwnerOf(s, id).value.pc != Cleaning(QueueFull)
    ensures
      var c, c' := OwnerOf(s, id).value, OwnerOf(Fire(s, l), id);
      c'.Some? && c'.value.env == c.env && c'.value.bastion == c.bastion && Sent(c'.value.pc)
  {
    OwnerKept(s, l, id);
    SameClient(s, l, s.owner[id]);
    if s.owner[id] == l.k { SentPc(s, l); } else { OtherCall(s, l, s.owner[id]); }
  }

  lemma SentPc(s: State, l: Label)
    requires Enabled(s, l) && IsClient(s, l.k) && Sent(s.calls[l.k].pc) && s.calls[l.k].pc != Cleaning(QueueFull)
    ensures IsClient(Fire(s, l), l.k) && Sent(Fire(s, l).calls[l.k].pc)
  {}

  lemma OfferSend(s: State, k: nat)
    requires Offered(s) && Clients(s) && Enabled(s, SendOffer(k))
    ensures Offered(Fire(s, SendOffer(k)))
  {
    var s' := Fire(s, SendOffer(k));
    forall b: string, i: nat ensures OfferOk(s', b, i) {
      assert OfferOk(s, b, i) && ClientOk(s, k);
      var before, after := Log(s.accepted, b), Log(s'.accepted, b);
      assert after == before || after == before + [s.calls[k].env];
      if i < |before| {
        assert ClientOk(s, s.owner[before[i].peer]);
        SentStays(s, SendOffer(k), before[i].peer);
        assert after[i] == before[i] && after[..i] == before[..i];
      } else if i < |after| {
        assert after[..i] == before && after[i] == s.calls[k].env;
      }
    }
  }

  lemma OfferStep(s: State, l: Label)
    requires Offered(s) && Clients(s) && Enabled(s, l)
    ensures Offered(Fire(s, l))
  {
    if l.SendOffer? {
      OfferSend(s, l.k);
    } else {
      assert Fire(s, l).accepted == s.accepted;
      forall b: string, i: nat ensures OfferOk(Fire(s, l), b, i) {
        assert OfferOk(s, b, i);
        if i < |Log(s.accepted, b)| {
          assert ClientOk(s, s.owner[Log(s.accepted, b)[i].peer]);
          SentStays(s, l, Log(s.accepted, b)[i].peer);
        }
        OfferFrame(s, Fire(s, l), b, i);
      }
    }
  }

  // ---- Polls ----

  /** A poll's reply is final. */
  lemma PolledStays(s: State, l: Label, k: nat)
    requires Enabled(s, l) && k in s.calls && s.calls[k].Poller? && s.calls[k].poll.Polled?
    ensures k in Fire(s, l).calls && Fire(s, l).calls[k] == s.calls[k]
  {
    if k != l.k { OtherCall(s, l, k); }
  }

  lemma TakerReceive(s: State, k: nat)
    requires Takers(s) && Enabled(s, PollReceive(k))
    ensures Takers(Fire(s, PollReceive(k)))
  {
    var l, s' := PollReceive(k), Fire(s, PollReceive(k));
    forall b: string, i: nat ensures TakerOk(s', b, i) {
      assert TakerOk(s, b, i) && TakerOk(s, b, 0);
      var polled, takers := Log(s.polled, b), Log(s.takers, b);
      if i < |polled| {
        PolledStays(s, l, takers[i]);
        assert Log(s'.polled, b)[i] == polled[i] && Log(s'.takers, b)[i] == takers[i];
      }
    }
  }

  lemma TakerStep(s: State, l: Label)
    requires Takers(s) && Enabled(s, l)
    ensures Takers(Fire(s, l))
  {
    if l.PollReceive? {
      TakerReceive(s, l.k);
    } else {
      assert Fire(s, l).polled == s.polled && Fire(s, l).takers == s.takers;
      forall b: string, i: nat ensures TakerOk(Fire(s, l), b, i) {
        assert TakerOk(s, b, i);
        if i < |Log(s.polled, b)| { PolledStays(s, l, Log(s.takers, b)[i]); }
      }
    }
  }

  lemma PollTakes(s: State, k: nat)
    requires Takers(s) && Enabled(s, PollReceive(k))
    ensures PollOk(Fire(s, PollReceive(k)), k)
  {
    var b, env := s.calls[k].bastion, Chan(s.net.offerQ, s.calls[k].q)[0];
    assert TakerOk(s, b, 0);
    assert TookAt(Fire(s, PollReceive(k)), b, |Log(s.polled, b)|, k, env);
  }

  lemma TookStays(s: State, l: Label, b: string, i: nat, k: nat, env: Envelope)
    requires Enabled(s, l) && TookAt(s, b, i, k, env)
    ensures TookAt(Fire(s, l), b, i, k, env)
  {}

  /** Only receiving makes a poll one that returns an offer. */
  lemma PolledBefore(s: State, l: Label, k: nat)
    requires Enabled(s, l) && l != PollReceive(k)
    requires k in Fire(s, l).calls && Fire(s, l).calls[k].Poller? && Fire(s, l).calls[k].poll.Polled?
    ensures k in s.calls && s.calls[k] == Fire(s, l).calls[k]
  {
    if k != l.k { OtherCall(s, l, k); }
  }

  lemma PollStep(s: State, l: Label)
    requires Polls(s) && Takers(s) && Enabled(s, l)
    ensures Polls(Fire(s, l))
  {
    var s' := Fire(s, l);
    forall k: nat ensures PollOk(s', k) {
      if l == PollReceive(k) {
        PollTakes(s, k);
      } else if k in s'.calls && s'.calls[k].Poller? && s'.calls[k].poll.Polled? {
        PolledBefore(s, l, k);
        assert PollOk(s, k);
        var b, env := s.calls[k].bastion, s.calls[k].poll.env;
        var i: nat :| TookAt(s, b, i, k, env);
        TookStays(s, l, b, i, k, env);
      }
    }
  }

  /** Every step keeps the invariant. */
  lemma {:induction false} InvAlways(ls: seq<Label>)
    ensures Inv(Exec(ls))
  {
    if ls == [] {
      forall k: nat ensures PollOk(INIT, k) {}
    } else {
      var s, l := Exec(ls[..|ls| - 1]), ls[|ls| - 1];
      InvAlways(ls[..|ls| - 1]);
      if Enabled(s, l) {
        CountStep(s, l);
        ClientStep(s, l);
        PollerStep(s, l);
        AnswererStep(s, l);
        IdStep(s, l);
        BastionStep(s, l);
        OfferStep(s, l);
        TakerStep(s, l);
        PollStep(s, l);
      }
    }
  }
}
