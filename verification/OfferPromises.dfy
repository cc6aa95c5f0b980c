/**
 What the rendezvous promises over every interleaving: offers and answers are conserved,
 never cross, and are refused only for the reasons given.
 */
module OfferPromises {
  import opened Common
  import opened Offers
  import opened OfferInvariant

  /**
   The answers accepted under a client's id are addressed to it; the first is the one its
   call returns, if it returns one, and at most one other is left behind in its channel.
   */
  lemma AnswersNeverCross(ls: seq<Label>, k: nat)
    requires IsClient(Exec(ls), k)
    ensures
      var s := Exec(ls);
      var c := s.calls[k];
      var answered := Log(s.answered, c.id);
      && (forall i :: 0 <= i < |answered| ==> answered[i].peer == c.id)
      && answered == Received(c.pc) + Chan(s.net.answerQ, c.ch)
      && |Received(c.pc)| <= 1 && |answered| <= 2
      && (Received(c.pc) != [] ==> Received(c.pc)[0] == answered[0])
  {
    InvAlways(ls);
    assert ClientOk(Exec(ls), k) && IdOk(Exec(ls), Exec(ls).calls[k].id);
  }

  /** An answer to a polled offer finds no entry if and only if that client's call has returned. */
  lemma RefusedOnlyWhenDone(ls: seq<Label>, b: string, i: nat, k: nat, answer: Envelope)
    requires k !in Exec(ls).calls
    requires i < |Log(Exec(ls).polled, b)| && Log(Exec(ls).polled, b)[i].peer == answer.peer
    ensures OwnerOf(Exec(ls), answer.peer).Some?
    ensures Exec(ls + [AnswerBegin(k, answer)]).calls[k].post.NotWaiting? <==>
            OwnerOf(Exec(ls), answer.peer).value.pc.Finished?
  {
    InvAlways(ls);
    ExecThen(ls, AnswerBegin(k, answer));
    var s := Exec(ls);
    assert BastionOk(s, b) && OfferOk(s, b, i);
    assert Log(s.accepted, b)[i] == Log(s.polled, b)[i];
    assert IdOk(s, answer.peer) && ClientOk(s, s.owner[answer.peer]);
  }

  /** An answer that found its entry is refused if and only if the last accepted one is still unread. */
  lemma RefusedOnlyWhenFull(ls: seq<Label>, k: nat)
    requires Enabled(Exec(ls), AnswerSend(k))
    ensures
      var s := Exec(ls);
      var earlier := Log(s.answered, s.calls[k].answer.peer);
      Exec(ls + [AnswerSend(k)]).calls[k].post.ChannelFull? <==>
      earlier != [] && Chan(s.net.answerQ, s.calls[k].post.ch) == [earlier[|earlier| - 1]]
  {
    InvAlways(ls);
    ExecThen(ls, AnswerSend(k));
    var s := Exec(ls);
    AnswerOwner(s, k);
    assert ClientOk(s, s.owner[s.calls[k].answer.peer]);
    var c := s.calls[s.owner[s.calls[k].answer.peer]];
    assert Log(s.answered, c.id) == Received(c.pc) + s.net.answerQ[c.ch];
    assert s.net.answerQ[c.ch] == [] || s.net.answerQ[c.ch] == [s.net.answerQ[c.ch][0]];
  }

  /** Offers leave a bastion's queue once each, in the order they entered it, whoever polls. */
  lemma OffersConserved(ls: seq<Label>, b: string)
    ensures
      var s := Exec(ls);
      var queue := if b in s.net.offerOf then Chan(s.net.offerQ, s.net.offerOf[b]) else [];
      && Log(s.accepted, b) == Log(s.polled, b) + queue
      && |queue| <= 16
      && forall i, j :: 0 <= i < j < |Log(s.accepted, b)| ==> Log(s.accepted, b)[i] != Log(s.accepted, b)[j]
  {
    InvAlways(ls);
    var s := Exec(ls);
    assert BastionOk(s, b);
    forall i: nat, j: nat | i < j < |Log(s.accepted, b)| ensures Log(s.accepted, b)[i] != Log(s.accepted, b)[j] {
      assert OfferOk(s, b, j);
      assert Log(s.accepted, b)[i] in Log(s.accepted, b)[..j];
    }
  }

  /** An offer that left its queue was returned by one poll, and by no other. */
  lemma PolledOnce(ls: seq<Label>, b: string, i: nat) returns (k: nat)
    requires i < |Log(Exec(ls).polled, b)|
    ensures
      var s := Exec(ls);
      var offer := Polled(Log(s.polled, b)[i]);
      forall j :: j in s.calls && s.calls[j].Poller? && s.calls[j].bastion == b && s.calls[j].poll == offer <==> j == k
  {
    InvAlways(ls);
    var s := Exec(ls);
    assert TakerOk(s, b, i) && BastionOk(s, b);
    k := Log(s.takers, b)[i];
    forall j | && j in s.calls && s.calls[j].Poller? && s.calls[j].bastion == b
               && s.calls[j].poll == Polled(Log(s.polled, b)[i])
      ensures j == k
    {
      assert PollOk(s, j);
      var n: nat :| TookAt(s, b, n, j, Log(s.polled, b)[i]);
      OffersConserved(ls, b);
      assert Log(s.accepted, b)[n] == Log(s.accepted, b)[i];
    }
  }

  /** A client's offer gets in, whenever it is waiting to, if and only if fewer than 16 wait for its bastion. */
  lemma OfferGetsIn(ls: seq<Label>, k: nat)
    requires IsClient(Exec(ls), k) && Exec(ls).calls[k].pc.Sending?
    ensures
      var n := Exec(ls).net;
      var b := Exec(ls).calls[k].bastion;
      && b in n.offerOf
      && (Enabled(Exec(ls), SendOffer(k)) <==> |Chan(n.offerQ, n.offerOf[b])| < 16)
  {
    InvAlways(ls);
    assert ClientOk(Exec(ls), k);
  }

  /** Label l was taken at some point of the schedule. */
  ghost predicate Taken(ls: seq<Label>, l: Label) {
    exists n :: 0 <= n < |ls| && TakenAt(ls, n, l)
  }

  ghost predicate TakenAt(ls: seq<Label>, n: nat, l: Label)
    requires n < |ls|
  {
    ls[n] == l && Enabled(Exec(ls[..n]), l)
  }

  lemma TakenThen(ls: seq<Label>, l: Label)
    requires ls != []
    ensures Taken(ls, l) <==> Taken(ls[..|ls| - 1], l) || (ls[|ls| - 1] == l && Enabled(Exec(ls[..|ls| - 1]), l))
  {
    var front := ls[..|ls| - 1];
    forall n: nat | n < |front| ensures TakenAt(ls, n, l) == TakenAt(front, n, l) { assert front[..n] == ls[..n]; }
    if Taken(front, l) {
      var n: nat :| n < |front| && TakenAt(front, n, l);
      assert TakenAt(ls, n, l);
    }
    if ls[|ls| - 1] == l && Enabled(Exec(front), l) { assert TakenAt(ls, |front|, l); }
    if Taken(ls, l) {
      var n: nat :| n < |ls| && TakenAt(ls, n, l);
      if n < |front| { assert TakenAt(front, n, l); }
    }
  }

  /** How a call ended, or is about to. */
  function OutcomeOf(s: State, k: nat): Option<Outcome> {
    if !IsClient(s, k) then None
    else match s.calls[k].pc
      case Cleaning(out) => Some(out)
      case Finished(out) => Some(out)
      case _ => None
  }

  lemma OutcomeStep(s: State, l: Label, k: nat)
    ensures
      OutcomeOf(Step(s, l), k) ==
      if !Enabled(s, l) then OutcomeOf(s, k)
      else if l == GiveUp(k, true) then Some(Cancelled)
      else if l == GiveUp(k, false) then Some(TimedOut)
      else if l == OfferTimeout(k) then Some(QueueFull)
      else if l == Receive(k) then Some(Answered(Chan(s.net.answerQ, s.calls[k].ch)[0]))
      else OutcomeOf(s, k)
  {
    if Enabled(s, l) && l.k != k { OtherCall(s, l, k); }
  }

  /** A call ends as cancelled, timed out or refused a place in the queue if and only if that happened to it. */
  lemma {:induction false} OutcomeExactly(ls: seq<Label>, k: nat)
    ensures OutcomeOf(Exec(ls), k) == Some(Cancelled) <==> Taken(ls, GiveUp(k, true))
    ensures OutcomeOf(Exec(ls), k) == Some(TimedOut) <==> Taken(ls, GiveUp(k, false))
    ensures OutcomeOf(Exec(ls), k) == Some(QueueFull) <==> Taken(ls, OfferTimeout(k))
  {
    if ls != [] {
      var front, l := ls[..|ls| - 1], ls[|ls| - 1];
      OutcomeExactly(front, k);
      TakenThen(ls, GiveUp(k, true));
      TakenThen(ls, GiveUp(k, false));
      TakenThen(ls, OfferTimeout(k));
      OutcomeStep(Exec(front), l, k);
    }
  }

  /** A call k that posted sdp and ice for bastion b and was given id. */
  predicate Posted(s: State, k: nat, b: string, id: string, sdp: string, ice: string) {
    IsClient(s, k) &&
    s.calls[k] == Client(b, id, s.calls[k].q, s.calls[k].ch, Envelope(id, sdp, ice), s.calls[k].pc)
  }

  lemma PostedStep(s: State, l: Label, k: nat, b: string, id: string, sdp: string, ice: string)
    requires Posted(s, k, b, id, sdp, ice)
    ensures Posted(Step(s, l), k, b, id, sdp, ice)
  {
    if Enabled(s, l) && l.k != k { assert Fire(s, l).calls[k] == s.calls[k]; }
  }

  /** What is posted is what waits, verbatim but for the peer, for as long as the call is known. */
  lemma {:induction false} PostedStays(ls: seq<Label>, l: Label, more: seq<Label>)
    requires l.Register? && Enabled(Exec(ls), l)
    ensures Posted(Exec(ls + [l] + more), l.k, l.b, l.id, l.sdp, l.ice)
    decreases |more|
  {
    if more == [] {
      assert ls + [l] + more == ls + [l];
      ExecThen(ls, l);
    } else {
      var front, last := more[..|more| - 1], more[|more| - 1];
      PostedStays(ls, l, front);
      ExecMore(ls + [l], more);
      PostedStep(Exec(ls + [l] + front), last, l.k, l.b, l.id, l.sdp, l.ice);
    }
  }

  /** A queue looked up under the mutex is still its bastion's queue whenever it is used. */
  lemma QueuesStay(ls: seq<Label>, k: nat)
    requires k in Exec(ls).calls && !Exec(ls).calls[k].Answerer?
    ensures
      var s := Exec(ls);
      s.calls[k].bastion in s.net.offerOf && s.net.offerOf[s.calls[k].bastion] == s.calls[k].q
  {
    InvAlways(ls);
    assert ClientOk(Exec(ls), k) && PollerOk(Exec(ls), k);
  }

  /** pendingAnswers holds the ids not yet cleaned up, and those whose offer met a full queue, for ever. */
  lemma PendingExactly(ls: seq<Label>, id: string)
    ensures
      var s := Exec(ls);
      id in s.net.answerOf <==>
      OwnerOf(s, id).Some? &&
      var pc := OwnerOf(s, id).value.pc;
      !pc.Finished? || pc.out == QueueFull
  {
    InvAlways(ls);
    var s := Exec(ls);
    assert IdOk(s, id);
    if id in s.owner { assert ClientOk(s, s.owner[id]); }
  }

  /** A client's offer is accepted exactly when its call has passed the send, and then carries its id. */
  lemma OfferedExactly(ls: seq<Label>, k: nat)
    requires IsClient(Exec(ls), k)
    ensures
      var c := Exec(ls).calls[k];
      c.env.peer == c.id && (c.env in Log(Exec(ls).accepted, c.bastion) <==> Sent(c.pc))
  {
    InvAlways(ls);
    assert ClientOk(Exec(ls), k);
  }

  /** One client waits. */
  lemma OneWaits() returns (ls: seq<Label>)
    ensures Exec(ls).net == Net(map["b" := 0], [[Envelope("c", "o", "")]], map["c" := 0], [[]])
    ensures Exec(ls).calls == map[0 := Client("b", "c", 0, 0, Envelope("c", "o", ""), Waiting)]
    ensures Exec(ls).answered == map[]
  {
    ExecThen([], Register(0, "b", "c", "o", ""));
    ls := [] + [Register(0, "b", "c", "o", "")];
    assert Exec(ls).net == Net(map["b" := 0], [[]], map["c" := 0], [[]]);
    ExecThen(ls, SendOffer(0));
    ls := ls + [SendOffer(0)];
    assert [] + [Envelope("c", "o", "")] == [Envelope("c", "o", "")];
    assert Exec(ls).net.offerQ == [[Envelope("c", "o", "")]];
  }

  /** Two answers to it have found its channel. */
  lemma TwoAnswers(a1: Envelope, a2: Envelope) returns (ls: seq<Label>)
    requires a1.peer == a2.peer == "c"
    ensures Exec(ls).net == Net(map["b" := 0], [[Envelope("c", "o", "")]], map["c" := 0], [[]])
    ensures Exec(ls).calls == map[0 := Client("b", "c", 0, 0, Envelope("c", "o", ""), Waiting),
                                  1 := Answerer(a1, Offering(0)), 2 := Answerer(a2, Offering(0))]
    ensures Exec(ls).answered == map[]
  {
    ls := OneWaits();
    ExecThen(ls, AnswerBegin(1, a1));
    ls := ls + [AnswerBegin(1, a1)];
    ExecThen(ls, AnswerBegin(2, a2));
    ls := ls + [AnswerBegin(2, a2)];
  }

  /** The first is accepted, and is in the client's channel. */
  lemma FirstAccepted(a1: Envelope, a2: Envelope) returns (ls: seq<Label>)
    requires a1.peer == a2.peer == "c"
    ensures Exec(ls).net == Net(map["b" := 0], [[Envelope("c", "o", "")]], map["c" := 0], [[a1]])
    ensures Exec(ls).calls == map[0 := Client("b", "c", 0, 0, Envelope("c", "o", ""), Waiting),
                                  1 := Answerer(a1, Accepted), 2 := Answerer(a2, Offering(0))]
    ensures Exec(ls).answered == map["c" := [a1]]
  {
    ls := TwoAnswers(a1, a2);
    ExecThen(ls, AnswerSend(1));
    ls := ls + [AnswerSend(1)];
    assert [] + [a1] == [a1];
  }

  lemma ReceiveTakes(s: State, k: nat, a: Envelope)
    requires IsClient(s, k) && s.calls[k].pc.Waiting? && s.calls[k].ch < |s.net.answerQ|
    requires s.net.answerQ[s.calls[k].ch] == [a]
    ensures Step(s, Receive(k)) == s.(net := s.net.(answerQ := s.net.answerQ[s.calls[k].ch := []]),
                                      calls := s.calls[k := s.calls[k].(pc := Cleaning(Answered(a)))])
  {
    assert [a][1..] == [];
  }

  /** It is returned to the client. */
  lemma FirstReceived(a1: Envelope, a2: Envelope) returns (ls: seq<Label>)
    requires a1.peer == a2.peer == "c"
    ensures Exec(ls).net == Net(map["b" := 0], [[Envelope("c", "o", "")]], map["c" := 0], [[]])
    ensures Exec(ls).calls == map[0 := Client("b", "c", 0, 0, Envelope("c", "o", ""), Cleaning(Answered(a1))),
                                  1 := Answerer(a1, Accepted), 2 := Answerer(a2, Offering(0))]
    ensures Exec(ls).answered == map["c" := [a1]]
  {
    var before := FirstAccepted(a1, a2);
    ExecThen(before, Receive(0));
    ls := before + [Receive(0)];
    ReceiveTakes(Exec(before), 0, a1);
    assert Exec(ls).net == Exec(before).net.(answerQ := [[a1]][0 := []]) && [[a1]][0 := []] == [[]];
    assert Exec(ls).calls == Exec(before).calls[0 := Exec(before).calls[0].(pc := Cleaning(Answered(a1)))];
  }

  /** The entry is deleted. */
  lemma FirstAnswered(a1: Envelope, a2: Envelope) returns (ls: seq<Label>)
    requires a1.peer == a2.peer == "c"
    ensures Exec(ls).net == Net(map["b" := 0], [[Envelope("c", "o", "")]], map[], [[]])
    ensures Exec(ls).calls == map[0 := Client("b", "c", 0, 0, Envelope("c", "o", ""), Finished(Answered(a1))),
                                  1 := Answerer(a1, Accepted), 2 := Answerer(a2, Offering(0))]
    ensures Exec(ls).answered == map["c" := [a1]]
  {
    ls := FirstReceived(a1, a2);
    ExecThen(ls, Cleanup(0));
    ls := ls + [Cleanup(0)];
  }

  /** The bound of two is met: the second answer goes in after the entry has been deleted. */
  lemma StrandedAnswer() returns (ls: seq<Label>, k: nat)
    ensures IsClient(Exec(ls), k) && Exec(ls).calls[k].pc.Finished? && Exec(ls).calls[k].pc.out.Answered?
    ensures |Log(Exec(ls).answered, Exec(ls).calls[k].id)| == 2
  {
    var a1, a2 := Envelope("c", "1", ""), Envelope("c", "2", "");
    ls := FirstAnswered(a1, a2);
    k := 0;
    ExecThen(ls, AnswerSend(2));
    ls := ls + [AnswerSend(2)];
  }

  // ---- What a repeated id would do ----

  /** An answer to client j that begins now is offered to the channel j waits on. */
  predicate Answerable(s: State, j: nat)
    requires IsClient(s, j)
  {
    s.calls[j].id in s.net.answerOf && s.net.answerOf[s.calls[j].id] == s.calls[j].ch
  }

  /** It is offered to another client's channel. */
  predicate Misdirected(s: State, j: nat)
    requires IsClient(s, j)
  {
    s.calls[j].id in s.net.answerOf && s.net.answerOf[s.calls[j].id] != s.calls[j].ch
  }

  /** The state that more leads to from s. */
  function RunFrom(s: State, more: seq<Label>): State
    decreases |more|
  {
    if more == [] then s else RunFrom(Step(s, more[0]), more[1..])
  }

  /** k's call goes on, and answers to it find no entry, or another call's. */
  predicate CutOff(s: State, k: nat) {
    IsClient(s, k) && !s.calls[k].pc.Finished? && !Answerable(s, k)
  }

  ghost predicate CanBeCutOff(s: State, k: nat) {
    exists more :: CutOff(RunFrom(s, more), k)
  }

  lemma CutLater(s: State, l: Label, k: nat)
    requires CanBeCutOff(Step(s, l), k)
    ensures CanBeCutOff(s, k)
  {
    var more :| CutOff(RunFrom(Step(s, l), more), k);
    assert ([l] + more)[1..] == more;
    assert CutOff(RunFrom(s, [l] + more), k);
  }

  /** k and another client j, both with calls that go on, were given the same id. */
  predicate Sharing(s: State, k: nat, j: nat) {
    && IsClient(s, k) && IsClient(s, j) && k != j && s.calls[k].id == s.calls[j].id
    && !s.calls[k].pc.Finished? && !s.calls[j].pc.Finished?
  }

  /** j's cleanup deletes the entry that k waits under. */
  lemma CutByCleanup(s: State, k: nat, j: nat)
    requires Sharing(s, k, j) && s.calls[j].pc.Cleaning?
    ensures CanBeCutOff(s, k)
  {
    var s' := Step(s, Cleanup(j));
    assert CutOff(s', k);
    assert RunFrom(s', []) == s';
    CutLater(s, Cleanup(j), k);
  }

  lemma CutByGivingUp(s: State, k: nat, j: nat)
    requires Sharing(s, k, j) && s.calls[j].pc.Waiting?
    ensures CanBeCutOff(s, k)
  {
    CutByCleanup(Step(s, GiveUp(j, false)), k, j);
    CutLater(s, GiveUp(j, false), k);
  }

  lemma CutAfterSending(s: State, k: nat, j: nat)
    requires Sharing(s, k, j) && Enabled(s, SendOffer(j))
    ensures CanBeCutOff(s, k)
  {
    CutByGivingUp(Step(s, SendOffer(j)), k, j);
    CutLater(s, SendOffer(j), k);
  }

  /** A poll makes room in a full queue. */
  lemma CutWithFullQueue(s: State, k: nat, j: nat, p: nat)
    requires Sharing(s, k, j) && s.calls[j].pc.Sending? && p !in s.calls
    requires s.calls[j].bastion in s.net.offerOf && s.net.offerOf[s.calls[j].bastion] == s.calls[j].q
    requires s.calls[j].q < |s.net.offerQ| && |s.net.offerQ[s.calls[j].q]| == OFFER_CAPACITY
    ensures CanBeCutOff(s, k)
  {
    var b, q := s.calls[j].bastion, s.calls[j].q;
    var s1 := Step(s, PollBegin(p, b));
    assert s1.net == s.net && s1.calls == s.calls[p := Poller(b, q, Polling)];
    var s2 := Step(s1, PollReceive(p));
    assert s2.net.offerQ == s.net.offerQ[q := s.net.offerQ[q][1..]];
    assert s2.calls[j] == s.calls[j] && s2.calls[k] == s.calls[k];
    CutAfterSending(s2, k, j);
    CutLater(s1, PollReceive(p), k);
    CutLater(s, PollBegin(p, b), k);
  }

  lemma {:induction false} Unused(ks: set<nat>) returns (p: nat)
    ensures forall k :: k in ks ==> k < p
    decreases ks
  {
    if ks == {} {
      p := 0;
    } else {
      var j :| j in ks;
      var q := Unused(ks - {j});
      p := if j < q then q else j + 1;
      forall k | k in ks ensures k < p { if k != j { assert k in ks - {j}; } }
    }
  }

  /** k has its entry, and no other call that could take it away. */
  ghost predicate Secure(s: State, k: nat) {
    && IsClient(s, k) && s.calls[k].id in s.owner
    && (!s.calls[k].pc.Finished? ==> Answerable(s, k))
    && (forall j :: IsClient(s, j) && j != k && s.calls[j].id == s.calls[k].id ==> s.calls[j].pc.Finished?)
  }

  lemma SecureOwn(s: State, l: Label, k: nat)
    requires Secure(s, k) && Enabled(s, l) && l.k == k
    ensures Secure(Fire(s, l), k)
  {}

  lemma SecureRegister(s: State, l: Label, k: nat)
    requires Secure(s, k) && Enabled(s, l) && l.Register?
    ensures Secure(Fire(s, l), k)
  {}

  /** Only an unfinished client moves. */
  lemma ClientEffect(s: State, l: Label)
    requires Enabled(s, l) && !l.Register? && IsClient(Fire(s, l), l.k)
    ensures IsClient(s, l.k) && Fire(s, l).calls[l.k].id == s.calls[l.k].id && !s.calls[l.k].pc.Finished?
  {}

  /** An entry goes by a cleanup under its id only. */
  lemma EntryStays(s: State, l: Label, id: string)
    requires Enabled(s, l) && !l.Register? && !(l.Cleanup? && s.calls[l.k].id == id)
    requires id in s.owner && id in s.net.answerOf
    ensures id in Fire(s, l).owner && id in Fire(s, l).net.answerOf
    ensures Fire(s, l).net.answerOf[id] == s.net.answerOf[id]
  {}

  lemma SecureOther(s: State, l: Label, k: nat)
    requires Secure(s, k) && Enabled(s, l) && l.k != k && !l.Register?
    ensures Secure(Fire(s, l), k)
  {
    var s', c := Fire(s, l), s.calls[k];
    OtherCall(s, l, k);
    OwnerKept(s, l, c.id);
    if IsClient(s', l.k) { ClientEffect(s, l); }
    if !c.pc.Finished? { EntryStays(s, l, c.id); }
    forall j | IsClient(s', j) && j != k && s'.calls[j].id == c.id ensures s'.calls[j].pc.Finished? {
      if j != l.k { OtherCall(s, l, j); }
    }
  }

  lemma SecureStep(s: State, l: Label, k: nat)
    requires Secure(s, k)
    ensures Secure(Step(s, l), k)
  {
    if Enabled(s, l) {
      if l.Register? {
        SecureRegister(s, l, k);
      } else if l.k == k {
        SecureOwn(s, l, k);
      } else {
        SecureOther(s, l, k);
      }
    }
  }

  lemma {:induction false} SecureForever(s: State, more: seq<Label>, k: nat)
    requires Secure(s, k)
    ensures !CutOff(RunFrom(s, more), k)
    decreases |more|
  {
    if more != [] {
      SecureStep(s, more[0], k);
      SecureForever(Step(s, more[0]), more[1..], k);
    }
  }

  /** An earlier client and its queue are as they were. */
  lemma RegisterKeeps(s: State, k: nat, b: string, id: string, sdp: string, ice: string, j: nat)
    requires Inv(s) && k !in s.calls && IsClient(s, j)
    ensures
      var s', c := RegisterCall(s, k, b, id, sdp, ice), s.calls[j];
      && j != k && IsClient(s', j) && s'.calls[j] == c
      && c.bastion in s'.net.offerOf && s'.net.offerOf[c.bastion] == c.q < |s'.net.offerQ|
      && |s'.net.offerQ[c.q]| <= OFFER_CAPACITY
  {
    assert ClientOk(s, j) && BastionOk(s, s.calls[j].bastion);
  }

  /**
   The new call itself can be cut off while it waits, by the cleanup of an earlier call with
   its id, if and only if that call has not finished; one that ended with its queue full has.
   */
  lemma RepeatedIdCutsOff(s: State, k: nat, b: string, id: string, sdp: string, ice: string)
    requires Inv(s) && k !in s.calls
    ensures CanBeCutOff(RegisterCall(s, k, b, id, sdp, ice), k) <==>
            OwnerOf(s, id).Some? && !OwnerOf(s, id).value.pc.Finished?
  {
    var s' := RegisterCall(s, k, b, id, sdp, ice);
    assert IdOk(s, id);
    if OwnerOf(s, id).Some? && !OwnerOf(s, id).value.pc.Finished? {
      var j := s.owner[id];
      assert ClientOk(s, j);
      RegisterKeeps(s, k, b, id, sdp, ice, j);
      match s.calls[j].pc {
        case Cleaning(_) => CutByCleanup(s', k, j);
        case Waiting => CutByGivingUp(s', k, j);
        case Sending =>
          if |s'.net.offerQ[s'.calls[j].q]| < OFFER_CAPACITY {
            CutAfterSending(s', k, j);
          } else {
            var p := Unused(s'.calls.Keys);
            CutWithFullQueue(s', k, j, p);
          }
      }
    } else {
      forall j | IsClient(s, j) && s.calls[j].id == id ensures s.calls[j].pc.Finished? { assert ClientOk(s, j); }
      assert Secure(s', k);
      forall more ensures !CutOff(RunFrom(s', more), k) { SecureForever(s', more, k); }
    }
  }

  /** Whatever id is generated: what becomes of the answers to an earlier client j. */
  lemma RepeatedIdHits(s: State, k: nat, b: string, id: string, sdp: string, ice: string, j: nat)
    requires Inv(s) && k !in s.calls && IsClient(s, j)
    ensures
      var s' := RegisterCall(s, k, b, id, sdp, ice);
      && j != k && IsClient(s', j) && s'.calls[j] == s.calls[j]
      && !Misdirected(s, j)
      && (Misdirected(s', j) <==> s.calls[j].id == id)
      && (Answerable(s', j) <==> Answerable(s, j) && s.calls[j].id != id)
      && (s.calls[j].id in s.net.answerOf ==>
            (s.calls[j].ch in s'.net.answerOf.Values <==> s.calls[j].id != id))
  {
    assert ClientOk(s, j);
    var s', c := RegisterCall(s, k, b, id, sdp, ice), s.calls[j];
    assert s'.net.answerOf == s.net.answerOf[id := |s.net.answerQ|];
    if c.id == id && c.ch in s'.net.answerOf.Values {
      var i :| i in s'.net.answerOf && s'.net.answerOf[i] == c.ch;
      assert IdOk(s, i) && ClientOk(s, s.owner[i]);
    }
    if c.id != id && c.id in s.net.answerOf {
      assert s'.net.answerOf[c.id] == c.ch;
    }
  }

  /**
   Freshness is needed, and says exactly when: some client loses its entry if and only if
   the new id is on file; some client's answers go to the new call's channel if and only if
   the id was ever given out, cleaned up or not; and the new call can lose its own entry
   while it waits if and only if the earlier call with the id has not finished.
   */
  lemma RepeatedIdTakesOver(s: State, k: nat, b: string, id: string, sdp: string, ice: string)
    requires Inv(s) && k !in s.calls
    ensures forall j :: IsClient(s, j) ==> IsClient(RegisterCall(s, k, b, id, sdp, ice), j)
    ensures
      var s' := RegisterCall(s, k, b, id, sdp, ice);
      && ((exists j :: IsClient(s, j) && Answerable(s, j) && !Answerable(s', j)) <==> id in s.net.answerOf)
      && ((exists j :: IsClient(s, j) && Misdirected(s', j)) <==> id in s.owner)
      && (CanBeCutOff(s', k) <==> OwnerOf(s, id).Some? && !OwnerOf(s, id).value.pc.Finished?)
  {
    var s' := RegisterCall(s, k, b, id, sdp, ice);
    RepeatedIdCutsOff(s, k, b, id, sdp, ice);
    forall j | IsClient(s, j)
      ensures IsClient(s', j) && (Misdirected(s', j) <==> s.calls[j].id == id)
      ensures Answerable(s, j) && !Answerable(s', j) <==> s.calls[j].id == id && id in s.net.answerOf
    {
      RepeatedIdHits(s, k, b, id, sdp, ice, j);
    }
    assert IdOk(s, id);
    if id in s.owner { assert IsClient(s, s.owner[id]) && s.calls[s.owner[id]].id == id; }
    forall j | IsClient(s, j) ensures s.calls[j].id in s.owner { assert ClientOk(s, j); }
  }

  /** An answer to an earlier client j lands in the new call's channel if and only if it was given j's id. */
  lemma RepeatedIdCrosses(s: State, k: nat, b: string, id: string, sdp: string, ice: string,
                          j: nat, a: nat, answer: Envelope)
    requires Inv(s) && k !in s.calls && IsClient(s, j)
    requires a !in s.calls && a != k && answer.peer == s.calls[j].id
    ensures
      var s' := RegisterCall(s, k, b, id, sdp, ice);
      var later := Step(Step(s', AnswerBegin(a, answer)), AnswerSend(a));
      Chan(later.net.answerQ, s'.calls[k].ch) == if s.calls[j].id == id then [answer] else []
  {
    var s' := RegisterCall(s, k, b, id, sdp, ice);
    assert ClientOk(s, j);
    AnswerAlone(s', a, answer);
    assert s'.net.answerQ == s.net.answerQ + [[]] && s'.calls[k].ch == |s.net.answerQ|;
    assert s'.net.answerOf == s.net.answerOf[id := |s.net.answerQ|];
    assert [] + [answer] == [answer];
  }

  /** So with an id given out again after its cleanup: client 0 was answered, and an answer to it reaches call 3. */
  lemma CrossedAnswer() returns (ls: seq<Label>, answer: Envelope)
    ensures IsClient(Exec(ls), 0) && Exec(ls).calls[0].pc.Finished? && Exec(ls).net.answerOf == map[]
    ensures 3 !in Exec(ls).calls && 4 !in Exec(ls).calls && answer.peer == Exec(ls).calls[0].id
    ensures
      var s' := RegisterCall(Exec(ls), 3, "b", Exec(ls).calls[0].id, "o2", "");
      var later := Step(Step(s', AnswerBegin(4, answer)), AnswerSend(4));
      Chan(later.net.answerQ, s'.calls[3].ch) == [answer]
  {
    var a1, a2 := Envelope("c", "1", ""), Envelope("c", "2", "");
    ls := FirstAnswered(a1, a2);
    answer := Envelope("c", "3", "");
    InvAlways(ls);
    RepeatedIdCrosses(Exec(ls), 3, "b", "c", "o2", "", 0, 4, answer);
  }
}
