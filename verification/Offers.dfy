/**
 The offer and answer rendezvous of main.go over any number of clients, pollers and
 answerers. A label is one section under r.mu, one channel operation or one timeout;
 channels found in a map are used after the mutex is released. As in HubMachine every
 sequence of labels is a schedule.
 */
module Offers {
  import opened Common

  const OFFER_CAPACITY := 16
  const ANSWER_CAPACITY := 1

  /** The relay never looks into sdp and ice. */
  datatype Envelope = Envelope(peer: string, sdp: string, ice: string)

  /** The two maps, and the channels by identity; a channel never moves or goes away. */
  datatype Net = Net(
    offerOf: map<string, nat>,
    offerQ: seq<seq<Envelope>>,
    answerOf: map<string, nat>,
    answerQ: seq<seq<Envelope>>)

  function Chan<T>(qs: seq<seq<T>>, q: nat): seq<T> {
    if q < |qs| then qs[q] else []
  }

  function Put<T>(qs: seq<seq<T>>, q: nat, buf: seq<T>): seq<seq<T>> {
    if q < |qs| then qs[q := buf] else qs
  }

  /** The bastion's poll queue, made if there is none. */
  function OfferQueue(n: Net, b: string): (Net, nat) {
    if b in n.offerOf then (n, n.offerOf[b])
    else (n.(offerOf := n.offerOf[b := |n.offerQ|], offerQ := n.offerQ + [[]]), |n.offerQ|)
  }

  /** A fresh wait channel filed under the client's id. */
  function AwaitAnswer(n: Net, id: string): (Net, nat) {
    (n.(answerOf := n.answerOf[id := |n.answerQ|], answerQ := n.answerQ + [[]]), |n.answerQ|)
  }

  /** signalingAnswer in one go: accepted if the client's channel is on file and has room. */
  function AnswerNow(n: Net, env: Envelope): (Net, bool) {
    if env.peer !in n.answerOf then (n, false)
    else
      var ch := n.answerOf[env.peer];
      var buf := Chan(n.answerQ, ch);
      if |buf| < ANSWER_CAPACITY then (n.(answerQ := Put(n.answerQ, ch, buf + [env])), true) else (n, false)
  }

  datatype Outcome = Answered(env: Envelope) | TimedOut | Cancelled | QueueFull

  datatype ClientPc = Sending | Waiting | Cleaning(out: Outcome) | Finished(out: Outcome)

  datatype PollPc = Polling | Polled(env: Envelope) | Empty

  datatype AnswerPc = Offering(ch: nat) | Accepted | NotWaiting | ChannelFull

  datatype Call =
    | Client(bastion: string, id: string, q: nat, ch: nat, env: Envelope, pc: ClientPc)
    | Poller(bastion: string, q: nat, poll: PollPc)
    | Answerer(answer: Envelope, post: AnswerPc)

  /**
   owner, makers and bastions say who took an id, made a channel and asked for a queue;
   accepted, polled and answered are the histories of the channels, takers the polls
   that received the offers of polled.
   */
  datatype State = State(
    net: Net,
    calls: map<nat, Call>,
    owner: map<string, nat>,
    makers: seq<nat>,
    bastions: seq<string>,
    accepted: map<string, seq<Envelope>>,
    polled: map<string, seq<Envelope>>,
    takers: map<string, seq<nat>>,
    answered: map<string, seq<Envelope>>)

  datatype Label =
    | Register(k: nat, b: string, id: string, sdp: string, ice: string)
    | SendOffer(k: nat)
    | OfferTimeout(k: nat)
    | Receive(k: nat)
    | GiveUp(k: nat, cancelled: bool)
    | Cleanup(k: nat)
    | PollBegin(k: nat, b: string)
    | PollReceive(k: nat)
    | PollGiveUp(k: nat)
    | AnswerBegin(k: nat, answer: Envelope)
    | AnswerSend(k: nat)

  const INIT := State(Net(map[], [], map[], []), map[], map[], [], [], map[], map[], map[], map[])

  predicate IsClient(s: State, k: nat) {
    k in s.calls && s.calls[k].Client?
  }

  /** genClientID is assumed to return an id it has not returned before. */
  predicate Enabled(s: State, l: Label) {
    match l
    case Register(k, _, id, _, _) => k !in s.calls && id !in s.owner
    case SendOffer(k) =>
      IsClient(s, k) && s.calls[k].pc.Sending? && |Chan(s.net.offerQ, s.calls[k].q)| < OFFER_CAPACITY
    case OfferTimeout(k) => IsClient(s, k) && s.calls[k].pc.Sending?
    case Receive(k) => IsClient(s, k) && s.calls[k].pc.Waiting? && Chan(s.net.answerQ, s.calls[k].ch) != []
    case GiveUp(k, _) => IsClient(s, k) && s.calls[k].pc.Waiting?
    case Cleanup(k) => IsClient(s, k) && s.calls[k].pc.Cleaning?
    case PollBegin(k, _) => k !in s.calls
    case PollReceive(k) =>
      k in s.calls && s.calls[k].Poller? && s.calls[k].poll.Polling? && Chan(s.net.offerQ, s.calls[k].q) != []
    case PollGiveUp(k) => k in s.calls && s.calls[k].Poller? && s.calls[k].poll.Polling?
    case AnswerBegin(k, _) => k !in s.calls
    case AnswerSend(k) => k in s.calls && s.calls[k].Answerer? && s.calls[k].post.Offering?
  }

  /** The first section of signalingInitiate and signalingOffer, for whatever id was generated. */
  function RegisterCall(s: State, k: nat, b: string, id: string, sdp: string, ice: string): State {
    var (n1, ch) := AwaitAnswer(s.net, id);
    var (n2, q) := OfferQueue(n1, b);
    s.(net := n2, owner := s.owner[id := k], makers := s.makers + [k],
       bastions := if b in s.net.offerOf then s.bastions else s.bastions + [b],
       calls := s.calls[k := Client(b, id, q, ch, Envelope(id, sdp, ice), Sending)])
  }

  function Fire(s: State, l: Label): State
    requires Enabled(s, l)
  {
    match l
    case Register(k, b, id, sdp, ice) => RegisterCall(s, k, b, id, sdp, ice)
    case SendOffer(k) =>
      var c := s.calls[k];
      s.(net := s.net.(offerQ := Put(s.net.offerQ, c.q, Chan(s.net.offerQ, c.q) + [c.env])),
         accepted := Append(s.accepted, c.bastion, c.env),
         calls := s.calls[k := c.(pc := Waiting)])
    case OfferTimeout(k) => s.(calls := s.calls[k := s.calls[k].(pc := Finished(QueueFull))])
    case Receive(k) =>
      var c := s.calls[k];
      var buf := Chan(s.net.answerQ, c.ch);
      s.(net := s.net.(answerQ := Put(s.net.answerQ, c.ch, buf[1..])),
         calls := s.calls[k := c.(pc := Cleaning(Answered(buf[0])))])
    case GiveUp(k, cancelled) =>
      s.(calls := s.calls[k := s.calls[k].(pc := Cleaning(if cancelled then Cancelled else TimedOut))])
    case Cleanup(k) =>
      var c := s.calls[k];
      s.(net := s.net.(answerOf := s.net.answerOf - {c.id}), calls := s.calls[k := c.(pc := Finished(c.pc.out))])
    case PollBegin(k, b) =>
      var (n1, q) := OfferQueue(s.net, b);
      s.(net := n1, bastions := if b in s.net.offerOf then s.bastions else s.bastions + [b],
         calls := s.calls[k := Poller(b, q, Polling)])
    case PollReceive(k) =>
      var c := s.calls[k];
      var buf := Chan(s.net.offerQ, c.q);
      s.(net := s.net.(offerQ := Put(s.net.offerQ, c.q, buf[1..])),
         polled := Append(s.polled, c.bastion, buf[0]), takers := Append(s.takers, c.bastion, k),
         calls := s.calls[k := c.(poll := Polled(buf[0]))])
    case PollGiveUp(k) => s.(calls := s.calls[k := s.calls[k].(poll := Empty)])
    case AnswerBegin(k, answer) =>
      var post := if answer.peer in s.net.answerOf then Offering(s.net.answerOf[answer.peer]) else NotWaiting;
      s.(calls := s.calls[k := Answerer(answer, post)])
    case AnswerSend(k) =>
      var c := s.calls[k];
      var buf := Chan(s.net.answerQ, c.post.ch);
      if |buf| < ANSWER_CAPACITY then
        s.(net := s.net.(answerQ := Put(s.net.answerQ, c.post.ch, buf + [c.answer])),
           answered := Append(s.answered, c.answer.peer, c.answer),
           calls := s.calls[k := c.(post := Accepted)])
      else
        s.(calls := s.calls[k := c.(post := ChannelFull)])
  }

  function Step(s: State, l: Label): State {
    if Enabled(s, l) then Fire(s, l) else s
  }

  function Exec(ls: seq<Label>): State {
    if ls == [] then INIT else Step(Exec(ls[..|ls| - 1]), ls[|ls| - 1])
  }

  lemma ExecThen(ls: seq<Label>, l: Label)
    ensures Exec(ls + [l]) == Step(Exec(ls), l)
  {
    assert (ls + [l])[..|ls|] == ls;
  }

  /** The last step of a schedule that goes on. */
  lemma ExecMore(ls: seq<Label>, more: seq<Label>)
    requires more != []
    ensures Exec(ls + more) == Step(Exec(ls + more[..|more| - 1]), more[|more| - 1])
  {
    var all := ls + more;
    assert all[..|all| - 1] == ls + more[..|more| - 1];
  }

  /** An answer whose two steps nobody comes between is accepted or refused as AnswerNow says. */
  lemma AnswerAlone(s: State, k: nat, answer: Envelope)
    requires k !in s.calls
    ensures
      var s' := Step(Step(s, AnswerBegin(k, answer)), AnswerSend(k));
      && s'.net == AnswerNow(s.net, answer).0
      && k in s'.calls && s'.calls[k].Answerer?
      && (s'.calls[k].post.Accepted? <==> AnswerNow(s.net, answer).1)
  {
    var s1 := Step(s, AnswerBegin(k, answer));
    assert s1.net == s.net && s1.calls[k].Answerer?;
  }
}
