/** The gateway's half of `Controls`: over every step, a peer's control requests are answered once each, no others. */
module Answers {
  import opened Basics
  import opened CredentialStore
  import opened Session
  import opened SessionFrames
  import opened Views
  import Controls

  /** The control request that a step handles for p, if it does. */
  function RequestOf(a: Action, p: PeerId): Option<Controls.Kind> {
    match a
    case DoOpen(q, _, _, _) => if q == p then Some(Controls.Open) else None
    case DoSubscribe(q, _, _) => if q == p then Some(Controls.Subscribe) else None
    case DoUnsubscribe(q, _, _) => if q == p then Some(Controls.Unsubscribe) else None
    case _ => None
  }

  /** What the client makes of an answer. */
  function Reading(msg: Message): Controls.Answer
    requires IsAnswer(msg)
  {
    match msg
    case ChannelReady(_, _) => Controls.Granted(Controls.Open)
    case Subscribed(_, _) => Controls.Granted(Controls.Subscribe)
    case Unsubscribed(_, _) => Controls.Granted(Controls.Unsubscribe)
    case Error(_) => Controls.Denied
  }

  /** Of all answers, p was sent this one, once, or none. */
  ghost predicate Answered(s: State, t: State, p: PeerId, answer: Option<Message>) {
    forall m :: IsAnswer(m) ==>
                  t.sent[Envelope(p, m)] == s.sent[Envelope(p, m)] + if answer == Some(m) then 1 else 0
  }

  lemma Silent(s: State, t: State, p: PeerId)
    requires Mute(s, t) || t.sent == s.sent
    ensures Answered(s, t, p, None)
  {
  }

  lemma AnsweredAfter(s: State, t: State, u: State, p: PeerId, answer: Option<Message>)
    requires Answered(s, t, p, None) && Answered(t, u, p, answer)
    ensures Answered(s, u, p, answer)
  {
  }

  lemma AnsweredBefore(s: State, t: State, u: State, p: PeerId, answer: Option<Message>)
    requires Answered(s, t, p, answer) && Answered(t, u, p, None)
    ensures Answered(s, u, p, answer)
  {
  }

  /** A message to somebody is an answer to p if it is one and goes to p. */
  lemma Sending(s: State, q: PeerId, msg: Message, p: PeerId)
    ensures Answered(s, Send(s, q, msg), p, if q == p && IsAnswer(msg) && Session.Open(s, p) then Some(msg) else None)
  {
    SendAdds(s, q, msg);
    hide Send;
  }

  lemma Opening(s: State, q: PeerId, target: BackendId, draw: ChannelDraw, now: int, p: PeerId)
    requires q in s.peers
    ensures Answered(s, OpenChannel(s, q, target, draw, now), p,
                     if q == p && Session.Open(s, p) then Some(OpenReply(s, p, target, draw)) else None)
  {
    hide ChannelVerdict, Send, AddChannel, Answered;
    match ChannelVerdict(s, q, target)
    case Refuse(code) => Sending(s, q, Error(code), p);
    case Grant(epoch, holder) =>
      var t := AddChannel(s, target, Some(q), holder, epoch, draw, now);
      var offer, ready := ChannelOffer(draw.channel, draw.backendTicket, Some(q)),
          ChannelReady(draw.channel, draw.clientTicket);
      var u := Send(t, holder, offer);
      AddChannelIsSilent(s, target, Some(q), holder, epoch, draw, now);
      SendAdds(t, holder, offer);
      Silent(s, t, p);
      Sending(t, holder, offer, p);
      AnsweredAfter(s, t, u, p, None);
      Sending(u, q, ready, p);
      AnsweredAfter(s, u, Send(u, q, ready), p,
                    if q == p && Session.Open(u, p) then Some(ready) else None);
  }

  lemma Subscribing(s: State, q: PeerId, b: BackendId, topic: Topic, p: PeerId)
    requires q in s.peers
    ensures Answered(s, Subscribe(s, q, b, topic), p,
                     if q == p && Session.Open(s, p) then Some(SubscribeReply(s, p, b, topic)[0]) else None)
  {
    hide PeerReaches, Send, Answered, SubscribersOf;
    if !PeerReaches(s, q, b) {
      Sending(s, q, Error(Offline), p);
    } else {
      var t := s.(subs := s.subs[b := TopicsOf(s.subs, b)[topic := SubscribersOf(s, b, topic) + {q}]]);
      var told := Session.Subscribed(b, topic);
      Silent(s, t, p);
      Sending(t, q, told, p);
      SendAdds(t, q, told);
      var answer := if q == p && Session.Open(s, p) then Some(told) else None;
      AnsweredAfter(s, t, Send(t, q, told), p, answer);
      if topic in TopicsOf(s.retained, b) {
        var late := TopicMessage(b, topic, Some(s.retained[b][topic]));
        Sending(Send(t, q, told), q, late, p);
        AnsweredBefore(s, Send(t, q, told), Send(Send(t, q, told), q, late), p, answer);
      }
    }
  }

  lemma Unsubscribing(s: State, q: PeerId, b: BackendId, topic: Topic, p: PeerId)
    ensures Answered(s, Unsubscribe(s, q, b, topic), p,
                     if q == p && Session.Open(s, p) then Some(Session.Unsubscribed(b, topic)) else None)
  {
    hide Send, Answered;
    var t := if b in s.subs && topic in s.subs[b]
             then s.(subs := s.subs[b := s.subs[b][topic := s.subs[b][topic] - {q}]]) else s;
    Silent(s, t, p);
    Sending(t, q, Session.Unsubscribed(b, topic), p);
    AnsweredAfter(s, t, Send(t, q, Session.Unsubscribed(b, topic)), p,
                  if q == p && Session.Open(s, p) then Some(Session.Unsubscribed(b, topic)) else None);
  }

  lemma RequestsAreHandled(s: State, a: Action)
    ensures a.DoOpen? ==> Step(s, a) == if a.p in s.peers then OpenChannel(s, a.p, a.backendId, a.ids, a.now) else s
    ensures a.DoSubscribe? ==> Step(s, a) == if a.p in s.peers then Subscribe(s, a.p, a.backendId, a.topic) else s
    ensures a.DoUnsubscribe? ==> Step(s, a) == if a.p in s.peers then Unsubscribe(s, a.p, a.backendId, a.topic) else s
  {
    hide OpenChannel, Subscribe, Unsubscribe;
  }

  /**
   What every step of the gateway sends an open peer by way of answers: to a control request of this peer exactly one,
   which fits the request; to anything else none.
   */
  lemma OneAnswerPerRequest(s: State, a: Action, p: PeerId) returns (answer: Option<Message>)
    requires Fresh(s, a) && Session.Open(s, p)
    ensures Answered(s, Step(s, a), p, answer)
    ensures answer.Some? <==> RequestOf(a, p).Some?
    ensures answer.Some? ==> IsAnswer(answer.value) && Controls.Fits(RequestOf(a, p).value, Reading(answer.value))
  {
    hide Answered, OpenChannel, Subscribe, Unsubscribe, ChannelVerdict, PeerReaches, Fresh, Step, Mute;
    RequestsAreHandled(s, a);
    answer := None;
    match a {
      case DoOpen(q, target, ids, now) =>
        if q in s.peers { Opening(s, q, target, ids, now, p); } else { Silent(s, s, p); }
        if q == p { answer := Some(OpenReply(s, p, target, ids)); }
      case DoSubscribe(q, b, topic) =>
        if q in s.peers { Subscribing(s, q, b, topic, p); } else { Silent(s, s, p); }
        if q == p { answer := Some(SubscribeReply(s, p, b, topic)[0]); }
      case DoUnsubscribe(q, b, topic) =>
        if q in s.peers { Unsubscribing(s, q, b, topic, p); } else { Silent(s, s, p); }
        if q == p { answer := Some(Session.Unsubscribed(b, topic)); }
      case _ =>
        StepIsMute(s, a);
        Silent(s, Step(s, a), p);
    }
  }
}
