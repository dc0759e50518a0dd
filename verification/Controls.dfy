/**
 Control requests and what answers them, as both ends see it. `Client` runs on this; `Answers.OneAnswerPerRequest`
 proves that it is what every step of the gateway does for every peer.
 */
module Controls {
  datatype Kind = Open | Subscribe | Unsubscribe

  /** What a reply says. Nothing in it names the request. */
  datatype Answer = Granted(kind: Kind) | Denied

  /** What a request of this kind may be answered with. */
  predicate Fits(kind: Kind, answer: Answer) { answer.Granted? ==> answer.kind == kind }
}
