// The E2AP functional procedures, independent of how messages reach their peer:
// what an xApp asks for, what an agent answers, and what the xApp remembers.
module Procedures {
  import opened Ids

  /** The three procedures that are answered. */
  datatype Kind = Subscription | SubscriptionDelete | Control

  /** A message carrying an identifier of type I; `body` stands for its payload. */
  datatype Msg<I> =
    | Req(kind: Kind, id: I, body: int)
    | Ans(kind: Kind, id: I, ok: bool, body: int)
    | Ind(id: I, body: int)

  /** A control acknowledge is rebuilt from its identifier alone, so the control
      outcome does not survive the relay; every other payload does. */
  function Relayed<I>(m: Msg<I>): Msg<I> {
    if m.Ans? && m.kind == Control && m.ok then m.(body := 0) else m
  }

  /** The same message under another identifier. */
  function Relabel<I, J>(m: Msg<I>, id: J): Msg<J> {
    match m
    case Req(kind, _, body) => Req(kind, id, body)
    case Ans(kind, _, ok, body) => Ans(kind, id, ok, body)
    case Ind(_, body) => Ind(id, body)
  }

  /** What the agent may answer: only a control request can be refused, and only
      control answers carry a payload. */
  predicate PossibleAnswer<I>(m: Msg<I>, ok: bool, body: int) {
    m.Req? && (m.kind != Control ==> ok && body == 0)
  }

  /** What the calling thread fixed when it started the procedure. */
  datatype Issue = Issue(kind: Kind, node: NodeId, ranFunc: nat, callback: int, body: int)

  /** Where the (blocking) procedure call stands. */
  datatype Phase = Waiting(kind: Kind) | Active | Answered

  datatype Proc = Proc(issue: Issue, phase: Phase)

  /** An xApp and a key of its active-procedure registry. */
  datatype Handle = Handle(xapp: nat, key: nat)

  /** Which phase an answer leads to: a subscription stays, the others are over. */
  function Settled(kind: Kind): Phase {
    if kind == Subscription then Active else Answered
  }

  /** The payload a request of this kind carries for a procedure. */
  function RequestBody(issue: Issue, kind: Kind): int {
    if kind == SubscriptionDelete then 0 else issue.body
  }

  predicate PhaseOk(kind: Kind, p: Phase) {
    match p
    case Waiting(k) => k == kind || (k == SubscriptionDelete && kind == Subscription)
    case Active => kind == Subscription
    case Answered => true
  }
}
