/** The values the session protocol passes around: records, queue items and wire messages. */
module SessionTypes {
  import opened Options

  datatype Role = Initiator | Recipient

  function Other(r: Role): Role {
    if r == Initiator then Recipient else Initiator
  }

  datatype Status = Pending | Live | OpenRejected | OpenExpired | Signed | Closed

  predicate Terminal(s: Status) {
    s == Closed || s == OpenRejected || s == OpenExpired
  }

  datatype Criterion = Criterion(id: string, executable: bool, desc: string, runner: Option<string>)
  datatype Budget = Budget(maxTurns: int, deadline: int)
  datatype Mandate = Mandate(agentMay: seq<string>, humanRequired: seq<string>, escalateOn: Option<seq<string>>)
  datatype Terms = Terms(goal: string, acceptance: seq<Criterion>, budget: Budget, mandate: Mandate)

  datatype Report = Report(artifactHash: string, passed: bool, runner: string, details: Option<string>)
  type Reports = map<string, map<string, map<Role, Report>>>

  /** One numbered proposal to raise the turn budget, with the role that made it. */
  datatype Offer = Offer(proposalId: string, newMax: int, proposer: Role)

  datatype ExtStatus = Emitting | AwaitingPeer | ApprovedEmitting | RejectedEmitting

  /** Payload of the three budget envelopes; the reason is used by a reject only. */
  datatype Payload = Payload(thread: string, proposalId: string, newMax: int, reason: Option<string>)

  /** The bytes of the envelope are kept only while it still has to be sent. */
  datatype Extension = Extension(offer: Offer, status: ExtStatus, bytes: Option<Payload>)

  datatype Decided = Decided(proposalId: string, approved: bool)

  /** A signature is symbolic: who signed which message. */
  datatype Signature = Signature(signer: string, message: string)

  datatype Record = Record(
    thread: string,
    initiator: string,
    recipient: string,
    role: Role,
    status: Status,
    terms: Terms,
    createdAt: int,
    expiresAt: int,
    rejectReason: Option<string>,
    turnCount: int,
    reports: Reports,
    challenges: set<Role>,
    signHashes: map<Role, string>,
    ratified: set<Role>,
    artifactHash: Option<string>,
    coSignedHash: Option<string>,
    signatures: map<string, Signature>,
    extension: Option<Extension>,
    decided: seq<Decided>)

  /** A human-gated queue item; `peer` is the opener for a session_open item. */
  datatype Item = Item(id: string, thread: string, peer: string, kind: Kind)
  datatype Kind =
    | SessionOpen(terms: Terms, expiresAt: int)
    | Ratify(artifactHash: string)
    | BudgetExtend(offer: Option<Offer>)
    | PairJoin

  /** The parts of one machine that belong to one thread: its record and its queue, by item kind. */
  datatype Local = Local(session: Option<Record>, opens: seq<Item>, ratifies: seq<Item>, budgets: seq<Item>)

  const EMPTY_LOCAL := Local(None, [], [], [])

  datatype Msg =
    | NegoOpen(terms: Terms)
    | OpenApproved
    | OpenReject(reason: Option<string>)
    | OpenExpiredMsg
    | Turn
    | Challenge
    | ReportMsg(report: Report)
    | SignedMsg(hash: string)
    | RatifiedMsg
    | BudgetPropose(payload: Payload)
    | BudgetApproved(payload: Payload)
    | BudgetReject(payload: Payload)
    | Malformed

  datatype Bond = Bond(profiles: seq<string>, ephemeral: bool)

  datatype Reply = Done | Noted(note: string) | Refused(error: string)

  // ---- decisions on proposals ----

  predicate Knows(ds: seq<Decided>, p: string) {
    exists d :: d in ds && d.proposalId == p
  }

  /** Records a decision once: a proposal already decided keeps its first decision. */
  function AppendDecided(ds: seq<Decided>, p: string, approved: bool): (r: seq<Decided>)
    ensures ds <= r
    ensures Knows(ds, p) ==> r == ds
    ensures !Knows(ds, p) ==> r == ds + [Decided(p, approved)]
  {
    if Knows(ds, p) then ds else ds + [Decided(p, approved)]
  }

  /** Every proposal id is decided at most once. */
  ghost predicate DecidedOnce(ds: seq<Decided>) {
    forall i, j :: 0 <= i < j < |ds| ==> ds[i].proposalId != ds[j].proposalId
  }

  lemma AppendKeepsOnce(ds: seq<Decided>, p: string, approved: bool)
    requires DecidedOnce(ds)
    ensures DecidedOnce(AppendDecided(ds, p, approved))
    ensures Knows(AppendDecided(ds, p, approved), p)
    ensures forall q :: Knows(AppendDecided(ds, p, approved), q) <==> Knows(ds, q) || q == p
  {
  }
}
