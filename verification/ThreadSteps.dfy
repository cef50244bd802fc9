/**
 * What each handler of a session machine does to the thread it is about: a new local state, the
 * envelopes that reached the relay, a reply, and whether an ephemeral bond has to go.
 */
module ThreadSteps {
  import opened Options
  import opened SessionTypes

  const SESSION_OPEN_TTL_MS: int := 60 * 60 * 1000
  const ATEST_PROFILE := "atest/1"
  const REFERENCE_PROFILES: seq<string> := ["core/1", "nego/1"]

  /** What the surroundings answer during one handler: clock, relay, bonds, and a fresh queue id. */
  datatype Env = Env(now: int, sendOk: bool, bonds: map<string, Bond>, freshId: string)

  datatype Out = Out(local: Local, sent: seq<Msg>, reply: Reply, unbond: bool)

  function Quiet(l: Local, reply: Reply): Out {
    Out(l, [], reply, false)
  }

  function Send(env: Env, m: Msg): seq<Msg> {
    if env.sendOk then [m] else []
  }

  // ---- roles ----

  function PeerFor(s: Record, me: string): string {
    if s.initiator == me then s.recipient else s.initiator
  }

  function RoleFor(s: Record, me: string): Role {
    if s.initiator == me then Initiator else Recipient
  }

  function Participant(s: Record, from: string): Option<Role> {
    if from == s.initiator then Some(Initiator)
    else if from == s.recipient then Some(Recipient)
    else None
  }

  function OpenExpiry(s: Record): int {
    if s.expiresAt <= s.terms.budget.deadline then s.expiresAt else s.terms.budget.deadline
  }

  function ProfilesFor(s: Record, me: string, env: Env): seq<string> {
    var peer := PeerFor(s, me);
    if peer in env.bonds then env.bonds[peer].profiles else REFERENCE_PROFILES
  }

  // ---- presence tests that treat an empty hash as absent ----

  predicate Truthy(o: Option<string>) {
    o.Some? && o.value != ""
  }

  predicate HasSigned(s: Record, r: Role) {
    r in s.signHashes && s.signHashes[r] != ""
  }

  predicate BothSigned(s: Record) {
    HasSigned(s, Initiator) && HasSigned(s, Recipient)
  }

  predicate BothRatified(s: Record) {
    Initiator in s.ratified && Recipient in s.ratified
  }

  predicate BothChallenged(s: Record) {
    Initiator in s.challenges && Recipient in s.challenges
  }

  // ---- the queue ----

  function WithoutId(q: seq<Item>, id: string): (r: seq<Item>)
    ensures forall i :: i in r ==> i in q && i.id != id
    ensures |r| <= |q|
    ensures (forall i :: i in q ==> i.id != id) ==> r == q
  {
    if q == [] then []
    else
      var r := WithoutId(q[..|q| - 1], id);
      if q[|q| - 1].id == id then r else r + [q[|q| - 1]]
  }

  function FindId(q: seq<Item>, id: string): (r: Option<Item>)
    ensures r.Some? ==> r.value in q && r.value.id == id
    ensures r.None? ==> forall i :: i in q ==> i.id != id
  {
    if q == [] then None else if q[0].id == id then Some(q[0]) else FindId(q[1..], id)
  }

  /** Removing the first item of a kind removes it by its id. */
  function WithoutFirst(q: seq<Item>): seq<Item> {
    if q == [] then [] else WithoutId(q, q[0].id)
  }

  function OfferOf(i: Item): Option<Offer> {
    if i.kind.BudgetExtend? then i.kind.offer else None
  }

  function FirstOffer(l: Local): Option<Offer> {
    if l.budgets == [] then None else OfferOf(l.budgets[0])
  }

  function OpenItemFor(s: Record, id: string): Item {
    Item(id, s.thread, s.initiator, SessionOpen(s.terms, s.expiresAt))
  }

  function BudgetItem(s: Record, me: string, id: string, offer: Option<Offer>): Item {
    Item(id, s.thread, PeerFor(s, me), BudgetExtend(offer))
  }

  // ---- shared moves ----

  /** Leaving the live state drops the queued and the outstanding budget extension. */
  function LeaveLive(l: Local, s: Record): Local {
    l.(session := Some(s.(extension := None)), budgets := [])
  }

  predicate PastDeadline(s: Record, now: int) {
    s.status == Live && now > s.terms.budget.deadline
  }

  function EnsureLive(l: Local, now: int): Local {
    if l.session.Some? && PastDeadline(l.session.value, now) then
      LeaveLive(l, l.session.value.(status := Closed, rejectReason := Some("deadline_expired")))
    else l
  }

  function ExpireOpen(l: Local, s: Record): Local {
    l.(session := Some(s.(status := OpenExpired)), opens := WithoutFirst(l.opens))
  }

  function NotifyExpired(s: Record, env: Env): seq<Msg> {
    if s.role == Recipient then Send(env, OpenExpiredMsg) else []
  }

  /** Makes sure a pending recipient session has its approval item, or lets it expire. */
  function EnsureOpenItem(l: Local, s: Record, env: Env): Local {
    if s.status != Pending || s.role != Recipient then l
    else if env.now > OpenExpiry(s) then ExpireOpen(l, s)
    else if l.opens != [] then l
    else l.(opens := [OpenItemFor(s, env.freshId)])
  }

  predicate RatifyAllowed(s: Record, me: string, env: Env) {
    && (s.status == Signed || s.status == Closed)
    && s.rejectReason != Some("bond_revoked")
    && PeerFor(s, me) in env.bonds
    && RoleFor(s, me) !in s.ratified
  }

  function EnsureRatifyItem(l: Local, s: Record, me: string, env: Env): Local {
    if RatifyAllowed(s, me, env) && l.ratifies == [] && Truthy(s.artifactHash) then
      l.(ratifies := [Item(env.freshId, s.thread, PeerFor(s, me), Ratify(s.artifactHash.value))])
    else l
  }

  /** Queues a numberless item when the turns are used up and no extension is outstanding. */
  function GuardTurnBudget(l: Local, s: Record, me: string, env: Env): Local {
    if s.turnCount >= s.terms.budget.maxTurns && s.extension.None? && l.budgets == [] then
      l.(budgets := [BudgetItem(s, me, env.freshId, None)])
    else l
  }

  function Finalize(s: Record, me: string, hash: string): Record {
    s.(status := Closed, artifactHash := Some(hash), coSignedHash := Some(hash),
       signatures := s.signatures[me := Signature(me, hash)])
  }

  /** Records the report of one role under its hash and runner; every other slot stays. */
  function SetRunnerReport(rs: Reports, hash: string, runner: string, role: Role, report: Report): Reports {
    var byRunner := if hash in rs then rs[hash] else map[];
    var byRole := if runner in byRunner then byRunner[runner] else map[];
    rs[hash := byRunner[runner := byRole[role := report]]]
  }

  // ---- the acceptance-test gate ----

  predicate GateActive(s: Record, profiles: seq<string>) {
    ATEST_PROFILE in profiles && exists c :: c in s.terms.acceptance && c.executable
  }

  predicate PassedBy(rs: Reports, hash: string, runner: string, role: Role) {
    hash in rs && runner in rs[hash] && role in rs[hash][runner] && rs[hash][runner][role].passed
  }

  function RunnersRequired(cs: seq<Criterion>): (r: set<string>)
    ensures forall x :: x in r <==> x != "" && exists c :: c in cs && c.executable && c.runner == Some(x)
  {
    if cs == [] then {}
    else
      var r := RunnersRequired(cs[1..]);
      assert forall c :: c in cs <==> c == cs[0] || c in cs[1..];
      if cs[0].executable && Truthy(cs[0].runner) then r + {cs[0].runner.value} else r
  }

  predicate CeremonyComplete(s: Record, profiles: seq<string>, hash: string) {
    GateActive(s, profiles) ==>
      && BothChallenged(s)
      && forall x :: x in RunnersRequired(s.terms.acceptance) ==>
           PassedBy(s.reports, hash, x, Initiator) && PassedBy(s.reports, hash, x, Recipient)
  }

  // ---- opening ----

  function NewSession(thread: string, initiator: string, recipient: string, role: Role, terms: Terms, now: int): Record {
    Record(thread, initiator, recipient, role, Pending, terms, now, now + SESSION_OPEN_TTL_MS, None, 0,
           map[], {}, map[], {}, None, None, map[], None, [])
  }

  /** The thread is a fresh UUID, so nothing is stored under it yet. */
  function HandleOpen(me: string, l: Local, thread: string, to: string, terms: Terms, allowed: bool, env: Env): Out
    requires l.session.None?
  {
    if !allowed then Quiet(l, Refused("recipient_not_allowed"))
    else if env.now > terms.budget.deadline then Quiet(l, Refused("invalid_payload"))
    else
      Out(l.(session := Some(NewSession(thread, me, to, Initiator, terms, env.now))), Send(env, NegoOpen(terms)),
          if env.sendOk then Done else Refused("relay_unavailable"), false)
  }

  function IncomingOpen(me: string, l: Local, thread: string, from: string, terms: Terms, env: Env): Out {
    if l.session.Some? && l.session.value.status != Pending then Quiet(l, Done)
    else if l.session.Some? && l.session.value.initiator != from then Quiet(l, Refused("initiator_mismatch"))
    else if l.session.Some? then Quiet(l, Done)
    else
      var s := NewSession(thread, from, me, Recipient, terms, env.now);
      var l1 := l.(session := Some(s));
      if env.now > terms.budget.deadline then Out(ExpireOpen(l1, s), NotifyExpired(s, env), Done, false)
      else Quiet(EnsureOpenItem(l1, s, env), Done)
  }

  function ApproveOpen(l: Local, id: string, viaHuman: bool, env: Env): Out {
    var item := FindId(l.opens, id);
    if !viaHuman then Quiet(l, Refused("human_required"))
    else if item.None? then Quiet(l, Refused("pending_not_found"))
    else if l.session.None? then Quiet(l, Refused("session_not_found"))
    else
      var s := l.session.value;
      if env.now > OpenExpiry(s) then
        Out(ExpireOpen(l, s), NotifyExpired(s, env), Refused("session_open_expired"), false)
      else
        Out(l.(session := Some(s.(status := Live)), opens := WithoutId(l.opens, id)), Send(env, OpenApproved), Done, false)
  }

  function RejectOpen(l: Local, id: string, reason: string, viaHuman: bool, env: Env): Out {
    var item := FindId(l.opens, id);
    if !viaHuman then Quiet(l, Refused("human_required"))
    else if item.None? then Quiet(l, Refused("pending_not_found"))
    else if l.session.None? then Quiet(l, Refused("session_not_found"))
    else
      var s := l.session.value;
      if env.now > OpenExpiry(s) then
        Out(ExpireOpen(l, s), NotifyExpired(s, env), Refused("session_open_expired"), false)
      else
        Out(l.(session := Some(s.(status := OpenRejected, rejectReason := Some(reason))), opens := WithoutId(l.opens, id)),
            Send(env, OpenReject(Some(reason))), Done, false)
  }

  /** First half of the periodic sweep: what is overdue expires or closes. */
  function Overdue(l: Local, env: Env): Out {
    if l.session.Some? && l.session.value.status == Pending && env.now > OpenExpiry(l.session.value) then
      Out(ExpireOpen(l, l.session.value), NotifyExpired(l.session.value, env), Done, false)
    else Quiet(EnsureLive(l, env.now), Done)
  }

  /** Second half: queue items whose session no longer wants them are dropped. */
  function Tidy(me: string, l: Local): Local {
    if l.session.None? then Local(None, [], [], l.budgets)
    else
      var s := l.session.value;
      l.(opens := if s.status == Pending then l.opens else [],
         ratifies := if s.status == Closed || RoleFor(s, me) in s.ratified then [] else l.ratifies)
  }

  /** One thread's share of the periodic sweep. */
  function ExpireSession(me: string, l: Local, env: Env): Out {
    var o := Overdue(l, env);
    Out(Tidy(me, o.local), o.sent, Done, false)
  }

  // ---- negotiating ----

  predicate LiveOrSigned(s: Record) {
    s.status == Live || s.status == Signed
  }

  /** One turn out of the budget; without one left the numberless item is queued. */
  function SpendTurn(me: string, l: Local, s: Record, wellFormed: bool, env: Env): Out {
    if s.turnCount >= s.terms.budget.maxTurns then
      Quiet(GuardTurnBudget(l, s, me, env), Refused("budget_exhausted"))
    else if !wellFormed then Quiet(l, Refused("invalid_payload"))
    else Out(l.(session := Some(s.(turnCount := s.turnCount + 1))), Send(env, Turn), Done, false)
  }

  function TakeTurn(me: string, l0: Local, wellFormed: bool, env: Env): Out {
    var l := EnsureLive(l0, env.now);
    if l.session.None? then Quiet(l, Refused("session_not_found"))
    else
      var s := l.session.value;
      if !LiveOrSigned(s) then Quiet(l, Refused("session_not_live"))
      else SpendTurn(me, l, s, wellFormed, env)
  }

  function FileChallenge(me: string, l0: Local, env: Env): Out {
    var l := EnsureLive(l0, env.now);
    if l.session.None? then Quiet(l, Refused("session_not_found"))
    else
      var s := l.session.value;
      if !LiveOrSigned(s) then Quiet(l, Refused("session_not_live"))
      else if ATEST_PROFILE !in ProfilesFor(s, me, env) then Quiet(l, Refused("profile_not_supported"))
      else Out(l.(session := Some(s.(challenges := s.challenges + {RoleFor(s, me)}))), Send(env, Challenge), Done, false)
  }

  function FileReport(me: string, l0: Local, report: Report, env: Env): Out {
    var l := EnsureLive(l0, env.now);
    if l.session.None? then Quiet(l, Refused("session_not_found"))
    else
      var s := l.session.value;
      if !LiveOrSigned(s) then Quiet(l, Refused("session_not_live"))
      else if ATEST_PROFILE !in ProfilesFor(s, me, env) then Quiet(l, Refused("profile_not_supported"))
      else
        Out(l.(session := Some(s.(reports :=
                SetRunnerReport(s.reports, report.artifactHash, report.runner, RoleFor(s, me), report)))),
            Send(env, ReportMsg(report)), Done, false)
  }

  /** Records a sign hash; the second one moves the session to signed. */
  function RecordSign(l: Local, s: Record, role: Role, hash: string): Local {
    var s1 := s.(signHashes := s.signHashes[role := hash], artifactHash := Some(hash));
    var s2 := if BothSigned(s1) then s1.(status := Signed) else s1;
    if s.status == Live && s2.status == Signed then LeaveLive(l, s2) else l.(session := Some(s2))
  }

  function Sign(me: string, l0: Local, hash: string, env: Env): Out {
    var l := EnsureLive(l0, env.now);
    if l.session.None? then Quiet(l, Refused("session_not_found"))
    else
      var s := l.session.value;
      var profiles := ProfilesFor(s, me, env);
      if !LiveOrSigned(s) then Quiet(l, Refused("session_not_live"))
      else if GateActive(s, profiles) && !BothChallenged(s) then Quiet(l, Refused("challenges_incomplete"))
      else if GateActive(s, profiles) && !CeremonyComplete(s, profiles, hash) then Quiet(l, Refused("tests_not_green"))
      else
        var l1 := RecordSign(l, s, RoleFor(s, me), hash);
        var s1 := l1.session.value;
        Out(if s1.status == Signed then EnsureRatifyItem(l1, s1, me, env) else l1, Send(env, SignedMsg(hash)), Done, false)
  }

  /** The second ratification closes the session with the co-signed hash. */
  function RatifyNow(me: string, l: Local, s: Record, hash: string, env: Env): Out {
    var s1 := s.(ratified := s.ratified + {RoleFor(s, me)});
    var l1 := l.(session := Some(s1), ratifies := WithoutFirst(l.ratifies));
    if BothRatified(s1) then
      Out(l1.(session := Some(Finalize(s1, me, hash))), Send(env, RatifiedMsg), Done, true)
    else Out(l1, Send(env, RatifiedMsg), Done, false)
  }

  /** `byItem` names a queued ratify item, which then fixes the hash. */
  function RatifyBy(me: string, l: Local, byItem: Option<string>, given: Option<string>, viaHuman: bool, env: Env): Out {
    var item := if byItem.Some? then FindId(l.ratifies, byItem.value) else None;
    if !viaHuman then Quiet(l, Refused("human_required"))
    else if byItem.Some? && item.None? then Quiet(l, Refused("pending_not_found"))
    else if l.session.None? then Quiet(l, Refused("session_not_found"))
    else
      var s := l.session.value;
      var wanted := if item.Some? && item.value.kind.Ratify? then Some(item.value.kind.artifactHash) else given;
      var hash := if wanted.Some? then wanted else s.artifactHash;
      if s.status != Signed && s.status != Closed then Quiet(l, Refused("session_not_signed"))
      else if !Truthy(hash) then Quiet(l, Refused("invalid_payload"))
      else RatifyNow(me, l, s, hash.value, env)
  }

  // ---- reading, revoking and closing ----

  function ResolveOpen(l: Local, env: Env): Local {
    if l.session.None? then l else EnsureOpenItem(l, l.session.value, env)
  }

  function ResolveRatify(me: string, l: Local, env: Env): Local {
    if l.session.None? then l else EnsureRatifyItem(l, l.session.value, me, env)
  }

  /** Reading the status closes an overdue session and requeues a lost item of either kind. */
  function ReadStatus(me: string, l0: Local, env: Env): Out {
    var l := EnsureLive(l0, env.now);
    if l.session.None? then Quiet(l, Refused("session_not_found"))
    else Quiet(EnsureRatifyItem(EnsureOpenItem(l, l.session.value, env), l.session.value, me, env), Done)
  }

  function NotOf(q: seq<Item>, peer: string): seq<Item> {
    if q == [] then []
    else
      var r := NotOf(q[..|q| - 1], peer);
      if q[|q| - 1].peer == peer then r else r + [q[|q| - 1]]
  }

  /** Whether a stored session is one with this peer. */
  predicate With(me: string, s: Option<Record>, peer: string) {
    s.Some? && PeerFor(s.value, me) == peer
  }

  function Revoked(s: Record): Record {
    var closed := s.(status := Closed, rejectReason := Some("bond_revoked"));
    if s.status == Live then closed.(extension := None) else if Terminal(s.status) then s else closed
  }

  /** Drops every queued item that goes away with the bond. */
  function Sever(me: string, l: Local, peer: string): Local {
    if With(me, l.session, peer) then Local(l.session, [], [], [])
    else Local(l.session, NotOf(l.opens, peer), NotOf(l.ratifies, peer), NotOf(l.budgets, peer))
  }

  function BondRevoke(me: string, l: Local, peer: string): Local {
    Sever(me, if With(me, l.session, peer) then l.(session := Some(Revoked(l.session.value))) else l, peer)
  }

  function ThreadClose(l0: Local, reason: Option<string>, env: Env): Out {
    var l := EnsureLive(l0, env.now);
    if l.session.None? || Terminal(l.session.value.status) then Quiet(l, Done)
    else
      var s := l.session.value;
      var why := if reason.Some? then reason else if s.rejectReason.Some? then s.rejectReason else Some("thread_closed");
      var closed := s.(status := Closed, rejectReason := why);
      if s.status == Live then Quiet(LeaveLive(l, closed), Done)
      else
        Quiet(l.(session := Some(closed),
                 opens := if s.status == Pending then WithoutFirst(l.opens) else l.opens,
                 ratifies := if s.status == Signed then WithoutFirst(l.ratifies) else l.ratifies), Done)
  }
}
