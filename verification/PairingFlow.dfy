/**
 * The joiner's and the initiator's pairing programs as control points, one await at a time, over one
 * overwriteable relay slot. Keys, fingerprints and tags are symbolic and injective; the preimage
 * module shows why the byte strings behind them are.
 */
module PairingFlow {
  import opened Options
  import opened Profiles
  import U = Utf8

  const CORE := "core/1"

  /** An ideal password-authenticated exchange: equal keys mean equal codes and the same two messages. */
  datatype Key = Key(code: string, first: nat, second: nat)

  /** What a fingerprint covers: one side's view of the pairing. */
  datatype View = View(key: Key, initiator: string, joiner: string, initProfiles: seq<string>, joinProfiles: seq<string>)

  function Contract(v: View): seq<string> {
    Intersect(v.initProfiles, v.joinProfiles)
  }

  datatype Print = Fingerprint(view: View) | Tag(key: Key, sender: string) | Noise(n: nat) | Absent

  /** `Invalid` decodes to bytes that are no message of the exchange. */
  datatype Point = Point(n: nat) | Undecodable | Invalid

  /** Missing or ill-formed fields are None, Absent or the empty string; `Garbled` is a text that does not parse. */
  datatype Wire =
    | InitPake(point: Option<Point>, profiles: Option<seq<string>>)
    | JoinPake(point: Option<Point>, proof: Print, agentId: string, profiles: Option<seq<string>>)
    | Confirm(proof: Print, agentId: string)
    | Reject(why: Option<U.Text>)
    | BondOk(agentId: string, tag: Print)
    | BondFail
    | Garbled

  datatype Result =
    | Bonded(peer: string, contract: seq<string>)
    | Rejected(why: U.Text)
    | PakeFailed
    | RolledBack(reason: string)

  /**
   * What both programs are called with; `proposedId` is the initiator the joiner's manifest names, and
   * `decline` the reason with which the joiner's human refuses, if so.
   */
  datatype Setup = Setup(
    initId: string, joinId: string, proposedId: string,
    codeI: string, codeJ: string, pointI: nat, pointJ: nat,
    profilesI: seq<string>, profilesJ: seq<string>, resumable: bool, decline: Option<U.Text>)

  /**
   * How an await ends: a text from the slot, a timeout, the relay's answer to an allowlist put, a post, or
   * a call to the relay that throws, whether or not the relay has acted on it.
   */
  datatype Answer = Heard(msg: Wire) | Silence | PutDone(ok: bool) | Posted | Failed(arrived: bool)

  /** Control points; the last one is an exit by exception, with the await it came from. */
  datatype JoinAt =
    | JBegin
    | JAwaitPake
    | JAwaitConfirm(view: View)
    | JAwaitBond(view: View)
    | JPutting(view: View, previous: seq<string>)
    | JUndoing
    | JPost(msg: Wire, next: JoinAt)
    | JDone(result: Result)
    | JThrew(from: JoinAt, cause: Answer)

  datatype InitAt =
    | IAwaitPake
    | IAwaitBond(view: View)
    | IPutting(view: View, previous: seq<string>)
    | IFirstLook(view: View, previous: seq<string>)
    | ISecondLook(view: View, previous: seq<string>)
    | IUndoing(after: InitAt)
    | IPost(msg: Wire, next: InitAt)
    | IDone(result: Result)
    | IThrew(from: InitAt, cause: Answer)

  /** Nothing catches the parser or a failing call to the relay. */
  predicate Breaks(a: Answer) {
    a.Failed? || a == Heard(Garbled)
  }

  predicate Arrives(a: Answer) {
    a.Posted? || (a.Failed? && a.arrived)
  }

  /** The previous allowlist and the peer, without repeats. */
  function Added(previous: seq<string>, peer: string): (r: seq<string>)
    ensures forall x :: x in r <==> x in previous || x == peer
  {
    var all := previous + [peer];
    Common(all, all)
  }

  const REJECT_REASON_MAX_BYTES := 256

  /** A refusal's reason as the initiator takes it over: no text counts as an empty one, and a long one is cut. */
  function Explained(reason: Option<U.Text>): U.Text {
    U.Truncated(if reason.Some? then reason.value else [], REJECT_REASON_MAX_BYTES)
  }

  function TagFails(m: Wire, key: Key, peer: string): bool
    requires m.BondOk?
  {
    m.agentId == "" || m.tag.Absent? || m.agentId != peer || m.tag != Tag(key, m.agentId)
  }

  // ---- the joiner ----

  predicate JEnded(at: JoinAt) {
    at.JDone? || at.JThrew?
  }

  predicate JWants(w: Setup, at: JoinAt, m: Wire) {
    match at
    case JAwaitPake => m.InitPake?
    case JAwaitConfirm(_) => m.BondFail? || (m.Confirm? && m.agentId != w.joinId)
    case JAwaitBond(_) => m.BondFail? || (m.BondOk? && m.agentId != w.joinId)
    case _ => false
  }

  function JView(w: Setup, point: nat, profiles: seq<string>): View {
    View(Key(w.codeJ, point, w.pointJ), w.proposedId, w.joinId, profiles, w.profilesJ)
  }

  function JHearPake(w: Setup, a: Answer): JoinAt {
    if !a.Heard? || !a.msg.InitPake? || a.msg.point.None? || a.msg.profiles.None? then JDone(PakeFailed)
    else if a.msg.point.value.Undecodable? then JDone(PakeFailed)
    else if a.msg.point.value.Invalid? then JThrew(JAwaitPake, a)
    else
      var v := JView(w, a.msg.point.value.n, a.msg.profiles.value);
      JPost(JoinPake(Some(Point(w.pointJ)), Fingerprint(v), w.joinId, Some(w.profilesJ)), JAwaitConfirm(v))
  }

  function JHearConfirm(w: Setup, v: View, a: Answer): JoinAt {
    if !a.Heard? || !a.msg.Confirm? || a.msg.agentId == "" || a.msg.proof != Fingerprint(v) || a.msg.agentId != w.proposedId then
      JPost(BondFail, JDone(PakeFailed))
    else if CORE !in Contract(v) then JDone(RolledBack("profile_not_supported"))
    else JPost(BondOk(w.joinId, Tag(v.key, w.joinId)), JAwaitBond(v))
  }

  function JHearBond(w: Setup, v: View, allow: seq<string>, a: Answer): (JoinAt, seq<string>) {
    if !a.Heard? || !a.msg.BondOk? then (JDone(RolledBack("bond_aborted")), allow)
    else if TagFails(a.msg, v.key, w.proposedId) then (JDone(RolledBack("bond_tag_mismatch")), allow)
    else (JPutting(v, allow), Added(allow, w.proposedId))
  }

  function JoinStep(w: Setup, at: JoinAt, allow: seq<string>, a: Answer): (JoinAt, seq<string>) {
    if Breaks(a) && !at.JBegin? && !JEnded(at) then (JThrew(at, a), allow)
    else JoinOn(w, at, allow, a)
  }

  function JoinOn(w: Setup, at: JoinAt, allow: seq<string>, a: Answer): (JoinAt, seq<string>) {
    match at
    case JBegin => (if w.decline.None? then JAwaitPake else JPost(Reject(w.decline), JDone(Rejected(w.decline.value))), allow)
    case JAwaitPake => (JHearPake(w, a), allow)
    case JAwaitConfirm(v) => (JHearConfirm(w, v, a), allow)
    case JAwaitBond(v) => JHearBond(w, v, allow, a)
    case JPutting(v, previous) =>
      if a == PutDone(true) then (JDone(Bonded(w.proposedId, Contract(v))), allow) else (JUndoing, previous)
    case JUndoing => (JPost(BondFail, JDone(RolledBack("allowlist_push_failed"))), allow)
    case JPost(_, next) => (next, allow)
    case JDone(_) | JThrew(_, _) => (at, allow)
  }

  // ---- the initiator ----

  predicate IEnded(at: InitAt) {
    at.IDone? || at.IThrew?
  }

  predicate IWants(w: Setup, at: InitAt, m: Wire) {
    match at
    case IAwaitPake => m.Reject? || m.BondFail? || m.JoinPake?
    case IAwaitBond(_) => m.BondFail? || (m.BondOk? && m.agentId != w.initId)
    case IFirstLook(_, _) => true
    case ISecondLook(_, _) => m.BondFail?
    case _ => false
  }

  function IView(w: Setup, point: nat, joiner: string, profiles: seq<string>): View {
    View(Key(w.codeI, w.pointI, point), w.initId, joiner, w.profilesI, profiles)
  }

  function IHearPake(w: Setup, a: Answer): InitAt {
    if !a.Heard? || a.msg.BondFail? then IDone(PakeFailed)
    else if a.msg.Reject? then IDone(Rejected(Explained(a.msg.why)))
    else if !a.msg.JoinPake? || a.msg.point.None? || a.msg.proof.Absent? || a.msg.agentId == "" || a.msg.profiles.None? then
      IPost(BondFail, IDone(PakeFailed))
    else if !w.resumable then IDone(PakeFailed)
    else if a.msg.point.value.Undecodable? then IPost(BondFail, IDone(PakeFailed))
    else if a.msg.point.value.Invalid? then IThrew(IAwaitPake, a)
    else
      var v := IView(w, a.msg.point.value.n, a.msg.agentId, a.msg.profiles.value);
      if a.msg.proof != Fingerprint(v) then IPost(BondFail, IDone(PakeFailed))
      else
        IPost(Confirm(Fingerprint(v), w.initId),
              if CORE in Contract(v) then IAwaitBond(v) else IDone(RolledBack("profile_not_supported")))
  }

  function IHearBond(w: Setup, v: View, allow: seq<string>, a: Answer): (InitAt, seq<string>) {
    if !a.Heard? || !a.msg.BondOk? then (IDone(RolledBack("bond_aborted")), allow)
    else if TagFails(a.msg, v.key, v.joiner) then (IPost(BondFail, IDone(RolledBack("bond_tag_mismatch"))), allow)
    else (IPutting(v, allow), Added(allow, v.joiner))
  }

  function InitStep(w: Setup, at: InitAt, allow: seq<string>, a: Answer): (InitAt, seq<string>) {
    if Breaks(a) && !IEnded(at) then (IThrew(at, a), allow)
    else InitOn(w, at, allow, a)
  }

  function InitOn(w: Setup, at: InitAt, allow: seq<string>, a: Answer): (InitAt, seq<string>) {
    match at
    case IAwaitPake => (IHearPake(w, a), allow)
    case IAwaitBond(v) => IHearBond(w, v, allow, a)
    case IPutting(v, previous) =>
      if a == PutDone(true) then (IPost(BondOk(w.initId, Tag(v.key, w.initId)), IFirstLook(v, previous)), allow)
      else (IUndoing(IPost(BondFail, IDone(RolledBack("allowlist_push_failed")))), previous)
    case IFirstLook(v, previous) =>
      if a == Heard(BondFail) then (IUndoing(IDone(RolledBack("bond_aborted"))), previous)
      else (ISecondLook(v, previous), allow)
    case ISecondLook(v, previous) =>
      if a == Heard(BondFail) then (IUndoing(IDone(RolledBack("bond_aborted"))), previous)
      else (IDone(Bonded(v.joiner, Contract(v))), allow)
    case IUndoing(after) => (after, allow)
    case IPost(_, next) => (next, allow)
    case IDone(_) | IThrew(_, _) => (at, allow)
  }

  // ---- both of them and the slot ----

  /**
   * What has happened so far: the view the initiator's fingerprint check passed on, the view the joiner
   * posted its fingerprint of, whether the joiner accepted the confirmation, whether the initiator's
   * allowlist push went through, and how the joiner's wait for the bond and its own push ended.
   */
  datatype History = History(
    viewI: Option<View>, viewJ: Option<View>, confirmed: bool, pushed: bool, bond: Option<Answer>, put: Option<Answer>)

  /** `posted` collects the fingerprints and tags the two programs have put into the slot. */
  datatype Sys = Sys(
    i: InitAt, j: JoinAt, allowI: seq<string>, allowJ: seq<string>, slot: Option<Wire>,
    posted: set<Print>, past: History)

  datatype Move = JoinMoves(a: Answer) | InitMoves(a: Answer) | Tamper(slot: Option<Wire>)

  /** pairInit has already posted the initiator's own message. */
  function Begin(w: Setup, allowI: seq<string>, allowJ: seq<string>): Sys {
    Sys(IAwaitPake, JBegin, allowI, allowJ, Some(InitPake(Some(Point(w.pointI)), Some(w.profilesI))), {},
        History(None, None, false, false, None, None))
  }

  function PrintsOf(m: Wire): set<Print> {
    match m
    case JoinPake(_, proof, _, _) => {proof}
    case Confirm(proof, _) => {proof}
    case BondOk(_, tag) => {tag}
    case _ => {}
  }

  /** A key from an exchange with one of the two programs, which nobody else can compute. */
  predicate Guarded(w: Setup, k: Key) {
    k.first == w.pointI || k.second == w.pointJ
  }

  /** Whoever tampers can repeat what was posted, and make up prints under keys of its own. */
  predicate Derivable(w: Setup, posted: set<Print>, p: Print) {
    match p
    case Fingerprint(v) => Guarded(w, v.key) ==> p in posted
    case Tag(k, _) => Guarded(w, k) ==> p in posted
    case _ => true
  }

  predicate CanTamper(w: Setup, posted: set<Print>, slot: Option<Wire>) {
    slot.Some? ==> forall p :: p in PrintsOf(slot.value) ==> Derivable(w, posted, p)
  }

  predicate JReady(w: Setup, s: Sys, a: Answer) {
    match s.j
    case JAwaitPake | JAwaitConfirm(_) | JAwaitBond(_) =>
      a == Silence || a.Failed? || (a.Heard? && s.slot == Some(a.msg) && (a.msg.Garbled? || JWants(w, s.j, a.msg)))
    case JPutting(_, _) | JUndoing => a.PutDone? || a.Failed?
    case JBegin => a == Posted
    case JPost(_, _) => a == Posted || a.Failed?
    case JDone(_) | JThrew(_, _) => false
  }

  predicate IReady(w: Setup, s: Sys, a: Answer) {
    match s.i
    case IAwaitPake | IAwaitBond(_) | IFirstLook(_, _) | ISecondLook(_, _) =>
      a == Silence || a.Failed? || (a.Heard? && s.slot == Some(a.msg) && (a.msg.Garbled? || IWants(w, s.i, a.msg)))
    case IPutting(_, _) | IUndoing(_) => a.PutDone? || a.Failed?
    case IPost(_, _) => a == Posted || a.Failed?
    case IDone(_) | IThrew(_, _) => false
  }

  predicate Enabled(w: Setup, s: Sys, mv: Move) {
    match mv
    case JoinMoves(a) => JReady(w, s, a)
    case InitMoves(a) => IReady(w, s, a)
    case Tamper(slot) => CanTamper(w, s.posted, slot)
  }

  function JoinNext(w: Setup, s: Sys, a: Answer): Sys {
    var (j, allow) := JoinStep(w, s.j, s.allowJ, a);
    var t := s.(j := j, allowJ := allow);
    if s.j.JPost? then
      if Arrives(a) then t.(slot := Some(s.j.msg), posted := s.posted + PrintsOf(s.j.msg)) else t
    else if s.j.JAwaitBond? then t.(past := s.past.(bond := Some(a)))
    else if s.j.JPutting? then t.(past := s.past.(put := Some(a)))
    else if j.JPost? && j.msg.JoinPake? && j.msg.proof.Fingerprint? then t.(past := s.past.(viewJ := Some(j.msg.proof.view)))
    else if j.JPost? && j.msg.BondOk? then t.(past := s.past.(confirmed := true))
    else t
  }

  function InitNext(w: Setup, s: Sys, a: Answer): Sys {
    var (i, allow) := InitStep(w, s.i, s.allowI, a);
    var t := s.(i := i, allowI := allow);
    if s.i.IPost? then
      if Arrives(a) then t.(slot := Some(s.i.msg), posted := s.posted + PrintsOf(s.i.msg)) else t
    else if i.IPost? && i.msg.Confirm? && i.msg.proof.Fingerprint? then t.(past := s.past.(viewI := Some(i.msg.proof.view)))
    else if i.IPost? && i.msg.BondOk? then t.(past := s.past.(pushed := true))
    else t
  }

  function Next(w: Setup, s: Sys, mv: Move): Sys {
    match mv
    case JoinMoves(a) => JoinNext(w, s, a)
    case InitMoves(a) => InitNext(w, s, a)
    case Tamper(slot) => s.(slot := slot)
  }

  ghost predicate Legal(w: Setup, s: Sys, mvs: seq<Move>)
    decreases |mvs|
  {
    mvs != [] ==> Enabled(w, s, mvs[0]) && Legal(w, Next(w, s, mvs[0]), mvs[1..])
  }

  ghost function Play(w: Setup, s: Sys, mvs: seq<Move>): Sys
    decreases |mvs|
  {
    if mvs == [] then s else Play(w, Next(w, s, mvs[0]), mvs[1..])
  }

  /** Nobody but the two programs writes the slot. */
  ghost predicate Honest(mvs: seq<Move>) {
    forall mv :: mv in mvs ==> !mv.Tamper?
  }

  /** No call to the relay throws. */
  ghost predicate Reliable(mvs: seq<Move>) {
    forall mv :: mv in mvs ==> (mv.JoinMoves? ==> !mv.a.Failed?) && (mv.InitMoves? ==> !mv.a.Failed?)
  }
}
