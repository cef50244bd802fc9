/** What a finished pairing guarantees under a tampering relay, and more under an honest one. */
module PairingAgreement {
  import opened Options
  import opened Profiles
  import opened PairingFlow

  // ---- agreement under tampering ----

  /** Both sides settled on one view, of their real ids, codes and profile lists. */
  ghost predicate Agreed(w: Setup, h: History) {
    && h.viewI == h.viewJ
    && h.viewI == Some(View(Key(w.codeI, w.pointI, w.pointJ), w.initId, w.joinId, w.profilesI, w.profilesJ))
    && w.codeI == w.codeJ && w.proposedId == w.initId
  }

  ghost predicate TagKnown(w: Setup, h: History, k: Key, sender: string) {
    || (sender == w.joinId && h.viewJ.Some? && k == h.viewJ.value.key && h.confirmed)
    || (sender == w.initId && h.viewI.Some? && k == h.viewI.value.key && h.pushed)
  }

  /** A guarded print was made by one of the two programs, from its settled view. */
  ghost predicate PrintKnown(w: Setup, h: History, p: Print) {
    match p
    case Fingerprint(v) => Guarded(w, v.key) ==> h.viewJ == Some(v)
    case Tag(k, sender) => Guarded(w, k) ==> TagKnown(w, h, k, sender)
    case _ => true
  }

  ghost predicate WireKnown(w: Setup, h: History, m: Wire) {
    forall p :: p in PrintsOf(m) ==> PrintKnown(w, h, p)
  }

  /** A finished bond: one view, both confirmations, and the initiator's push. */
  ghost predicate Sealed(w: Setup, h: History) {
    Agreed(w, h) && h.confirmed && h.pushed && w.initId != w.joinId
  }

  ghost predicate JLinked(w: Setup, h: History, at: JoinAt)
    decreases at
  {
    match at
    case JBegin | JAwaitPake => h.viewJ.None? && !h.confirmed
    case JAwaitConfirm(v) => h.viewJ == Some(v) && !h.confirmed
    case JAwaitBond(v) => h.viewJ == Some(v) && h.confirmed
    case JPutting(v, _) => h.viewJ == Some(v) && Sealed(w, h)
    case JUndoing => h.confirmed
    case JPost(m, next) => WireKnown(w, h, m) && JLinked(w, h, next)
    case JDone(result) =>
      && (result.Bonded? ==> Sealed(w, h) && result == Bonded(w.initId, Intersect(w.profilesI, w.profilesJ)))
      && (result.RolledBack? ==> h.confirmed || (h.viewJ.Some? && CORE !in Contract(h.viewJ.value)))
    case JThrew(from, _) => JLinked(w, h, from)
  }

  ghost predicate ILinked(w: Setup, h: History, at: InitAt)
    decreases at
  {
    match at
    case IAwaitPake => h.viewI.None? && !h.pushed
    case IAwaitBond(v) => h.viewI == Some(v) && !h.pushed
    case IPutting(v, _) => h.viewI == Some(v) && Agreed(w, h) && h.confirmed && w.initId != w.joinId && !h.pushed
    case IFirstLook(v, _) => h.viewI == Some(v) && Sealed(w, h)
    case ISecondLook(v, _) => h.viewI == Some(v) && Sealed(w, h)
    case IUndoing(after) => ILinked(w, h, after) && (after.IPost? ==> after.msg == BondFail)
    case IPost(m, next) => WireKnown(w, h, m) && ILinked(w, h, next)
    case IDone(result) =>
      && (result.Bonded? ==> Sealed(w, h) && result == Bonded(w.joinId, Intersect(w.profilesI, w.profilesJ)))
      && (result.RolledBack? ==> h.viewI.Some?)
    case IThrew(from, _) => ILinked(w, h, from)
  }

  ghost predicate PastOk(w: Setup, h: History) {
    && (h.viewJ.Some? ==> var v := h.viewJ.value; v == JView(w, v.key.first, v.initProfiles))
    && (h.viewI.Some? ==> h.viewI == h.viewJ && var v := h.viewI.value; v == IView(w, v.key.second, v.joiner, v.joinProfiles))
    && (h.confirmed ==> h.viewJ.Some? && CORE in Contract(h.viewJ.value) && w.proposedId != "")
    && (h.pushed ==> Sealed(w, h))
  }

  ghost predicate Safe(w: Setup, s: Sys) {
    && CanTamper(w, s.posted, s.slot)
    && (forall p :: p in s.posted ==> PrintKnown(w, s.past, p))
    && PastOk(w, s.past)
    && JLinked(w, s.past, s.j) && ILinked(w, s.past, s.i)
  }

  // ---- what one side's step does to the other side's link ----

  ghost predicate JoinerMoved(g: History, h: History) {
    h.viewI == g.viewI && h.pushed == g.pushed && (g.viewJ.Some? ==> h.viewJ == g.viewJ) && (g.confirmed ==> h.confirmed)
  }

  ghost predicate InitiatorMoved(g: History, h: History) {
    h.viewJ == g.viewJ && h.confirmed == g.confirmed && (g.viewI.Some? ==> h.viewI == g.viewI) && (g.pushed ==> h.pushed)
  }

  lemma {:induction false} ILinkedStays(w: Setup, g: History, h: History, at: InitAt)
    requires ILinked(w, g, at) && JoinerMoved(g, h)
    ensures ILinked(w, h, at)
    decreases at
  {
    match at {
      case IPost(_, next) => ILinkedStays(w, g, h, next);
      case IUndoing(after) => ILinkedStays(w, g, h, after);
      case IThrew(from, _) => ILinkedStays(w, g, h, from);
      case _ =>
    }
  }

  lemma {:induction false} JLinkedStays(w: Setup, g: History, h: History, at: JoinAt)
    requires JLinked(w, g, at) && InitiatorMoved(g, h)
    ensures JLinked(w, h, at)
    decreases at
  {
    match at {
      case JPost(_, next) => JLinkedStays(w, g, h, next);
      case JThrew(from, _) => JLinkedStays(w, g, h, from);
      case _ =>
    }
  }

  // ---- the prints a side accepts ----

  lemma AcceptedPrint(w: Setup, s: Sys, m: Wire, p: Print)
    requires Safe(w, s) && s.slot == Some(m) && p in PrintsOf(m)
    ensures PrintKnown(w, s.past, p)
  {
  }

  /** The fingerprint the initiator accepts is the joiner's own, so the two views are one. */
  lemma InitiatorAccepts(w: Setup, s: Sys, m: Wire)
    requires Safe(w, s) && s.slot == Some(m) && m.JoinPake? && m.point.Some? && m.point.value.Point? && m.profiles.Some?
    requires m.proof == Fingerprint(IView(w, m.point.value.n, m.agentId, m.profiles.value))
    ensures s.past.viewJ == Some(IView(w, m.point.value.n, m.agentId, m.profiles.value))
  {
    AcceptedPrint(w, s, m, m.proof);
  }

  /** The tag a waiting side accepts under its own key, from another id, is the other side's. */
  lemma JoinerAcceptsTag(w: Setup, s: Sys, m: Wire, v: View)
    requires Safe(w, s) && s.j == JAwaitBond(v) && s.slot == Some(m) && JWants(w, s.j, m) && m.BondOk?
    requires !TagFails(m, v.key, w.proposedId)
    ensures Sealed(w, s.past)
  {
    AcceptedPrint(w, s, m, m.tag);
    assert Guarded(w, v.key);
  }

  lemma InitiatorAcceptsTag(w: Setup, s: Sys, m: Wire, v: View)
    requires Safe(w, s) && s.i == IAwaitBond(v) && s.slot == Some(m) && IWants(w, s.i, m) && m.BondOk?
    requires !TagFails(m, v.key, v.joiner)
    ensures Agreed(w, s.past) && s.past.confirmed && w.initId != w.joinId
  {
    AcceptedPrint(w, s, m, m.tag);
    assert Guarded(w, v.key);
  }

  // ---- every step ----

  lemma KnownPrintsStay(w: Setup, s: Sys, h: History)
    requires Safe(w, s) && (JoinerMoved(s.past, h) || InitiatorMoved(s.past, h))
    ensures forall p :: p in s.posted ==> PrintKnown(w, h, p)
  {
  }

  /** A step of the joiner that writes nothing only has to keep its own link and the history. */
  lemma JoinerKeeps(w: Setup, s: Sys, t: Sys)
    requires Safe(w, s) && t.i == s.i && t.slot == s.slot && t.posted == s.posted
    requires JoinerMoved(s.past, t.past) && PastOk(w, t.past) && JLinked(w, t.past, t.j)
    ensures Safe(w, t)
  {
    ILinkedStays(w, s.past, t.past, s.i);
    KnownPrintsStay(w, s, t.past);
  }

  lemma InitiatorKeeps(w: Setup, s: Sys, t: Sys)
    requires Safe(w, s) && t.j == s.j && t.slot == s.slot && t.posted == s.posted
    requires InitiatorMoved(s.past, t.past) && PastOk(w, t.past) && ILinked(w, t.past, t.i)
    ensures Safe(w, t)
  {
    JLinkedStays(w, s.past, t.past, s.j);
    KnownPrintsStay(w, s, t.past);
  }

  lemma JPostSafe(w: Setup, s: Sys, a: Answer)
    requires Safe(w, s) && JReady(w, s, a) && s.j.JPost?
    ensures Safe(w, JoinNext(w, s, a))
  {
    var t := JoinNext(w, s, a);
    assert JLinked(w, t.past, s.j.next) && JLinked(w, t.past, t.j);
  }

  lemma JThrowSafe(w: Setup, s: Sys, a: Answer)
    requires Safe(w, s) && JReady(w, s, a) && !s.j.JPost? && Breaks(a)
    ensures Safe(w, JoinNext(w, s, a))
  {
    var t := JoinNext(w, s, a);
    assert t.j == JThrew(s.j, a);
    JLinkedStays(w, s.past, t.past, s.j);
    JoinerKeeps(w, s, t);
  }

  lemma JHearPakeSafe(w: Setup, s: Sys, a: Answer)
    requires Safe(w, s) && JReady(w, s, a) && s.j.JAwaitPake? && !Breaks(a)
    ensures Safe(w, JoinNext(w, s, a))
  {
    JoinerKeeps(w, s, JoinNext(w, s, a));
  }

  lemma JHearConfirmSafe(w: Setup, s: Sys, a: Answer)
    requires Safe(w, s) && JReady(w, s, a) && s.j.JAwaitConfirm? && !Breaks(a)
    ensures Safe(w, JoinNext(w, s, a))
  {
    JoinerKeeps(w, s, JoinNext(w, s, a));
  }

  lemma JHearBondSafe(w: Setup, s: Sys, a: Answer)
    requires Safe(w, s) && JReady(w, s, a) && s.j.JAwaitBond? && !Breaks(a)
    ensures Safe(w, JoinNext(w, s, a))
  {
    if a.Heard? && a.msg.BondOk? && !TagFails(a.msg, s.j.view.key, w.proposedId) {
      JoinerAcceptsTag(w, s, a.msg, s.j.view);
    }
    JoinerKeeps(w, s, JoinNext(w, s, a));
  }

  lemma JPushSafe(w: Setup, s: Sys, a: Answer)
    requires Safe(w, s) && JReady(w, s, a) && (s.j.JPutting? || s.j.JUndoing? || s.j.JBegin?) && !Breaks(a)
    ensures Safe(w, JoinNext(w, s, a))
  {
    JoinerKeeps(w, s, JoinNext(w, s, a));
  }

  lemma JoinSafe(w: Setup, s: Sys, a: Answer)
    requires Safe(w, s) && JReady(w, s, a)
    ensures Safe(w, JoinNext(w, s, a))
  {
    if s.j.JPost? {
      JPostSafe(w, s, a);
    } else if Breaks(a) {
      JThrowSafe(w, s, a);
    } else {
      match s.j {
        case JAwaitPake => JHearPakeSafe(w, s, a);
        case JAwaitConfirm(_) => JHearConfirmSafe(w, s, a);
        case JAwaitBond(_) => JHearBondSafe(w, s, a);
        case _ => JPushSafe(w, s, a);
      }
    }
  }

  lemma IPostSafe(w: Setup, s: Sys, a: Answer)
    requires Safe(w, s) && IReady(w, s, a) && s.i.IPost?
    ensures Safe(w, InitNext(w, s, a))
  {
    var t := InitNext(w, s, a);
    assert ILinked(w, t.past, s.i.next) && ILinked(w, t.past, t.i);
  }

  lemma IThrowSafe(w: Setup, s: Sys, a: Answer)
    requires Safe(w, s) && IReady(w, s, a) && !s.i.IPost? && Breaks(a)
    ensures Safe(w, InitNext(w, s, a))
  {
    var t := InitNext(w, s, a);
    assert t.i == IThrew(s.i, a);
    InitiatorKeeps(w, s, t);
  }

  lemma IHearPakeSafe(w: Setup, s: Sys, a: Answer)
    requires Safe(w, s) && IReady(w, s, a) && s.i.IAwaitPake? && !Breaks(a)
    ensures Safe(w, InitNext(w, s, a))
  {
    var t := InitNext(w, s, a);
    if t.i.IPost? && t.i.msg.Confirm? {
      InitiatorAccepts(w, s, a.msg);
    }
    InitiatorKeeps(w, s, t);
  }

  lemma IHearBondSafe(w: Setup, s: Sys, a: Answer)
    requires Safe(w, s) && IReady(w, s, a) && s.i.IAwaitBond? && !Breaks(a)
    ensures Safe(w, InitNext(w, s, a))
  {
    if a.Heard? && a.msg.BondOk? && !TagFails(a.msg, s.i.view.key, s.i.view.joiner) {
      InitiatorAcceptsTag(w, s, a.msg, s.i.view);
    }
    InitiatorKeeps(w, s, InitNext(w, s, a));
  }

  lemma IPuttingSafe(w: Setup, s: Sys, a: Answer)
    requires Safe(w, s) && IReady(w, s, a) && s.i.IPutting? && !Breaks(a)
    ensures Safe(w, InitNext(w, s, a))
  {
    InitiatorKeeps(w, s, InitNext(w, s, a));
  }

  lemma ILookSafe(w: Setup, s: Sys, a: Answer)
    requires Safe(w, s) && IReady(w, s, a) && (s.i.IFirstLook? || s.i.ISecondLook?) && !Breaks(a)
    ensures Safe(w, InitNext(w, s, a))
  {
    InitiatorKeeps(w, s, InitNext(w, s, a));
  }

  lemma IUndoSafe(w: Setup, s: Sys, a: Answer)
    requires Safe(w, s) && IReady(w, s, a) && s.i.IUndoing? && !Breaks(a)
    ensures Safe(w, InitNext(w, s, a))
  {
    assert ILinked(w, s.past, s.i.after);
    InitiatorKeeps(w, s, InitNext(w, s, a));
  }

  lemma InitSafe(w: Setup, s: Sys, a: Answer)
    requires Safe(w, s) && IReady(w, s, a)
    ensures Safe(w, InitNext(w, s, a))
  {
    if s.i.IPost? {
      IPostSafe(w, s, a);
    } else if Breaks(a) {
      IThrowSafe(w, s, a);
    } else {
      match s.i {
        case IAwaitPake => IHearPakeSafe(w, s, a);
        case IAwaitBond(_) => IHearBondSafe(w, s, a);
        case IPutting(_, _) => IPuttingSafe(w, s, a);
        case IFirstLook(_, _) | ISecondLook(_, _) => ILookSafe(w, s, a);
        case IUndoing(_) => IUndoSafe(w, s, a);
      }
    }
  }

  lemma {:induction false} SafeRuns(w: Setup, s: Sys, mvs: seq<Move>)
    requires Safe(w, s) && Legal(w, s, mvs)
    ensures Safe(w, Play(w, s, mvs))
    decreases |mvs|
  {
    if mvs != [] {
      match mvs[0] {
        case JoinMoves(a) => JoinSafe(w, s, a);
        case InitMoves(a) => InitSafe(w, s, a);
        case Tamper(_) =>
      }
      SafeRuns(w, Next(w, s, mvs[0]), mvs[1..]);
    }
  }

  lemma BeginSafe(w: Setup, allowI: seq<string>, allowJ: seq<string>)
    ensures Safe(w, Begin(w, allowI, allowJ))
  {
  }

  /**
   * Whatever the relay does: a joiner that bonded did so with an initiator that passed its fingerprint
   * check under the same key, on the same two ids and the same two profile lists, and pushed its allowlist.
   */
  lemma JoinerBondAgrees(w: Setup, allowI: seq<string>, allowJ: seq<string>, mvs: seq<Move>)
    requires Legal(w, Begin(w, allowI, allowJ), mvs)
    ensures var s := Play(w, Begin(w, allowI, allowJ), mvs);
            s.j.JDone? && s.j.result.Bonded? ==>
              && Agreed(w, s.past) && s.past.pushed && w.initId != w.joinId
              && s.j.result == Bonded(w.initId, Intersect(w.profilesI, w.profilesJ))
              && CORE in s.j.result.contract
  {
    BeginSafe(w, allowI, allowJ);
    SafeRuns(w, Begin(w, allowI, allowJ), mvs);
  }

  /** And the converse: a bonded initiator had a joiner that confirmed that same view. */
  lemma InitiatorBondAgrees(w: Setup, allowI: seq<string>, allowJ: seq<string>, mvs: seq<Move>)
    requires Legal(w, Begin(w, allowI, allowJ), mvs)
    ensures var s := Play(w, Begin(w, allowI, allowJ), mvs);
            s.i.IDone? && s.i.result.Bonded? ==>
              && Agreed(w, s.past) && s.past.confirmed && w.initId != w.joinId
              && s.i.result == Bonded(w.joinId, Intersect(w.profilesI, w.profilesJ))
              && CORE in s.i.result.contract
  {
    BeginSafe(w, allowI, allowJ);
    SafeRuns(w, Begin(w, allowI, allowJ), mvs);
  }

  /**
   * A side rolls back only after its own verification passed: a joiner that neither confirmed the
   * initiator nor found the agreed profiles without core, and an initiator whose fingerprint check never
   * passed, fail otherwise.
   */
  lemma RolledBackOnlyAfterVerification(w: Setup, allowI: seq<string>, allowJ: seq<string>, mvs: seq<Move>)
    requires Legal(w, Begin(w, allowI, allowJ), mvs)
    ensures var s := Play(w, Begin(w, allowI, allowJ), mvs);
            && (s.j.JDone? && s.j.result.RolledBack? ==>
                  s.past.confirmed || (s.past.viewJ.Some? && CORE !in Contract(s.past.viewJ.value)))
            && (s.i.IDone? && s.i.result.RolledBack? ==> s.past.viewI.Some? && s.past.viewI == s.past.viewJ)
  {
    BeginSafe(w, allowI, allowJ);
    SafeRuns(w, Begin(w, allowI, allowJ), mvs);
  }

  // ---- all or nothing on the allowlists ----

  /** The peer that a control point leaves in the local allowlist. */
  function JStanding(w: Setup, at: JoinAt): Option<string>
    decreases at
  {
    match at
    case JPutting(_, _) => Some(w.proposedId)
    case JPost(_, next) => JStanding(w, next)
    case JDone(result) => if result.Bonded? then Some(result.peer) else None
    case JThrew(from, _) => JStanding(w, from)
    case _ => None
  }

  function IStanding(at: InitAt): Option<string>
    decreases at
  {
    match at
    case IPutting(v, _) => Some(v.joiner)
    case IFirstLook(v, _) => Some(v.joiner)
    case ISecondLook(v, _) => Some(v.joiner)
    case IPost(_, next) => IStanding(next)
    case IDone(result) => if result.Bonded? then Some(result.peer) else None
    case IThrew(from, _) => IStanding(from)
    case _ => None
  }

  function Grown(start: seq<string>, peer: Option<string>): seq<string> {
    if peer.Some? then Added(start, peer.value) else start
  }

  ghost predicate JAllow(w: Setup, at: JoinAt, allow: seq<string>, start: seq<string>) {
    && allow == Grown(start, JStanding(w, at))
    && (at.JPutting? ==> at.previous == start)
    && (at.JPost? ==> at.next.JAwaitConfirm? || at.next.JAwaitBond? || at.next.JDone?)
  }

  ghost predicate IRemembers(at: InitAt, start: seq<string>)
    decreases at
  {
    match at
    case IPutting(_, previous) => previous == start
    case IFirstLook(_, previous) => previous == start
    case ISecondLook(_, previous) => previous == start
    case IPost(_, next) => IRemembers(next, start)
    case IUndoing(after) => IRemembers(after, start) && IStanding(after).None?
    case _ => true
  }

  ghost predicate IAllow(at: InitAt, allow: seq<string>, start: seq<string>) {
    allow == Grown(start, IStanding(at)) && IRemembers(at, start)
  }

  lemma JAllowHearing(w: Setup, at: JoinAt, allow: seq<string>, start: seq<string>, a: Answer)
    requires JAllow(w, at, allow, start) && (at.JAwaitPake? || at.JAwaitConfirm? || at.JAwaitBond?)
    ensures var (next, now) := JoinOn(w, at, allow, a); JAllow(w, next, now, start)
  {
  }

  lemma JAllowStep(w: Setup, at: JoinAt, allow: seq<string>, start: seq<string>, a: Answer)
    requires JAllow(w, at, allow, start)
    ensures var (next, now) := JoinStep(w, at, allow, a); JAllow(w, next, now, start)
  {
    hide Added;
    match at {
      case JAwaitPake | JAwaitConfirm(_) | JAwaitBond(_) => JAllowHearing(w, at, allow, start, a);
      case JBegin =>
        if w.decline.Some? {
          assert JStanding(w, JDone(Rejected(w.decline.value))).None?;
        }
      case _ =>
    }
  }

  lemma IAllowHearing(w: Setup, at: InitAt, allow: seq<string>, start: seq<string>, a: Answer)
    requires IAllow(at, allow, start) && (at.IAwaitPake? || at.IAwaitBond?)
    ensures var (next, now) := InitOn(w, at, allow, a); IAllow(next, now, start)
  {
  }

  lemma IAllowPushed(w: Setup, at: InitAt, allow: seq<string>, start: seq<string>, a: Answer)
    requires IAllow(at, allow, start) && (at.IPutting? || at.IFirstLook? || at.ISecondLook?)
    ensures var (next, now) := InitOn(w, at, allow, a); IAllow(next, now, start)
  {
  }

  lemma IAllowStep(w: Setup, at: InitAt, allow: seq<string>, start: seq<string>, a: Answer)
    requires IAllow(at, allow, start)
    ensures var (next, now) := InitStep(w, at, allow, a); IAllow(next, now, start)
  {
    hide Added;
    match at {
      case IAwaitPake | IAwaitBond(_) => IAllowHearing(w, at, allow, start, a);
      case IPutting(_, _) | IFirstLook(_, _) | ISecondLook(_, _) => IAllowPushed(w, at, allow, start, a);
      case _ =>
    }
  }

  lemma SidesOfJoin(w: Setup, s: Sys, a: Answer)
    ensures var t := JoinNext(w, s, a); (t.j, t.allowJ) == JoinStep(w, s.j, s.allowJ, a) && t.i == s.i && t.allowI == s.allowI
  {
  }

  lemma SidesOfInit(w: Setup, s: Sys, a: Answer)
    ensures var t := InitNext(w, s, a); (t.i, t.allowI) == InitStep(w, s.i, s.allowI, a) && t.j == s.j && t.allowJ == s.allowJ
  {
  }

  lemma AllowStep(w: Setup, s: Sys, mv: Move, startI: seq<string>, startJ: seq<string>)
    requires JAllow(w, s.j, s.allowJ, startJ) && IAllow(s.i, s.allowI, startI)
    ensures var t := Next(w, s, mv); JAllow(w, t.j, t.allowJ, startJ) && IAllow(t.i, t.allowI, startI)
  {
    match mv {
      case JoinMoves(a) =>
        JAllowStep(w, s.j, s.allowJ, startJ, a);
        SidesOfJoin(w, s, a);
      case InitMoves(a) =>
        IAllowStep(w, s.i, s.allowI, startI, a);
        SidesOfInit(w, s, a);
      case Tamper(_) =>
    }
  }

  lemma {:induction false} AllowRuns(w: Setup, s: Sys, mvs: seq<Move>, startI: seq<string>, startJ: seq<string>)
    requires JAllow(w, s.j, s.allowJ, startJ) && IAllow(s.i, s.allowI, startI) && Legal(w, s, mvs)
    ensures var t := Play(w, s, mvs); JAllow(w, t.j, t.allowJ, startJ) && IAllow(t.i, t.allowI, startI)
    decreases |mvs|
  {
    if mvs != [] {
      AllowStep(w, s, mvs[0], startI, startJ);
      AllowRuns(w, Next(w, s, mvs[0]), mvs[1..], startI, startJ);
    }
  }

  /**
   * An end with a result adds the peer exactly when it bonded, and otherwise has the old allowlist back. An
   * end by exception keeps the peer, without a bond, exactly when it came after the push and before an undo.
   */
  lemma AllOrNothing(w: Setup, allowI: seq<string>, allowJ: seq<string>, mvs: seq<Move>)
    requires Legal(w, Begin(w, allowI, allowJ), mvs)
    ensures var s := Play(w, Begin(w, allowI, allowJ), mvs);
            && (s.j.JDone? ==> s.allowJ == if s.j.result.Bonded? then Added(allowJ, s.j.result.peer) else allowJ)
            && (s.i.IDone? ==> s.allowI == if s.i.result.Bonded? then Added(allowI, s.i.result.peer) else allowI)
            && (s.j.JThrew? ==> s.allowJ == Grown(allowJ, JStanding(w, s.j.from)))
            && (s.i.IThrew? ==> s.allowI == Grown(allowI, IStanding(s.i.from)))
  {
    AllowRuns(w, Begin(w, allowI, allowJ), mvs, allowI, allowJ);
  }

  predicate IGoesOn(at: InitAt)
    decreases at
  {
    match at
    case IPost(_, next) => IGoesOn(next)
    case IUndoing(after) => IGoesOn(after)
    case IThrew(_, _) => false
    case _ => true
  }

  predicate JGoesOn(at: JoinAt)
    decreases at
  {
    match at
    case JPost(_, next) => JGoesOn(next)
    case JThrew(_, _) => false
    case _ => true
  }

  /** What can throw when every call to the relay returns: a text that does not parse, or an invalid point. */
  ghost predicate JExcused(at: JoinAt) {
    if at.JThrew? then (at.from.JAwaitPake? || at.from.JAwaitConfirm? || at.from.JAwaitBond?) && at.cause.Heard?
    else JGoesOn(at)
  }

  ghost predicate IExcused(at: InitAt) {
    if at.IThrew? then
      && (at.from.IAwaitPake? || at.from.IAwaitBond? || at.from.IFirstLook? || at.from.ISecondLook?)
      && at.cause.Heard? && (!at.from.IAwaitPake? ==> at.cause.msg.Garbled?)
    else IGoesOn(at)
  }

  lemma JExcusedStep(w: Setup, s: Sys, a: Answer)
    requires JExcused(s.j) && JReady(w, s, a) && !a.Failed?
    ensures JExcused(JoinStep(w, s.j, s.allowJ, a).0)
  {
    if s.j.JPost? {
      assert JGoesOn(s.j.next);
    }
  }

  lemma IExcusedStep(w: Setup, s: Sys, a: Answer)
    requires IExcused(s.i) && IReady(w, s, a) && !a.Failed?
    ensures IExcused(InitStep(w, s.i, s.allowI, a).0)
  {
    match s.i {
      case IPost(_, next) => assert IGoesOn(next);
      case IUndoing(after) => assert IGoesOn(after);
      case _ =>
    }
  }

  lemma {:induction false} ExcusedRuns(w: Setup, s: Sys, mvs: seq<Move>)
    requires JExcused(s.j) && IExcused(s.i) && Legal(w, s, mvs) && Reliable(mvs)
    ensures var t := Play(w, s, mvs); JExcused(t.j) && IExcused(t.i)
    decreases |mvs|
  {
    if mvs != [] {
      assert mvs[0] in mvs;
      match mvs[0] {
        case JoinMoves(a) => JExcusedStep(w, s, a); SidesOfJoin(w, s, a);
        case InitMoves(a) => IExcusedStep(w, s, a); SidesOfInit(w, s, a);
        case Tamper(_) =>
      }
      ExcusedRuns(w, Next(w, s, mvs[0]), mvs[1..]);
    }
  }

  /** The initiator read a text that does not parse in one of its two looks after the push. */
  predicate GarbledLook(at: InitAt) {
    at.IThrew? && (at.from.IFirstLook? || at.from.ISecondLook?) && at.cause == Heard(Garbled)
  }

  /**
   * When every call to the relay returns, an end of either flow, by result or by exception, is all or
   * nothing, except exactly when the initiator read a text that does not parse after its push.
   */
  lemma AllOrNothingUnlessGarbled(w: Setup, allowI: seq<string>, allowJ: seq<string>, mvs: seq<Move>)
    requires Legal(w, Begin(w, allowI, allowJ), mvs) && Reliable(mvs)
    ensures var s := Play(w, Begin(w, allowI, allowJ), mvs);
            && (JEnded(s.j) ==>
                  s.allowJ == Grown(allowJ, if s.j.JDone? && s.j.result.Bonded? then Some(s.j.result.peer) else None))
            && (IEnded(s.i) ==>
                  if GarbledLook(s.i) then s.allowI == Added(allowI, s.i.from.view.joiner)
                  else s.allowI == Grown(allowI, if s.i.IDone? && s.i.result.Bonded? then Some(s.i.result.peer) else None))
  {
    AllOrNothing(w, allowI, allowJ, mvs);
    ExcusedRuns(w, Begin(w, allowI, allowJ), mvs);
  }

  // ---- an honest slot ----

  /** The joiner will not bond any more. */
  predicate JFails(at: JoinAt)
    decreases at
  {
    match at
    case JUndoing => true
    case JPost(_, next) => JFails(next)
    case JDone(result) => !result.Bonded?
    case JThrew(from, _) => JFails(from)
    case _ => false
  }

  predicate IFails(at: InitAt)
    decreases at
  {
    match at
    case IUndoing(_) => true
    case IPost(_, next) => IFails(next)
    case IDone(result) => !result.Bonded?
    case IThrew(from, _) => IFails(from)
    case _ => false
  }

  /** Which posts can be under way. */
  ghost predicate IShape(w: Setup, h: History, at: InitAt)
    decreases at
  {
    match at
    case IAwaitPake | IAwaitBond(_) | IPutting(_, _) => !h.pushed
    case IUndoing(after) => IFails(after) && (after.IDone? || (after.IPost? && after.msg == BondFail && after.next.IDone?))
    case IPost(m, next) =>
      if m == BondFail then next.IDone? && IFails(next)
      else if m.Confirm? then !h.pushed && (next.IAwaitBond? || next.IDone?)
      else next.IFirstLook? && h.viewI.Some? && m == BondOk(w.initId, Tag(h.viewI.value.key, w.initId))
    case IThrew(from, cause) => !IEnded(from) && cause.Failed? && IShape(w, h, from)
    case _ => true
  }

  ghost predicate JShape(w: Setup, at: JoinAt)
    decreases at
  {
    match at
    case JPost(m, next) =>
      if m == BondFail then next.JDone? && JFails(next)
      else
        && !next.JPost? && !next.JThrew? && (next.JDone? ==> !next.result.Bonded?)
        && (m.BondOk? ==> m.agentId == w.joinId) && (m.JoinPake? ==> m.point == Some(Point(w.pointJ)))
        && !m.Garbled? && !m.InitPake?
    case JThrew(from, cause) => !JEnded(from) && cause.Failed? && JShape(w, from)
    case _ => true
  }

  /** What the two programs write: texts that parse, valid points, and a bond tag of the initiator's own view. */
  ghost predicate Plain(w: Setup, h: History, m: Wire) {
    && !m.Garbled?
    && (m.InitPake? ==> m.point == Some(Point(w.pointI)))
    && (m.JoinPake? ==> m.point == Some(Point(w.pointJ)))
    && (m.BondOk? && m.agentId != w.joinId ==> h.viewI.Some? && m == BondOk(w.initId, Tag(h.viewI.value.key, w.initId)))
  }

  /** A failure notice comes from a side that fails, and an initiator that pushed fails only after the joiner. */
  ghost predicate Orderly(w: Setup, s: Sys) {
    && IShape(w, s.past, s.i) && JShape(w, s.j)
    && (s.slot.Some? ==> Plain(w, s.past, s.slot.value))
    && (s.slot == Some(BondFail) ==> JFails(s.j) || IFails(s.i))
    && (s.past.pushed && IFails(s.i) ==> JFails(s.j))
  }

  lemma {:induction false} IShapeStays(w: Setup, g: History, h: History, at: InitAt)
    requires IShape(w, g, at) && h.viewI == g.viewI && h.pushed == g.pushed
    ensures IShape(w, h, at)
    decreases at
  {
    if at.IThrew? {
      IShapeStays(w, g, h, at.from);
    }
  }

  lemma OrderlyJoinerHearing(w: Setup, s: Sys, a: Answer)
    requires Orderly(w, s) && JReady(w, s, a) && (s.j.JAwaitPake? || s.j.JAwaitConfirm? || s.j.JAwaitBond?)
    ensures Orderly(w, JoinNext(w, s, a))
  {
    IShapeStays(w, s.past, JoinNext(w, s, a).past, s.i);
  }

  lemma OrderlyJoinerPosting(w: Setup, s: Sys, a: Answer)
    requires Orderly(w, s) && JReady(w, s, a) && s.j.JPost?
    ensures Orderly(w, JoinNext(w, s, a))
  {
  }

  lemma OrderlyJoinerPushing(w: Setup, s: Sys, a: Answer)
    requires Orderly(w, s) && JReady(w, s, a) && (s.j.JBegin? || s.j.JPutting? || s.j.JUndoing?)
    ensures Orderly(w, JoinNext(w, s, a))
  {
    IShapeStays(w, s.past, JoinNext(w, s, a).past, s.i);
  }

  lemma OrderlyJoin(w: Setup, s: Sys, a: Answer)
    requires Orderly(w, s) && JReady(w, s, a)
    ensures Orderly(w, JoinNext(w, s, a))
  {
    match s.j {
      case JAwaitPake | JAwaitConfirm(_) | JAwaitBond(_) => OrderlyJoinerHearing(w, s, a);
      case JPost(_, _) => OrderlyJoinerPosting(w, s, a);
      case _ => OrderlyJoinerPushing(w, s, a);
    }
  }

  lemma OrderlyHearing(w: Setup, s: Sys, a: Answer)
    requires Safe(w, s) && Orderly(w, s) && IReady(w, s, a) && (s.i.IAwaitPake? || s.i.IAwaitBond?)
    ensures Orderly(w, InitNext(w, s, a))
  {
  }

  lemma OrderlyPutting(w: Setup, s: Sys, a: Answer)
    requires Safe(w, s) && Orderly(w, s) && IReady(w, s, a) && s.i.IPutting?
    ensures Orderly(w, InitNext(w, s, a))
  {
    assert !IFails(IFirstLook(s.i.view, s.i.previous));
  }

  lemma OrderlyPostFails(w: Setup, s: Sys, a: Answer)
    requires Orderly(w, s) && IReady(w, s, a) && s.i.IPost? && a.Failed?
    ensures Orderly(w, InitNext(w, s, a))
  {
    assert InitNext(w, s, a).i == IThrew(s.i, a);
  }

  lemma OrderlyPosting(w: Setup, s: Sys, a: Answer)
    requires Orderly(w, s) && IReady(w, s, a) && s.i.IPost?
    ensures Orderly(w, InitNext(w, s, a))
  {
    if a.Failed? {
      OrderlyPostFails(w, s, a);
    } else {
      assert InitNext(w, s, a).i == s.i.next;
    }
  }

  lemma OrderlyLooking(w: Setup, s: Sys, a: Answer)
    requires Safe(w, s) && Orderly(w, s) && IReady(w, s, a) && (s.i.IFirstLook? || s.i.ISecondLook?)
    ensures Orderly(w, InitNext(w, s, a))
  {
  }

  lemma OrderlyUndoing(w: Setup, s: Sys, a: Answer)
    requires Safe(w, s) && Orderly(w, s) && IReady(w, s, a) && s.i.IUndoing?
    ensures Orderly(w, InitNext(w, s, a))
  {
  }

  lemma OrderlyInit(w: Setup, s: Sys, a: Answer)
    requires Safe(w, s) && Orderly(w, s) && IReady(w, s, a)
    ensures Orderly(w, InitNext(w, s, a))
  {
    match s.i {
      case IAwaitPake | IAwaitBond(_) => OrderlyHearing(w, s, a);
      case IPutting(_, _) => OrderlyPutting(w, s, a);
      case IPost(_, _) => OrderlyPosting(w, s, a);
      case IFirstLook(_, _) | ISecondLook(_, _) => OrderlyLooking(w, s, a);
      case IUndoing(_) => OrderlyUndoing(w, s, a);
    }
  }

  lemma {:induction false} OrderlyRuns(w: Setup, s: Sys, mvs: seq<Move>)
    requires Safe(w, s) && Orderly(w, s) && Legal(w, s, mvs) && Honest(mvs)
    ensures Orderly(w, Play(w, s, mvs))
    decreases |mvs|
  {
    if mvs != [] {
      assert !mvs[0].Tamper?;
      match mvs[0] {
        case JoinMoves(a) => OrderlyJoin(w, s, a); JoinSafe(w, s, a);
        case InitMoves(a) => OrderlyInit(w, s, a); InitSafe(w, s, a);
      }
      OrderlyRuns(w, Next(w, s, mvs[0]), mvs[1..]);
    }
  }

  lemma OrderlyPlay(w: Setup, allowI: seq<string>, allowJ: seq<string>, mvs: seq<Move>)
    requires Legal(w, Begin(w, allowI, allowJ), mvs) && Honest(mvs)
    ensures var s := Play(w, Begin(w, allowI, allowJ), mvs); Safe(w, s) && Orderly(w, s)
  {
    BeginSafe(w, allowI, allowJ);
    SafeRuns(w, Begin(w, allowI, allowJ), mvs);
    OrderlyRuns(w, Begin(w, allowI, allowJ), mvs);
  }

  /**
   * On an honest slot a joiner bonds only after the initiator's own push went through, and that
   * initiator never rolls back: it has bonded, has only its last post and looks left, or was thrown out
   * of these by a failing call, with the peer in its allowlist.
   */
  lemma HonestJoinerBondStands(w: Setup, allowI: seq<string>, allowJ: seq<string>, mvs: seq<Move>)
    requires Legal(w, Begin(w, allowI, allowJ), mvs) && Honest(mvs)
    ensures var s := Play(w, Begin(w, allowI, allowJ), mvs);
            s.j.JDone? && s.j.result.Bonded? ==>
              && s.past.pushed && !IFails(s.i)
              && (s.i.IDone? ==> s.i.result == Bonded(w.joinId, s.j.result.contract))
              && IStanding(s.i) == Some(w.joinId)
  {
    OrderlyPlay(w, allowI, allowJ, mvs);
    var s := Play(w, Begin(w, allowI, allowJ), mvs);
    if s.j.JDone? && s.j.result.Bonded? {
      assert JLinked(w, s.past, s.j) && !JFails(s.j);
      StandsAfterPush(w, s.past, s.i);
    }
  }

  lemma {:induction false} StandsAfterPush(w: Setup, h: History, at: InitAt)
    requires PastOk(w, h) && ILinked(w, h, at) && IShape(w, h, at) && h.pushed && !IFails(at)
    ensures IStanding(at) == Some(w.joinId)
    decreases at
  {
    match at {
      case IThrew(from, _) => StandsAfterPush(w, h, from);
      case IPost(m, next) => assert next.IFirstLook? && ILinked(w, h, next);
      case _ =>
    }
  }

  /** Without tampering and failing calls neither program ever leaves by exception. */
  lemma HonestReliableNeverThrows(w: Setup, allowI: seq<string>, allowJ: seq<string>, mvs: seq<Move>)
    requires Legal(w, Begin(w, allowI, allowJ), mvs) && Honest(mvs) && Reliable(mvs)
    ensures var s := Play(w, Begin(w, allowI, allowJ), mvs); !s.j.JThrew? && !s.i.IThrew?
  {
    OrderlyPlay(w, allowI, allowJ, mvs);
    ExcusedRuns(w, Begin(w, allowI, allowJ), mvs);
  }

  // ---- when the joiner follows a bonded initiator ----

  predicate HeardOk(bond: Option<Answer>) {
    bond.Some? && bond.value.Heard? && bond.value.msg.BondOk?
  }

  ghost predicate Unheard(h: History) {
    h.bond.None? && h.put.None?
  }

  /** How the joiner's two last awaits ended, told from where it stands. */
  ghost predicate JFate(h: History, at: JoinAt)
    decreases at
  {
    match at
    case JBegin | JAwaitPake | JAwaitConfirm(_) => Unheard(h) && !h.confirmed
    case JAwaitBond(_) => Unheard(h)
    case JPutting(_, _) => HeardOk(h.bond) && h.put.None?
    case JUndoing => HeardOk(h.bond) && h.put == Some(PutDone(false))
    case JPost(_, next) => JFate(h, next)
    case JDone(result) => EndFate(h, result)
    case JThrew(from, cause) =>
      && Breaks(cause)
      && if from.JAwaitBond? then h.bond == Some(cause) && h.put.None?
         else if from.JPutting? then HeardOk(h.bond) && h.put == Some(cause)
         else JFate(h, from)
  }

  ghost predicate EndFate(h: History, result: Result) {
    match result
    case Bonded(_, _) => HeardOk(h.bond) && h.put == Some(PutDone(true))
    case RolledBack(reason) =>
      || (reason == "bond_aborted" && h.put.None? && (h.bond == Some(Silence) || h.bond == Some(Heard(BondFail))))
      || (reason == "allowlist_push_failed" && HeardOk(h.bond) && h.put == Some(PutDone(false)))
      || (reason == "profile_not_supported" && Unheard(h) && !h.confirmed)
    case _ => Unheard(h) && !h.confirmed
  }

  ghost predicate Fated(s: Sys) {
    JFate(s.past, s.j) && (s.past.bond == Some(Heard(BondFail)) ==> IFails(s.i))
  }

  lemma {:induction false} JFateStays(g: History, h: History, at: JoinAt)
    requires JFate(g, at) && h.bond == g.bond && h.put == g.put && h.confirmed == g.confirmed
    ensures JFate(h, at)
    decreases at
  {
    match at {
      case JPost(_, next) => JFateStays(g, h, next);
      case JThrew(from, _) => if !from.JAwaitBond? && !from.JPutting? { JFateStays(g, h, from); }
      case _ =>
    }
  }

  /** On an honest slot the bond tag a waiting joiner hears is the right one. */
  lemma HonestTagHolds(w: Setup, s: Sys, m: Wire, v: View)
    requires Safe(w, s) && Orderly(w, s) && s.j == JAwaitBond(v) && s.slot == Some(m) && JWants(w, s.j, m) && m.BondOk?
    ensures !TagFails(m, v.key, w.proposedId)
  {
    AcceptedPrint(w, s, m, m.tag);
    assert Guarded(w, v.key);
  }

  lemma FatedHearing(w: Setup, s: Sys, a: Answer)
    requires Safe(w, s) && Orderly(w, s) && Fated(s) && JReady(w, s, a) && s.j.JAwaitBond?
    ensures Fated(JoinNext(w, s, a))
  {
    if a.Heard? && a.msg.BondOk? {
      HonestTagHolds(w, s, a.msg, s.j.view);
    }
  }

  lemma FatedGoingOn(w: Setup, s: Sys, a: Answer)
    requires Orderly(w, s) && Fated(s) && JReady(w, s, a) && (s.j.JBegin? || s.j.JAwaitPake? || s.j.JPost?)
    ensures Fated(JoinNext(w, s, a))
  {
    var t := JoinNext(w, s, a);
    if s.j.JPost? {
      assert JFate(s.past, s.j.next);
    }
    assert JFate(t.past, t.j);
  }

  lemma FatedConfirming(w: Setup, s: Sys, a: Answer)
    requires Fated(s) && JReady(w, s, a) && s.j.JAwaitConfirm?
    ensures Fated(JoinNext(w, s, a))
  {
  }

  lemma FatedPushing(w: Setup, s: Sys, a: Answer)
    requires Fated(s) && JReady(w, s, a) && (s.j.JPutting? || s.j.JUndoing?)
    ensures Fated(JoinNext(w, s, a))
  {
  }

  lemma FatedJoin(w: Setup, s: Sys, a: Answer)
    requires Safe(w, s) && Orderly(w, s) && Fated(s) && JReady(w, s, a)
    ensures Fated(JoinNext(w, s, a))
  {
    match s.j {
      case JBegin | JAwaitPake | JPost(_, _) => FatedGoingOn(w, s, a);
      case JAwaitConfirm(_) => FatedConfirming(w, s, a);
      case JAwaitBond(_) => FatedHearing(w, s, a);
      case _ => FatedPushing(w, s, a);
    }
  }

  lemma IFailsStays(w: Setup, at: InitAt, allow: seq<string>, a: Answer)
    requires IFails(at) && (at.IUndoing? ==> IFails(at.after))
    ensures IFails(InitStep(w, at, allow, a).0)
  {
  }

  lemma FatedInit(w: Setup, s: Sys, a: Answer)
    requires Orderly(w, s) && Fated(s) && IReady(w, s, a)
    ensures Fated(InitNext(w, s, a))
  {
    var t := InitNext(w, s, a);
    SidesOfInit(w, s, a);
    JFateStays(s.past, t.past, s.j);
    if IFails(s.i) {
      IFailsStays(w, s.i, s.allowI, a);
    }
  }

  lemma {:induction false} FatedRuns(w: Setup, s: Sys, mvs: seq<Move>)
    requires Safe(w, s) && Orderly(w, s) && Fated(s) && Legal(w, s, mvs) && Honest(mvs)
    ensures Fated(Play(w, s, mvs))
    decreases |mvs|
  {
    if mvs != [] {
      assert !mvs[0].Tamper?;
      match mvs[0] {
        case JoinMoves(a) => FatedJoin(w, s, a); OrderlyJoin(w, s, a); JoinSafe(w, s, a);
        case InitMoves(a) => FatedInit(w, s, a); OrderlyInit(w, s, a); InitSafe(w, s, a);
      }
      FatedRuns(w, Next(w, s, mvs[0]), mvs[1..]);
    }
  }

  /**
   * On an honest slot, once the initiator has bonded and the joiner has ended, the joiner has bonded too
   * exactly when its wait for the bond ended with a heard bond_ok and its put was answered ok. Short of
   * an exception it otherwise gave up waiting, or had its put refused.
   */
  lemma WhenTheJoinerFollows(w: Setup, allowI: seq<string>, allowJ: seq<string>, mvs: seq<Move>)
    requires Legal(w, Begin(w, allowI, allowJ), mvs) && Honest(mvs)
    ensures var s := Play(w, Begin(w, allowI, allowJ), mvs);
            s.i.IDone? && s.i.result.Bonded? && JEnded(s.j) ==>
              && (s.j.JDone? && s.j.result.Bonded? <==> HeardOk(s.past.bond) && s.past.put == Some(PutDone(true)))
              && (s.j.JDone? && !s.j.result.Bonded? ==>
                    || (s.past.bond == Some(Silence) && s.j.result == RolledBack("bond_aborted"))
                    || (HeardOk(s.past.bond) && s.past.put == Some(PutDone(false))
                        && s.j.result == RolledBack("allowlist_push_failed")))
  {
    var s := Play(w, Begin(w, allowI, allowJ), mvs);
    OrderlyPlay(w, allowI, allowJ, mvs);
    BeginSafe(w, allowI, allowJ);
    FatedRuns(w, Begin(w, allowI, allowJ), mvs);
    if s.j.JThrew? {
      ThrownFate(w, s.past, s.j);
    }
  }

  lemma ThrownFate(w: Setup, h: History, at: JoinAt)
    requires at.JThrew? && JFate(h, at) && JShape(w, at)
    ensures !(HeardOk(h.bond) && h.put == Some(PutDone(true)))
  {
    if at.from.JPost? {
      assert JFate(h, at.from) && JShape(w, at.from);
      assert JFate(h, at.from.next);
    }
  }

  // ---- the guarantees are not empty ----

  function TrueView(w: Setup): View {
    View(Key(w.codeI, w.pointI, w.pointJ), w.initId, w.joinId, w.profilesI, w.profilesJ)
  }

  ghost predicate Fair(w: Setup) {
    && w.codeI == w.codeJ && w.proposedId == w.initId && w.initId != w.joinId && w.initId != "" && w.joinId != ""
    && w.resumable && w.decline.None? && CORE in w.profilesI && CORE in w.profilesJ
  }

  /** `mvs` leads from `s` to `t` with every call to the relay returning. */
  ghost predicate Reaches(w: Setup, s: Sys, mvs: seq<Move>, t: Sys) {
    Legal(w, s, mvs) && Reliable(mvs) && Play(w, s, mvs) == t
  }

  /** And without tampering. */
  ghost predicate Leads(w: Setup, s: Sys, mvs: seq<Move>, t: Sys) {
    Reaches(w, s, mvs, t) && Honest(mvs)
  }

  lemma ReachesOne(w: Setup, s: Sys, mv: Move)
    requires Enabled(w, s, mv) && Reliable([mv])
    ensures Reaches(w, s, [mv], Next(w, s, mv))
  {
  }

  lemma {:induction false} ReachesOn(w: Setup, s: Sys, a: seq<Move>, t: Sys, b: seq<Move>, u: Sys)
    requires Reaches(w, s, a, t) && Reaches(w, t, b, u)
    ensures Reaches(w, s, a + b, u)
    decreases |a|
  {
    if a == [] {
      assert a + b == b;
    } else {
      var rest := a[1..];
      assert a == [a[0]] + rest && (a + b)[1..] == rest + b;
      assert forall mv :: mv in rest ==> mv in a;
      ReachesOn(w, Next(w, s, a[0]), rest, t, b, u);
      assert forall mv :: mv in a + b ==> mv in a || mv in b;
    }
  }

  lemma LeadsOn(w: Setup, s: Sys, a: seq<Move>, t: Sys, b: seq<Move>, u: Sys)
    requires Leads(w, s, a, t) && Leads(w, t, b, u)
    ensures Leads(w, s, a + b, u)
  {
    ReachesOn(w, s, a, t, b, u);
    assert forall mv :: mv in a + b ==> mv in a || mv in b;
  }

  lemma StepJ(w: Setup, s: Sys, mvs: seq<Move>, t: Sys, a: Answer) returns (u: Sys)
    requires Leads(w, s, mvs, t) && JReady(w, t, a) && !a.Failed?
    ensures u == JoinNext(w, t, a) && Leads(w, s, mvs + [JoinMoves(a)], u)
  {
    u := JoinNext(w, t, a);
    assert Reliable([JoinMoves(a)]);
    ReachesOne(w, t, JoinMoves(a));
    LeadsOn(w, s, mvs, t, [JoinMoves(a)], u);
  }

  lemma StepI(w: Setup, s: Sys, mvs: seq<Move>, t: Sys, a: Answer) returns (u: Sys)
    requires Leads(w, s, mvs, t) && IReady(w, t, a) && !a.Failed?
    ensures u == InitNext(w, t, a) && Leads(w, s, mvs + [InitMoves(a)], u)
  {
    u := InitNext(w, t, a);
    assert Reliable([InitMoves(a)]);
    ReachesOne(w, t, InitMoves(a));
    LeadsOn(w, s, mvs, t, [InitMoves(a)], u);
  }

  lemma JoinerAnswers(w: Setup, s: Sys) returns (mvs: seq<Move>, t: Sys)
    requires Fair(w) && s.j == JBegin && s.slot == Some(InitPake(Some(Point(w.pointI)), Some(w.profilesI)))
    ensures Leads(w, s, mvs, t) && t.j == JAwaitConfirm(TrueView(w)) && t.i == s.i
    ensures t.slot == Some(JoinPake(Some(Point(w.pointJ)), Fingerprint(TrueView(w)), w.joinId, Some(w.profilesJ)))
  {
    mvs, t := [], s;
    t := StepJ(w, s, mvs, t, Posted); mvs := mvs + [JoinMoves(Posted)];
    t := StepJ(w, s, mvs, t, Heard(s.slot.value)); mvs := mvs + [JoinMoves(Heard(s.slot.value))];
    t := StepJ(w, s, mvs, t, Posted); mvs := mvs + [JoinMoves(Posted)];
  }

  lemma InitiatorConfirms(w: Setup, s: Sys) returns (mvs: seq<Move>, t: Sys)
    requires Fair(w) && s.i == IAwaitPake
    requires s.slot == Some(JoinPake(Some(Point(w.pointJ)), Fingerprint(TrueView(w)), w.joinId, Some(w.profilesJ)))
    ensures Leads(w, s, mvs, t) && t.j == s.j && t.i == IAwaitBond(TrueView(w))
    ensures t.slot == Some(Confirm(Fingerprint(TrueView(w)), w.initId))
  {
    mvs, t := [], s;
    t := StepI(w, s, mvs, t, Heard(s.slot.value)); mvs := mvs + [InitMoves(Heard(s.slot.value))];
    t := StepI(w, s, mvs, t, Posted); mvs := mvs + [InitMoves(Posted)];
  }

  lemma KeyExchange(w: Setup, s: Sys) returns (mvs: seq<Move>, t: Sys)
    requires Fair(w) && s.j == JBegin && s.i == IAwaitPake && s.slot == Some(InitPake(Some(Point(w.pointI)), Some(w.profilesI)))
    ensures Leads(w, s, mvs, t) && t.j == JAwaitConfirm(TrueView(w)) && t.i == IAwaitBond(TrueView(w))
    ensures t.slot == Some(Confirm(Fingerprint(TrueView(w)), w.initId))
  {
    var a, u := JoinerAnswers(w, s);
    var b, z := InitiatorConfirms(w, u);
    LeadsOn(w, s, a, u, b, z);
    mvs, t := a + b, z;
  }

  lemma JoinerConfirms(w: Setup, s: Sys) returns (mvs: seq<Move>, t: Sys)
    requires Fair(w) && s.j == JAwaitConfirm(TrueView(w)) && s.slot == Some(Confirm(Fingerprint(TrueView(w)), w.initId))
    ensures Leads(w, s, mvs, t) && t.j == JAwaitBond(TrueView(w)) && t.i == s.i
    ensures t.slot == Some(BondOk(w.joinId, Tag(TrueView(w).key, w.joinId)))
  {
    mvs, t := [], s;
    t := StepJ(w, s, mvs, t, Heard(s.slot.value)); mvs := mvs + [JoinMoves(Heard(s.slot.value))];
    t := StepJ(w, s, mvs, t, Posted); mvs := mvs + [JoinMoves(Posted)];
  }

  lemma InitiatorBonds(w: Setup, s: Sys) returns (mvs: seq<Move>, t: Sys)
    requires Fair(w) && s.i == IAwaitBond(TrueView(w)) && s.slot == Some(BondOk(w.joinId, Tag(TrueView(w).key, w.joinId)))
    ensures Leads(w, s, mvs, t) && t.i.IFirstLook? && t.i.view == TrueView(w) && t.j == s.j
    ensures t.slot == Some(BondOk(w.initId, Tag(TrueView(w).key, w.initId)))
  {
    mvs, t := [], s;
    t := StepI(w, s, mvs, t, Heard(s.slot.value)); mvs := mvs + [InitMoves(Heard(s.slot.value))];
    t := StepI(w, s, mvs, t, PutDone(true)); mvs := mvs + [InitMoves(PutDone(true))];
    t := StepI(w, s, mvs, t, Posted); mvs := mvs + [InitMoves(Posted)];
  }

  lemma Confirmations(w: Setup, s: Sys) returns (mvs: seq<Move>, t: Sys)
    requires Fair(w) && s.j == JAwaitConfirm(TrueView(w)) && s.i == IAwaitBond(TrueView(w))
    requires s.slot == Some(Confirm(Fingerprint(TrueView(w)), w.initId))
    ensures Leads(w, s, mvs, t) && t.j == JAwaitBond(TrueView(w)) && t.i.IFirstLook? && t.i.view == TrueView(w)
    ensures t.slot == Some(BondOk(w.initId, Tag(TrueView(w).key, w.initId)))
  {
    var a, u := JoinerConfirms(w, s);
    var b, z := InitiatorBonds(w, u);
    LeadsOn(w, s, a, u, b, z);
    mvs, t := a + b, z;
  }

  lemma JoinerHears(w: Setup, s: Sys) returns (mvs: seq<Move>, t: Sys)
    requires Fair(w) && s.j == JAwaitBond(TrueView(w)) && s.slot == Some(BondOk(w.initId, Tag(TrueView(w).key, w.initId)))
    ensures Leads(w, s, mvs, t) && t.j == JPutting(TrueView(w), s.allowJ) && t.i == s.i && t.slot == s.slot
  {
    mvs, t := [], s;
    t := StepJ(w, s, mvs, t, Heard(s.slot.value)); mvs := mvs + [JoinMoves(Heard(s.slot.value))];
  }

  lemma JoinerBonds(w: Setup, s: Sys) returns (mvs: seq<Move>, t: Sys)
    requires Fair(w) && s.j == JAwaitBond(TrueView(w)) && s.slot == Some(BondOk(w.initId, Tag(TrueView(w).key, w.initId)))
    ensures Leads(w, s, mvs, t) && t.j == JDone(Bonded(w.initId, Contract(TrueView(w)))) && t.i == s.i
  {
    mvs, t := JoinerHears(w, s);
    t := StepJ(w, s, mvs, t, PutDone(true)); mvs := mvs + [JoinMoves(PutDone(true))];
  }

  lemma InitiatorLooks(w: Setup, s: Sys) returns (mvs: seq<Move>, t: Sys)
    requires s.i.IFirstLook? && s.i.view == TrueView(w)
    ensures Leads(w, s, mvs, t) && t.i == IDone(Bonded(w.joinId, Contract(TrueView(w)))) && t.j == s.j && t.slot == s.slot
  {
    mvs, t := [], s;
    t := StepI(w, s, mvs, t, Silence); mvs := mvs + [InitMoves(Silence)];
    t := StepI(w, s, mvs, t, Silence); mvs := mvs + [InitMoves(Silence)];
  }

  lemma Endings(w: Setup, s: Sys) returns (mvs: seq<Move>, t: Sys)
    requires Fair(w) && s.j == JAwaitBond(TrueView(w)) && s.i.IFirstLook? && s.i.view == TrueView(w)
    requires s.slot == Some(BondOk(w.initId, Tag(TrueView(w).key, w.initId)))
    ensures Leads(w, s, mvs, t)
    ensures t.j == JDone(Bonded(w.initId, Contract(TrueView(w)))) && t.i == IDone(Bonded(w.joinId, Contract(TrueView(w))))
  {
    var a, u := JoinerBonds(w, s);
    var b, z := InitiatorLooks(w, u);
    LeadsOn(w, s, a, u, b, z);
    mvs, t := a + b, z;
  }

  /** With one code, the right manifest and a common core there is an undisturbed run in which both sides bond. */
  lemma UndisturbedPairingBonds(w: Setup, allowI: seq<string>, allowJ: seq<string>) returns (mvs: seq<Move>)
    requires Fair(w)
    ensures Legal(w, Begin(w, allowI, allowJ), mvs) && Honest(mvs)
    ensures var s := Play(w, Begin(w, allowI, allowJ), mvs);
            && s.j == JDone(Bonded(w.initId, Intersect(w.profilesI, w.profilesJ)))
            && s.i == IDone(Bonded(w.joinId, Intersect(w.profilesI, w.profilesJ)))
  {
    var s := Begin(w, allowI, allowJ);
    var a, t := KeyExchange(w, s);
    var b, u := Confirmations(w, t);
    var c, z := Endings(w, u);
    LeadsOn(w, s, a, t, b, u);
    LeadsOn(w, s, a + b, u, c, z);
    mvs := a + b + c;
  }

  /** Both programs up to the point where the initiator has pushed and told, and the joiner still waits. */
  lemma UpToTheBond(w: Setup, allowI: seq<string>, allowJ: seq<string>) returns (mvs: seq<Move>, u: Sys)
    requires Fair(w)
    ensures Leads(w, Begin(w, allowI, allowJ), mvs, u)
    ensures u.j == JAwaitBond(TrueView(w)) && u.i.IFirstLook? && u.i.view == TrueView(w)
    ensures u.slot == Some(BondOk(w.initId, Tag(TrueView(w).key, w.initId)))
  {
    var s := Begin(w, allowI, allowJ);
    var a, t := KeyExchange(w, s);
    var b, z := Confirmations(w, t);
    LeadsOn(w, s, a, t, b, z);
    mvs, u := a + b, z;
  }

  /** The reverse of `HonestJoinerBondStands` fails: a joiner that gives up waiting says so to nobody. */
  lemma InitiatorMayBondAlone(w: Setup, allowI: seq<string>, allowJ: seq<string>) returns (mvs: seq<Move>)
    requires Fair(w)
    ensures Legal(w, Begin(w, allowI, allowJ), mvs) && Honest(mvs)
    ensures var s := Play(w, Begin(w, allowI, allowJ), mvs);
            && s.j == JDone(RolledBack("bond_aborted"))
            && s.i == IDone(Bonded(w.joinId, Intersect(w.profilesI, w.profilesJ)))
  {
    var s := Begin(w, allowI, allowJ);
    var a, u := UpToTheBond(w, allowI, allowJ);
    var z := StepJ(w, u, [], u, Silence);
    var c, y := InitiatorLooks(w, z);
    LeadsOn(w, u, [JoinMoves(Silence)], z, c, y);
    LeadsOn(w, s, a, u, [JoinMoves(Silence)] + c, y);
    mvs := a + ([JoinMoves(Silence)] + c);
  }

  /** Nor does the initiator learn of a joiner whose put is refused after both of its last looks. */
  lemma InitiatorMayMissTheRefusal(w: Setup, allowI: seq<string>, allowJ: seq<string>) returns (mvs: seq<Move>)
    requires Fair(w)
    ensures Legal(w, Begin(w, allowI, allowJ), mvs) && Honest(mvs)
    ensures var s := Play(w, Begin(w, allowI, allowJ), mvs);
            && s.j == JDone(RolledBack("allowlist_push_failed")) && s.slot == Some(BondFail)
            && s.i == IDone(Bonded(w.joinId, Intersect(w.profilesI, w.profilesJ)))
  {
    var s := Begin(w, allowI, allowJ);
    var a, u := UpToTheBond(w, allowI, allowJ);
    var b, z := InitiatorLooks(w, u);
    var c, y := JoinerIsRefused(w, z);
    LeadsOn(w, u, b, z, c, y);
    LeadsOn(w, s, a, u, b + c, y);
    mvs := a + (b + c);
  }

  lemma JoinerIsRefused(w: Setup, s: Sys) returns (mvs: seq<Move>, t: Sys)
    requires Fair(w) && s.j == JAwaitBond(TrueView(w)) && s.slot == Some(BondOk(w.initId, Tag(TrueView(w).key, w.initId)))
    ensures Leads(w, s, mvs, t) && t.j == JDone(RolledBack("allowlist_push_failed")) && t.i == s.i && t.slot == Some(BondFail)
  {
    var a, u := JoinerHears(w, s);
    var b, z := [], u;
    z := StepJ(w, u, b, z, PutDone(false)); b := b + [JoinMoves(PutDone(false))];
    z := StepJ(w, u, b, z, PutDone(true)); b := b + [JoinMoves(PutDone(true))];
    z := StepJ(w, u, b, z, Posted); b := b + [JoinMoves(Posted)];
    LeadsOn(w, s, a, u, b, z);
    mvs, t := a + b, z;
  }

  /**
   * Anybody who may write the slot can throw the initiator out of its looks: the peer stays in its
   * allowlist without a bond, while the joiner, which has read bond_ok, bonds.
   */
  lemma GarbledLookLeavesThePeer(w: Setup, allowI: seq<string>, allowJ: seq<string>, second: bool) returns (mvs: seq<Move>)
    requires Fair(w)
    ensures Legal(w, Begin(w, allowI, allowJ), mvs) && Reliable(mvs)
    ensures var s := Play(w, Begin(w, allowI, allowJ), mvs);
            && GarbledLook(s.i) && (second <==> s.i.from.ISecondLook?)
            && s.allowI == Added(allowI, w.joinId)
            && s.j == JDone(Bonded(w.initId, Intersect(w.profilesI, w.profilesJ)))
  {
    var a, z := UpToALook(w, allowI, allowJ, second);
    var b, y := GarbledRead(w, z);
    ReachesOn(w, Begin(w, allowI, allowJ), a, z, b, y);
    mvs := a + b;
    AllOrNothing(w, allowI, allowJ, mvs);
  }

  lemma UpToALook(w: Setup, allowI: seq<string>, allowJ: seq<string>, second: bool) returns (mvs: seq<Move>, z: Sys)
    requires Fair(w)
    ensures Leads(w, Begin(w, allowI, allowJ), mvs, z)
    ensures z.j == JDone(Bonded(w.initId, Contract(TrueView(w))))
    ensures if second then z.i.ISecondLook? && z.i.view == TrueView(w) else z.i.IFirstLook? && z.i.view == TrueView(w)
  {
    var s := Begin(w, allowI, allowJ);
    var a, u := UpToTheBond(w, allowI, allowJ);
    var b, y := JoinerBonds(w, u);
    LeadsOn(w, s, a, u, b, y);
    mvs, z := a + b, y;
    if second {
      z := StepI(w, s, mvs, z, Silence);
      mvs := mvs + [InitMoves(Silence)];
    }
  }

  lemma GarbledRead(w: Setup, s: Sys) returns (mvs: seq<Move>, t: Sys)
    requires s.i.IFirstLook? || s.i.ISecondLook?
    ensures Reaches(w, s, mvs, t) && t.i == IThrew(s.i, Heard(Garbled)) && t.j == s.j
  {
    var z := Next(w, s, Tamper(Some(Garbled)));
    ReachesOne(w, s, Tamper(Some(Garbled)));
    ReachesOne(w, z, InitMoves(Heard(Garbled)));
    t := Next(w, z, InitMoves(Heard(Garbled)));
    ReachesOn(w, s, [Tamper(Some(Garbled))], z, [InitMoves(Heard(Garbled))], t);
    mvs := [Tamper(Some(Garbled))] + [InitMoves(Heard(Garbled))];
  }
}
