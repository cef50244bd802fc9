/**
 * The milestones of a pairing: over every run, exactly which answer takes a side past each of them, and
 * that a failure notice is heard at every wait.
 */
module PairingMilestones {
  import opened Options
  import opened PairingFlow
  import opened PairingAgreement

  // ---- what may follow a post or an undo ----

  ghost predicate ITidy(at: InitAt)
    decreases at
  {
    match at
    case IPost(_, next) => (next.IAwaitBond? || next.IFirstLook? || (next.IDone? && !next.result.Bonded?)) && ITidy(next)
    case IUndoing(after) => (after.IPost? || (after.IDone? && !after.result.Bonded?)) && ITidy(after)
    case _ => true
  }

  ghost predicate JTidy(at: JoinAt) {
    at.JPost? ==> at.next.JAwaitConfirm? || at.next.JAwaitBond? || (at.next.JDone? && !at.next.result.Bonded?)
  }

  lemma JTidyStep(w: Setup, at: JoinAt, allow: seq<string>, a: Answer)
    requires JTidy(at)
    ensures JTidy(JoinStep(w, at, allow, a).0)
  {
  }

  lemma ITidyStep(w: Setup, at: InitAt, allow: seq<string>, a: Answer)
    requires ITidy(at)
    ensures ITidy(InitStep(w, at, allow, a).0)
  {
  }

  lemma {:induction false} TidyRuns(w: Setup, s: Sys, mvs: seq<Move>)
    requires JTidy(s.j) && ITidy(s.i) && Legal(w, s, mvs)
    ensures JTidy(Play(w, s, mvs).j) && ITidy(Play(w, s, mvs).i)
    decreases |mvs|
  {
    if mvs != [] {
      match mvs[0] {
        case JoinMoves(a) => JTidyStep(w, s.j, s.allowJ, a); SidesOfJoin(w, s, a);
        case InitMoves(a) => ITidyStep(w, s.i, s.allowI, a); SidesOfInit(w, s, a);
        case Tamper(_) =>
      }
      TidyRuns(w, Next(w, s, mvs[0]), mvs[1..]);
    }
  }

  // ---- the joiner ----

  /** A complete first message of the initiator, with a point the exchange accepts. */
  predicate GoodInit(a: Answer) {
    a.Heard? && a.msg.InitPake? && a.msg.point.Some? && a.msg.point.value.Point? && a.msg.profiles.Some?
  }

  /** A complete message whose point decodes but is none of the exchange. */
  predicate InvalidInit(a: Answer) {
    a.Heard? && a.msg.InitPake? && a.msg.point == Some(Invalid) && a.msg.profiles.Some?
  }

  /**
   * At every point of every run: the joiner shows its view exactly on a good first message, vouches exactly on
   * a confirmation of its own view by the initiator of its manifest, pushes exactly on that initiator's
   * bond tag, bonds exactly when the push went through, and leaves by exception exactly on a failing call, a
   * text that does not parse or an invalid point.
   */
  lemma JoinerMilestones(w: Setup, allowI: seq<string>, allowJ: seq<string>, mvs: seq<Move>, a: Answer)
    requires Legal(w, Begin(w, allowI, allowJ), mvs) && JReady(w, Play(w, Begin(w, allowI, allowJ), mvs), a)
    ensures var s := Play(w, Begin(w, allowI, allowJ), mvs);
            var t := JoinNext(w, s, a);
            && (t.past.viewJ != s.past.viewJ <==> s.j.JAwaitPake? && GoodInit(a))
            && (t.past.confirmed != s.past.confirmed <==>
                  s.j.JAwaitConfirm? && a == Heard(Confirm(Fingerprint(s.j.view), w.proposedId))
                  && w.proposedId != "" && CORE in Contract(s.j.view))
            && (t.j.JPutting? <==>
                  s.j.JAwaitBond? && a == Heard(BondOk(w.proposedId, Tag(s.j.view.key, w.proposedId))) && w.proposedId != "")
            && (t.j.JDone? && t.j.result.Bonded? <==> s.j.JPutting? && a == PutDone(true))
            && (t.j.JThrew? <==> Breaks(a) || (s.j.JAwaitPake? && InvalidInit(a)))
  {
    var b := Begin(w, allowI, allowJ);
    BeginSafe(w, allowI, allowJ);
    SafeRuns(w, b, mvs);
    TidyRuns(w, b, mvs);
    JoinerPasses(w, Play(w, b, mvs), a);
  }

  lemma JoinerPasses(w: Setup, s: Sys, a: Answer)
    requires JTidy(s.j) && JLinked(w, s.past, s.j) && JReady(w, s, a)
    ensures var t := JoinNext(w, s, a);
            && (t.past.viewJ != s.past.viewJ <==> s.j.JAwaitPake? && GoodInit(a))
            && (t.past.confirmed != s.past.confirmed <==>
                  s.j.JAwaitConfirm? && a == Heard(Confirm(Fingerprint(s.j.view), w.proposedId))
                  && w.proposedId != "" && CORE in Contract(s.j.view))
            && (t.j.JPutting? <==>
                  s.j.JAwaitBond? && a == Heard(BondOk(w.proposedId, Tag(s.j.view.key, w.proposedId))) && w.proposedId != "")
            && (t.j.JDone? && t.j.result.Bonded? <==> s.j.JPutting? && a == PutDone(true))
            && (t.j.JThrew? <==> Breaks(a) || (s.j.JAwaitPake? && InvalidInit(a)))
  {
  }

  // ---- the initiator ----

  /** A complete answer of the joiner, with a point the exchange accepts and the fingerprint this side computes. */
  predicate GoodAnswer(w: Setup, a: Answer) {
    && a.Heard? && a.msg.JoinPake? && a.msg.point.Some? && a.msg.point.value.Point? && a.msg.profiles.Some? && a.msg.agentId != ""
    && a.msg.proof == Fingerprint(IView(w, a.msg.point.value.n, a.msg.agentId, a.msg.profiles.value))
  }

  predicate InvalidAnswer(a: Answer) {
    && a.Heard? && a.msg.JoinPake? && a.msg.point == Some(Invalid) && a.msg.profiles.Some? && a.msg.agentId != ""
    && !a.msg.proof.Absent?
  }

  predicate Looking(at: InitAt) {
    at.IFirstLook? || at.ISecondLook?
  }

  /**
   * At every point of every run: an initiator that still has its session passes its check exactly on the
   * joiner's own fingerprint, pushes exactly on the bond tag of the joiner it checked, has pushed exactly
   * when the relay says so, undoes the push exactly on a failure notice in one of its two looks, and bonds
   * exactly when the second look ends without one.
   */
  lemma InitiatorMilestones(w: Setup, allowI: seq<string>, allowJ: seq<string>, mvs: seq<Move>, a: Answer)
    requires Legal(w, Begin(w, allowI, allowJ), mvs) && IReady(w, Play(w, Begin(w, allowI, allowJ), mvs), a)
    ensures var s := Play(w, Begin(w, allowI, allowJ), mvs);
            var t := InitNext(w, s, a);
            && (t.past.viewI != s.past.viewI <==> s.i.IAwaitPake? && w.resumable && GoodAnswer(w, a))
            && (t.i.IPutting? <==>
                  s.i.IAwaitBond? && s.i.view.joiner != ""
                  && a == Heard(BondOk(s.i.view.joiner, Tag(s.i.view.key, s.i.view.joiner))))
            && (t.past.pushed != s.past.pushed <==> s.i.IPutting? && a == PutDone(true))
            && (t.i == IUndoing(IDone(RolledBack("bond_aborted"))) <==> Looking(s.i) && a == Heard(BondFail))
            && (t.i.IDone? && t.i.result.Bonded? <==> s.i.ISecondLook? && !Breaks(a) && a != Heard(BondFail))
            && (t.i.IThrew? <==> Breaks(a) || (s.i.IAwaitPake? && w.resumable && InvalidAnswer(a)))
  {
    var b := Begin(w, allowI, allowJ);
    BeginSafe(w, allowI, allowJ);
    SafeRuns(w, b, mvs);
    TidyRuns(w, b, mvs);
    InitiatorPasses(w, Play(w, b, mvs), a);
  }

  lemma InitiatorPasses(w: Setup, s: Sys, a: Answer)
    requires ITidy(s.i) && ILinked(w, s.past, s.i) && IReady(w, s, a)
    ensures var t := InitNext(w, s, a);
            && (t.past.viewI != s.past.viewI <==> s.i.IAwaitPake? && w.resumable && GoodAnswer(w, a))
            && (t.i.IPutting? <==>
                  s.i.IAwaitBond? && s.i.view.joiner != ""
                  && a == Heard(BondOk(s.i.view.joiner, Tag(s.i.view.key, s.i.view.joiner))))
            && (t.past.pushed != s.past.pushed <==> s.i.IPutting? && a == PutDone(true))
            && (t.i == IUndoing(IDone(RolledBack("bond_aborted"))) <==> Looking(s.i) && a == Heard(BondFail))
            && (t.i.IDone? && t.i.result.Bonded? <==> s.i.ISecondLook? && !Breaks(a) && a != Heard(BondFail))
            && (t.i.IThrew? <==> Breaks(a) || (s.i.IAwaitPake? && w.resumable && InvalidAnswer(a)))
  {
  }

  // ---- failure notices ----

  predicate JWaits(at: JoinAt) {
    at.JAwaitConfirm? || at.JAwaitBond?
  }

  predicate IWaits(at: InitAt) {
    at.IAwaitPake? || at.IAwaitBond? || Looking(at)
  }

  /**
   * A failure notice in the slot ends every wait of either side at once: the exchange as failed, the wait for
   * the bond as aborted, and a look after the push with the old allowlist back.
   */
  lemma FailureNoticeIsHeard(w: Setup, allowI: seq<string>, allowJ: seq<string>, mvs: seq<Move>)
    requires Legal(w, Begin(w, allowI, allowJ), mvs) && Play(w, Begin(w, allowI, allowJ), mvs).slot == Some(BondFail)
    ensures var s := Play(w, Begin(w, allowI, allowJ), mvs);
            && (JWaits(s.j) ==>
                  && JReady(w, s, Heard(BondFail))
                  && JoinNext(w, s, Heard(BondFail)).j ==
                     if s.j.JAwaitConfirm? then JPost(BondFail, JDone(PakeFailed)) else JDone(RolledBack("bond_aborted")))
            && (IWaits(s.i) ==>
                  && IReady(w, s, Heard(BondFail))
                  && var t := InitNext(w, s, Heard(BondFail));
                     && t.allowI == allowI
                     && t.i == if s.i.IAwaitPake? then IDone(PakeFailed)
                               else if s.i.IAwaitBond? then IDone(RolledBack("bond_aborted"))
                               else IUndoing(IDone(RolledBack("bond_aborted"))))
  {
    AllowRuns(w, Begin(w, allowI, allowJ), mvs, allowI, allowJ);
  }

  /**
   * So a joiner whose put is refused before a look takes the initiator back with it: neither bonds, and both
   * allowlists are the old ones.
   */
  lemma RefusalInTimeRollsBack(w: Setup, allowI: seq<string>, allowJ: seq<string>, second: bool) returns (mvs: seq<Move>)
    requires Fair(w)
    ensures Legal(w, Begin(w, allowI, allowJ), mvs) && Honest(mvs) && Reliable(mvs)
    ensures var s := Play(w, Begin(w, allowI, allowJ), mvs);
            && s.j == JDone(RolledBack("allowlist_push_failed")) && s.i == IDone(RolledBack("bond_aborted"))
            && s.allowI == allowI && s.allowJ == allowJ
  {
    var b := Begin(w, allowI, allowJ);
    var a, u := UpToTheBond(w, allowI, allowJ);
    mvs := a;
    if second {
      var z := StepI(w, b, mvs, u, Silence);
      mvs, u := mvs + [InitMoves(Silence)], z;
    }
    var c, y := JoinerIsRefused(w, u);
    LeadsOn(w, b, mvs, u, c, y);
    mvs := mvs + c;
    var d, x := InitiatorGoesBack(w, y);
    LeadsOn(w, b, mvs, y, d, x);
    mvs := mvs + d;
    AllOrNothing(w, allowI, allowJ, mvs);
  }

  lemma InitiatorGoesBack(w: Setup, s: Sys) returns (mvs: seq<Move>, t: Sys)
    requires Looking(s.i) && s.slot == Some(BondFail)
    ensures Leads(w, s, mvs, t) && t.i == IDone(RolledBack("bond_aborted")) && t.j == s.j
  {
    mvs, t := [], s;
    t := StepI(w, s, mvs, t, Heard(BondFail)); mvs := mvs + [InitMoves(Heard(BondFail))];
    t := StepI(w, s, mvs, t, PutDone(true)); mvs := mvs + [InitMoves(PutDone(true))];
  }
}
