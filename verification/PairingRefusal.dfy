/** What the refusal of the joiner's human does to both sides, over every run and on an honest slot. */
module PairingRefusal {
  import opened Options
  import opened PairingFlow
  import opened PairingAgreement

  // ---- the joiner: it ends rejected exactly when its human refused ----

  /** Neither this control point nor what follows its posts is about a refusal. */
  ghost predicate Consenting(at: JoinAt)
    decreases at
  {
    match at
    case JPost(m, next) => !m.Reject? && Consenting(next)
    case JDone(result) => !result.Rejected?
    case JThrew(from, _) => Consenting(from)
    case _ => true
  }

  /** The whole way of a joiner whose human refuses: nothing done yet, the refusal under way, and its end. */
  ghost predicate Refusing(w: Setup, at: JoinAt)
    requires w.decline.Some?
  {
    var refusal := JPost(Reject(w.decline), JDone(Rejected(w.decline.value)));
    || at == JBegin || at == refusal || at == refusal.next
    || (at.JThrew? && at.from == refusal && at.cause.Failed?)
  }

  /** What holds of the joiner's side in every run. */
  ghost predicate JDecides(w: Setup, s: Sys) {
    if w.decline.Some? then Refusing(w, s.j) && s.past.viewJ.None? && !s.past.confirmed && s.past.put.None?
    else Consenting(s.j)
  }

  lemma JDecidesHearing(w: Setup, s: Sys, a: Answer)
    requires JDecides(w, s) && JReady(w, s, a) && (s.j.JAwaitPake? || s.j.JAwaitConfirm? || s.j.JAwaitBond?)
    ensures JDecides(w, JoinNext(w, s, a))
  {
  }

  lemma JDecidesStep(w: Setup, s: Sys, a: Answer)
    requires JDecides(w, s) && JReady(w, s, a)
    ensures JDecides(w, JoinNext(w, s, a))
  {
    match s.j {
      case JAwaitPake | JAwaitConfirm(_) | JAwaitBond(_) => JDecidesHearing(w, s, a);
      case JPost(_, next) => assert w.decline.None? ==> Consenting(next);
      case _ =>
    }
  }

  lemma JDecidesAside(w: Setup, s: Sys, a: Answer)
    requires JDecides(w, s)
    ensures JDecides(w, InitNext(w, s, a))
  {
  }

  lemma {:induction false} JDecidesRuns(w: Setup, s: Sys, mvs: seq<Move>)
    requires JDecides(w, s) && Legal(w, s, mvs)
    ensures JDecides(w, Play(w, s, mvs))
    decreases |mvs|
  {
    if mvs != [] {
      match mvs[0] {
        case JoinMoves(a) => JDecidesStep(w, s, a);
        case InitMoves(a) => JDecidesAside(w, s, a);
        case Tamper(_) =>
      }
      JDecidesRuns(w, Next(w, s, mvs[0]), mvs[1..]);
    }
  }

  /** Without a view of its own the initiator has nobody in its allowlist to stand up for. */
  lemma {:induction false} NoViewNoPeer(w: Setup, h: History, at: InitAt)
    requires ILinked(w, h, at) && h.viewI.None? && h.viewJ.None?
    ensures IStanding(at).None? && (at.IDone? ==> !at.result.Bonded? && !at.result.RolledBack?)
    decreases at
  {
    match at {
      case IPost(_, next) => NoViewNoPeer(w, h, next);
      case IThrew(from, _) => NoViewNoPeer(w, h, from);
      case _ =>
    }
  }

  lemma RefusingNoPeer(w: Setup, at: JoinAt)
    requires w.decline.Some? && Refusing(w, at)
    ensures JStanding(w, at).None?
  {
    var done := JDone(Rejected(w.decline.value));
    assert JStanding(w, done).None? && JStanding(w, JPost(Reject(w.decline), done)).None?;
  }

  /**
   * Whatever the relay does: a joiner whose human refuses never shows its view, confirms nothing and puts
   * nothing, its one end with a result is `Rejected` with its own reason, and it leaves by exception only
   * when the call that posts the refusal fails. Neither side bonds and neither allowlist changes.
   */
  lemma RefusalIsFinal(w: Setup, allowI: seq<string>, allowJ: seq<string>, mvs: seq<Move>)
    requires w.decline.Some? && Legal(w, Begin(w, allowI, allowJ), mvs)
    ensures var s := Play(w, Begin(w, allowI, allowJ), mvs);
            && s.past.viewJ.None? && !s.past.confirmed && s.past.put.None? && !s.past.pushed
            && (s.j.JDone? ==> s.j.result == Rejected(w.decline.value))
            && (s.j.JThrew? ==> s.j.from.JPost? && s.j.from.msg == Reject(w.decline) && s.j.cause.Failed?)
            && (s.i.IDone? ==> s.i.result.Rejected? || s.i.result.PakeFailed?)
            && s.allowJ == allowJ && s.allowI == allowI
  {
    var b := Begin(w, allowI, allowJ);
    BeginSafe(w, allowI, allowJ);
    SafeRuns(w, b, mvs);
    JDecidesRuns(w, b, mvs);
    AllowRuns(w, b, mvs, allowI, allowJ);
    var s := Play(w, b, mvs);
    NoViewNoPeer(w, s.past, s.i);
    RefusingNoPeer(w, s.j);
  }

  /** And the other way: a joiner that ended was rejected exactly when its human had refused. */
  lemma JoinerRejectedIff(w: Setup, allowI: seq<string>, allowJ: seq<string>, mvs: seq<Move>)
    requires Legal(w, Begin(w, allowI, allowJ), mvs)
    ensures var s := Play(w, Begin(w, allowI, allowJ), mvs);
            s.j.JDone? ==> (s.j.result.Rejected? <==> w.decline.Some?)
  {
    JDecidesRuns(w, Begin(w, allowI, allowJ), mvs);
  }

  // ---- the initiator: what it makes of a refusal ----

  ghost predicate Awaiting(at: InitAt)
    decreases at
  {
    match at
    case IPost(_, next) => Awaiting(next) && (next.IDone? ==> !next.result.Rejected?)
    case IUndoing(after) => Awaiting(after) && (after.IDone? ==> !after.result.Rejected?)
    case IThrew(from, _) => !from.IDone?
    case _ => true
  }

  lemma AwaitingStep(w: Setup, at: InitAt, allow: seq<string>, a: Answer)
    requires Awaiting(at)
    ensures Awaiting(InitStep(w, at, allow, a).0)
  {
  }

  lemma {:induction false} AwaitingRuns(w: Setup, s: Sys, mvs: seq<Move>)
    requires Awaiting(s.i) && Legal(w, s, mvs)
    ensures Awaiting(Play(w, s, mvs).i)
    decreases |mvs|
  {
    if mvs != [] {
      match mvs[0] {
        case JoinMoves(a) => SidesOfJoin(w, s, a);
        case InitMoves(a) => AwaitingStep(w, s.i, s.allowI, a); SidesOfInit(w, s, a);
        case Tamper(_) =>
      }
      AwaitingRuns(w, Next(w, s, mvs[0]), mvs[1..]);
    }
  }

  /**
   * At any point of any run the initiator's next step ends it rejected exactly when it still waits for the
   * joiner's first message and hears a refusal; it takes over the reason and its allowlist is the old one.
   */
  lemma InitiatorRejectedIff(w: Setup, allowI: seq<string>, allowJ: seq<string>, mvs: seq<Move>, a: Answer)
    requires Legal(w, Begin(w, allowI, allowJ), mvs)
    requires var s := Play(w, Begin(w, allowI, allowJ), mvs); IReady(w, s, a)
    ensures var s := Play(w, Begin(w, allowI, allowJ), mvs);
            var t := InitNext(w, s, a);
            && (t.i.IDone? && t.i.result.Rejected? <==> s.i.IAwaitPake? && a.Heard? && a.msg.Reject?)
            && (t.i.IDone? && t.i.result.Rejected? ==> t.i.result == Rejected(Explained(a.msg.why)) && t.allowI == allowI)
  {
    AwaitingRuns(w, Begin(w, allowI, allowJ), mvs);
    AllowRuns(w, Begin(w, allowI, allowJ), mvs, allowI, allowJ);
  }

  // ---- on an honest slot the refusal the initiator hears is the joiner's ----

  ghost predicate Told(w: Setup, s: Sys) {
    && (s.slot.Some? && s.slot.value.Reject? ==> w.decline.Some? && s.slot.value.why == w.decline)
    && (s.i.IDone? && s.i.result.Rejected? ==> w.decline.Some? && s.i.result == Rejected(Explained(w.decline)))
  }

  ghost predicate PostsNoRefusal(at: InitAt)
    decreases at
  {
    match at
    case IPost(m, next) => !m.Reject? && PostsNoRefusal(next)
    case IUndoing(after) => PostsNoRefusal(after)
    case _ => true
  }

  lemma PostsNoRefusalStep(w: Setup, at: InitAt, allow: seq<string>, a: Answer)
    requires PostsNoRefusal(at)
    ensures PostsNoRefusal(InitStep(w, at, allow, a).0)
  {
  }

  ghost predicate Faithful(w: Setup, s: Sys) {
    JDecides(w, s) && Awaiting(s.i) && PostsNoRefusal(s.i) && Told(w, s)
  }

  lemma FaithfulJoin(w: Setup, s: Sys, a: Answer)
    requires Faithful(w, s) && JReady(w, s, a)
    ensures Faithful(w, JoinNext(w, s, a))
  {
    JDecidesStep(w, s, a);
    SidesOfJoin(w, s, a);
  }

  lemma FaithfulInit(w: Setup, s: Sys, a: Answer)
    requires Faithful(w, s) && IReady(w, s, a)
    ensures Faithful(w, InitNext(w, s, a))
  {
    JDecidesAside(w, s, a);
    AwaitingStep(w, s.i, s.allowI, a);
    PostsNoRefusalStep(w, s.i, s.allowI, a);
    SidesOfInit(w, s, a);
  }

  lemma {:induction false} FaithfulRuns(w: Setup, s: Sys, mvs: seq<Move>)
    requires Faithful(w, s) && Legal(w, s, mvs) && Honest(mvs)
    ensures Faithful(w, Play(w, s, mvs))
    decreases |mvs|
  {
    if mvs != [] {
      assert !mvs[0].Tamper?;
      match mvs[0] {
        case JoinMoves(a) => FaithfulJoin(w, s, a);
        case InitMoves(a) => FaithfulInit(w, s, a);
      }
      FaithfulRuns(w, Next(w, s, mvs[0]), mvs[1..]);
    }
  }

  /** Without tampering a rejected initiator was refused by the joiner's human, for the reason it reports. */
  lemma HonestRefusalIsTheJoiners(w: Setup, allowI: seq<string>, allowJ: seq<string>, mvs: seq<Move>)
    requires Legal(w, Begin(w, allowI, allowJ), mvs) && Honest(mvs)
    ensures var s := Play(w, Begin(w, allowI, allowJ), mvs);
            s.i.IDone? && s.i.result.Rejected? ==> w.decline.Some? && s.i.result == Rejected(Explained(w.decline))
  {
    FaithfulRuns(w, Begin(w, allowI, allowJ), mvs);
  }

  /** Three undisturbed steps carry every refusal over, whatever the codes, ids and profiles. */
  lemma UndisturbedRefusal(w: Setup, allowI: seq<string>, allowJ: seq<string>) returns (mvs: seq<Move>)
    requires w.decline.Some?
    ensures Legal(w, Begin(w, allowI, allowJ), mvs) && Honest(mvs) && Reliable(mvs)
    ensures var s := Play(w, Begin(w, allowI, allowJ), mvs);
            && s.j == JDone(Rejected(w.decline.value)) && s.i == IDone(Rejected(Explained(w.decline)))
            && s.allowI == allowI && s.allowJ == allowJ
  {
    var b := Begin(w, allowI, allowJ);
    mvs := [];
    var s := StepJ(w, b, mvs, b, Posted);
    mvs := mvs + [JoinMoves(Posted)];
    s := StepJ(w, b, mvs, s, Posted);
    mvs := mvs + [JoinMoves(Posted)];
    s := StepI(w, b, mvs, s, Heard(Reject(w.decline)));
    mvs := mvs + [InitMoves(Heard(Reject(w.decline)))];
  }
}
