/**
 * Rule N2 of the protocol document: signed means two identical hashes, and no later signature silently
 * supersedes an earlier one. The code keeps neither; here is exactly when it does.
 */
module SignatureRule {
  import opened Options
  import opened SessionTypes
  import opened ThreadSteps
  import opened BudgetSteps
  import opened MachineSteps
  import opened ThreadInvariant
  import opened ThreadRuns
  import opened SampleRuns

  /** Both roles have a recorded sign hash and the two are identical. */
  predicate HashesAgree(s: Record) {
    BothSigned(s) && s.signHashes[Initiator] == s.signHashes[Recipient]
  }

  /** The sign hash a role has recorded. */
  function HashOf(l: Local, r: Role): Option<string> {
    if l.session.Some? && r in l.session.value.signHashes then Some(l.session.value.signHashes[r]) else None
  }

  /** The signature an accepted event records, of either side. */
  function Signs(me: string, l: Local, thread: string, i: Input): Option<(Role, string)>
    requires Possible(me, l, i.event)
  {
    if l.session.None? || Step(me, l, thread, i.event, i.env).reply != Done then None
    else if i.event.SignHash? then Some((RoleFor(l.session.value, me), i.event.hash))
    else if i.event.Incoming? && i.event.msg.SignedMsg? && Participant(l.session.value, i.event.from).Some? then
      Some((Participant(l.session.value, i.event.from).value, i.event.msg.hash))
    else None
  }

  // ---- one signature ----

  /** A signature makes a live session signed exactly if it and one of the other role carry a hash. */
  lemma SecondSignatureSigns(l: Local, s: Record, role: Role, hash: string)
    requires s.status == Live
    ensures var t := RecordSign(l, s, role, hash).session.value;
            t.status == Signed <==> hash != "" && HasSigned(s, Other(role))
  {
  }

  /** Whoever signs, the two hashes agree afterwards exactly if the other role had signed this very hash. */
  lemma AgreeAfterSignature(l: Local, s: Record, role: Role, hash: string)
    ensures var t := RecordSign(l, s, role, hash).session.value;
            HashesAgree(t) <==> HasSigned(s, Other(role)) && s.signHashes[Other(role)] == hash
  {
  }

  // ---- which events sign ----

  ghost predicate SameHashes(l: Local, m: Local) {
    if l.session.Some? then m.session.Some? && m.session.value.signHashes == l.session.value.signHashes
    else m.session.Some? ==> m.session.value.signHashes == map[]
  }

  /** Nothing but a signature moves a session that is not signed to signed. */
  ghost predicate NotNewlySigned(l: Local, m: Local) {
    m.session.Some? && m.session.value.status == Signed ==> l.session.Some? && l.session.value.status == Signed
  }

  ghost predicate Unsigned(l: Local, m: Local) {
    SameHashes(l, m) && NotNewlySigned(l, m)
  }

  lemma AnswerUnsigned(l: Local, id: string, text: string, viaHuman: bool, env: Env)
    ensures Unsigned(l, ApproveOpen(l, id, viaHuman, env).local)
    ensures Unsigned(l, RejectOpen(l, id, text, viaHuman, env).local)
  {
  }

  lemma OpeningUnsigned(me: string, l: Local, thread: string, e: Event, env: Env)
    requires Possible(me, l, e) && OnOpening(e)
    ensures Unsigned(l, Step(me, l, thread, e, env).local)
  {
    match e {
      case ApproveOpenBy(id, viaHuman) => AnswerUnsigned(l, id, "", viaHuman, env);
      case RejectOpenBy(id, text, viaHuman) => AnswerUnsigned(l, id, text, viaHuman, env);
      case Expire => assert Unsigned(l, ExpireSession(me, l, env).local);
      case Open(to, terms, allowed) =>
      case LookForOpen => assert Unsigned(l, ResolveOpen(l, env));
    }
  }

  lemma TalkUnsigned(me: string, l: Local, thread: string, e: Event, env: Env)
    requires OnTalk(e) && !e.SignHash?
    ensures Unsigned(l, Step(me, l, thread, e, env).local)
  {
  }

  lemma RatifyUnsigned(me: string, l: Local, byItem: Option<string>, given: Option<string>, viaHuman: bool, env: Env)
    ensures Unsigned(l, RatifyBy(me, l, byItem, given, viaHuman, env).local)
  {
  }

  lemma CloseUnsigned(l: Local, reason: Option<string>, env: Env)
    ensures Unsigned(l, ThreadClose(l, reason, env).local)
  {
  }

  lemma RevokeUnsigned(me: string, l: Local, peer: string)
    ensures Unsigned(l, BondRevoke(me, l, peer))
  {
  }

  lemma StatusUnsigned(me: string, l: Local, env: Env)
    ensures Unsigned(l, ReadStatus(me, l, env).local)
    ensures Unsigned(l, ResolveRatify(me, l, env))
  {
  }

  lemma CareUnsigned(me: string, l: Local, thread: string, e: Event, env: Env)
    requires OnCare(e)
    ensures Unsigned(l, Step(me, l, thread, e, env).local)
  {
    hide RatifyBy, ResolveRatify, ReadStatus, BondRevoke, ThreadClose;
    match e {
      case RatifyWith(byItem, given, viaHuman) => RatifyUnsigned(me, l, byItem, given, viaHuman, env);
      case CloseThread(reason) => CloseUnsigned(l, reason, env);
      case RevokeBond(peer) => RevokeUnsigned(me, l, peer);
      case _ => StatusUnsigned(me, l, env);
    }
  }

  lemma ExtendUnsigned(me: string, l: Local, n: int, p: string, env: Env)
    ensures Unsigned(l, ExtendBudget(me, l, n, p, env).local)
    ensures Unsigned(l, RetryExtend(l, env).local)
  {
  }

  lemma ApproveUnsigned(me: string, l: Local, id: string, viaHuman: bool, env: Env)
    ensures Unsigned(l, ApproveExtend(me, l, id, viaHuman, env).local)
  {
  }

  lemma RejectUnsigned(me: string, l: Local, id: string, viaHuman: bool, why: Option<string>, env: Env)
    ensures Unsigned(l, RejectExtend(me, l, id, viaHuman, why, env).local)
  {
  }

  lemma BudgetUnsigned(me: string, l: Local, thread: string, e: Event, env: Env)
    requires OnBudget(e)
    ensures Unsigned(l, Step(me, l, thread, e, env).local)
  {
    hide ExtendBudget, ApproveExtend, RejectExtend, RetryExtend;
    match e {
      case ApproveExtendBy(id, viaHuman) => ApproveUnsigned(me, l, id, viaHuman, env);
      case RejectExtendBy(id, viaHuman, why) => RejectUnsigned(me, l, id, viaHuman, why, env);
      case Extend(n, p) => ExtendUnsigned(me, l, n, p, env);
      case Retry => ExtendUnsigned(me, l, 0, "", env);
    }
  }

  lemma BudgetWordUnsigned(me: string, l: Local, from: string, p: Payload, env: Env)
    ensures Unsigned(l, IncomingPropose(me, l, from, p, env).local)
    ensures Unsigned(l, IncomingApproved(l, from, p).local)
    ensures Unsigned(l, IncomingReject(l, from, p).local)
  {
  }

  lemma WordUnsigned(me: string, l: Local, from: string, msg: Msg, env: Env)
    requires l.session.Some? && !msg.SignedMsg?
    ensures Unsigned(l, Negotiation(me, l, l.session.value, from, msg, env).local)
  {
    hide PeerWord, IncomingRatified;
    var s := l.session.value;
    if Participant(s, from).Some? {
      SidelineUnsigned(me, l, s, Participant(s, from).value, msg, env);
    }
  }

  lemma SidelineUnsigned(me: string, l: Local, s: Record, role: Role, msg: Msg, env: Env)
    requires l.session == Some(s) && !msg.SignedMsg?
    ensures Unsigned(l, PeerWord(me, l, s, role, msg, env).local) && Unsigned(l, IncomingRatified(me, l, s, role).local)
  {
  }

  lemma DeliverUnsigned(me: string, l: Local, thread: string, from: string, msg: Msg, env: Env)
    requires !msg.SignedMsg?
    ensures Unsigned(l, Deliver(me, l, thread, from, msg, env).local)
  {
    hide Negotiation, IncomingPropose, IncomingApproved, IncomingReject;
    match msg {
      case BudgetPropose(p) => BudgetWordUnsigned(me, l, from, p, env);
      case BudgetApproved(p) => BudgetWordUnsigned(me, l, from, p, env);
      case BudgetReject(p) => BudgetWordUnsigned(me, l, from, p, env);
      case Malformed | NegoOpen(_) | OpenApproved | OpenReject(_) | OpenExpiredMsg =>
      case _ => if l.session.Some? { WordUnsigned(me, l, from, msg, env); }
    }
  }

  lemma HearsUnsigned(me: string, l: Local, thread: string, from: string, msg: Msg, env: Env)
    requires !msg.SignedMsg?
    ensures Unsigned(l, Receive(me, l, thread, from, msg, env).local)
  {
    hide Deliver;
    var m := EnsureLive(l, env.now);
    assert Unsigned(l, m);
    DeliverUnsigned(me, m, thread, from, msg, env);
  }

  lemma OthersUnsigned(me: string, l: Local, thread: string, i: Input)
    requires Possible(me, l, i.event) && !i.event.SignHash? && !(i.event.Incoming? && i.event.msg.SignedMsg?)
    ensures Unsigned(l, After(me, l, thread, i))
  {
    hide Receive, HandleOpen, ApproveOpen, RejectOpen, ExpireSession, ResolveOpen, TakeTurn, FileChallenge,
         FileReport, SayNothing, Sign, RatifyBy, ResolveRatify, ReadStatus, BondRevoke, ThreadClose, ExtendBudget,
         ApproveExtend, RejectExtend, RetryExtend;
    var e, env := i.event, i.env;
    if OnOpening(e) {
      OpeningUnsigned(me, l, thread, e, env);
    } else if OnTalk(e) {
      TalkUnsigned(me, l, thread, e, env);
    } else if OnCare(e) {
      CareUnsigned(me, l, thread, e, env);
    } else if OnBudget(e) {
      BudgetUnsigned(me, l, thread, e, env);
    } else {
      HearsUnsigned(me, l, thread, e.from, e.msg, env);
    }
  }

  /** The two events that sign record the hash in the signer's slot and touch no other. */
  lemma OwnSignature(me: string, l: Local, hash: string, env: Env)
    ensures var o := Sign(me, l, hash, env);
            if l.session.None? || o.reply != Done then Unsigned(l, o.local)
            else
              && EnsureLive(l, env.now) == l && o.local.session.Some?
              && o.local.session.value == RecordSign(l, l.session.value, RoleFor(l.session.value, me), hash).session.value
  {
  }

  lemma PeerSignature(me: string, l: Local, thread: string, from: string, hash: string, env: Env)
    ensures var o := Receive(me, l, thread, from, SignedMsg(hash), env);
            if l.session.None? || o.reply != Done then Unsigned(l, o.local)
            else
              && EnsureLive(l, env.now) == l && Participant(l.session.value, from).Some? && o.local.session.Some?
              && o.local.session.value
                 == RecordSign(l, l.session.value, Participant(l.session.value, from).value, hash).session.value
  {
  }

  /** What one event makes of the two slots. */
  lemma StepSigns(me: string, l: Local, thread: string, i: Input)
    requires Possible(me, l, i.event)
    ensures var m := After(me, l, thread, i);
            var signed := Signs(me, l, thread, i);
            if signed.None? then Unsigned(l, m)
            else
              && l.session.Some? && m.session.Some?
              && m.session.value == RecordSign(l, l.session.value, signed.value.0, signed.value.1).session.value
  {
    hide Sign, Receive, RecordSign;
    if i.event.SignHash? {
      OwnSignature(me, l, i.event.hash, i.env);
    } else if i.event.Incoming? && i.event.msg.SignedMsg? {
      PeerSignature(me, l, thread, i.event.from, i.event.msg.hash, i.env);
    } else {
      OthersUnsigned(me, l, thread, i);
    }
  }

  /**
   * Over all events: a session becomes signed only by a signature on top of one of the other role, and then
   * keeps the rule exactly if that one was over the same hash.
   */
  lemma BecomesSignedIff(me: string, l: Local, thread: string, i: Input)
    requires Possible(me, l, i.event) && l.session.Some? && l.session.value.status != Signed
    ensures var s := l.session.value;
            var t := After(me, l, thread, i).session;
            t.Some? && t.value.status == Signed ==>
              var signed := Signs(me, l, thread, i);
              && signed.Some? && HasSigned(s, Other(signed.value.0))
              && (HashesAgree(t.value) <==> s.signHashes[Other(signed.value.0)] == signed.value.1)
  {
    StepSigns(me, l, thread, i);
    var signed := Signs(me, l, thread, i);
    if signed.Some? {
      AgreeAfterSignature(l, l.session.value, signed.value.0, signed.value.1);
    }
  }

  /**
   * The second half: an accepted signature of a role takes the place of that role's earlier one, so the
   * earlier one survives exactly if it was over the same hash. The other role's slot stays.
   */
  lemma EarlierHashSurvivesIff(me: string, l: Local, thread: string, i: Input, earlier: string)
    requires Possible(me, l, i.event) && Signs(me, l, thread, i).Some?
    requires HashOf(l, Signs(me, l, thread, i).value.0) == Some(earlier)
    ensures var (role, hash) := Signs(me, l, thread, i).value;
            var m := After(me, l, thread, i);
            && (HashOf(m, role) == Some(earlier) <==> hash == earlier)
            && HashOf(m, Other(role)) == HashOf(l, Other(role))
  {
    StepSigns(me, l, thread, i);
  }

  // ---- whole runs ----

  function Later(last: Option<string>, signed: Option<(Role, string)>, r: Role): Option<string> {
    if signed.Some? && signed.value.0 == r then Some(signed.value.1) else last
  }

  /** The last hash `r` signed, read off the run alone. */
  ghost function LastSigned(me: string, l: Local, thread: string, ins: seq<Input>, r: Role,
                            start: Option<string>): Option<string>
    requires Feasible(me, l, thread, ins)
    decreases |ins|
  {
    if ins == [] then start
    else
      LastSigned(me, After(me, l, thread, ins[0]), thread, ins[1..], r, Later(start, Signs(me, l, thread, ins[0]), r))
  }

  lemma {:induction false} HashesAreTheLastSigned(me: string, l: Local, thread: string, ins: seq<Input>, r: Role)
    requires Feasible(me, l, thread, ins)
    ensures HashOf(Run(me, l, thread, ins), r) == LastSigned(me, l, thread, ins, r, HashOf(l, r))
    decreases |ins|
  {
    hide Step, Signs;
    if ins != [] {
      StepSigns(me, l, thread, ins[0]);
      HashesAreTheLastSigned(me, After(me, l, thread, ins[0]), thread, ins[1..], r);
    }
  }

  /** After any run the two recorded hashes agree exactly if the last ones the two roles signed are one. */
  lemma AgreeIffLastSignedAgree(me: string, thread: string, ins: seq<Input>)
    requires Feasible(me, EMPTY_LOCAL, thread, ins)
    ensures var l := Run(me, EMPTY_LOCAL, thread, ins);
            var a := LastSigned(me, EMPTY_LOCAL, thread, ins, Initiator, None);
            var b := LastSigned(me, EMPTY_LOCAL, thread, ins, Recipient, None);
            l.session.Some? ==> (HashesAgree(l.session.value) <==> Truthy(a) && a == b)
  {
    HashesAreTheLastSigned(me, EMPTY_LOCAL, thread, ins, Initiator);
    HashesAreTheLastSigned(me, EMPTY_LOCAL, thread, ins, Recipient);
  }

  // ---- both halves fail on reachable sessions ----

  /** Opened by "i", accepted by "r", and then signed: by the peer over `theirs`, here over `ours`. */
  function SigningRun(theirs: string, ours: string): seq<Input> {
    OPENING + [Input(Incoming("r", SignedMsg(theirs)), ENV)] + [Input(SignHash(ours), ENV)]
  }

  /** The thread after each of the two signatures. */
  function SignedOnce(theirs: string): Local {
    Accepted().(session := Some(Accepted().session.value.(
      signHashes := map[Recipient := theirs], artifactHash := Some(theirs))))
  }

  function SignedTwice(theirs: string, ours: string): Local {
    Accepted().(session := Some(Accepted().session.value.(
      status := Signed, signHashes := map[Recipient := theirs, Initiator := ours], artifactHash := Some(ours))))
  }

  /** A signature of a participant, on a session that is neither overdue nor ended. */
  lemma HearsSignature(me: string, l: Local, thread: string, from: string, hash: string, env: Env)
    requires l.session.Some? && !PastDeadline(l.session.value, env.now) && !Terminal(l.session.value.status)
    requires Participant(l.session.value, from).Some?
    ensures Receive(me, l, thread, from, SignedMsg(hash), env)
            == IncomingSigned(me, l, l.session.value, Participant(l.session.value, from).value, hash, env)
  {
  }

  lemma TheirSignatureGoes(theirs: string)
    ensures After("i", Accepted(), "t", Input(Incoming("r", SignedMsg(theirs)), ENV)) == SignedOnce(theirs)
  {
    hide Receive;
    HearsSignature("i", Accepted(), "t", "r", theirs, ENV);
  }

  lemma OurSignatureGoes(theirs: string, ours: string)
    requires theirs != "" && ours != ""
    ensures After("i", SignedOnce(theirs), "t", Input(SignHash(ours), ENV)) == SignedTwice(theirs, ours)
  {
    var s := SignedOnce(theirs).session.value;
    assert ProfilesFor(s, "i", ENV) == REFERENCE_PROFILES;
    assert ATEST_PROFILE !in REFERENCE_PROFILES;
    assert s.signHashes[Initiator := ours] == map[Recipient := theirs, Initiator := ours];
  }

  lemma SigningRunSigns(theirs: string, ours: string)
    requires theirs != "" && ours != ""
    ensures Feasible("i", EMPTY_LOCAL, "t", SigningRun(theirs, ours))
    ensures Run("i", EMPTY_LOCAL, "t", SigningRun(theirs, ours)) == SignedTwice(theirs, ours)
  {
    OpeningRuns();
    TheirSignatureGoes(theirs);
    OurSignatureGoes(theirs, ours);
    var heard := Input(Incoming("r", SignedMsg(theirs)), ENV);
    Then("i", EMPTY_LOCAL, "t", OPENING, heard);
    Then("i", EMPTY_LOCAL, "t", OPENING + [heard], Input(SignHash(ours), ENV));
  }

  /** A run from nothing to a session signed on two different hashes. */
  lemma SignedOnDifferentHashes()
    ensures Feasible("i", EMPTY_LOCAL, "t", SigningRun("x", "y"))
    ensures var l := Run("i", EMPTY_LOCAL, "t", SigningRun("x", "y"));
            l.session.Some? && l.session.value.status == Signed && !HashesAgree(l.session.value)
  {
    SigningRunSigns("x", "y");
  }

  lemma LateSignatureGoes()
    ensures var late := Input(Incoming("r", SignedMsg("y")), ENV);
            && Step("i", SignedTwice("x", "x"), "t", late.event, late.env).reply == Done
            && After("i", SignedTwice("x", "x"), "t", late).session
               == Some(SignedTwice("y", "x").session.value.(artifactHash := Some("y")))
  {
    hide Receive, IncomingSigned;
    LateSignatureStored();
    HearsSignature("i", SignedTwice("x", "x"), "t", "r", "y", ENV);
  }

  lemma LateSignatureStored()
    ensures var o := IncomingSigned("i", SignedTwice("x", "x"), SignedTwice("x", "x").session.value, Recipient, "y", ENV);
            o.reply == Done && o.local.session == Some(SignedTwice("y", "x").session.value.(artifactHash := Some("y")))
  {
    assert map[Recipient := "x", Initiator := "x"][Recipient := "y"] == map[Recipient := "y", Initiator := "x"];
  }

  /** And one to a session properly signed on one hash, which the peer's next signature silently supersedes. */
  lemma LaterHashSupersedes()
    ensures var late := Input(Incoming("r", SignedMsg("y")), ENV);
            var ins := SigningRun("x", "x") + [late];
            && Feasible("i", EMPTY_LOCAL, "t", SigningRun("x", "x")) && Feasible("i", EMPTY_LOCAL, "t", ins)
            && var l := Run("i", EMPTY_LOCAL, "t", SigningRun("x", "x"));
               var m := Run("i", EMPTY_LOCAL, "t", ins);
               && l.session.Some? && l.session.value.status == Signed && HashesAgree(l.session.value)
               && Step("i", l, "t", late.event, late.env).reply == Done
               && m.session.Some? && m.session.value.status == Signed && !HashesAgree(m.session.value)
               && HashOf(l, Recipient) == Some("x") && HashOf(m, Recipient) == Some("y")
  {
    SigningRunSigns("x", "x");
    LateSignatureGoes();
    Then("i", EMPTY_LOCAL, "t", SigningRun("x", "x"), Input(Incoming("r", SignedMsg("y")), ENV));
  }
}
