/**
 * Co-signing: over all events, which one adds a role's ratification and which one seals the record, and
 * over whole runs that both ratifications make a co-signed record.
 */
module CoSignRule {
  import opened Options
  import opened SessionTypes
  import opened ThreadSteps
  import opened BudgetSteps
  import opened MachineSteps
  import opened ThreadInvariant
  import opened StepEffects
  import opened ThreadRuns
  import opened NoticeRule
  import opened StatusRule
  import opened SignatureRule
  import opened SampleRuns

  // ---- one event ----

  /** The role whose ratification an event brings. */
  ghost function RatifierOf(me: string, l: Local, e: Event, env: Env): set<Role> {
    if l.session.None? || !Admits(me, l, e, env) then {}
    else if e.RatifyWith? then {l.session.value.role}
    else if e.Incoming? && e.msg.RatifiedMsg? then {Other(l.session.value.role)}
    else {}
  }

  /** The hash the record is sealed on: the ratified one, or for a peer's ratification the recorded one. */
  function SealedHash(l: Local, e: Event): Option<string>
    requires l.session.Some?
  {
    if e.RatifyWith? then RatifiedHash(l, e.byItem, e.given) else l.session.value.artifactHash
  }

  function NoRecord(): (set<Role>, Option<string>, map<string, Signature>) {
    ({}, None, map[])
  }

  /** Who ratified, the co-signed hash and the signatures. */
  function Seal(l: Local): (set<Role>, Option<string>, map<string, Signature>) {
    if l.session.None? then NoRecord()
    else (l.session.value.ratified, l.session.value.coSignedHash, l.session.value.signatures)
  }

  function RecordedHash(l: Local): Option<string> {
    if l.session.None? then None else l.session.value.artifactHash
  }

  predicate SaysSigned(e: Event) {
    e.SignHash? || (e.Incoming? && e.msg.SignedMsg?)
  }

  /** A sealed record: closed on a hash that is no longer empty, signed here, and ratified by both. */
  ghost predicate SealedOn(me: string, s: Record, m: Local, h: Option<string>) {
    && m.session.Some? && Truthy(h)
    && var t := m.session.value;
    && t.status == Closed && t.coSignedHash == h && t.artifactHash == h && BothRatified(t)
    && t.signatures == s.signatures[me := Signature(me, h.value)]
  }

  ghost predicate Unsealed(l: Local, e: Event, o: Out) {
    && !o.unbond && Seal(o.local).1 == Seal(l).1 && Seal(o.local).2 == Seal(l).2
    && (RecordedHash(o.local) == RecordedHash(l) || (SaysSigned(e) && o.reply == Done))
  }

  ghost predicate SealCharted(me: string, l: Local, e: Event, env: Env, o: Out) {
    && Seal(o.local).0 == Seal(l).0 + RatifierOf(me, l, e, env)
    && if CoSigns(me, l, e, env) then o.unbond && SealedOn(me, l.session.value, o.local, SealedHash(l, e))
       else Unsealed(l, e, o)
  }

  // ---- events that ratify nothing ----

  predicate Ratifies(e: Event) {
    e.RatifyWith? || (e.Incoming? && e.msg.RatifiedMsg?)
  }

  ghost predicate SameSeal(l: Local, e: Event, o: Out) {
    && !o.unbond && Seal(o.local) == Seal(l)
    && (RecordedHash(o.local) == RecordedHash(l) || (SaysSigned(e) && o.reply == Done))
  }

  lemma UnratifiedCharted(me: string, l: Local, e: Event, env: Env, o: Out)
    requires !Ratifies(e) && SameSeal(l, e, o)
    ensures SealCharted(me, l, e, env, o)
  {
    hide Admits;
  }

  lemma VerdictSeal(l: Local, id: string, text: string, viaHuman: bool, env: Env)
    ensures SameSeal(l, ApproveOpenBy(id, viaHuman), ApproveOpen(l, id, viaHuman, env))
    ensures SameSeal(l, RejectOpenBy(id, text, viaHuman), RejectOpen(l, id, text, viaHuman, env))
  {
  }

  lemma OpeningSeal(me: string, l: Local, thread: string, e: Event, env: Env)
    requires Possible(me, l, e) && OnOpening(e)
    ensures SameSeal(l, e, Step(me, l, thread, e, env))
  {
    hide ApproveOpen, RejectOpen;
    match e {
      case ApproveOpenBy(id, viaHuman) => VerdictSeal(l, id, "", viaHuman, env);
      case RejectOpenBy(id, text, viaHuman) => VerdictSeal(l, id, text, viaHuman, env);
      case _ =>
    }
  }

  lemma SignSeal(me: string, l: Local, hash: string, env: Env)
    ensures SameSeal(l, SignHash(hash), Sign(me, l, hash, env))
  {
  }

  lemma TalkSeal(me: string, l: Local, thread: string, e: Event, env: Env)
    requires OnTalk(e)
    ensures SameSeal(l, e, Step(me, l, thread, e, env))
  {
    hide Sign, SetRunnerReport;
    if e.SignHash? {
      SignSeal(me, l, e.hash, env);
    }
  }

  lemma CloseSeal(l: Local, reason: Option<string>, env: Env)
    ensures SameSeal(l, CloseThread(reason), ThreadClose(l, reason, env))
  {
  }

  lemma RevokeSeal(me: string, l: Local, peer: string)
    ensures SameSeal(l, RevokeBond(peer), Quiet(BondRevoke(me, l, peer), Done))
  {
    hide BondRevoke;
    RevokedSession(me, l, peer);
  }

  lemma CareSeal(me: string, l: Local, thread: string, e: Event, env: Env)
    requires OnCare(e) && !e.RatifyWith?
    ensures SameSeal(l, e, Step(me, l, thread, e, env))
  {
    hide BondRevoke, ThreadClose;
    match e {
      case CloseThread(reason) => CloseSeal(l, reason, env);
      case RevokeBond(peer) => RevokeSeal(me, l, peer);
      case _ =>
    }
  }

  lemma DraftSeal(me: string, l: Local, n: int, p: string, env: Env)
    ensures SameSeal(l, Extend(n, p), ExtendBudget(me, l, n, p, env)) && SameSeal(l, Retry, RetryExtend(l, env))
  {
  }

  lemma ApproveExtendSeal(me: string, l: Local, id: string, viaHuman: bool, env: Env)
    ensures SameSeal(l, ApproveExtendBy(id, viaHuman), ApproveExtend(me, l, id, viaHuman, env))
  {
  }

  lemma RejectExtendSeal(me: string, l: Local, id: string, viaHuman: bool, why: Option<string>, env: Env)
    ensures SameSeal(l, RejectExtendBy(id, viaHuman, why), RejectExtend(me, l, id, viaHuman, why, env))
  {
  }

  lemma BudgetSeal(me: string, l: Local, thread: string, e: Event, env: Env)
    requires OnBudget(e)
    ensures SameSeal(l, e, Step(me, l, thread, e, env))
  {
    hide ExtendBudget, ApproveExtend, RejectExtend, RetryExtend, SameSeal;
    match e {
      case Extend(n, p) => DraftSeal(me, l, n, p, env);
      case Retry => DraftSeal(me, l, 0, "", env);
      case ApproveExtendBy(id, viaHuman) => ApproveExtendSeal(me, l, id, viaHuman, env);
      case RejectExtendBy(id, viaHuman, why) => RejectExtendSeal(me, l, id, viaHuman, why, env);
    }
  }

  lemma BudgetWordSeal(me: string, l: Local, from: string, p: Payload, env: Env)
    ensures SameSeal(l, Incoming(from, BudgetPropose(p)), IncomingPropose(me, l, from, p, env))
    ensures SameSeal(l, Incoming(from, BudgetApproved(p)), IncomingApproved(l, from, p))
    ensures SameSeal(l, Incoming(from, BudgetReject(p)), IncomingReject(l, from, p))
  {
  }

  lemma SignedWordSeal(me: string, l: Local, s: Record, role: Role, from: string, hash: string, env: Env)
    requires l.session == Some(s)
    ensures SameSeal(l, Incoming(from, SignedMsg(hash)), IncomingSigned(me, l, s, role, hash, env))
  {
  }

  lemma WordSeal(me: string, l: Local, s: Record, role: Role, from: string, msg: Msg, env: Env)
    requires l.session == Some(s)
    ensures SameSeal(l, Incoming(from, msg), PeerWord(me, l, s, role, msg, env))
  {
    hide IncomingSigned, SetRunnerReport;
    if msg.SignedMsg? {
      SignedWordSeal(me, l, s, role, from, msg.hash, env);
    }
  }

  lemma DeliverSeal(me: string, l: Local, thread: string, from: string, msg: Msg, env: Env)
    requires !msg.RatifiedMsg?
    ensures SameSeal(l, Incoming(from, msg), Deliver(me, l, thread, from, msg, env))
  {
    hide PeerWord, IncomingPropose, IncomingApproved, IncomingReject;
    match msg {
      case BudgetPropose(p) => BudgetWordSeal(me, l, from, p, env);
      case BudgetApproved(p) => BudgetWordSeal(me, l, from, p, env);
      case BudgetReject(p) => BudgetWordSeal(me, l, from, p, env);
      case Turn | Challenge | ReportMsg(_) | SignedMsg(_) =>
        if l.session.Some? && Participant(l.session.value, from).Some? {
          WordSeal(me, l, l.session.value, Participant(l.session.value, from).value, from, msg, env);
        }
      case _ =>
    }
  }

  lemma HeardSeal(me: string, l: Local, thread: string, from: string, msg: Msg, env: Env)
    requires !msg.RatifiedMsg?
    ensures SameSeal(l, Incoming(from, msg), Receive(me, l, thread, from, msg, env))
  {
    hide Deliver;
    DeliverSeal(me, EnsureLive(l, env.now), thread, from, msg, env);
  }

  lemma OthersSeal(me: string, l: Local, thread: string, e: Event, env: Env)
    requires Possible(me, l, e) && !Ratifies(e)
    ensures SameSeal(l, e, Step(me, l, thread, e, env))
  {
    hide Step, SameSeal;
    if OnOpening(e) {
      OpeningSeal(me, l, thread, e, env);
    } else if OnTalk(e) {
      TalkSeal(me, l, thread, e, env);
    } else if OnCare(e) {
      CareSeal(me, l, thread, e, env);
    } else if OnBudget(e) {
      BudgetSeal(me, l, thread, e, env);
    } else {
      IncomingSeal(me, l, thread, e, env);
    }
  }

  lemma IncomingSeal(me: string, l: Local, thread: string, e: Event, env: Env)
    requires e.Incoming? && Possible(me, l, e) && !Ratifies(e)
    ensures SameSeal(l, e, Step(me, l, thread, e, env))
  {
    hide Receive, SameSeal;
    HeardSeal(me, l, thread, e.from, e.msg, env);
  }

  // ---- the two that do ----

  lemma OwnRatifies(me: string, l: Local, byItem: Option<string>, given: Option<string>, viaHuman: bool, env: Env)
    ensures var o := RatifyBy(me, l, byItem, given, viaHuman, env);
            if MayRatify(l, byItem, given, viaHuman) then
              o == RatifyNow(me, l, l.session.value, RatifiedHash(l, byItem, given).value, env)
            else o.local == l && !o.unbond
  {
    hide RatifyNow;
    if byItem.Some? {
      FoundIsQueued(l.ratifies, byItem.value);
    }
  }

  /** What the human's ratification leaves, before it is compared with the rule. */
  lemma RatifiedNow(me: string, l: Local, s: Record, hash: string, env: Env)
    requires s.role == RoleFor(s, me)
    ensures var o := RatifyNow(me, l, s, hash, env);
            if Other(s.role) in s.ratified then
              && o.unbond && o.local.session == Some(Finalize(s.(ratified := s.ratified + {s.role}), me, hash))
              && BothRatified(o.local.session.value)
            else !o.unbond && o.local.session == Some(s.(ratified := s.ratified + {s.role}))
  {
  }

  lemma OwnRatificationSeals(me: string, l: Local, byItem: Option<string>, given: Option<string>, viaHuman: bool, env: Env)
    requires Inv(me, l)
    ensures SealCharted(me, l, RatifyWith(byItem, given, viaHuman), env, RatifyBy(me, l, byItem, given, viaHuman, env))
  {
    hide RatifyBy, RatifyNow, RatifiedHash;
    OwnRatifies(me, l, byItem, given, viaHuman, env);
    if MayRatify(l, byItem, given, viaHuman) {
      RatifiedNow(me, l, l.session.value, RatifiedHash(l, byItem, given).value, env);
    }
  }

  /** What a peer's ratification leaves, before it is compared with the rule. */
  lemma RatifiedByPeer(me: string, l: Local, s: Record, env: Env)
    requires l.session == Some(s) && !Terminal(s.status)
    ensures var o := IncomingRatified(me, l, s, Other(s.role));
            var t := s.(ratified := s.ratified + {Other(s.role)});
            if s.role in s.ratified && Truthy(s.artifactHash) then
              o.unbond && o.local.session == Some(Finalize(t, me, s.artifactHash.value)) && BothRatified(t)
            else !o.unbond && o.local.session == Some(t)
  {
    hide Finalize;
  }

  /** It counts on a session that is not over, from the peer alone. */
  lemma PeerRatifies(me: string, l: Local, thread: string, from: string, env: Env)
    requires Inv(me, l) && from != me
    ensures var o := Receive(me, l, thread, from, RatifiedMsg, env);
            if l.session.Some? && !Over(l.session.value, env.now) && from == PeerFor(l.session.value, me) then
              o == IncomingRatified(me, l, l.session.value, Other(l.session.value.role))
            else !o.unbond && Seal(o.local) == Seal(l) && RecordedHash(o.local) == RecordedHash(l)
  {
    hide Finalize, BothRatified, Truthy;
  }

  lemma NotOver(s: Record, now: int)
    requires !Over(s, now)
    ensures !Terminal(s.status)
  {
  }

  lemma PeerRatifier(me: string, l: Local, from: string, env: Env)
    requires Inv(me, l) && from != me
    ensures var e := Incoming(from, RatifiedMsg);
            if l.session.None? then RatifierOf(me, l, e, env) == {} && !CoSigns(me, l, e, env)
            else
              var s := l.session.value;
              var counts := !Over(s, env.now) && from == PeerFor(s, me);
              && s.ratified + RatifierOf(me, l, e, env) == (if counts then s.ratified + {Other(s.role)} else s.ratified)
              && (CoSigns(me, l, e, env) <==> counts && s.role in s.ratified && Truthy(s.artifactHash))
  {
  }

  lemma PeerRatificationSeals(me: string, l: Local, thread: string, from: string, env: Env)
    requires Inv(me, l) && from != me
    ensures SealCharted(me, l, Incoming(from, RatifiedMsg), env, Receive(me, l, thread, from, RatifiedMsg, env))
  {
    hide Receive, IncomingRatified, RatifierOf, CoSigns, Inv, Over;
    PeerRatifies(me, l, thread, from, env);
    PeerRatifier(me, l, from, env);
    if l.session.Some? && !Over(l.session.value, env.now) && from == PeerFor(l.session.value, me) {
      NotOver(l.session.value, env.now);
      RatifiedByPeer(me, l, l.session.value, env);
    }
  }

  lemma StepSeals(me: string, l: Local, thread: string, e: Event, env: Env)
    requires Inv(me, l) && Possible(me, l, e)
    ensures SealCharted(me, l, e, env, Step(me, l, thread, e, env))
  {
    hide SealCharted, Receive, RatifyBy, HandleOpen, ApproveOpen, RejectOpen, ExpireSession, ResolveOpen, TakeTurn,
         FileChallenge, FileReport, SayNothing, Sign, ResolveRatify, ReadStatus, BondRevoke, ThreadClose, ExtendBudget,
         ApproveExtend, RejectExtend, RetryExtend, Inv;
    if e.RatifyWith? {
      OwnRatificationSeals(me, l, e.byItem, e.given, e.viaHuman, env);
    } else if Ratifies(e) {
      PeerRatificationSeals(me, l, thread, e.from, env);
    } else {
      OthersSeal(me, l, thread, e, env);
      UnratifiedCharted(me, l, e, env, Step(me, l, thread, e, env));
    }
  }

  /**
   * Over all events: the record is sealed by exactly one kind of event, one role's accepted ratification on
   * top of the other role's. It is then closed on the ratified hash, or on the recorded one when the peer
   * comes second, signed here, and the ephemeral bond goes. No other event touches the co-signed hash, the
   * signatures or the bond, and the roles that ratified grow by exactly the accepted ratifications.
   */
  lemma CoSignedIff(me: string, l: Local, thread: string, e: Event, env: Env)
    requires Inv(me, l) && Possible(me, l, e)
    ensures var o := Step(me, l, thread, e, env);
            && Seal(o.local).0 == Seal(l).0 + RatifierOf(me, l, e, env)
            && if CoSigns(me, l, e, env) then o.unbond && SealedOn(me, l.session.value, o.local, SealedHash(l, e))
               else !o.unbond && Seal(o.local).1 == Seal(l).1 && Seal(o.local).2 == Seal(l).2
  {
    hide Step, Seal, RatifierOf, CoSigns, SealedOn;
    StepSeals(me, l, thread, e, env);
  }

  /** What the recorded hash becomes: the one sealed on, else the one signed last, else what it was. */
  lemma RecordedHashIs(me: string, l: Local, thread: string, i: Input)
    requires Inv(me, l) && Possible(me, l, i.event)
    ensures var m := After(me, l, thread, i);
            var signed := Signs(me, l, thread, i);
            RecordedHash(m) ==
              if CoSigns(me, l, i.event, i.env) then SealedHash(l, i.event)
              else if signed.Some? then Some(signed.value.1)
              else RecordedHash(l)
  {
    hide Step, RatifierOf, CoSigns;
    StepSeals(me, l, thread, i.event, i.env);
    StepSigns(me, l, thread, i);
    if Signs(me, l, thread, i).None? && SaysSigned(i.event) {
      UnheardSignature(me, l, thread, i);
    }
  }

  lemma UnheardSignature(me: string, l: Local, thread: string, i: Input)
    requires Possible(me, l, i.event) && Signs(me, l, thread, i).None? && SaysSigned(i.event)
    ensures Step(me, l, thread, i.event, i.env).reply != Done
  {
    hide RecordSign, EnsureRatifyItem, GateActive, CeremonyComplete, ProfilesFor;
  }

  // ---- whole runs ----

  /** The roles whose ratification was accepted in a run, read off the run alone. */
  ghost function Ratifiers(me: string, l: Local, thread: string, ins: seq<Input>): set<Role>
    requires Feasible(me, l, thread, ins)
    decreases |ins|
  {
    if ins == [] then {}
    else RatifierOf(me, l, ins[0].event, ins[0].env) + Ratifiers(me, After(me, l, thread, ins[0]), thread, ins[1..])
  }

  /** After any run exactly those roles are recorded as ratified whose ratification was accepted in it. */
  lemma {:induction false} RatifiedAreTheRatifiers(me: string, l: Local, thread: string, ins: seq<Input>)
    requires Inv(me, l) && Feasible(me, l, thread, ins)
    ensures Seal(Run(me, l, thread, ins)).0 == Seal(l).0 + Ratifiers(me, l, thread, ins)
    decreases |ins|
  {
    hide Step, RatifierOf, CoSigns;
    if ins != [] {
      StepSeals(me, l, thread, ins[0].event, ins[0].env);
      StepGood(me, l, thread, ins[0].event, ins[0].env);
      RatifiedAreTheRatifiers(me, After(me, l, thread, ins[0]), thread, ins[1..]);
    }
  }

  /** No accepted signature of the run is over an empty hash. */
  ghost predicate SignsSomething(me: string, l: Local, thread: string, ins: seq<Input>)
    requires Feasible(me, l, thread, ins)
    decreases |ins|
  {
    ins != [] ==>
      && (Signs(me, l, thread, ins[0]).Some? ==> Signs(me, l, thread, ins[0]).value.1 != "")
      && SignsSomething(me, After(me, l, thread, ins[0]), thread, ins[1..])
  }

  /** The second ratification always finds a hash to seal on. */
  ghost predicate Sealable(l: Local) {
    l.session.Some? ==>
      var s := l.session.value;
      && s.artifactHash != Some("")
      && (s.status == Signed || (s.role in s.ratified && !Terminal(s.status)) ==> s.artifactHash.Some?)
      && (BothRatified(s) ==> s.coSignedHash.Some?)
  }

  lemma OthersOrSigns(me: string, l: Local, thread: string, i: Input)
    requires Possible(me, l, i.event)
    ensures Signs(me, l, thread, i).Some? || NotNewlySigned(l, After(me, l, thread, i))
  {
    hide Step, Signs, RecordSign;
    StepSigns(me, l, thread, i);
  }

  /** A ratification of one's own is accepted only after signing. */
  lemma OwnRatifier(me: string, l: Local, e: Event, env: Env)
    requires Inv(me, l) && l.session.Some? && l.session.value.role in RatifierOf(me, l, e, env)
    ensures e.RatifyWith? && (l.session.value.status == Signed || l.session.value.status == Closed)
  {
  }

  lemma NothingToRatify(me: string, l: Local, e: Event, env: Env)
    requires l.session.None?
    ensures RatifierOf(me, l, e, env) == {} && !CoSigns(me, l, e, env)
  {
  }

  lemma BothAreAll(rs: set<Role>)
    ensures Initiator in rs && Recipient in rs <==> rs == {Initiator, Recipient}
  {
    if Initiator in rs && Recipient in rs {
      forall r | r in rs ensures r in {Initiator, Recipient} {
        assert r == Initiator || r == Recipient;
      }
    }
  }

  /** Whoever ratifies second seals the record, unless it is sealed already. */
  lemma SecondSeals(me: string, l: Local, thread: string, e: Event, env: Env)
    requires Inv(me, l) && Possible(me, l, e) && Sealable(l) && l.session.Some?
    requires Seal(l).0 + RatifierOf(me, l, e, env) == {Initiator, Recipient}
    ensures CoSigns(me, l, e, env) || l.session.value.coSignedHash.Some?
  {
    var s := l.session.value;
    assert Initiator in Seal(l).0 + RatifierOf(me, l, e, env) && Recipient in Seal(l).0 + RatifierOf(me, l, e, env);
    assert s.role in s.ratified || s.role in RatifierOf(me, l, e, env);
    assert Other(s.role) in s.ratified || Other(s.role) in RatifierOf(me, l, e, env);
  }

  lemma SealableStep(me: string, l: Local, thread: string, i: Input)
    requires Inv(me, l) && Possible(me, l, i.event) && Sealable(l)
    requires Signs(me, l, thread, i).Some? ==> Signs(me, l, thread, i).value.1 != ""
    ensures Sealable(After(me, l, thread, i))
  {
    hide Step, Signs, RatifierOf, CoSigns, SealedHash;
    var m := After(me, l, thread, i);
    StepGood(me, l, thread, i.event, i.env);
    StepSeals(me, l, thread, i.event, i.env);
    RecordedHashIs(me, l, thread, i);
    OthersOrSigns(me, l, thread, i);
    if l.session.None? {
      NothingToRatify(me, l, i.event, i.env);
    } else {
      if l.session.value.role in RatifierOf(me, l, i.event, i.env) {
        OwnRatifier(me, l, i.event, i.env);
      }
      if BothRatified(m.session.value) {
        BothAreAll(Seal(m).0);
        SecondSeals(me, l, thread, i.event, i.env);
      }
    }
  }

  lemma {:induction false} SealableRuns(me: string, l: Local, thread: string, ins: seq<Input>)
    requires Inv(me, l) && Sealable(l) && Feasible(me, l, thread, ins) && SignsSomething(me, l, thread, ins)
    ensures Inv(me, Run(me, l, thread, ins)) && Sealable(Run(me, l, thread, ins))
    decreases |ins|
  {
    hide Step, Signs;
    if ins != [] {
      SealableStep(me, l, thread, ins[0]);
      StepGood(me, l, thread, ins[0].event, ins[0].env);
      SealableRuns(me, After(me, l, thread, ins[0]), thread, ins[1..]);
    }
  }

  /**
   * After any run in which nobody signs an empty hash, the record is co-signed exactly when the
   * ratifications of both roles were accepted.
   */
  lemma CoSignedIffBothRatified(me: string, thread: string, ins: seq<Input>)
    requires Feasible(me, EMPTY_LOCAL, thread, ins) && SignsSomething(me, EMPTY_LOCAL, thread, ins)
    ensures var l := Run(me, EMPTY_LOCAL, thread, ins);
            l.session.Some? && l.session.value.coSignedHash.Some?
            <==> Ratifiers(me, EMPTY_LOCAL, thread, ins) == {Initiator, Recipient}
  {
    hide Step, Signs;
    SealableRuns(me, EMPTY_LOCAL, thread, ins);
    RatifiedAreTheRatifiers(me, EMPTY_LOCAL, thread, ins);
    var l := Run(me, EMPTY_LOCAL, thread, ins);
    BothAreAll(Seal(l).0);
  }

  // ---- an empty hash keeps the second ratification from sealing ----

  /** Signed by both on "x", then by the peer over nothing, then ratified here and by the peer. */
  function EmptyHashRun(): seq<Input> {
    SigningRun("x", "x") + [Input(Incoming("r", SignedMsg("")), ENV)]
    + [Input(RatifyWith(None, Some("x"), true), ENV)] + [Input(Incoming("r", RatifiedMsg), ENV)]
  }

  function Blanked(ratified: set<Role>): Local {
    var l := SignedTwice("", "x");
    l.(session := Some(l.session.value.(artifactHash := Some(""), ratified := ratified)))
  }

  lemma EmptySignatureStored()
    ensures IncomingSigned("i", SignedTwice("x", "x"), SignedTwice("x", "x").session.value, Recipient, "", ENV).local == Blanked({})
  {
    assert map[Recipient := "x", Initiator := "x"][Recipient := ""] == map[Recipient := "", Initiator := "x"];
  }

  lemma EmptySignatureGoes()
    ensures After("i", SignedTwice("x", "x"), "t", Input(Incoming("r", SignedMsg("")), ENV)) == Blanked({})
  {
    hide Receive, IncomingSigned;
    HearsSignature("i", SignedTwice("x", "x"), "t", "r", "", ENV);
    EmptySignatureStored();
  }

  lemma OwnRatificationGoes()
    ensures After("i", Blanked({}), "t", Input(RatifyWith(None, Some("x"), true), ENV)) == Blanked({Initiator})
  {
    assert {} + {Initiator} == {Initiator};
  }

  lemma TheirRatificationGoes()
    ensures After("i", Blanked({Initiator}), "t", Input(Incoming("r", RatifiedMsg), ENV)) == Blanked({Initiator, Recipient})
  {
    assert {Initiator} + {Recipient} == {Initiator, Recipient};
    assert EnsureLive(Blanked({Initiator}), 1) == Blanked({Initiator});
  }

  /** So both roles may have ratified a session that is not co-signed, and no ratification is left to wait for. */
  lemma EmptyHashIsNotCoSigned()
    ensures Feasible("i", EMPTY_LOCAL, "t", EmptyHashRun())
    ensures var l := Run("i", EMPTY_LOCAL, "t", EmptyHashRun());
            && l.session.Some? && BothRatified(l.session.value)
            && l.session.value.status == Signed && l.session.value.coSignedHash.None?
  {
    var blank := Input(Incoming("r", SignedMsg("")), ENV);
    var own := Input(RatifyWith(None, Some("x"), true), ENV);
    SigningRunSigns("x", "x");
    EmptySignatureGoes();
    OwnRatificationGoes();
    TheirRatificationGoes();
    Then("i", EMPTY_LOCAL, "t", SigningRun("x", "x"), blank);
    Then("i", EMPTY_LOCAL, "t", SigningRun("x", "x") + [blank], own);
    Then("i", EMPTY_LOCAL, "t", SigningRun("x", "x") + [blank] + [own], Input(Incoming("r", RatifiedMsg), ENV));
  }
}
