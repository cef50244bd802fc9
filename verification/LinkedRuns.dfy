/**
 * Two linked machines that get through: an opening that is approved, refused or left too late, and a
 * session that is signed and ratified by both sides, with every envelope delivered.
 */
module LinkedRuns {
  import opened Options
  import opened SessionTypes
  import opened ThreadSteps
  import opened MachineSteps
  import opened ThreadInvariant
  import opened TwoParty

  lemma {:induction false} PlayThen(w: World, s: Sys, mvs: seq<Move>, mv: Move)
    requires w.alice != w.bob && Legal(w, s, mvs) && Enabled(w, Play(w, s, mvs), mv)
    ensures Legal(w, s, mvs + [mv]) && Play(w, s, mvs + [mv]) == Next(w, Play(w, s, mvs), mv)
    decreases |mvs|
  {
    hide Next, Enabled;
    if mvs == [] {
      assert mvs + [mv] == [mv] && [mv][1..] == [];
    } else {
      assert (mvs + [mv])[0] == mvs[0] && (mvs + [mv])[1..] == mvs[1..] + [mv];
      PlayThen(w, Next(w, s, mvs[0]), mvs[1..], mv);
    }
  }

  // ---- opening ----

  /** Where the two sides stand: their records, and what is under way in either direction. */
  ghost predicate At(s: Sys, a: Record, b: Record, ab: seq<Msg>, ba: seq<Msg>) {
    s.a.session == Some(a) && s.b.session == Some(b) && s.ab == ab && s.ba == ba
  }

  /** Alice opens, and bob's machine hears of it and queues it for its human. */
  function Asking(w: World, terms: Terms, asked: Env, heard: Env): seq<Move> {
    [Act(Initiator, Open(w.bob, terms, true), asked)] + [Deliver(Recipient, heard)]
  }

  function AliceOpens(w: World, terms: Terms, now: int): Record {
    NewSession(w.thread, w.alice, w.bob, Initiator, terms, now)
  }

  function BobHears(w: World, terms: Terms, now: int): Record {
    NewSession(w.thread, w.alice, w.bob, Recipient, terms, now)
  }

  lemma OpenGoes(w: World, terms: Terms, env: Env)
    requires w.alice != w.bob && env.sendOk && env.now <= terms.budget.deadline
    ensures var mv := Act(Initiator, Open(w.bob, terms, true), env);
            && Enabled(w, START, mv)
            && var s := Next(w, START, mv);
               s.a.session == Some(AliceOpens(w, terms, env.now)) && s.b == EMPTY_LOCAL && s.ab == [NegoOpen(terms)] && s.ba == []
  {
  }

  lemma OpenIsHeard(w: World, terms: Terms, s: Sys, env: Env)
    requires w.alice != w.bob && s.b == EMPTY_LOCAL && s.ab == [NegoOpen(terms)] && env.now <= terms.budget.deadline
    ensures var t := Next(w, s, Deliver(Recipient, env));
            && t.a == s.a && t.ab == [] && t.ba == s.ba
            && t.b == Local(Some(BobHears(w, terms, env.now)), [OpenItemFor(BobHears(w, terms, env.now), env.freshId)], [], [])
  {
    var o := BobDoes(w, s, Incoming(w.alice, s.ab[0]), env);
    assert o == IncomingOpen(w.bob, s.b, w.thread, w.alice, terms, env);
  }

  lemma AskingGoes(w: World, terms: Terms, asked: Env, heard: Env)
    requires w.alice != w.bob && asked.sendOk && asked.now <= terms.budget.deadline && heard.now <= terms.budget.deadline
    ensures Legal(w, START, Asking(w, terms, asked, heard))
    ensures var s := Play(w, START, Asking(w, terms, asked, heard));
            && At(s, AliceOpens(w, terms, asked.now), BobHears(w, terms, heard.now), [], [])
            && s.b.opens == [OpenItemFor(BobHears(w, terms, heard.now), heard.freshId)]
  {
    hide Next;
    OpenGoes(w, terms, asked);
    var mv := Act(Initiator, Open(w.bob, terms, true), asked);
    PlayThen(w, START, [], mv);
    assert [] + [mv] == [mv];
    OpenIsHeard(w, terms, Next(w, START, mv), heard);
    PlayThen(w, START, [mv], Deliver(Recipient, heard));
  }

  /** The record a verdict of bob's human leaves on either side. */
  function Answered(r: Record, verdict: Event): Record
    requires verdict.ApproveOpenBy? || verdict.RejectOpenBy?
  {
    if verdict.ApproveOpenBy? then r.(status := Live) else r.(status := OpenRejected, rejectReason := Some(verdict.text))
  }

  /** A verdict of bob's human on the item with this id. */
  predicate VerdictOn(verdict: Event, id: string) {
    (verdict.ApproveOpenBy? || verdict.RejectOpenBy?) && verdict.id == id && verdict.viaHuman
  }

  function NoticeOf(verdict: Event): Msg {
    if verdict.RejectOpenBy? then OpenReject(Some(verdict.text)) else OpenApproved
  }

  lemma VerdictGoes(w: World, s: Sys, a: Record, b: Record, id: string, verdict: Event, env: Env)
    requires w.alice != w.bob && At(s, a, b, [], []) && s.b.opens == [OpenItemFor(b, id)] && VerdictOn(verdict, id)
    requires env.sendOk
    ensures var t := Next(w, s, Act(Recipient, verdict, env));
            if env.now <= b.expiresAt && env.now <= b.terms.budget.deadline then
              At(t, a, Answered(b, verdict), [], [NoticeOf(verdict)])
            else At(t, a, b.(status := OpenExpired), [], if b.role == Recipient then [OpenExpiredMsg] else [])
  {
    var q := s.b.opens;
    assert FindId(q, id) == Some(q[0]);
    assert [] + [NoticeOf(verdict)] == [NoticeOf(verdict)] && [] + [OpenExpiredMsg] == [OpenExpiredMsg];
  }

  lemma NoticeIsHeard(w: World, s: Sys, a: Record, b: Record, msg: Msg, env: Env)
    requires w.alice != w.bob && At(s, a, b, [], [msg]) && a.status == Pending && a.initiator == w.alice && a.recipient == w.bob
    requires (msg.OpenReject? && msg.reason.Some?) || msg.OpenApproved? || msg.OpenExpiredMsg?
    ensures var t := Next(w, s, Deliver(Initiator, env));
            var answered := match msg
                            case OpenReject(reason) => a.(status := OpenRejected, rejectReason := reason)
                            case OpenExpiredMsg => a.(status := OpenExpired)
                            case _ => a.(status := Live);
            At(t, answered, b, [], [])
  {
    var o := AliceDoes(w, s, Incoming(w.bob, s.ba[0]), env);
    assert EnsureLive(s.a, env.now) == s.a;
    assert o == OpeningAnswer(s.a, a, w.bob, msg);
  }

  /**
   * From the start, opening, delivery, the verdict of bob's human and delivery again, with sends that work:
   * a verdict in time makes both sides live on the proposed terms, or both rejected for the given reason,
   * and a late one makes both expired. Nothing is left under way.
   */
  lemma OpeningComesThrough(w: World, terms: Terms, verdict: Event, asked: Env, heard: Env, answered: Env, told: Env)
    requires w.alice != w.bob && asked.sendOk && answered.sendOk && VerdictOn(verdict, heard.freshId)
    requires asked.now <= terms.budget.deadline && heard.now <= terms.budget.deadline
    ensures var mvs := Asking(w, terms, asked, heard) + [Act(Recipient, verdict, answered)] + [Deliver(Initiator, told)];
            && Legal(w, START, mvs)
            && var s := Play(w, START, mvs);
               var a, b := AliceOpens(w, terms, asked.now), BobHears(w, terms, heard.now);
               if answered.now <= b.expiresAt && answered.now <= terms.budget.deadline then
                 At(s, Answered(a, verdict), Answered(b, verdict), [], [])
               else At(s, a.(status := OpenExpired), b.(status := OpenExpired), [], [])
  {
    hide Next, Play, Legal;
    var a, b := AliceOpens(w, terms, asked.now), BobHears(w, terms, heard.now);
    var mvs := Asking(w, terms, asked, heard);
    AskingGoes(w, terms, asked, heard);
    var s := Play(w, START, mvs);
    var verdictMove := Act(Recipient, verdict, answered);
    VerdictGoes(w, s, a, b, heard.freshId, verdict, answered);
    PlayThen(w, START, mvs, verdictMove);
    var t := Next(w, s, verdictMove);
    if answered.now <= b.expiresAt && answered.now <= terms.budget.deadline {
      NoticeIsHeard(w, t, a, Answered(b, verdict), NoticeOf(verdict), told);
    } else {
      NoticeIsHeard(w, t, a, b.(status := OpenExpired), OpenExpiredMsg, told);
    }
    PlayThen(w, START, mvs + [verdictMove], Deliver(Initiator, told));
  }

  // ---- signing and ratifying ----

  /** A live record both sides may sign at once: no criterion is executable, and nothing was signed yet. */
  ghost predicate Ready(r: Record) {
    && r.status == Live && r.extension.None? && (forall c :: c in r.terms.acceptance ==> !c.executable)
    && r.signHashes == map[] && r.ratified == {} && r.artifactHash.None? && r.coSignedHash.None? && r.signatures == map[]
  }

  function SignedBy(r: Record, who: set<Role>, hash: string): Record {
    r.(signHashes := map x | x in who :: hash, artifactHash := Some(hash),
       status := if who == {Initiator, Recipient} then Signed else r.status)
  }

  function RatifiedBy(r: Record, who: set<Role>): Record {
    r.(ratified := who)
  }

  function CoSigned(r: Record, me: string, hash: string): Record {
    r.(ratified := {Initiator, Recipient}, status := Closed, coSignedHash := Some(hash),
       signatures := map[me := Signature(me, hash)])
  }

  /** A relay that answers, before the deadline. */
  predicate Smooth(env: Env, terms: Terms) {
    env.sendOk && env.now <= terms.budget.deadline
  }

  lemma SignGoes(me: string, l: Local, r: Record, before: set<Role>, hash: string, env: Env)
    requires Ready(r) && l.session == Some(if before == {} then r else SignedBy(r, before, hash))
    requires (before == {} && RoleFor(r, me) == Initiator) || (before == {Initiator} && RoleFor(r, me) == Recipient)
    requires hash != "" && Smooth(env, r.terms)
    ensures var o := Sign(me, l, hash, env);
            o.local.session == Some(SignedBy(r, before + {RoleFor(r, me)}, hash)) && o.sent == [SignedMsg(hash)]
  {
    var s := l.session.value;
    assert !GateActive(s, ProfilesFor(s, me, env));
    var after := before + {RoleFor(r, me)};
    assert s.signHashes[RoleFor(r, me) := hash] == SignedBy(r, after, hash).signHashes;
    assert Recipient !in {Initiator};
    assert after == if before == {} then {Initiator} else {Initiator, Recipient};
    ItemAside(me, RecordSign(l, s, RoleFor(s, me), hash), env);
  }

  lemma ItemAside(me: string, l: Local, env: Env)
    requires l.session.Some?
    ensures EnsureRatifyItem(l, l.session.value, me, env).session == l.session
  {
  }

  lemma SignatureHeard(me: string, l: Local, thread: string, r: Record, from: string, before: set<Role>, hash: string, env: Env)
    requires Ready(r) && l.session == Some(if before == {} then r else SignedBy(r, before, hash))
    requires Participant(r, from) == Some(if before == {} then Initiator else Recipient)
    requires before == {} || before == {Initiator}
    requires hash != "" && Smooth(env, r.terms)
    ensures var o := Receive(me, l, thread, from, SignedMsg(hash), env);
            o.local.session == Some(SignedBy(r, before + {Participant(r, from).value}, hash)) && o.sent == []
  {
    hide EnsureRatifyItem;
    var s := l.session.value;
    var role := Participant(r, from).value;
    assert EnsureLive(l, env.now) == l;
    assert s.signHashes[role := hash] == SignedBy(r, before + {role}, hash).signHashes;
    assert Recipient !in {Initiator};
    assert before + {role} == if before == {} then {Initiator} else {Initiator, Recipient};
    ItemAside(me, RecordSign(l, s, role, hash), env);
  }

  lemma RatifyGoes(me: string, l: Local, r: Record, hash: string, env: Env)
    requires Ready(r) && hash != "" && Smooth(env, r.terms)
    requires var both := SignedBy(r, {Initiator, Recipient}, hash);
             || (RoleFor(r, me) == Initiator && l.session == Some(both))
             || (RoleFor(r, me) == Recipient && l.session == Some(RatifiedBy(both, {Initiator})))
    ensures var o := RatifyBy(me, l, None, None, true, env);
            var both := SignedBy(r, {Initiator, Recipient}, hash);
            && o.sent == [RatifiedMsg]
            && (RoleFor(r, me) == Initiator ==> o.local.session == Some(RatifiedBy(both, {Initiator})) && !o.unbond)
            && (RoleFor(r, me) == Recipient ==> o.local.session == Some(CoSigned(both, me, hash)) && o.unbond)
  {
    assert {} + {Initiator} == {Initiator};
    assert {Initiator} + {Recipient} == {Initiator, Recipient};
    assert Recipient !in {Initiator};
  }

  lemma RatificationHeard(me: string, l: Local, thread: string, r: Record, from: string, hash: string, env: Env)
    requires Ready(r) && hash != "" && Smooth(env, r.terms)
    requires var both := SignedBy(r, {Initiator, Recipient}, hash);
             || (Participant(r, from) == Some(Initiator) && l.session == Some(both))
             || (Participant(r, from) == Some(Recipient) && l.session == Some(RatifiedBy(both, {Initiator})))
    ensures var o := Receive(me, l, thread, from, RatifiedMsg, env);
            var both := SignedBy(r, {Initiator, Recipient}, hash);
            && o.sent == []
            && (Participant(r, from) == Some(Initiator) ==> o.local.session == Some(RatifiedBy(both, {Initiator})))
            && (Participant(r, from) == Some(Recipient) ==> o.local.session == Some(CoSigned(both, me, hash)) && o.unbond)
  {
    assert {} + {Initiator} == {Initiator};
    assert {Initiator} + {Recipient} == {Initiator, Recipient};
    assert Recipient !in {Initiator};
    assert EnsureLive(l, env.now) == l;
  }

  lemma {:induction false} PlayOn(w: World, s: Sys, a: seq<Move>, b: seq<Move>)
    requires w.alice != w.bob && Legal(w, s, a) && Legal(w, Play(w, s, a), b)
    ensures Legal(w, s, a + b) && Play(w, s, a + b) == Play(w, Play(w, s, a), b)
    decreases |a|
  {
    hide Next, Enabled;
    if a == [] {
      assert a + b == b;
    } else {
      assert (a + b)[0] == a[0] && (a + b)[1..] == a[1..] + b;
      PlayOn(w, Next(w, s, a[0]), a[1..], b);
    }
  }

  /** Two moves: one side acts, and the other hears of it. */
  function Round(who: Role, e: Event, acts: Env, hears: Env): seq<Move> {
    [Act(who, e, acts)] + [Deliver(Other(who), hears)]
  }

  lemma RoundGoes(w: World, s: Sys, who: Role, e: Event, acts: Env, hears: Env)
    requires w.alice != w.bob && s.ab == [] && s.ba == [] && (e.SignHash? || e.RatifyWith?)
    requires |(if who == Initiator then AliceDoes(w, s, e, acts) else BobDoes(w, s, e, acts)).sent| == 1
    requires var msg := (if who == Initiator then AliceDoes(w, s, e, acts) else BobDoes(w, s, e, acts)).sent[0];
             && (who == Initiator ==> BobDoes(w, s, Incoming(w.alice, msg), hears).sent == [])
             && (who == Recipient ==> AliceDoes(w, s, Incoming(w.bob, msg), hears).sent == [])
    ensures Legal(w, s, Round(who, e, acts, hears))
    ensures var t := Play(w, s, Round(who, e, acts, hears));
            && t.ab == [] && t.ba == []
            && (who == Initiator ==>
                  var o := AliceDoes(w, s, e, acts);
                  t.a == o.local && t.b == BobDoes(w, s, Incoming(w.alice, o.sent[0]), hears).local)
            && (who == Recipient ==>
                  var o := BobDoes(w, s, e, acts);
                  t.b == o.local && t.a == AliceDoes(w, s, Incoming(w.bob, o.sent[0]), hears).local)
  {
    hide Step;
    var act, hear := Act(who, e, acts), Deliver(Other(who), hears);
    var u := Next(w, s, act);
    PlayThen(w, s, [], act);
    assert [] + [act] == [act];
    assert Enabled(w, u, hear);
    PlayThen(w, s, [act], hear);
  }

  const RATIFY := RatifyWith(None, None, true)

  /** Each side signs the hash, then each ratifies; every envelope is delivered before the next word. */
  function Ceremony(hash: string, es: seq<Env>): seq<Move>
    requires |es| == 8
  {
    Round(Initiator, SignHash(hash), es[0], es[1]) + Round(Recipient, SignHash(hash), es[2], es[3])
    + (Round(Initiator, RATIFY, es[4], es[5]) + Round(Recipient, RATIFY, es[6], es[7]))
  }

  ghost predicate PairOf(w: World, a: Record, b: Record) {
    && a.initiator == w.alice && a.recipient == w.bob && b.initiator == w.alice && b.recipient == w.bob
    && a.terms == b.terms && Ready(a) && Ready(b)
  }

  lemma FirstSignature(w: World, s: Sys, a: Record, b: Record, hash: string, acts: Env, hears: Env)
    requires w.alice != w.bob && PairOf(w, a, b) && At(s, a, b, [], []) && hash != ""
    requires Smooth(acts, a.terms) && Smooth(hears, a.terms)
    ensures Legal(w, s, Round(Initiator, SignHash(hash), acts, hears))
    ensures var t := Play(w, s, Round(Initiator, SignHash(hash), acts, hears));
            At(t, SignedBy(a, {Initiator}, hash), SignedBy(b, {Initiator}, hash), [], [])
  {
    hide Sign, Receive, Legal, Play, SignedBy;
    SignGoes(w.alice, s.a, a, {}, hash, acts);
    SignatureHeard(w.bob, s.b, w.thread, b, w.alice, {}, hash, hears);
    assert {} + {Initiator} == {Initiator};
    RoundGoes(w, s, Initiator, SignHash(hash), acts, hears);
  }

  lemma SecondSignature(w: World, s: Sys, a: Record, b: Record, hash: string, acts: Env, hears: Env)
    requires w.alice != w.bob && PairOf(w, a, b) && hash != ""
    requires At(s, SignedBy(a, {Initiator}, hash), SignedBy(b, {Initiator}, hash), [], [])
    requires Smooth(acts, a.terms) && Smooth(hears, a.terms)
    ensures Legal(w, s, Round(Recipient, SignHash(hash), acts, hears))
    ensures var t := Play(w, s, Round(Recipient, SignHash(hash), acts, hears));
            At(t, SignedBy(a, {Initiator, Recipient}, hash), SignedBy(b, {Initiator, Recipient}, hash), [], [])
  {
    hide Sign, Receive, Legal, Play, SignedBy;
    SignGoes(w.bob, s.b, b, {Initiator}, hash, acts);
    SignatureHeard(w.alice, s.a, w.thread, a, w.bob, {Initiator}, hash, hears);
    assert {Initiator} + {Recipient} == {Initiator, Recipient};
    RoundGoes(w, s, Recipient, SignHash(hash), acts, hears);
  }

  lemma FirstRatification(w: World, s: Sys, a: Record, b: Record, hash: string, acts: Env, hears: Env)
    requires w.alice != w.bob && PairOf(w, a, b) && hash != ""
    requires At(s, SignedBy(a, {Initiator, Recipient}, hash), SignedBy(b, {Initiator, Recipient}, hash), [], [])
    requires Smooth(acts, a.terms) && Smooth(hears, a.terms)
    ensures Legal(w, s, Round(Initiator, RATIFY, acts, hears))
    ensures var t := Play(w, s, Round(Initiator, RATIFY, acts, hears));
            var both := {Initiator, Recipient};
            At(t, RatifiedBy(SignedBy(a, both, hash), {Initiator}), RatifiedBy(SignedBy(b, both, hash), {Initiator}), [], [])
  {
    hide RatifyBy, Receive, Legal, Play, SignedBy;
    RatifyGoes(w.alice, s.a, a, hash, acts);
    RatificationHeard(w.bob, s.b, w.thread, b, w.alice, hash, hears);
    RoundGoes(w, s, Initiator, RATIFY, acts, hears);
  }

  lemma SecondRatification(w: World, s: Sys, a: Record, b: Record, hash: string, acts: Env, hears: Env)
    requires w.alice != w.bob && PairOf(w, a, b) && hash != ""
    requires var both := {Initiator, Recipient};
             At(s, RatifiedBy(SignedBy(a, both, hash), {Initiator}), RatifiedBy(SignedBy(b, both, hash), {Initiator}), [], [])
    requires Smooth(acts, a.terms) && Smooth(hears, a.terms)
    ensures Legal(w, s, Round(Recipient, RATIFY, acts, hears))
    ensures var t := Play(w, s, Round(Recipient, RATIFY, acts, hears));
            var both := {Initiator, Recipient};
            At(t, CoSigned(SignedBy(a, both, hash), w.alice, hash), CoSigned(SignedBy(b, both, hash), w.bob, hash), [], [])
  {
    hide RatifyBy, Receive, Legal, Play, SignedBy;
    RatifyGoes(w.bob, s.b, b, hash, acts);
    RatificationHeard(w.alice, s.a, w.thread, a, w.bob, hash, hears);
    RoundGoes(w, s, Recipient, RATIFY, acts, hears);
  }

  lemma CeremonyGoes(w: World, s: Sys, a: Record, b: Record, hash: string, es: seq<Env>)
    requires w.alice != w.bob && PairOf(w, a, b) && At(s, a, b, [], []) && hash != ""
    requires |es| == 8 && forall e :: e in es ==> Smooth(e, a.terms)
    ensures Legal(w, s, Ceremony(hash, es))
    ensures var t := Play(w, s, Ceremony(hash, es));
            var both := {Initiator, Recipient};
            At(t, CoSigned(SignedBy(a, both, hash), w.alice, hash), CoSigned(SignedBy(b, both, hash), w.bob, hash), [], [])
  {
    hide Legal, Play, SignedBy, CoSigned, RatifiedBy, Round, PairOf, Smooth, At;
    var r0, r1 := Round(Initiator, SignHash(hash), es[0], es[1]), Round(Recipient, SignHash(hash), es[2], es[3]);
    var r2, r3 := Round(Initiator, RATIFY, es[4], es[5]), Round(Recipient, RATIFY, es[6], es[7]);
    assert forall i :: 0 <= i < 8 ==> es[i] in es;
    FirstSignature(w, s, a, b, hash, es[0], es[1]);
    var s1 := Play(w, s, r0);
    SecondSignature(w, s1, a, b, hash, es[2], es[3]);
    PlayOn(w, s, r0, r1);
    var s2 := Play(w, s1, r1);
    FirstRatification(w, s2, a, b, hash, es[4], es[5]);
    var s3 := Play(w, s2, r2);
    SecondRatification(w, s3, a, b, hash, es[6], es[7]);
    PlayOn(w, s2, r2, r3);
    PlayOn(w, s, r0 + r1, r2 + r3);
  }

  /** From the start to a record co-signed on both sides: the same hash, sealed by each with its own signature. */
  lemma CoSigningComesThrough(w: World, terms: Terms, hash: string, opening: seq<Env>, es: seq<Env>)
    returns (mvs: seq<Move>)
    requires w.alice != w.bob && hash != "" && forall c :: c in terms.acceptance ==> !c.executable
    requires |opening| == 4 && forall e :: e in opening ==> Smooth(e, terms)
    requires opening[2].now <= opening[1].now + SESSION_OPEN_TTL_MS
    requires |es| == 8 && forall e :: e in es ==> Smooth(e, terms)
    ensures Legal(w, START, mvs)
    ensures var s := Play(w, START, mvs);
            && s.a.session.Some? && s.b.session.Some? && s.ab == [] && s.ba == []
            && var a, b := s.a.session.value, s.b.session.value;
               && a.status == Closed && b.status == Closed && a.terms == b.terms == terms
               && a.coSignedHash == b.coSignedHash == Some(hash) && BothRatified(a) && BothRatified(b)
               && a.signatures == map[w.alice := Signature(w.alice, hash)]
               && b.signatures == map[w.bob := Signature(w.bob, hash)]
  {
    hide Legal, Play;
    assert forall i :: 0 <= i < 4 ==> opening[i] in opening;
    var verdict := ApproveOpenBy(opening[1].freshId, true);
    OpeningComesThrough(w, terms, verdict, opening[0], opening[1], opening[2], opening[3]);
    var asking := Asking(w, terms, opening[0], opening[1]);
    var first := asking + [Act(Recipient, verdict, opening[2])] + [Deliver(Initiator, opening[3])];
    var a, b := Answered(AliceOpens(w, terms, opening[0].now), verdict), Answered(BobHears(w, terms, opening[1].now), verdict);
    CeremonyGoes(w, Play(w, START, first), a, b, hash, es);
    PlayOn(w, START, first, Ceremony(hash, es));
    mvs := first + Ceremony(hash, es);
  }
}
