/**
 * The flow of one side run to its end, given what its reads and calls answer: what it leaves in the
 * allowlist, and which posts and puts lie behind each of its ends.
 */
module PairingRuns {
  import opened Options
  import opened Profiles
  import opened PairingFlow
  import A = PairingAgreement

  /** What one look at the slot gives: no text, a text, or a call to the relay that throws. */
  datatype Read = Nothing | Text(msg: Wire) | Broken

  /** One slot read after another until a poll's deadline. */
  type Reads = seq<Read>

  /** The first read that ends a poll: a throwing call, a text that does not parse, or a wanted message. */
  function FirstWanted(slot: Reads, wants: Wire -> bool): Answer {
    if slot == [] then Silence
    else if slot[0].Broken? then Failed(false)
    else if slot[0].Text? && (slot[0].msg.Garbled? || wants(slot[0].msg)) then Heard(slot[0].msg)
    else FirstWanted(slot[1..], wants)
  }

  /** A read that ends a poll. */
  predicate Ends(r: Read, wants: Wire -> bool) {
    r.Broken? || (r.Text? && (r.msg.Garbled? || wants(r.msg)))
  }

  /** The read at `i` is the first that ends a poll. */
  ghost predicate FirstEnd(slot: Reads, wants: Wire -> bool, i: int) {
    0 <= i < |slot| && Ends(slot[i], wants) && forall j :: 0 <= j < i ==> !Ends(slot[j], wants)
  }

  /** A poll answers by its first read that ends it, and with silence exactly if there is none. */
  lemma {:induction false} FirstWantedIsFirst(slot: Reads, wants: Wire -> bool)
    ensures FirstWanted(slot, wants) == Silence <==> forall i :: 0 <= i < |slot| ==> !Ends(slot[i], wants)
    ensures forall i :: FirstEnd(slot, wants, i) ==> FirstWanted(slot, wants) == Looked(slot[i])
    decreases |slot|
  {
    if slot != [] && !Ends(slot[0], wants) {
      FirstWantedIsFirst(slot[1..], wants);
      forall i | FirstEnd(slot, wants, i) ensures FirstWanted(slot, wants) == Looked(slot[i]) {
        assert slot[i] == slot[1..][i - 1];
        assert FirstEnd(slot[1..], wants, i - 1);
      }
      forall i | 0 <= i < |slot| ensures i > 0 ==> slot[i] == slot[1..][i - 1] {}
    }
  }

  type PostAnswer = a: Answer | a.Posted? || a.Failed? witness Posted
  type PutAnswer = a: Answer | a.PutDone? || a.Failed? witness PutDone(true)

  /** How a program ends: with a result, or by exception. */
  datatype Exit = Ended(result: Result) | Thrown

  /** What a run leaves behind: how it ended, the allowlist, the posts that reached the relay, and the allowlists it put. */
  datatype Trail = Trail(exit: Exit, allow: seq<string>, posts: seq<Wire>, puts: seq<seq<string>>)

  // ---- the joiner ----

  /** What the reads give, and how each post and the two puts end. */
  datatype JoinEnv = JoinEnv(
    pake: Reads, confirm: Reads, bond: Reads, post: Wire -> PostAnswer, put: PutAnswer, undo: PutAnswer)

  function JRank(at: JoinAt): nat
    decreases at
  {
    match at
    case JBegin => 9
    case JAwaitPake => 8
    case JAwaitConfirm(_) => 6
    case JAwaitBond(_) => 4
    case JPutting(_, _) => 3
    case JUndoing => 2
    case JPost(_, next) => 1 + JRank(next)
    case JDone(_) | JThrew(_, _) => 0
  }

  /** How the await at a control point ends in this environment. */
  function JAnswer(w: Setup, at: JoinAt, env: JoinEnv): Answer {
    match at
    case JAwaitPake => FirstWanted(env.pake, m => JWants(w, at, m))
    case JAwaitConfirm(_) => FirstWanted(env.confirm, m => JWants(w, at, m))
    case JAwaitBond(_) => FirstWanted(env.bond, m => JWants(w, at, m))
    case JPutting(_, _) => env.put
    case JUndoing => env.undo
    case JPost(m, _) => env.post(m)
    case _ => Posted
  }

  lemma JRankFalls(w: Setup, at: JoinAt, allow: seq<string>, a: Answer)
    requires !JEnded(at)
    ensures JRank(JoinStep(w, at, allow, a).0) < JRank(at)
  {
  }

  function JTrail(at: JoinAt, t: Trail, a: Answer): Trail {
    t.(posts := if at.JPost? && Arrives(a) then t.posts + [at.msg] else t.posts,
       puts := if at.JPutting? || at.JUndoing? then t.puts + [t.allow] else t.puts)
  }

  /** The flow model run to its end. */
  function JRun(w: Setup, at: JoinAt, t: Trail, env: JoinEnv): Trail
    decreases JRank(at)
  {
    if JEnded(at) then t.(exit := if at.JDone? then Ended(at.result) else Thrown)
    else
      var (next, allow) := JoinStep(w, at, t.allow, JAnswer(w, at, env));
      JRankFalls(w, at, t.allow, JAnswer(w, at, env));
      JRun(w, next, JTrail(at, t, JAnswer(w, at, env)).(allow := allow), env)
  }

  // ---- the initiator ----

  datatype InitEnv = InitEnv(
    pake: Reads, bond: Reads, firstLook: Read, secondLook: Reads, post: Wire -> PostAnswer, put: PutAnswer, undo: PutAnswer)

  function IRank(at: InitAt): nat
    decreases at
  {
    match at
    case IAwaitPake => 20
    case IAwaitBond(_) => 16
    case IPutting(_, _) => 14
    case IFirstLook(_, _) => 8
    case ISecondLook(_, _) => 6
    case IUndoing(after) => 1 + IRank(after)
    case IPost(_, next) => 1 + IRank(next)
    case IDone(_) | IThrew(_, _) => 0
  }

  function Looked(r: Read): Answer {
    match r
    case Nothing => Silence
    case Text(m) => Heard(m)
    case Broken => Failed(false)
  }

  function IAnswer(w: Setup, at: InitAt, env: InitEnv): Answer {
    match at
    case IAwaitPake => FirstWanted(env.pake, m => IWants(w, at, m))
    case IAwaitBond(_) => FirstWanted(env.bond, m => IWants(w, at, m))
    case IPutting(_, _) => env.put
    case IFirstLook(_, _) => Looked(env.firstLook)
    case ISecondLook(_, _) => FirstWanted(env.secondLook, m => IWants(w, at, m))
    case IUndoing(_) => env.undo
    case IPost(m, _) => env.post(m)
    case _ => Posted
  }

  lemma IRankFalls(w: Setup, at: InitAt, allow: seq<string>, a: Answer)
    requires !IEnded(at)
    ensures IRank(InitStep(w, at, allow, a).0) < IRank(at)
  {
  }

  function ITrail(at: InitAt, t: Trail, a: Answer): Trail {
    t.(posts := if at.IPost? && Arrives(a) then t.posts + [at.msg] else t.posts,
       puts := if at.IPutting? || at.IUndoing? then t.puts + [t.allow] else t.puts)
  }

  function IRun(w: Setup, at: InitAt, t: Trail, env: InitEnv): Trail
    decreases IRank(at)
  {
    if IEnded(at) then t.(exit := if at.IDone? then Ended(at.result) else Thrown)
    else
      var (next, allow) := InitStep(w, at, t.allow, IAnswer(w, at, env));
      IRankFalls(w, at, t.allow, IAnswer(w, at, env));
      IRun(w, next, ITrail(at, t, IAnswer(w, at, env)).(allow := allow), env)
  }

  // ---- all or nothing, for the programs ----

  /** The control point at which the run stops. */
  function JStop(w: Setup, at: JoinAt, allow: seq<string>, env: JoinEnv): JoinAt
    decreases JRank(at)
  {
    if JEnded(at) then at
    else
      var (next, now) := JoinStep(w, at, allow, JAnswer(w, at, env));
      JRankFalls(w, at, allow, JAnswer(w, at, env));
      JStop(w, next, now, env)
  }

  function IStop(w: Setup, at: InitAt, allow: seq<string>, env: InitEnv): InitAt
    decreases IRank(at)
  {
    if IEnded(at) then at
    else
      var (next, now) := InitStep(w, at, allow, IAnswer(w, at, env));
      IRankFalls(w, at, allow, IAnswer(w, at, env));
      IStop(w, next, now, env)
  }

  lemma {:induction false} JRunAllOrNothing(w: Setup, at: JoinAt, t: Trail, env: JoinEnv, start: seq<string>)
    requires A.JAllow(w, at, t.allow, start)
    ensures var stop := JStop(w, at, t.allow, env);
            && JEnded(stop)
            && JRun(w, at, t, env).exit == (if stop.JDone? then Ended(stop.result) else Thrown)
            && JRun(w, at, t, env).allow == A.Grown(start, A.JStanding(w, stop))
    decreases JRank(at)
  {
    if !JEnded(at) {
      var a := JAnswer(w, at, env);
      var (next, allow) := JoinStep(w, at, t.allow, a);
      JRankFalls(w, at, t.allow, a);
      A.JAllowStep(w, at, t.allow, start, a);
      JRunAllOrNothing(w, next, JTrail(at, t, a).(allow := allow), env, start);
    }
  }

  lemma {:induction false} IRunAllOrNothing(w: Setup, at: InitAt, t: Trail, env: InitEnv, start: seq<string>)
    requires A.IAllow(at, t.allow, start)
    ensures var stop := IStop(w, at, t.allow, env);
            && IEnded(stop)
            && IRun(w, at, t, env).exit == (if stop.IDone? then Ended(stop.result) else Thrown)
            && IRun(w, at, t, env).allow == A.Grown(start, A.IStanding(stop))
    decreases IRank(at)
  {
    if !IEnded(at) {
      var a := IAnswer(w, at, env);
      var (next, allow) := InitStep(w, at, t.allow, a);
      IRankFalls(w, at, t.allow, a);
      A.IAllowStep(w, at, t.allow, start, a);
      IRunAllOrNothing(w, next, ITrail(at, t, a).(allow := allow), env, start);
    }
  }
}
