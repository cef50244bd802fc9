/** The books of the two programs: which posts and which allowlist puts lie behind each of their ends. */
module PairingLedger {
  import opened Options
  import opened PairingFlow
  import opened PairingRuns
  import U = Utf8

  /** Between two trails exactly these texts reached the relay and exactly these allowlists were put. */
  ghost predicate Wrote(t: Trail, r: Trail, posts: seq<Wire>, puts: seq<seq<string>>) {
    r.posts == t.posts + posts && r.puts == t.puts + puts
  }

  // ---- the joiner ----

  function Answering(w: Setup, v: View): Wire {
    JoinPake(Some(Point(w.pointJ)), Fingerprint(v), w.joinId, Some(w.profilesJ))
  }

  function Vouching(v: View, sender: string): Wire {
    BondOk(sender, Tag(v.key, sender))
  }

  /** What a joiner that settled on this view, if on any, has written when it ends with a result. */
  ghost predicate JBooks(w: Setup, v: View, t: Trail, r: Trail) {
    r.exit.Ended? ==>
      match r.exit.result
      case Rejected(why) => w.decline == Some(why) && Wrote(t, r, [Reject(w.decline)], [])
      case PakeFailed => w.decline.None? && (Wrote(t, r, [], []) || Wrote(t, r, [Answering(w, v), BondFail], []))
      case Bonded(peer, contract) =>
        && w.decline.None? && peer == w.proposedId && contract == Contract(v) && CORE in contract
        && Wrote(t, r, [Answering(w, v), Vouching(v, w.joinId)], [Added(t.allow, w.proposedId)])
      case RolledBack(reason) =>
        && w.decline.None?
        && (reason == "profile_not_supported" || CORE in Contract(v))
        && match reason
           case "profile_not_supported" => CORE !in Contract(v) && Wrote(t, r, [Answering(w, v)], [])
           case "allowlist_push_failed" =>
             Wrote(t, r, [Answering(w, v), Vouching(v, w.joinId), BondFail], [Added(t.allow, w.proposedId), t.allow])
           case _ =>
             && (reason == "bond_aborted" || reason == "bond_tag_mismatch")
             && Wrote(t, r, [Answering(w, v), Vouching(v, w.joinId)], [])
  }

  lemma JPostRuns(w: Setup, m: Wire, next: JoinAt, t: Trail, env: JoinEnv)
    ensures var r := JRun(w, JPost(m, next), t, env);
            if env.post(m).Posted? then r == JRun(w, next, t.(posts := t.posts + [m]), env) else r.exit.Thrown?
  {
    if env.post(m).Failed? {
      var at := JThrew(JPost(m, next), env.post(m));
      assert JEnded(at);
    }
  }

  lemma JUndoRuns(w: Setup, t: Trail, env: JoinEnv)
    ensures var r := JRun(w, JUndoing, t, env);
            r.exit.Ended? ==> r.exit.result == RolledBack("allowlist_push_failed") && Wrote(t, r, [BondFail], [t.allow])
  {
    JPostRuns(w, BondFail, JDone(RolledBack("allowlist_push_failed")), t.(puts := t.puts + [t.allow]), env);
  }

  lemma JPushRuns(w: Setup, v: View, previous: seq<string>, t: Trail, env: JoinEnv)
    ensures var r := JRun(w, JPutting(v, previous), t, env);
            r.exit.Ended? ==>
              if r.exit.result.Bonded? then
                r.exit.result == Bonded(w.proposedId, Contract(v)) && Wrote(t, r, [], [t.allow])
              else
                r.exit.result == RolledBack("allowlist_push_failed") && Wrote(t, r, [BondFail], [t.allow, previous])
  {
    JUndoRuns(w, t.(puts := t.puts + [t.allow], allow := previous), env);
  }

  lemma JBondRuns(w: Setup, v: View, t: Trail, env: JoinEnv)
    ensures var r := JRun(w, JAwaitBond(v), t, env);
            r.exit.Ended? ==>
              || (r.exit.result == Bonded(w.proposedId, Contract(v)) && Wrote(t, r, [], [Added(t.allow, w.proposedId)]))
              || (r.exit.result == RolledBack("allowlist_push_failed")
                  && Wrote(t, r, [BondFail], [Added(t.allow, w.proposedId), t.allow]))
              || (r.exit.result == RolledBack("bond_aborted") && Wrote(t, r, [], []))
              || (r.exit.result == RolledBack("bond_tag_mismatch") && Wrote(t, r, [], []))
  {
    JPushRuns(w, v, t.allow, t.(allow := Added(t.allow, w.proposedId)), env);
  }

  lemma JConfirmRuns(w: Setup, v: View, t: Trail, env: JoinEnv)
    ensures var r := JRun(w, JAwaitConfirm(v), t, env);
            r.exit.Ended? ==>
              || (r.exit.result.PakeFailed? && Wrote(t, r, [BondFail], []))
              || (r.exit.result == RolledBack("profile_not_supported") && CORE !in Contract(v) && Wrote(t, r, [], []))
              || (CORE in Contract(v) && env.post(Vouching(v, w.joinId)).Posted?
                  && r == JRun(w, JAwaitBond(v), t.(posts := t.posts + [Vouching(v, w.joinId)]), env))
  {
    hide Contract, Added;
    var a := JAnswer(w, JAwaitConfirm(v), env);
    if !Breaks(a) {
      var next := JHearConfirm(w, v, a);
      assert JRun(w, JAwaitConfirm(v), t, env) == JRun(w, next, t, env);
      if next.JPost? && next.msg == BondFail {
        JPostRuns(w, BondFail, JDone(PakeFailed), t, env);
      } else if next.JPost? {
        JPostRuns(w, Vouching(v, w.joinId), JAwaitBond(v), t, env);
      }
    }
  }

  lemma JAnswerRuns(w: Setup, v: View, t: Trail, env: JoinEnv)
    requires w.decline.None?
    ensures JBooks(w, v, t, JRun(w, JPost(Answering(w, v), JAwaitConfirm(v)), t, env))
  {
    hide Contract, Added;
    var t1 := t.(posts := t.posts + [Answering(w, v)]);
    var t2 := t1.(posts := t1.posts + [Vouching(v, w.joinId)]);
    JPostRuns(w, Answering(w, v), JAwaitConfirm(v), t, env);
    JConfirmRuns(w, v, t1, env);
    JBondRuns(w, v, t2, env);
  }

  /** Every end of the joiner with a result has exactly its posts and puts behind it. */
  lemma JoinerLedger(w: Setup, t: Trail, env: JoinEnv) returns (v: View)
    ensures JBooks(w, v, t, JRun(w, JBegin, t, env))
  {
    var heard := JAnswer(w, JAwaitPake, env);
    v := if heard.Heard? && heard.msg.InitPake? && heard.msg.point.Some? && heard.msg.point.value.Point? && heard.msg.profiles.Some?
    then JView(w, heard.msg.point.value.n, heard.msg.profiles.value) else JView(w, 0, []);
    if w.decline.Some? {
      JPostRuns(w, Reject(w.decline), JDone(Rejected(w.decline.value)), t, env);
    } else {
      JAnswerRuns(w, v, t, env);
    }
  }

  /** A declining joiner posts its refusal and nothing else, puts nothing, and ends rejected if the post goes through. */
  lemma RefusalRuns(w: Setup, t: Trail, env: JoinEnv)
    requires w.decline.Some?
    ensures var r := JRun(w, JBegin, t, env);
            var a := env.post(Reject(w.decline));
            && Wrote(t, r, if Arrives(a) then [Reject(w.decline)] else [], []) && r.allow == t.allow
            && r.exit == if a.Posted? then Ended(Rejected(w.decline.value)) else Thrown
  {
    var at := JPost(Reject(w.decline), JDone(Rejected(w.decline.value)));
    assert JRun(w, JBegin, t, env) == JRun(w, at, t, env);
    if env.post(Reject(w.decline)).Failed? {
      assert JEnded(JThrew(at, env.post(Reject(w.decline))));
    }
  }

  // ---- the initiator ----

  function Confirming(w: Setup, v: View): Wire {
    Confirm(Fingerprint(v), w.initId)
  }

  /** What an initiator that settled on this view, if on any, has written when it ends with a result. */
  ghost predicate IBooks(w: Setup, v: View, t: Trail, r: Trail) {
    r.exit.Ended? ==>
      match r.exit.result
      case Rejected(_) => Wrote(t, r, [], [])
      case PakeFailed => Wrote(t, r, [], []) || Wrote(t, r, [BondFail], [])
      case Bonded(peer, contract) =>
        && peer == v.joiner && contract == Contract(v) && CORE in contract
        && Wrote(t, r, [Confirming(w, v), Vouching(v, w.initId)], [Added(t.allow, v.joiner)])
      case RolledBack(reason) =>
        && (reason == "profile_not_supported" || CORE in Contract(v))
        && match reason
           case "profile_not_supported" => CORE !in Contract(v) && Wrote(t, r, [Confirming(w, v)], [])
           case "bond_tag_mismatch" => Wrote(t, r, [Confirming(w, v), BondFail], [])
           case "allowlist_push_failed" =>
             Wrote(t, r, [Confirming(w, v), BondFail], [Added(t.allow, v.joiner), t.allow])
           case _ =>
             && reason == "bond_aborted"
             && (Wrote(t, r, [Confirming(w, v)], [])
                 || Wrote(t, r, [Confirming(w, v), Vouching(v, w.initId)], [Added(t.allow, v.joiner), t.allow]))
  }

  lemma IPostRuns(w: Setup, m: Wire, next: InitAt, t: Trail, env: InitEnv)
    ensures var r := IRun(w, IPost(m, next), t, env);
            if env.post(m).Posted? then r == IRun(w, next, t.(posts := t.posts + [m]), env) else r.exit.Thrown?
  {
    if env.post(m).Failed? {
      var at := IThrew(IPost(m, next), env.post(m));
      assert IEnded(at);
    }
  }

  /** An undo puts the allowlist as it stands by then, and goes on. */
  lemma IUndoRuns(w: Setup, after: InitAt, t: Trail, env: InitEnv)
    ensures var r := IRun(w, IUndoing(after), t, env);
            r.exit.Thrown? || r == IRun(w, after, t.(puts := t.puts + [t.allow]), env)
  {
    if env.undo.Failed? {
      assert IEnded(IThrew(IUndoing(after), env.undo));
    }
  }

  lemma IAbortRuns(w: Setup, t: Trail, env: InitEnv)
    ensures var r := IRun(w, IUndoing(IDone(RolledBack("bond_aborted"))), t, env);
            r.exit.Ended? ==> r.exit.result == RolledBack("bond_aborted") && Wrote(t, r, [], [t.allow])
  {
    IUndoRuns(w, IDone(RolledBack("bond_aborted")), t, env);
  }

  lemma IRefusedRuns(w: Setup, t: Trail, env: InitEnv)
    ensures var r := IRun(w, IUndoing(IPost(BondFail, IDone(RolledBack("allowlist_push_failed")))), t, env);
            r.exit.Ended? ==> r.exit.result == RolledBack("allowlist_push_failed") && Wrote(t, r, [BondFail], [t.allow])
  {
    var done := IDone(RolledBack("allowlist_push_failed"));
    IUndoRuns(w, IPost(BondFail, done), t, env);
    IPostRuns(w, BondFail, done, t.(puts := t.puts + [t.allow]), env);
  }

  lemma ISecondLookRuns(w: Setup, v: View, previous: seq<string>, t: Trail, env: InitEnv)
    ensures var r := IRun(w, ISecondLook(v, previous), t, env);
            r.exit.Ended? ==>
              || (r.exit.result == Bonded(v.joiner, Contract(v)) && Wrote(t, r, [], []))
              || (r.exit.result == RolledBack("bond_aborted") && Wrote(t, r, [], [previous]))
  {
    hide Contract;
    IAbortRuns(w, t.(allow := previous), env);
  }

  lemma IFirstLookRuns(w: Setup, v: View, previous: seq<string>, t: Trail, env: InitEnv)
    ensures var r := IRun(w, IFirstLook(v, previous), t, env);
            r.exit.Ended? ==>
              || (r.exit.result == Bonded(v.joiner, Contract(v)) && Wrote(t, r, [], []))
              || (r.exit.result == RolledBack("bond_aborted") && Wrote(t, r, [], [previous]))
  {
    hide Contract;
    IAbortRuns(w, t.(allow := previous), env);
    ISecondLookRuns(w, v, previous, t, env);
  }

  lemma IPushRuns(w: Setup, v: View, previous: seq<string>, t: Trail, env: InitEnv)
    ensures var r := IRun(w, IPutting(v, previous), t, env);
            r.exit.Ended? ==>
              || (r.exit.result == Bonded(v.joiner, Contract(v)) && Wrote(t, r, [Vouching(v, w.initId)], [t.allow]))
              || (r.exit.result == RolledBack("bond_aborted") && Wrote(t, r, [Vouching(v, w.initId)], [t.allow, previous]))
              || (r.exit.result == RolledBack("allowlist_push_failed") && Wrote(t, r, [BondFail], [t.allow, previous]))
  {
    hide Contract;
    var t1 := t.(puts := t.puts + [t.allow]);
    IRefusedRuns(w, t1.(allow := previous), env);
    IPostRuns(w, Vouching(v, w.initId), IFirstLook(v, previous), t1, env);
    IFirstLookRuns(w, v, previous, t1.(posts := t1.posts + [Vouching(v, w.initId)]), env);
  }

  lemma IBondRuns(w: Setup, v: View, t: Trail, env: InitEnv)
    ensures var r := IRun(w, IAwaitBond(v), t, env);
            r.exit.Ended? ==>
              || (r.exit.result == RolledBack("bond_aborted") && Wrote(t, r, [], []))
              || (r.exit.result == RolledBack("bond_tag_mismatch") && Wrote(t, r, [BondFail], []))
              || r == IRun(w, IPutting(v, t.allow), t.(allow := Added(t.allow, v.joiner)), env)
  {
    hide Contract, Added;
    IPostRuns(w, BondFail, IDone(RolledBack("bond_tag_mismatch")), t, env);
  }

  lemma IConfirmRuns(w: Setup, v: View, t: Trail, env: InitEnv)
    ensures var next := if CORE in Contract(v) then IAwaitBond(v) else IDone(RolledBack("profile_not_supported"));
            var r := IRun(w, IPost(Confirming(w, v), next), t, env);
            IBooks(w, v, t, r) && r.exit != Ended(PakeFailed)
  {
    hide Contract, Added;
    var t1 := t.(posts := t.posts + [Confirming(w, v)]);
    if CORE in Contract(v) {
      IPostRuns(w, Confirming(w, v), IAwaitBond(v), t, env);
      IBondRuns(w, v, t1, env);
      IPushRuns(w, v, t1.allow, t1.(allow := Added(t1.allow, v.joiner)), env);
    } else {
      IPostRuns(w, Confirming(w, v), IDone(RolledBack("profile_not_supported")), t, env);
    }
  }

  /**
   * Every end of the initiator with a result has exactly its posts and puts behind it. When the exchange
   * fails, the joiner is told if it had answered and the initiator still has its session, and not if it had not.
   */
  lemma InitiatorLedger(w: Setup, t: Trail, env: InitEnv) returns (v: View)
    ensures var r := IRun(w, IAwaitPake, t, env);
            var a := IAnswer(w, IAwaitPake, env);
            && IBooks(w, v, t, r)
            && (r.exit == Ended(PakeFailed) ==>
                  && (a.Heard? && a.msg.JoinPake? && w.resumable ==> Wrote(t, r, [BondFail], []))
                  && (!a.Heard? || a.msg.BondFail? ==> Wrote(t, r, [], [])))
  {
    hide Contract, Added, U.Truncated;
    var a := IAnswer(w, IAwaitPake, env);
    v := if a.Heard? && a.msg.JoinPake? && a.msg.point.Some? && a.msg.point.value.Point? && a.msg.profiles.Some?
    then IView(w, a.msg.point.value.n, a.msg.agentId, a.msg.profiles.value) else IView(w, 0, "", []);
    if !Breaks(a) {
      assert IRun(w, IAwaitPake, t, env) == IRun(w, IHearPake(w, a), t, env);
      IPostRuns(w, BondFail, IDone(PakeFailed), t, env);
      IConfirmRuns(w, v, t, env);
    }
  }

  /** An initiator whose first poll ends with a refusal is rejected, with the reason cut to its cap, and writes nothing. */
  lemma HearingRefusal(w: Setup, t: Trail, env: InitEnv)
    requires var a := IAnswer(w, IAwaitPake, env); a.Heard? && a.msg.Reject?
    ensures IRun(w, IAwaitPake, t, env) == t.(exit := Ended(Rejected(Explained(IAnswer(w, IAwaitPake, env).msg.why))))
  {
    var a := IAnswer(w, IAwaitPake, env);
    assert IRun(w, IAwaitPake, t, env) == IRun(w, IHearPake(w, a), t, env);
  }
}
