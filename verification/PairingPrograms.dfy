/**
 * The two pairing programs in their own sequential form, on a host's allowlist and registry. Each is
 * proved to run through exactly the control points of the flow model.
 */
module PairingPrograms {
  import opened Options
  import opened Profiles
  import opened PairingFlow
  import opened PairingRuns
  import opened PairingLedger
  import A = PairingAgreement
  import R = PairingRegistry
  import U = Utf8

  method PollWireMessage(slot: Reads, wants: Wire -> bool) returns (a: Answer)
    ensures a == FirstWanted(slot, wants)
  {
    var n := 0;
    while n < |slot|
      invariant 0 <= n <= |slot|
      invariant FirstWanted(slot, wants) == FirstWanted(slot[n..], wants)
    {
      if slot[n].Broken? {
        return Failed(false);
      }
      if slot[n].Text? {
        if slot[n].msg.Garbled? {
          return Heard(Garbled);
        }
        if wants(slot[n].msg) {
          return Heard(slot[n].msg);
        }
      }
      assert slot[n..][1..] == slot[n + 1..];
      n := n + 1;
    }
    return Silence;
  }

  /** What a flow call gives its caller: a result of the flow, an exception, or that there was nothing to run. */
  datatype FlowResult = Ran(result: Result) | Threw | NotFound | Expired

  class Host {
    const registry: R.Registry
    var allow: seq<string>
    var posts: seq<Wire>
    var puts: seq<seq<string>>

    constructor (registry: R.Registry, allow: seq<string>)
      ensures this.registry == registry && this.allow == allow && posts == [] && puts == []
    {
      this.registry, this.allow, posts, puts := registry, allow, [], [];
    }

    function Left(e: Exit): Trail
      reads this
    {
      Trail(e, allow, posts, puts)
    }

    /** A post that throws may have reached the relay all the same. */
    method Post(m: Wire, a: PostAnswer) returns (ok: bool)
      modifies this`posts
      ensures posts == if Arrives(a) then old(posts) + [m] else old(posts)
      ensures ok == a.Posted?
    {
      if Arrives(a) {
        posts := posts + [m];
      }
      ok := a.Posted?;
    }

    /** Stores the list first and puts it at the relay then. */
    method PutAllowlist(next: seq<string>)
      modifies this`allow, this`puts
      ensures allow == next && puts == old(puts) + [next]
    {
      allow := next;
      puts := puts + [next];
    }

    /** The joiner's flow after its pending entry was found. */
    method Join(w: Setup, env: JoinEnv) returns (r: Exit)
      modifies this`allow, this`posts, this`puts
      ensures Left(r) == JRun(w, JBegin, old(Left(Thrown)), env)
    {
      if w.decline.Some? {
        var sent := Post(Reject(w.decline), env.post(Reject(w.decline)));
        return if sent then Ended(Rejected(w.decline.value)) else Thrown;
      }
      var heard := PollWireMessage(env.pake, m => JWants(w, JAwaitPake, m));
      if Breaks(heard) {
        return Thrown;
      }
      if !heard.Heard? || !heard.msg.InitPake? || heard.msg.point.None? || heard.msg.profiles.None? {
        return Ended(PakeFailed);
      }
      if heard.msg.point.value.Undecodable? {
        return Ended(PakeFailed);
      }
      if heard.msg.point.value.Invalid? {
        return Thrown;
      }
      r := JoinAnswer(w, JView(w, heard.msg.point.value.n, heard.msg.profiles.value), env);
    }

    method JoinAnswer(w: Setup, v: View, env: JoinEnv) returns (r: Exit)
      modifies this`allow, this`posts, this`puts
      ensures var m := JoinPake(Some(Point(w.pointJ)), Fingerprint(v), w.joinId, Some(w.profilesJ));
              Left(r) == JRun(w, JPost(m, JAwaitConfirm(v)), old(Left(Thrown)), env)
    {
      var m := JoinPake(Some(Point(w.pointJ)), Fingerprint(v), w.joinId, Some(w.profilesJ));
      var sent := Post(m, env.post(m));
      if !sent {
        return Thrown;
      }
      r := JoinConfirm(w, v, env);
    }

    /** Tells the other side of the failure and then fails. */
    method JoinFail(w: Setup, result: Result, env: JoinEnv) returns (r: Exit)
      modifies this`allow, this`posts, this`puts
      ensures Left(r) == JRun(w, JPost(BondFail, JDone(result)), old(Left(Thrown)), env)
    {
      var sent := Post(BondFail, env.post(BondFail));
      return if sent then Ended(result) else Thrown;
    }

    method JoinConfirm(w: Setup, v: View, env: JoinEnv) returns (r: Exit)
      modifies this`allow, this`posts, this`puts
      ensures Left(r) == JRun(w, JAwaitConfirm(v), old(Left(Thrown)), env)
    {
      var heard := PollWireMessage(env.confirm, m => JWants(w, JAwaitConfirm(v), m));
      if Breaks(heard) {
        return Thrown;
      }
      if !heard.Heard? || heard.msg.BondFail? {
        r := JoinFail(w, PakeFailed, env);
        return;
      }
      if !heard.msg.Confirm? || heard.msg.proof.Absent? || heard.msg.agentId == "" {
        r := JoinFail(w, PakeFailed, env);
        return;
      }
      if heard.msg.proof != Fingerprint(v) || heard.msg.agentId != w.proposedId {
        r := JoinFail(w, PakeFailed, env);
        return;
      }
      var contract := IntersectProfiles(v.initProfiles, v.joinProfiles);
      if CORE !in contract {
        return Ended(RolledBack("profile_not_supported"));
      }
      r := JoinTell(w, v, contract, env);
    }

    method JoinTell(w: Setup, v: View, contract: seq<string>, env: JoinEnv) returns (r: Exit)
      requires contract == Contract(v)
      modifies this`allow, this`posts, this`puts
      ensures Left(r) == JRun(w, JPost(BondOk(w.joinId, Tag(v.key, w.joinId)), JAwaitBond(v)), old(Left(Thrown)), env)
    {
      var m := BondOk(w.joinId, Tag(v.key, w.joinId));
      var sent := Post(m, env.post(m));
      if !sent {
        return Thrown;
      }
      r := JoinBond(w, v, contract, env);
    }

    method JoinBond(w: Setup, v: View, contract: seq<string>, env: JoinEnv) returns (r: Exit)
      requires contract == Contract(v)
      modifies this`allow, this`posts, this`puts
      ensures Left(r) == JRun(w, JAwaitBond(v), old(Left(Thrown)), env)
    {
      var heard := PollWireMessage(env.bond, m => JWants(w, JAwaitBond(v), m));
      if Breaks(heard) {
        return Thrown;
      }
      if !heard.Heard? || !heard.msg.BondOk? {
        return Ended(RolledBack("bond_aborted"));
      }
      if TagFails(heard.msg, v.key, w.proposedId) {
        return Ended(RolledBack("bond_tag_mismatch"));
      }
      r := JoinPush(w, v, contract, env);
    }

    method JoinPush(w: Setup, v: View, contract: seq<string>, env: JoinEnv) returns (r: Exit)
      requires contract == Contract(v)
      modifies this`allow, this`posts, this`puts
      ensures Left(r) == JRun(w, JPutting(v, old(allow)), old(Left(Thrown)).(allow := Added(old(allow), w.proposedId)), env)
    {
      var previous := allow;
      PutAllowlist(Added(previous, w.proposedId));
      if env.put.Failed? {
        return Thrown;
      }
      if !env.put.ok {
        r := JoinUndo(w, previous, env);
        return;
      }
      return Ended(Bonded(w.proposedId, contract));
    }

    method JoinUndo(w: Setup, previous: seq<string>, env: JoinEnv) returns (r: Exit)
      modifies this`allow, this`posts, this`puts
      ensures Left(r) == JRun(w, JUndoing, old(Left(Thrown)).(allow := previous), env)
    {
      PutAllowlist(previous);
      if env.undo.Failed? {
        return Thrown;
      }
      r := JoinFail(w, RolledBack("allowlist_push_failed"), env);
    }

    /** pairJoin: an end with a result burns the code, an exception leaves it as it was. */
    method PairJoin(code: string, w: Setup, env: JoinEnv, now: int, later: int) returns (r: FlowResult)
      modifies this`allow, this`posts, this`puts, registry
      ensures var (book, found) := R.Started(old(registry.Contents()), code, now);
              if found.Live? then
                var stop := JStop(w, JBegin, old(allow), env);
                && JEnded(stop) && r == (if stop.JDone? then Ran(stop.result) else Threw)
                && Left(if r.Ran? then Ended(r.result) else Thrown) == JRun(w, JBegin, old(Left(Thrown)), env)
                && allow == A.Grown(old(allow), A.JStanding(w, stop))
                && registry.Contents() == if r.Ran? then R.Consumed(book, code, later) else book
              else
                && r == (if found.Expired? then Expired else NotFound)
                && Left(Thrown) == old(Left(Thrown)) && registry.Contents() == book
      ensures r.Ran? ==> exists v :: JBooks(w, v, old(Left(Thrown)), Left(Ended(r.result)))
      ensures var (book, found) := R.Started(old(registry.Contents()), code, now);
              found.Live? && w.decline.Some? ==>
                var a := env.post(Reject(w.decline));
                && posts == old(posts) + (if Arrives(a) then [Reject(w.decline)] else [])
                && puts == old(puts) && allow == old(allow)
                && r == (if a.Posted? then Ran(Rejected(w.decline.value)) else Threw)
                && registry.Contents() == if a.Posted? then R.Consumed(book, code, later) else book
    {
      var found := R.LookupPending(registry, code, now);
      if found.NotFound? {
        return NotFound;
      }
      if found.Expired? {
        return Expired;
      }
      var end := Join(w, env);
      JRunAllOrNothing(w, JBegin, old(Left(Thrown)), env, old(allow));
      ghost var _ := JoinerLedger(w, old(Left(Thrown)), env);
      if w.decline.Some? {
        RefusalRuns(w, old(Left(Thrown)), env);
      }
      if end.Thrown? {
        return Threw;
      }
      registry.Consume(code, later);
      return Ran(end.result);
    }

    // ---- the initiator ----

    method Complete(w: Setup, env: InitEnv) returns (r: Exit)
      modifies this`allow, this`posts, this`puts
      ensures Left(r) == IRun(w, IAwaitPake, old(Left(Thrown)), env)
    {
      var heard := PollWireMessage(env.pake, m => IWants(w, IAwaitPake, m));
      if Breaks(heard) {
        return Thrown;
      }
      if !heard.Heard? || heard.msg.BondFail? {
        return Ended(PakeFailed);
      }
      var m := heard.msg;
      if m.Reject? {
        var reason, _ := U.TruncateUtf8ToBytes(if m.why.Some? then m.why.value else [], REJECT_REASON_MAX_BYTES);
        return Ended(Rejected(reason));
      }
      if !m.JoinPake? || m.point.None? || m.proof.Absent? || m.agentId == "" || m.profiles.None? {
        r := CompleteFail(w, PakeFailed, env);
        return;
      }
      if !w.resumable {
        return Ended(PakeFailed);
      }
      if m.point.value.Undecodable? {
        r := CompleteFail(w, PakeFailed, env);
        return;
      }
      if m.point.value.Invalid? {
        return Thrown;
      }
      var v := IView(w, m.point.value.n, m.agentId, m.profiles.value);
      if m.proof != Fingerprint(v) {
        r := CompleteFail(w, PakeFailed, env);
        return;
      }
      r := CompleteConfirm(w, v, env);
    }

    method CompleteFail(w: Setup, result: Result, env: InitEnv) returns (r: Exit)
      modifies this`allow, this`posts, this`puts
      ensures Left(r) == IRun(w, IPost(BondFail, IDone(result)), old(Left(Thrown)), env)
    {
      var sent := Post(BondFail, env.post(BondFail));
      return if sent then Ended(result) else Thrown;
    }

    method CompleteConfirm(w: Setup, v: View, env: InitEnv) returns (r: Exit)
      modifies this`allow, this`posts, this`puts
      ensures Left(r) == IRun(w, IPost(Confirm(Fingerprint(v), w.initId),
                if CORE in Contract(v) then IAwaitBond(v) else IDone(RolledBack("profile_not_supported"))), old(Left(Thrown)), env)
    {
      var m := Confirm(Fingerprint(v), w.initId);
      var sent := Post(m, env.post(m));
      if !sent {
        return Thrown;
      }
      var contract := IntersectProfiles(v.initProfiles, v.joinProfiles);
      if CORE !in contract {
        return Ended(RolledBack("profile_not_supported"));
      }
      r := CompleteBond(w, v, contract, env);
    }

    method CompleteBond(w: Setup, v: View, contract: seq<string>, env: InitEnv) returns (r: Exit)
      requires contract == Contract(v)
      modifies this`allow, this`posts, this`puts
      ensures Left(r) == IRun(w, IAwaitBond(v), old(Left(Thrown)), env)
    {
      var heard := PollWireMessage(env.bond, m => IWants(w, IAwaitBond(v), m));
      if Breaks(heard) {
        return Thrown;
      }
      if !heard.Heard? || !heard.msg.BondOk? {
        return Ended(RolledBack("bond_aborted"));
      }
      if TagFails(heard.msg, v.key, v.joiner) {
        r := CompleteFail(w, RolledBack("bond_tag_mismatch"), env);
        return;
      }
      r := CompletePush(w, v, contract, env);
    }

    method CompletePush(w: Setup, v: View, contract: seq<string>, env: InitEnv) returns (r: Exit)
      requires contract == Contract(v)
      modifies this`allow, this`posts, this`puts
      ensures Left(r) == IRun(w, IPutting(v, old(allow)), old(Left(Thrown)).(allow := Added(old(allow), v.joiner)), env)
    {
      var previous := allow;
      PutAllowlist(Added(previous, v.joiner));
      if env.put.Failed? {
        return Thrown;
      }
      if !env.put.ok {
        r := CompleteRefused(w, previous, env);
        return;
      }
      r := CompleteTell(w, v, previous, contract, env);
    }

    method CompleteRefused(w: Setup, previous: seq<string>, env: InitEnv) returns (r: Exit)
      modifies this`allow, this`posts, this`puts
      ensures var undoing := IUndoing(IPost(BondFail, IDone(RolledBack("allowlist_push_failed"))));
              Left(r) == IRun(w, undoing, old(Left(Thrown)).(allow := previous), env)
    {
      PutAllowlist(previous);
      if env.undo.Failed? {
        return Thrown;
      }
      r := CompleteFail(w, RolledBack("allowlist_push_failed"), env);
    }

    method CompleteTell(w: Setup, v: View, previous: seq<string>, contract: seq<string>, env: InitEnv) returns (r: Exit)
      requires contract == Contract(v)
      modifies this`allow, this`posts, this`puts
      ensures Left(r) == IRun(w, IPost(BondOk(w.initId, Tag(v.key, w.initId)), IFirstLook(v, previous)), old(Left(Thrown)), env)
    {
      var m := BondOk(w.initId, Tag(v.key, w.initId));
      var sent := Post(m, env.post(m));
      if !sent {
        return Thrown;
      }
      r := CompleteLooks(w, v, previous, contract, env);
    }

    /** A failure notice of the joiner undoes the push. */
    method CompleteUndo(w: Setup, previous: seq<string>, env: InitEnv) returns (r: Exit)
      modifies this`allow, this`posts, this`puts
      ensures Left(r) == IRun(w, IUndoing(IDone(RolledBack("bond_aborted"))), old(Left(Thrown)).(allow := previous), env)
    {
      PutAllowlist(previous);
      return if env.undo.Failed? then Thrown else Ended(RolledBack("bond_aborted"));
    }

    /** Two last looks at the slot; the parser's exceptions are caught in neither. */
    method CompleteLooks(w: Setup, v: View, previous: seq<string>, contract: seq<string>, env: InitEnv) returns (r: Exit)
      requires contract == Contract(v)
      modifies this`allow, this`posts, this`puts
      ensures Left(r) == IRun(w, IFirstLook(v, previous), old(Left(Thrown)), env)
    {
      if env.firstLook.Broken? || env.firstLook == Text(Garbled) {
        return Thrown;
      }
      if env.firstLook == Text(BondFail) {
        r := CompleteUndo(w, previous, env);
        return;
      }
      r := CompleteSecondLook(w, v, previous, contract, env);
    }

    method CompleteSecondLook(w: Setup, v: View, previous: seq<string>, contract: seq<string>, env: InitEnv) returns (r: Exit)
      requires contract == Contract(v)
      modifies this`allow, this`posts, this`puts
      ensures Left(r) == IRun(w, ISecondLook(v, previous), old(Left(Thrown)), env)
    {
      var heard := PollWireMessage(env.secondLook, m => IWants(w, ISecondLook(v, previous), m));
      if Breaks(heard) {
        return Thrown;
      }
      if heard == Heard(BondFail) {
        r := CompleteUndo(w, previous, env);
        return;
      }
      return Ended(Bonded(v.joiner, contract));
    }

    /** pairInitComplete: as pairJoin, and a push undone is marked on the entry before the code is burnt. */
    method PairInitComplete(code: string, w: Setup, env: InitEnv, now: int, later: int) returns (r: FlowResult)
      modifies this`allow, this`posts, this`puts, registry
      ensures var (book, found) := R.Started(old(registry.Contents()), code, now);
              if found.Live? then
                var stop := IStop(w, IAwaitPake, old(allow), env);
                && IEnded(stop) && r == (if stop.IDone? then Ran(stop.result) else Threw)
                && Left(if r.Ran? then Ended(r.result) else Thrown) == IRun(w, IAwaitPake, old(Left(Thrown)), env)
                && allow == A.Grown(old(allow), A.IStanding(stop))
                && registry.Contents() == if r.Ran? then R.Consumed(book, code, later) else book
              else
                && r == (if found.Expired? then Expired else NotFound)
                && Left(Thrown) == old(Left(Thrown)) && registry.Contents() == book
      ensures r.Ran? ==> exists v :: IBooks(w, v, old(Left(Thrown)), Left(Ended(r.result)))
      ensures var (book, found) := R.Started(old(registry.Contents()), code, now);
              var a := IAnswer(w, IAwaitPake, env);
              found.Live? && a.Heard? && a.msg.Reject? ==>
                && r == Ran(Rejected(Explained(a.msg.why)))
                && posts == old(posts) && puts == old(puts) && allow == old(allow)
                && registry.Contents() == R.Consumed(book, code, later)
    {
      var found := R.LookupPending(registry, code, now);
      if found.NotFound? {
        return NotFound;
      }
      if found.Expired? {
        return Expired;
      }
      ghost var book := registry.Contents();
      var before := |puts|;
      var end := Complete(w, env);
      IRunAllOrNothing(w, IAwaitPake, old(Left(Thrown)), env, old(allow));
      ghost var _ := InitiatorLedger(w, old(Left(Thrown)), env);
      if IAnswer(w, IAwaitPake, env).Heard? && IAnswer(w, IAwaitPake, env).msg.Reject? {
        HearingRefusal(w, old(Left(Thrown)), env);
      }
      if end.Thrown? {
        return Threw;
      }
      if end.result.RolledBack? && |puts| > before {
        registry.Update(code, true);
      }
      R.UpdateThenConsume(book, code, true, later);
      registry.Consume(code, later);
      return Ran(end.result);
    }
  }
}
