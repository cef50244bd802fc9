/** The receiving agent: it pulls a page after its cursor, filters it, and receives what is left in order. */
module InboxClient {
  import opened Options
  import opened Receive
  import opened RelayInbox

  /** The client's own filter repeats the relay's: only envelopes that name a bonded sender are looked at. */
  function Bonded(page: seq<Entry>, peers: set<string>): seq<Entry> {
    if page == [] then []
    else
      var kept := Bonded(page[..|page| - 1], peers);
      if SenderIn(page[|page| - 1].wire, peers) then kept + [page[|page| - 1]] else kept
  }

  method FilterBondedWires(page: seq<Entry>, peers: set<string>) returns (kept: seq<Entry>)
    ensures kept == Bonded(page, peers)
  {
    kept := [];
    for n := 0 to |page|
      invariant kept == Bonded(page[..n], peers)
    {
      assert page[..n + 1][..n] == page[..n];
      if SenderIn(page[n].wire, peers) {
        kept := kept + [page[n]];
      }
    }
    assert page[..|page|] == page;
  }

  /** The reactions of one pull, by wire. */
  type React = Wire -> Reaction

  function Arrivals(page: seq<Entry>, peers: set<string>, now: int, react: React): seq<Arrival> {
    if page == [] then []
    else
      Arrivals(page[..|page| - 1], peers, now, react)
      + [Arrival(page[|page| - 1].wire, peers, now, react(page[|page| - 1].wire))]
  }

  lemma {:induction false} RunAppend(self: string, streams: map<string, int>, a: seq<Arrival>, x: Arrival)
    ensures Store(self, streams, a + [x])
            == After(x.wire, self, x.bonded, Store(self, streams, a), x.now, x.re)
    ensures AcceptedOf(self, streams, a + [x])
            == AcceptedOf(self, streams, a) + AcceptedOf(self, Store(self, streams, a), [x])
    decreases |a|
  {
    if a == [] {
      assert a + [x] == [x] && [x][1..] == [];
    } else {
      RunAppend(self, After(a[0].wire, self, a[0].bonded, streams, a[0].now, a[0].re), a[1..], x);
      assert (a + [x])[1..] == a[1..] + [x];
    }
  }

  class Client {
    const self: string
    const store: SeqStore
    var cursor: int

    constructor (self: string)
      ensures this.self == self && cursor == 0 && fresh(store) && store.streams == map[]
    {
      this.self := self;
      store := new SeqStore();
      cursor := 0;
    }

    /** An explicit `since` overrides the stored cursor; either way the cursor becomes the page's end. */
    method HandleInbox(relay: Relay, since: Option<int>, allowed: set<string>, peers: set<string>, now: int, react: React)
      returns (accepted: seq<Body>)
      modifies this, store
      ensures var used := if since.Some? then since.value else old(cursor);
              var page := Page(relay.rows, self, NormalizeSince(used));
              var filter := if peers == {} then None else Some(peers);
              var ins := Arrivals(Bonded(Visible(page, allowed, filter), peers), peers, now, react);
              && cursor == PageEnd(page, NormalizeSince(used))
              && store.streams == Store(self, old(store.streams), ins)
              && accepted == AcceptedOf(self, old(store.streams), ins)
    {
      var used := if since.Some? then since.value else cursor;
      var visible, end := relay.Get(self, used, allowed, if peers == {} then None else Some(peers));
      var todo := FilterBondedWires(visible, peers);
      ghost var before := store.streams;
      accepted := [];
      for n := 0 to |todo|
        invariant store.streams == Store(self, before, Arrivals(todo[..n], peers, now, react))
        invariant accepted == AcceptedOf(self, before, Arrivals(todo[..n], peers, now, react))
      {
        var w := todo[n].wire;
        assert todo[..n + 1][..n] == todo[..n];
        RunAppend(self, before, Arrivals(todo[..n], peers, now, react), Arrival(w, peers, now, react(w)));
        var r := ReceiveEnvelope(w, self, peers, store, now, react(w));
        if r.Accepted? {
          accepted := accepted + [r.body];
        }
      }
      assert todo[..|todo|] == todo;
      cursor := end;
    }
  }
}
