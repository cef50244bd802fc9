/** Outbound sequence numbers of one sender, thread by thread, and the gaps it can tell. */
module ThreadSeq {
  import opened Options

  function HighWater(high: map<string, int>, thread: string): int {
    if thread in high then high[thread] else 0
  }

  function Raised(high: map<string, int>, thread: string, seqNo: int): map<string, int> {
    if seqNo > HighWater(high, thread) then high[thread := seqNo] else high
  }

  class Sender {
    var high: map<string, int>
    var sent: map<string, set<int>>

    constructor ()
      ensures high == map[] && sent == map[]
    {
      high, sent := map[], map[];
    }

    method NextThreadSeq(thread: string) returns (seqNo: int)
      ensures seqNo == HighWater(high, thread) + 1
    {
      seqNo := (if thread in high then high[thread] else 0) + 1;
    }

    method RecordSentSeq(thread: string, seqNo: int)
      modifies this
      ensures high == Raised(old(high), thread, seqNo)
      ensures sent == old(sent)[thread := (if thread in old(sent) then old(sent)[thread] else {}) + {seqNo}]
    {
      var seqs := if thread in sent then sent[thread] else {};
      sent := sent[thread := seqs + {seqNo}];
      var current := if thread in high then high[thread] else 0;
      if seqNo > current {
        high := high[thread := seqNo];
      }
    }
  }

  // ---- the numbers a sender gives out ----

  /** The numbers of envelopes sent one after another on these threads, each recorded once it went out. */
  function Numbers(high: map<string, int>, threads: seq<string>): seq<int>
    decreases |threads|
  {
    if threads == [] then []
    else
      var n := HighWater(high, threads[0]) + 1;
      [n] + Numbers(Raised(high, threads[0], n), threads[1..])
  }

  function Times(threads: seq<string>, thread: string): nat
    decreases |threads|
  {
    if threads == [] then 0 else (if threads[0] == thread then 1 else 0) + Times(threads[1..], thread)
  }

  /** On every thread the numbers go on from its high-water mark without a gap, whatever is sent on others in between. */
  lemma {:induction false} NumbersGoOn(high: map<string, int>, threads: seq<string>, i: nat)
    requires i < |threads|
    ensures |Numbers(high, threads)| == |threads|
    ensures Numbers(high, threads)[i] == HighWater(high, threads[i]) + Times(threads[..i], threads[i]) + 1
    decreases |threads|
  {
    var h := Raised(high, threads[0], HighWater(high, threads[0]) + 1);
    if i > 0 {
      assert threads[..i][1..] == threads[1..][..i - 1];
      NumbersGoOn(h, threads[1..], i - 1);
    } else if |threads| > 1 {
      NumbersGoOn(h, threads[1..], 0);
    }
  }

  datatype Record = Record(thread: string, seqNo: int)

  function Recorded(high: map<string, int>, rs: seq<Record>): map<string, int>
    decreases |rs|
  {
    if rs == [] then high else Recorded(Raised(high, rs[0].thread, rs[0].seqNo), rs[1..])
  }

  /** The mark of a thread is the highest number recorded on it, numbers given by the caller and out of order included. */
  lemma {:induction false} MarkIsTheHighest(high: map<string, int>, rs: seq<Record>, thread: string)
    ensures var mark := HighWater(Recorded(high, rs), thread);
            && HighWater(high, thread) <= mark
            && (forall r :: r in rs && r.thread == thread ==> r.seqNo <= mark)
            && (mark == HighWater(high, thread) || Record(thread, mark) in rs)
    decreases |rs|
  {
    if rs != [] {
      MarkIsTheHighest(Raised(high, rs[0].thread, rs[0].seqNo), rs[1..], thread);
      assert forall r :: r in rs <==> r == rs[0] || r in rs[1..];
    }
  }

  // ---- gaps ----

  ghost predicate Ascends(xs: seq<int>) {
    forall i, j :: 0 <= i < j < |xs| ==> xs[i] < xs[j]
  }

  /** Puts a number in its place of an ascending list, once. */
  function Insert(x: int, xs: seq<int>): (r: seq<int>)
    ensures forall y :: y in r <==> y == x || y in xs
  {
    if xs == [] then [x]
    else if x == xs[0] then xs
    else if x < xs[0] then [x] + xs
    else
      assert xs == [xs[0]] + xs[1..];
      [xs[0]] + Insert(x, xs[1..])
  }

  lemma {:induction false} InsertAscends(x: int, xs: seq<int>)
    requires Ascends(xs)
    ensures Ascends(Insert(x, xs))
  {
    if xs != [] && x > xs[0] {
      InsertAscends(x, xs[1..]);
      var r := Insert(x, xs[1..]);
      forall j | 0 <= j < |r| ensures xs[0] < r[j] { assert r[j] in r; }
    }
  }

  /** No number between two of the set is missing. */
  ghost predicate Contiguous(xs: seq<int>) {
    forall x, y, z {:trigger x in xs, y in xs, z in xs} :: x in xs && y in xs && x <= z <= y ==> z in xs
  }

  method SortDistinct(xs: seq<int>) returns (r: seq<int>)
    ensures Ascends(r) && forall y :: y in r <==> y in xs
  {
    r := [];
    for n := 0 to |xs|
      invariant Ascends(r) && forall y :: y in r <==> y in xs[..n]
    {
      assert xs[..n + 1] == xs[..n] + [xs[n]];
      InsertAscends(xs[n], r);
      r := Insert(xs[n], r);
    }
    assert xs[..|xs|] == xs;
  }

  /** The last number before the first gap, or nothing exactly when the numbers are contiguous. */
  method DetectGlobalThreadGap(peerSeqs: seq<int>, ourSeqs: seq<int>) returns (lastGood: Option<int>)
    ensures lastGood.None? <==> Contiguous(peerSeqs + ourSeqs)
    ensures lastGood.Some? ==>
              var all := peerSeqs + ourSeqs;
              && lastGood.value in all && lastGood.value + 1 !in all
              && (exists y :: y in all && y > lastGood.value)
              && (forall x, z {:trigger x in all, z in all} :: x in all && x <= z <= lastGood.value ==> z in all)
  {
    var sorted := SortDistinct(peerSeqs + ourSeqs);
    ghost var all := peerSeqs + ourSeqs;
    if |sorted| <= 1 {
      return None;
    }
    var good := sorted[0];
    for n := 1 to |sorted|
      invariant good == sorted[n - 1] == sorted[0] + n - 1
      invariant forall k :: 0 <= k < n ==> sorted[k] == sorted[0] + k
    {
      if sorted[n] != good + 1 {
        GapFound(all, sorted, n);
        return Some(good);
      }
      good := sorted[n];
    }
    NoGap(all, sorted);
    return None;
  }

  lemma GapFound(all: seq<int>, sorted: seq<int>, n: nat)
    requires 1 <= n < |sorted| && Ascends(sorted) && forall y :: y in sorted <==> y in all
    requires (forall k :: 0 <= k < n ==> sorted[k] == sorted[0] + k) && sorted[n] != sorted[n - 1] + 1
    ensures var g := sorted[n - 1];
            && !Contiguous(all) && g in all && g + 1 !in all && sorted[n] in all && sorted[n] > g
            && (forall x, z {:trigger x in all, z in all} :: x in all && x <= z <= g ==> z in all)
  {
    var g := sorted[n - 1];
    assert g in sorted && sorted[n] in sorted;
    assert forall k :: 0 <= k < |sorted| ==> sorted[k] != g + 1;
    assert g in all && sorted[n] in all && g + 1 !in all && g <= g + 1 <= sorted[n];
    forall x, z | x in all && x <= z <= g ensures z in all {
      assert x in sorted;
      var k :| 0 <= k < |sorted| && sorted[k] == x;
      assert sorted[z - sorted[0]] == z;
      assert z in sorted;
    }
  }

  lemma NoGap(all: seq<int>, sorted: seq<int>)
    requires |sorted| > 0 && (forall y :: y in sorted <==> y in all)
    requires forall k :: 0 <= k < |sorted| ==> sorted[k] == sorted[0] + k
    ensures Contiguous(all)
  {
    forall x, y, z | x in all && y in all && x <= z <= y ensures z in all {
      assert x in sorted && y in sorted;
      assert sorted[z - sorted[0]] == z;
      assert z in sorted;
    }
  }
}
