/** One machine's queue of human-gated items, in insertion order, and one thread's share of it. */
module Queue {
  import opened Options
  import opened SessionTypes
  import opened ThreadSteps

  datatype Tag = OpenTag | RatifyTag | BudgetTag

  predicate Is(i: Item, k: Tag, thread: string) {
    && i.thread == thread
    && match k
       case OpenTag => i.kind.SessionOpen?
       case RatifyTag => i.kind.Ratify?
       case BudgetTag => i.kind.BudgetExtend?
  }

  function Sel(q: seq<Item>, k: Tag, thread: string): (r: seq<Item>)
    ensures forall i :: i in r <==> i in q && Is(i, k, thread)
  {
    if q == [] then []
    else
      var r := Sel(q[..|q| - 1], k, thread);
      assert q == q[..|q| - 1] + [q[|q| - 1]];
      if Is(q[|q| - 1], k, thread) then r + [q[|q| - 1]] else r
  }

  ghost predicate UniqueIds(q: seq<Item>) {
    forall i, j :: 0 <= i < j < |q| ==> q[i].id != q[j].id
  }

  lemma SelAdd(q: seq<Item>, i: Item, k: Tag, thread: string)
    ensures Sel(q + [i], k, thread) == if Is(i, k, thread) then Sel(q, k, thread) + [i] else Sel(q, k, thread)
  {
  }

  lemma AddShares(q: seq<Item>, i: Item, k: Tag)
    requires UniqueIds(q) && Is(i, k, i.thread) && forall j :: j in q ==> j.id != i.id
    ensures UniqueIds(q + [i])
    ensures forall t, k2 :: Sel(q + [i], k2, t) == if t == i.thread && k2 == k then Sel(q, k, t) + [i] else Sel(q, k2, t)
    ensures forall j :: j in q + [i] <==> j in q || j == i
  {
  }

  lemma {:induction false} NoneLeft(q: seq<Item>, k: Tag, thread: string)
    requires forall i :: i in q ==> !Is(i, k, thread)
    ensures Sel(q, k, thread) == []
  {
    if q != [] {
      NoneLeft(q[..|q| - 1], k, thread);
    }
  }

  lemma {:induction false} SelPrefix(q: seq<Item>, n: nat, k: Tag, thread: string)
    requires n <= |q|
    ensures Sel(q[..n], k, thread) <= Sel(q, k, thread)
  {
    if n < |q| {
      SelPrefix(q[..|q| - 1], n, k, thread);
      assert q[..|q| - 1][..n] == q[..n];
    } else {
      assert q[..n] == q;
    }
  }

  /** The queue without the items whose id is doomed. */
  function Spared(q: seq<Item>, doomed: set<string>): (r: seq<Item>)
    ensures forall i :: i in r <==> i in q && i.id !in doomed
  {
    if q == [] then []
    else
      var r := Spared(q[..|q| - 1], doomed);
      assert q == q[..|q| - 1] + [q[|q| - 1]];
      if q[|q| - 1].id in doomed then r else r + [q[|q| - 1]]
  }

  lemma {:induction false} SparedUnique(q: seq<Item>, doomed: set<string>)
    requires UniqueIds(q)
    ensures UniqueIds(Spared(q, doomed))
  {
    if q != [] {
      SparedUnique(q[..|q| - 1], doomed);
      var last := q[|q| - 1];
      forall i | i in Spared(q[..|q| - 1], doomed) ensures i.id != last.id {
        assert i in q[..|q| - 1];
      }
    }
  }

  lemma {:induction false} SelSpared(q: seq<Item>, doomed: set<string>, k: Tag, thread: string)
    ensures Sel(Spared(q, doomed), k, thread) == Spared(Sel(q, k, thread), doomed)
  {
    if q != [] {
      var rest, last := q[..|q| - 1], q[|q| - 1];
      SelSpared(rest, doomed, k, thread);
      if last.id !in doomed {
        SelAdd(Spared(rest, doomed), last, k, thread);
      }
      if Is(last, k, thread) {
        assert (Sel(rest, k, thread) + [last])[..|Sel(rest, k, thread)|] == Sel(rest, k, thread);
      }
    }
  }

  lemma {:induction false} SparedAll(q: seq<Item>, doomed: set<string>)
    requires forall i :: i in q ==> i.id !in doomed
    ensures Spared(q, doomed) == q
  {
    if q != [] {
      assert q[|q| - 1] in q;
      SparedAll(q[..|q| - 1], doomed);
    }
  }

  lemma SparedNone(q: seq<Item>, doomed: set<string>)
    requires forall i :: i in q ==> i.id in doomed
    ensures Spared(q, doomed) == []
  {
  }

  lemma {:induction false} SparedOne(q: seq<Item>, id: string)
    ensures Spared(q, {id}) == WithoutId(q, id)
  {
    if q != [] {
      SparedOne(q[..|q| - 1], id);
    }
  }

  lemma {:induction false} SparedMore(q: seq<Item>, doomed: set<string>, id: string)
    ensures WithoutId(Spared(q, doomed), id) == Spared(q, doomed + {id})
  {
    if q != [] {
      var rest, last := q[..|q| - 1], q[|q| - 1];
      SparedMore(rest, doomed, id);
      if last.id !in doomed {
        var r := Spared(rest, doomed);
        assert (r + [last])[..|r|] == r;
      }
    }
  }

  /** Among the first n items the doomed ids are those of the items that have to go; the rest is spared. */
  ghost predicate Marked(q: seq<Item>, n: nat, gone: Item -> bool, doomed: set<string>)
    requires n <= |q|
  {
    && (forall j :: 0 <= j < n ==> (q[j].id in doomed <==> gone(q[j])))
    && (forall j :: n <= j < |q| ==> q[j].id !in doomed)
  }

  lemma MarkNext(q: seq<Item>, n: nat, gone: Item -> bool, doomed: set<string>)
    requires n < |q| && UniqueIds(q) && Marked(q, n, gone, doomed)
    ensures Marked(q, n + 1, gone, if gone(q[n]) then doomed + {q[n].id} else doomed)
  {
  }

  lemma {:induction false} SparedNotOf(q: seq<Item>, doomed: set<string>, peer: string)
    requires forall i :: i in q ==> (i.id in doomed <==> i.peer == peer)
    ensures Spared(q, doomed) == NotOf(q, peer)
  {
    if q != [] {
      assert q[|q| - 1] in q;
      SparedNotOf(q[..|q| - 1], doomed, peer);
    }
  }

  lemma RemoveMembers(q: seq<Item>, i: Item)
    requires UniqueIds(q) && i in q
    ensures UniqueIds(WithoutId(q, i.id))
    ensures forall j :: j in WithoutId(q, i.id) <==> j in q && j != i
  {
    SparedOne(q, i.id);
    SparedUnique(q, {i.id});
  }

  /** Removing one thread's item of one kind leaves every other thread and every other kind alone. */
  lemma RemoveItem(q: seq<Item>, i: Item, k: Tag, thread: string)
    requires UniqueIds(q) && i in q
    ensures UniqueIds(WithoutId(q, i.id))
    ensures Is(i, k, thread) ==> Sel(WithoutId(q, i.id), k, thread) == WithoutId(Sel(q, k, thread), i.id)
    ensures !Is(i, k, thread) ==> Sel(WithoutId(q, i.id), k, thread) == Sel(q, k, thread)
    ensures forall j :: j in WithoutId(q, i.id) <==> j in q && j != i
  {
    RemoveMembers(q, i);
    SparedOne(q, i.id);
    SparedOne(Sel(q, k, thread), i.id);
    SelSpared(q, {i.id}, k, thread);
    if !Is(i, k, thread) {
      SparedAll(Sel(q, k, thread), {i.id});
    }
  }

  /** The whole effect of one removal on the shares. */
  lemma RemoveShares(q: seq<Item>, i: Item, k: Tag)
    requires UniqueIds(q) && i in q && Is(i, k, i.thread)
    ensures UniqueIds(WithoutId(q, i.id))
    ensures forall t, k2 :: Sel(WithoutId(q, i.id), k2, t) ==
              if t == i.thread && k2 == k then WithoutId(Sel(q, k, t), i.id) else Sel(q, k2, t)
    ensures forall j :: j in WithoutId(q, i.id) <==> j in q && j != i
  {
    RemoveItem(q, i, k, i.thread);
    forall t, k2
      ensures Sel(WithoutId(q, i.id), k2, t) ==
              if t == i.thread && k2 == k then WithoutId(Sel(q, k, t), i.id) else Sel(q, k2, t)
    {
      RemoveItem(q, i, k2, t);
    }
  }

  /** The thread of the item with this id and kind; the empty name when there is none. */
  function Home(q: seq<Item>, k: Tag, id: string): string {
    var f := FindId(q, id);
    if f.Some? && Is(f.value, k, f.value.thread) then f.value.thread else ""
  }

  lemma HomeFinds(q: seq<Item>, k: Tag, id: string)
    requires UniqueIds(q)
    ensures
      var f := FindId(q, id);
      FindId(Sel(q, k, Home(q, k, id)), id) ==
      if f.Some? && Is(f.value, k, f.value.thread) then f else None
  {
  }
}
