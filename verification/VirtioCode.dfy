/** virtio_disk.c's own loops over the descriptors and rings. */
module VirtioCode {
  import opened Virtio

  /** What the device does by itself: take the next published head, or return one it has taken. */
  datatype Move = TakeNext | Return(h: int)

  class VirtioDisk {
    var q: Queue
    /** The device's own: how much of the available ring it has taken, and the heads it has not returned. */
    var devAvail: nat
    var devHas: set<int>
    ghost var g: History

    ghost function View(): State
      reads this
    {
      State(q, g)
    }

    ghost predicate Valid()
      reads this
    {
      Inv(View()) && devAvail == Wrap(g.taken) && devHas == g.inDevice
    }

    /** All descriptors free, nothing published. */
    constructor ()
      ensures Valid() && g.reqs == map[] && q.busy == {}
    {
      q := Queue(seq(NUM, i => true), seq(NUM, i => NODESC), seq(NUM, i => -1), seq(NUM, i => 0),
                 seq(NUM, i => 0), 0, seq(NUM, i => 0), 0, 0, {});
      devAvail, devHas := 0, {};
      g := History(map[], map[], map[], [], 0, [], 0, {}, {}, map[]);
    }

    /** alloc_desc: the lowest free descriptor, or -1. */
    method AllocDesc() returns (i: int)
      requires |q.free| == NUM
      modifies `q
      ensures -1 <= i < NUM
      ensures i == -1 ==> q == old(q) && forall j :: 0 <= j < NUM ==> !q.free[j]
      ensures i >= 0 ==> old(q).free[i] && q == old(q).(free := old(q).free[i := false])
      ensures i >= 0 ==> forall j :: 0 <= j < i ==> !q.free[j]
    {
      i := 0;
      while i < NUM
        invariant 0 <= i <= NUM && q == old(q) && forall j :: 0 <= j < i ==> !q.free[j]
      {
        if q.free[i] {
          q := q.(free := q.free[i := false]);
          return;
        }
        i := i + 1;
      }
      return -1;
    }

    /** free_desc. */
    method FreeDesc(i: int)
      requires |q.free| == |q.desc| == NUM && Index(i) && !q.free[i]
      modifies `q
      ensures q == old(q).(free := old(q).free[i := true], desc := old(q).desc[i := NODESC])
    {
      q := q.(desc := q.desc[i := NODESC]);
      q := q.(free := q.free[i := true]);
    }

    /** alloc3_desc gives back the descriptors it has got. */
    method Rollback(idx: seq<int>, ghost was: seq<bool>)
      requires |q.free| == |q.desc| == |was| == NUM
      requires (forall x :: 0 <= x < |idx| ==> Index(idx[x]) && was[idx[x]])
      requires (forall x, y :: 0 <= x < y < |idx| ==> idx[x] != idx[y])
      requires forall k :: 0 <= k < NUM ==> q.free[k] == (was[k] && k !in idx)
      modifies `q
      ensures q == old(q).(free := was, desc := q.desc) && |q.desc| == NUM
      ensures forall k :: 0 <= k < NUM && !was[k] ==> q.desc[k] == old(q).desc[k]
    {
      var j := 0;
      while j < |idx|
        invariant 0 <= j <= |idx| && |q.free| == |q.desc| == NUM && q == old(q).(free := q.free, desc := q.desc)
        invariant forall k :: 0 <= k < NUM ==> q.free[k] == (was[k] && k !in idx[j..])
        invariant forall k :: 0 <= k < NUM && !was[k] ==> q.desc[k] == old(q).desc[k]
      {
        assert idx[j..] == [idx[j]] + idx[j + 1..];
        FreeDesc(idx[j]);
        j := j + 1;
      }
      assert q.free == was;
    }

    /** alloc3_desc: three descriptors that were free, or, with fewer than three left, none and the same free set. */
    method Alloc3() returns (ok: bool, idx: seq<int>)
      requires |q.free| == |q.desc| == NUM
      modifies `q
      ensures ok ==>
        |idx| == 3 && Index(idx[0]) && Index(idx[1]) && Index(idx[2])
            && idx[0] != idx[1] && idx[0] != idx[2] && idx[1] != idx[2]
      ensures ok ==> old(q).free[idx[0]] && old(q).free[idx[1]] && old(q).free[idx[2]]
      ensures ok ==> q == old(q).(free := old(q).free[idx[0] := false][idx[1] := false][idx[2] := false])
      ensures !ok ==> q == old(q).(desc := q.desc)
      ensures !ok ==> forall i, j, k :: 0 <= i < j < k < NUM ==> !(q.free[i] && q.free[j] && q.free[k])
      ensures |q.desc| == NUM && forall i :: 0 <= i < NUM && !old(q).free[i] ==> q.desc[i] == old(q).desc[i]
    {
      ghost var was := q.free;
      idx := [];
      var i := 0;
      while i < 3
        invariant 0 <= i <= 3 && |idx| == i && |q.free| == NUM && q == old(q).(free := q.free)
        invariant forall x :: 0 <= x < i ==> Index(idx[x]) && was[idx[x]]
        invariant forall x, y :: 0 <= x < y < i ==> idx[x] != idx[y]
        invariant forall k :: 0 <= k < NUM ==> q.free[k] == (was[k] && k !in idx)
      {
        var d := AllocDesc();
        if d < 0 {
          Rollback(idx, was);
          assert q.free == was;
          forall a, b, c | 0 <= a < b < c < NUM ensures !(was[a] && was[b] && was[c]) {
            assert !(was[a] && a !in idx) && !(was[b] && b !in idx) && !(was[c] && c !in idx);
          }
          return false, idx;
        }
        idx := idx + [d];
        i := i + 1;
      }
      assert idx == [idx[0], idx[1], idx[2]];
      assert q.free == was[idx[0] := false][idx[1] := false][idx[2] := false];
      return true, idx;
    }

    /** free_chain: it goes along a chain of three and frees exactly these. */
    method FreeChain(h: int, ghost d1: int, ghost d2: int)
      requires |q.free| == |q.desc| == NUM && Index(h) && Index(d1) && Index(d2) && h != d1 && h != d2 && d1 != d2
      requires !q.free[h] && !q.free[d1] && !q.free[d2]
      requires q.desc[h].hasNext && q.desc[h].next == d1 && q.desc[d1].hasNext
      requires q.desc[d1].next == d2 && !q.desc[d2].hasNext
      modifies `q
      ensures q == old(q).(free := old(q).free[h := true][d1 := true][d2 := true],
        desc := old(q).desc[h := NODESC][d1 := NODESC][d2 := NODESC])
    {
      var i := h;
      while true
        invariant |q.free| == |q.desc| == NUM && (i == h || i == d1 || i == d2)
        invariant i == h ==> q == old(q)
        invariant i == d1 ==> q == old(q).(free := old(q).free[h := true], desc := old(q).desc[h := NODESC])
        invariant i == d2 ==>
          q == old(q).(free := old(q).free[h := true][d1 := true], desc := old(q).desc[h := NODESC][d1 := NODESC])
        decreases if i == h then 2 else if i == d1 then 1 else 0
      {
        var flag, nxt := q.desc[i].hasNext, q.desc[i].next;
        FreeDesc(i);
        if !flag { break; }
        i := nxt;
      }
    }

    /** The part of virtio_disk_rw that formats the three descriptors and publishes the chain. */
    method Publish(h: int, d1: int, d2: int, b: nat, write: bool)
      requires QueueSized(q) && Index(h) && Index(d1) && Index(d2)
      modifies `q
      ensures q == Format(old(q), h, d1, d2, b, write) && q.busy == old(q).busy + {b}
    {
      q := q.(desc := q.desc[h := Desc(Header(h), true, false, d1)]);
      q := q.(desc := q.desc[d1 := Desc(Buffer(b), true, !write, d2)]);
      q := q.(status := q.status[h := 0xff]);
      q := q.(desc := q.desc[d2 := Desc(Status(h), false, true, 0)]);
      q := q.(busy := q.busy + {b});
      q := q.(info := q.info[h := b]);
      q := q.(availRing := q.availRing[Slot(q.availIdx) := h]);
      q := q.(availIdx := Wrap(q.availIdx + 1));
    }

    /** virtio_disk_rw up to its wait for b. If three descriptors cannot be had the caller sleeps and tries again. */
    method Start(b: nat, write: bool) returns (ok: bool, h: int)
      requires Valid() && b !in g.holder
      modifies this
      ensures Valid()
      ensures ok ==> h !in old(g).reqs && h in g.reqs && g.reqs == old(g).reqs[h := g.reqs[h]]
                     && g.reqs[h].b == b && g.reqs[h].write == write
                     && g.reqs[h].phase == Published && q.busy == old(q).busy + {b}
      ensures !ok ==> g == old(g) && q == old(q).(desc := q.desc) && |FreeSet(View())| < 3
    {
      hide Inv, Format, FreeSet;
      ghost var s := View();
      SizedHere(s);
      var idx;
      ok, idx := Alloc3();
      if !ok {
        FreeDescAny(s, q.desc);
        FewFree(View());
        return false, 0;
      }
      h := idx[0];
      var d1, d2 := idx[1], idx[2];
      SubmitInv(s, h, d1, d2, b, write);
      SubmitFresh(s, h, d1, d2, b);
      Publish(h, d1, d2, b, write);
      g := Submit(s, h, d1, d2, b, write).g;
      assert View() == Submit(s, h, d1, d2, b, write);
    }

    /** One round of virtio_disk_intr. */
    method InterruptOne()
      requires Valid() && q.seenIdx != q.usedIdx
      modifies this
      ensures Valid() && View() == See(old(View())) && old(g).seen + 1 == g.seen <= |g.done| && g.done == old(g).done
      ensures |g.pending| < |old(g).pending|
      ensures var h := old(g).done[old(g).seen];
              h in old(g).reqs && old(g).reqs[h].phase == Completed
                  && g.reqs == old(g).reqs[h := old(g).reqs[h].(phase := Seen)]
    {
      ghost var s := View();
      SeeInv(s);
      NextSeen(s);
      assert Sized(s) && CountOk(See(s));
      hide Inv, ReqOk;
      var id := q.usedRing[Slot(q.seenIdx)];
      assert q.status[id] == 0;
      q := q.(busy := q.busy - {q.info[id]});
      q := q.(seenIdx := Wrap(q.seenIdx + 1));
      g := See(s).g;
    }

    /** virtio_disk_intr, while the device goes on: acts[k] is what it does before the k-th test of the loop,
        as far as it can. When the loop ends, exactly the requests that the device has returned are marked
        done. */
    method Interrupt(acts: seq<seq<Move>>)
      requires Valid()
      modifies this
      ensures Valid() && q.seenIdx == q.usedIdx && g.seen == |g.done|
      ensures old(g).done <= g.done && old(g).seen <= |g.done| && forall h :: Marked(old(g), g, h)
    {
      ghost var s := g;
      var k := 0;
      DeviceActs(if k < |acts| then acts[k] else []);
      MarkedNone(s, g);
      while q.seenIdx != q.usedIdx
        invariant Valid() && s.done <= g.done && s.seen <= g.seen <= |g.done| && forall h :: Marked(s, g, h)
        decreases |g.pending|
      {
        ghost var m := g;
        InterruptOne();
        MarkedSeen(s, m, g);
        k := k + 1;
        m := g;
        DeviceActs(if k < |acts| then acts[k] else []);
        MarkedActs(s, m, g);
      }
      IndicesClose(View());
    }

    /** virtio_disk_rw after its wait: b->disk is clear, so its request has been seen, and its chain is freed. */
    method Finish(b: nat, h: int)
      requires Valid() && b in g.holder && g.holder[b] == h && b !in q.busy
      modifies this
      ensures Valid() && h in old(g).reqs && g.reqs == old(g).reqs - {h}
      ensures g.holder == old(g).holder - {b} && q.busy == old(q).busy
    {
      ghost var s := View();
      FinishReady(s, b, h);
      ReleaseInv(s, h);
      hide Inv;
      q := q.(info := q.info[h := -1]);
      FreeChain(h, g.reqs[h].d1, g.reqs[h].d2);
      g := Release(s, h).g;
      assert View() == Release(s, h);
    }

    /** The device looks at the available ring: the head it finds there is one the driver has published and it
        has not had. */
    method DeviceTake()
      requires Valid() && devAvail != q.availIdx
      modifies this
      ensures Valid() && q == old(q) && Acted(old(g), g)
      ensures old(g).taken < |old(g).pub|
      ensures var h := old(g).pub[old(g).taken];
              && h in old(g).reqs && old(g).reqs[h].phase == Published
              && g.reqs == old(g).reqs[h := old(g).reqs[h].(phase := Taken)] && devHas == old(devHas) + {h}
    {
      ghost var s := View();
      IndicesClose(s);
      assert CountOk(s);
      TakeInv(s);
      assert AvailOk(s, g.taken);
      RingSlot(g.taken);
      assert Sized(s);
      hide Inv;
      var h := q.availRing[Slot(devAvail)];
      devAvail, devHas := Wrap(devAvail + 1), devHas + {h};
      g := Take(s).g;
      assert View() == Take(s);
    }

    /** The device is done with a request it has taken. */
    method DeviceComplete(h: int)
      requires Valid() && h in devHas
      modifies this
      ensures Valid() && q.seenIdx == old(q).seenIdx && Acted(old(g), g) && devHas == old(devHas) - {h}
      ensures h in old(g).reqs && old(g).reqs[h].phase == Taken
      ensures g.reqs == old(g).reqs[h := old(g).reqs[h].(phase := Completed)] && g.done == old(g).done + [h]
    {
      ghost var s := View();
      assert OwnerOk(s, h) && ReqOk(s, h);
      CompleteInv(s, h);
      hide Inv;
      q := q.(status := q.status[h := 0]);
      q := q.(usedRing := q.usedRing[Slot(q.usedIdx) := h]);
      q := q.(usedIdx := Wrap(q.usedIdx + 1));
      devHas := devHas - {h};
      g := Complete(s, h).g;
      assert View() == Complete(s, h);
    }

    /** Some moves of the device, those that it can make. */
    method DeviceActs(moves: seq<Move>)
      requires Valid()
      modifies this
      ensures Valid() && q.seenIdx == old(q).seenIdx && Acted(old(g), g)
    {
      ghost var s := g;
      var k := 0;
      while k < |moves|
        invariant 0 <= k <= |moves| && Valid() && q.seenIdx == old(q).seenIdx && Acted(s, g)
      {
        ghost var m := g;
        match moves[k] {
          case TakeNext =>
            if devAvail != q.availIdx {
              DeviceTake();
              ActedOn(s, m, g);
            }
          case Return(h) =>
            if h in devHas {
              DeviceComplete(h);
              ActedOn(s, m, g);
            }
        }
        k := k + 1;
      }
    }
  }

  /** What the device may do to the request h: it moves on, but is not marked done. */
  ghost predicate MovesOn(s: History, t: History, h: int) {
    && (h in s.reqs <==> h in t.reqs)
    && (h in s.reqs && h in t.reqs ==>
          && t.reqs[h] == s.reqs[h].(phase := t.reqs[h].phase) && (t.reqs[h].phase == Seen <==> s.reqs[h].phase == Seen)
          && (s.reqs[h].phase == Completed ==> t.reqs[h].phase == Completed))
  }

  ghost predicate Acted(s: History, t: History) {
    t.seen == s.seen && t.pending == s.pending && s.done <= t.done && forall h :: MovesOn(s, t, h)
  }

  lemma ActedOn(s: History, m: History, t: History)
    requires Acted(s, m) && Acted(m, t)
    ensures Acted(s, t)
  {
    forall h ensures MovesOn(s, t, h) { assert MovesOn(s, m, h) && MovesOn(m, t, h); }
  }

  lemma SizedHere(s: State)
    requires Inv(s)
    ensures Sized(s)
  {
  }

  lemma NextSeen(s: State)
    requires Inv(s) && s.q.seenIdx != s.q.usedIdx
    ensures s.g.seen < |s.g.done| && s.q.usedRing[Slot(s.q.seenIdx)] == s.g.done[s.g.seen]
    ensures s.g.done[s.g.seen] in s.g.pending
  {
    IndicesClose(s);
    RingSlot(s.g.seen);
    assert CountOk(s) && UsedOk(s, s.g.seen) && ReqOk(s, s.g.done[s.g.seen]);
  }

  lemma FinishReady(s: State, b: nat, h: int)
    requires Inv(s) && b in s.g.holder && s.g.holder[b] == h && b !in s.q.busy
    ensures Sized(s) && h in s.g.reqs && s.g.reqs[h].phase == Seen && s.g.reqs[h].b == b && ChainOk(s, h, s.g.reqs[h])
    ensures !s.q.free[h] && !s.q.free[s.g.reqs[h].d1] && !s.q.free[s.g.reqs[h].d2]
  {
    BusyMeans(s, b);
    assert HolderOk(s, b) && ReqOk(s, h);
    assert OwnerOk(s, h) && OwnerOk(s, s.g.reqs[h].d1) && OwnerOk(s, s.g.reqs[h].d2);
  }

  /** What virtio_disk_intr makes of the request h: it is marked done if and only if it was, or the device has
      returned it and the driver has come to that entry. */
  ghost predicate Marked(s: History, t: History, h: int) {
    && (h in s.reqs <==> h in t.reqs)
    && (h in s.reqs && h in t.reqs && s.seen <= t.seen <= |t.done| ==>
          && t.reqs[h] == s.reqs[h].(phase := t.reqs[h].phase)
          && (t.reqs[h].phase == Seen <==> s.reqs[h].phase == Seen || h in t.done[s.seen..t.seen]))
  }

  lemma MarkedNone(s: History, t: History)
    requires Acted(s, t)
    ensures forall h :: Marked(s, t, h)
  {
    forall h ensures Marked(s, t, h) { assert MovesOn(s, t, h); }
  }

  lemma MarkedSeen(s: History, m: History, t: History)
    requires (forall h :: Marked(s, m, h)) && s.seen <= m.seen < |m.done| && t.seen == m.seen + 1 && t.done == m.done
    requires m.done[m.seen] in m.reqs
    requires t.reqs == m.reqs[m.done[m.seen] := m.reqs[m.done[m.seen]].(phase := Seen)]
    ensures forall h :: Marked(s, t, h)
  {
    assert t.done[s.seen..t.seen] == m.done[s.seen..m.seen] + [m.done[m.seen]];
    forall h ensures Marked(s, t, h) { assert Marked(s, m, h); }
  }

  lemma MarkedActs(s: History, m: History, t: History)
    requires (forall h :: Marked(s, m, h)) && s.seen <= m.seen <= |m.done| && Acted(m, t)
    ensures forall h :: Marked(s, t, h)
  {
    assert t.done[s.seen..t.seen] == m.done[s.seen..m.seen];
    forall h ensures Marked(s, t, h) { assert Marked(s, m, h) && MovesOn(m, t, h); }
  }

  /** With no three free descriptors there are fewer than three. */
  lemma FewFree(s: State)
    requires Sized(s) && forall i, j, k :: 0 <= i < j < k < NUM ==> !(s.q.free[i] && s.q.free[j] && s.q.free[k])
    ensures |FreeSet(s)| < 3
  {
    var f := FreeSet(s);
    if |f| >= 2 {
      var a :| a in f;
      assert |f - {a}| >= 1;
      var b :| b in f - {a};
      assert forall c :: c in f ==> c == a || c == b;
      assert f == {a, b};
    }
  }
}
