/** The virtqueue of virtio_disk.c (split virtqueues, sections 2.6 and 5.2 of VIRTIO 1.1): descriptors, the
    two rings with their 16-bit indices, and the requests in flight. */
module Virtio {
  import opened Common

  const NUM := 8
  const U16 := 0x1_0000

  datatype Target = Nowhere | Header(i: int) | Buffer(b: nat) | Status(i: int)

  /** hasNext and devWrites are the flags VRING_DESC_F_NEXT and VRING_DESC_F_WRITE. */
  datatype Desc = Desc(addr: Target, hasNext: bool, devWrites: bool, next: int)

  const NODESC := Desc(Nowhere, false, false, 0)

  datatype Phase = Published | Taken | Completed | Seen

  /** A request that has not been released: its buffer, the two other descriptors of its chain, and how far it
      has got. */
  datatype Req = Req(b: nat, write: bool, d1: int, d2: int, phase: Phase)

  /** The driver's and the device's memory: info is the buffer recorded for a head; seenIdx is the driver's
      used_idx; busy are the buffers with b->disk set. */
  datatype Queue = Queue(free: seq<bool>, desc: seq<Desc>, info: seq<int>, status: seq<int>,
                         availRing: seq<int>, availIdx: nat, usedRing: seq<int>, usedIdx: nat,
                         seenIdx: nat, busy: set<nat>)

  /** The history: pub and done are all heads ever published and returned, of which the device has taken the
      first `taken` and the driver has seen the first `seen`; owner and holder say which request a descriptor
      or a buffer is in, and place where in done a returned head is. */
  datatype History = History(reqs: map<int, Req>, owner: map<int, int>, holder: map<nat, int>,
                             pub: seq<int>, taken: nat, done: seq<int>, seen: nat,
                             inDevice: set<int>, pending: set<int>, place: map<int, int>)

  datatype State = State(q: Queue, g: History)

  /** The ring entry for index n, and the 16-bit value of a count. */
  function Slot(n: nat): (r: nat)
    ensures r < NUM
  {
    n % NUM
  }

  function Wrap(n: nat): nat { n % U16 }

  predicate Index(i: int) { 0 <= i < NUM }

  predicate Sized(s: State) { QueueSized(s.q) }

  /** The chain of head h: header, buffer, status. */
  predicate ChainOk(s: State, h: int, r: Req)
    requires Sized(s)
  {
    && Index(h) && Index(r.d1) && Index(r.d2) && h != r.d1 && h != r.d2 && r.d1 != r.d2
    && s.q.desc[h] == Desc(Header(h), true, false, r.d1)
    && s.q.desc[r.d1] == Desc(Buffer(r.b), true, !r.write, r.d2)
    && s.q.desc[r.d2].addr == Status(h) && !s.q.desc[r.d2].hasNext && s.q.desc[r.d2].devWrites
  }

  predicate ReqOk(s: State, h: int)
    requires Sized(s)
  {
    h in s.g.reqs ==>
      var r := s.g.reqs[h];
      && ChainOk(s, h, r) && s.q.info[h] == r.b
      && h in s.g.owner && r.d1 in s.g.owner && r.d2 in s.g.owner
      && s.g.owner[h] == s.g.owner[r.d1] == s.g.owner[r.d2] == h
      && r.b in s.g.holder && s.g.holder[r.b] == h
      && (r.b in s.q.busy <==> r.phase != Seen) && (h in s.g.pending <==> r.phase != Seen)
      && (h in s.g.inDevice <==> r.phase == Taken)
      && s.q.status[h] == (if r.phase == Completed || r.phase == Seen then 0 else 0xff)
      && (r.phase == Completed ==>
         h in s.g.place && s.g.seen <= s.g.place[h] < |s.g.done| && s.g.done[s.g.place[h]] == h)
  }

  predicate OwnerOk(s: State, i: int)
    requires Sized(s)
  {
    && (Index(i) ==> (s.q.free[i] <==> i !in s.g.owner))
    && (i in s.g.owner ==>
       Index(i) && s.g.owner[i] in s.g.reqs
           && (i == s.g.owner[i] || i == s.g.reqs[s.g.owner[i]].d1 || i == s.g.reqs[s.g.owner[i]].d2))
    && (i in s.g.pending || i in s.g.inDevice ==> i in s.g.reqs)
    && (Index(i) && i !in s.g.reqs ==> s.q.info[i] == -1)
  }

  predicate HolderOk(s: State, b: nat) {
    && (b in s.q.busy ==> b in s.g.holder)
    && (b in s.g.holder ==> s.g.holder[b] in s.g.reqs && s.g.reqs[s.g.holder[b]].b == b)
  }

  /** Entry k of the available ring, while the device has not taken it. */
  predicate AvailOk(s: State, k: int)
    requires Sized(s)
  {
    s.g.taken <= k < |s.g.pub| ==>
        s.q.availRing[Slot(k)] == s.g.pub[k] && s.g.pub[k] in s.g.reqs && s.g.reqs[s.g.pub[k]].phase == Published
  }

  predicate UsedOk(s: State, k: int)
    requires Sized(s)
  {
    s.g.seen <= k < |s.g.done| ==>
        s.q.usedRing[Slot(k)] == s.g.done[k] && s.g.done[k] in s.g.reqs && s.g.reqs[s.g.done[k]].phase == Completed
  }

  predicate OnceEach(s: State, k: int, l: int) {
    && (s.g.taken <= k < l < |s.g.pub| ==> s.g.pub[k] != s.g.pub[l])
    && (s.g.seen <= k < l < |s.g.done| ==> s.g.done[k] != s.g.done[l])
  }

  /** The indices count, modulo 2^16, what has been published, returned and seen. */
  predicate CountOk(s: State) {
    && s.q.availIdx == Wrap(|s.g.pub|) && s.q.usedIdx == Wrap(|s.g.done|) && s.q.seenIdx == Wrap(s.g.seen)
    && s.g.seen <= |s.g.done| <= s.g.taken <= |s.g.pub|
    && |s.g.pending| == |s.g.pub| - s.g.seen
    && |s.g.inDevice| == s.g.taken - |s.g.done| && |s.g.owner| == 3 * |s.g.reqs|
  }

  ghost predicate Inv(s: State) {
    && Sized(s) && CountOk(s)
    && (forall h :: ReqOk(s, h))
    && (forall i :: OwnerOk(s, i))
    && (forall b :: HolderOk(s, b))
    && (forall k :: AvailOk(s, k))
    && (forall k :: UsedOk(s, k))
    && (forall k, l :: OnceEach(s, k, l))
  }

  // ---------------------------------------------------------------- consequences

  /** The numbers below n. */
  ghost function Upto(n: nat): (r: set<int>)
    ensures |r| == n && forall i :: i in r <==> 0 <= i < n
  {
    if n == 0 then {} else Upto(n - 1) + {n - 1}
  }

  lemma WrappedDifference(a: nat, b: nat)
    requires b <= a < b + U16
    ensures (a % U16 - b % U16) % U16 == a - b
  {
  }

  /** The 16-bit indices are never more than NUM apart, also across their wrap-around. */
  lemma IndicesClose(s: State)
    requires Inv(s)
    ensures |s.g.pub| - s.g.seen <= NUM
    ensures (s.q.availIdx - s.q.seenIdx) % U16 == |s.g.pub| - s.g.seen
    ensures (s.q.usedIdx - s.q.seenIdx) % U16 == |s.g.done| - s.g.seen
    ensures s.q.usedIdx == s.q.seenIdx <==> |s.g.done| == s.g.seen
    ensures s.q.availIdx == Wrap(s.g.taken) <==> |s.g.pub| == s.g.taken
  {
    hide Upto;
    forall i | i in s.g.pending ensures Index(i) { assert OwnerOk(s, i) && ReqOk(s, i); }
    assert CountOk(s);
    hide Inv;
    SubsetCount(s.g.pending, Upto(NUM));
    WrappedDifference(|s.g.pub|, s.g.seen);
    WrappedDifference(|s.g.done|, s.g.seen);
    WrappedDifference(|s.g.pub|, s.g.taken);
  }

  ghost function FreeSet(s: State): set<int> { set i | 0 <= i < |s.q.free| && s.q.free[i] }

  /** Free descriptors plus three per unreleased request are all the descriptors. */
  lemma DescriptorsConserved(s: State)
    requires Inv(s)
    ensures |FreeSet(s)| + 3 * |s.g.reqs| == NUM
  {
    hide Upto;
    forall i ensures i in Upto(NUM) <==> i in FreeSet(s) || i in s.g.owner.Keys { assert OwnerOk(s, i); }
    forall i ensures !(i in FreeSet(s) && i in s.g.owner.Keys) { assert OwnerOk(s, i); }
    assert CountOk(s);
    hide Inv, FreeSet;
    assert Upto(NUM) == FreeSet(s) + s.g.owner.Keys;
    assert |s.g.owner.Keys| == |s.g.owner|;
  }

  /** b->disk is set exactly while a request for b has not been seen to be done. */
  lemma BusyMeans(s: State, b: nat)
    requires Inv(s)
    ensures b in s.q.busy <==> b in s.g.holder && s.g.holder[b] in s.g.reqs && s.g.reqs[s.g.holder[b]].phase != Seen
  {
    assert HolderOk(s, b);
    if b in s.g.holder { assert ReqOk(s, s.g.holder[b]); }
  }

  /** The status byte of a request is 0 exactly when the device has returned it. */
  lemma StatusMeans(s: State, h: int)
    requires Inv(s) && h in s.g.reqs
    ensures Index(h) && (s.q.status[h] == 0 <==> s.g.reqs[h].phase == Completed || s.g.reqs[h].phase == Seen)
  {
    assert ReqOk(s, h);
  }

  /** The chains of two requests have no descriptor in common, and they are for different buffers. */
  lemma ChainsDisjoint(s: State, h: int, g: int)
    requires Inv(s) && h in s.g.reqs && g in s.g.reqs && h != g
    ensures {h, s.g.reqs[h].d1, s.g.reqs[h].d2} !! {g, s.g.reqs[g].d1, s.g.reqs[g].d2} && s.g.reqs[h].b != s.g.reqs[g].b
  {
    assert ReqOk(s, h) && ReqOk(s, g);
  }

  // ---------------------------------------------------------------- the driver and the device

  predicate QueueSized(q: Queue) {
    |q.free| == |q.desc| == |q.info| == |q.status| == |q.availRing| == |q.usedRing| == NUM
  }

  /** The chain h, d1, d2 formatted for a transfer of b, and published. */
  function Format(q: Queue, h: int, d1: int, d2: int, b: nat, write: bool): Queue
    requires QueueSized(q) && Index(h) && Index(d1) && Index(d2)
  {
    q.(desc := q.desc[h := Desc(Header(h), true, false, d1)]
                     [d1 := Desc(Buffer(b), true, !write, d2)][d2 := Desc(Status(h), false, true, 0)],
       info := q.info[h := b], status := q.status[h := 0xff],
       availRing := q.availRing[Slot(q.availIdx) := h], availIdx := Wrap(q.availIdx + 1), busy := q.busy + {b})
  }

  /** virtio_disk_rw up to its wait: the chain h, d1, d2 is formatted and published. */
  function Submit(s: State, h: int, d1: int, d2: int, b: nat, write: bool): State
    requires Sized(s) && Index(h) && Index(d1) && Index(d2)
  {
    State(Format(s.q.(free := s.q.free[h := false][d1 := false][d2 := false]), h, d1, d2, b, write),
          s.g.(reqs := s.g.reqs[h := Req(b, write, d1, d2, Published)], owner := s.g.owner[h := h][d1 := h][d2 := h],
               holder := s.g.holder[b := h], pub := s.g.pub + [h], pending := s.g.pending + {h}))
  }

  /** The device takes the next published head. */
  function Take(s: State): State
    requires Sized(s) && s.g.taken < |s.g.pub| && s.q.availRing[Slot(s.g.taken)] in s.g.reqs
  {
    var h := s.q.availRing[Slot(s.g.taken)];
    s.(g := s.g.(reqs := s.g.reqs[h := s.g.reqs[h].(phase := Taken)],
                 taken := s.g.taken + 1, inDevice := s.g.inDevice + {h}))
  }

  /** The device returns a head it has taken, in any order. */
  function Complete(s: State, h: int): State
    requires Sized(s) && h in s.g.reqs && Index(h)
  {
    State(s.q.(status := s.q.status[h := 0], usedRing := s.q.usedRing[Slot(s.q.usedIdx) := h],
               usedIdx := Wrap(s.q.usedIdx + 1)),
          s.g.(reqs := s.g.reqs[h := s.g.reqs[h].(phase := Completed)], done := s.g.done + [h],
               inDevice := s.g.inDevice - {h}, place := s.g.place[h := |s.g.done|]))
  }

  /** One round of virtio_disk_intr: the buffer recorded for the returned head is done. */
  function See(s: State): State
    requires Sized(s)
  {
    var h := s.q.usedRing[Slot(s.q.seenIdx)];
    if Index(h) && s.q.info[h] >= 0 && h in s.g.reqs
    then State(s.q.(busy := s.q.busy - {s.q.info[h]}, seenIdx := Wrap(s.q.seenIdx + 1)),
               s.g.(reqs := s.g.reqs[h := s.g.reqs[h].(phase := Seen)],
                   seen := s.g.seen + 1, pending := s.g.pending - {h}))
    else s
  }

  /** virtio_disk_rw after its wait: the three descriptors are free again. */
  function Release(s: State, h: int): State
    requires Sized(s) && h in s.g.reqs && Index(h) && Index(s.g.reqs[h].d1) && Index(s.g.reqs[h].d2)
  {
    var r := s.g.reqs[h];
    State(s.q.(free := s.q.free[h := true][r.d1 := true][r.d2 := true],
        desc := s.q.desc[h := NODESC][r.d1 := NODESC][r.d2 := NODESC],
               info := s.q.info[h := -1]),
          s.g.(reqs := s.g.reqs - {h}, owner := s.g.owner - {h, r.d1, r.d2}, holder := s.g.holder - {r.b}))
  }

  predicate Submittable(s: State, h: int, d1: int, d2: int, b: nat) {
    && Sized(s) && Index(h) && Index(d1) && Index(d2) && h != d1 && h != d2 && d1 != d2
    && s.q.free[h] && s.q.free[d1] && s.q.free[d2] && b !in s.g.holder
  }

  lemma SlotWrap(n: nat)
    ensures Slot(Wrap(n)) == Slot(n)
  {
    var q, r := n / U16, n % U16;
    assert n == NUM * (8192 * q) + r;
    assert (NUM * (8192 * q) + r) % NUM == r % NUM;
  }

  lemma WrapNext(n: nat)
    ensures Wrap(Wrap(n) + 1) == Wrap(n + 1)
  {
    var q, r := n / U16, n % U16;
    assert n == U16 * q + r;
    if r + 1 == U16 { assert n + 1 == U16 * (q + 1); } else { assert n + 1 == U16 * q + (r + 1); }
  }

  lemma RingSlot(n: nat)
    ensures Slot(Wrap(n)) == Slot(n) && Wrap(Wrap(n) + 1) == Wrap(n + 1)
  {
    hide Slot, Wrap;
    SlotWrap(n);
    WrapNext(n);
  }

  lemma OtherSlot(k: nat, w: nat)
    requires 0 < w - k < NUM
    ensures Slot(k) != Slot(w)
  {
  }

  lemma SubmitNew(s: State, h: int, d1: int, d2: int, b: nat, write: bool)
    requires Sized(s) && Submittable(s, h, d1, d2, b) && OwnerOk(s, h) && ReqOk(s, h)
    ensures ReqOk(Submit(s, h, d1, d2, b, write), h)
  {
    hide Slot, Wrap;
  }

  lemma SubmitOld(s: State, h: int, d1: int, d2: int, b: nat, write: bool, g: int)
    requires Sized(s) && Submittable(s, h, d1, d2, b) && OwnerOk(s, h) && OwnerOk(s, d1)
    requires OwnerOk(s, d2) && HolderOk(s, b) && ReqOk(s, g) && g != h
    ensures ReqOk(Submit(s, h, d1, d2, b, write), g)
  {
    hide Slot, Wrap;
  }

  lemma SubmitReq(s: State, h: int, d1: int, d2: int, b: nat, write: bool, g: int)
    requires Inv(s) && Submittable(s, h, d1, d2, b)
    ensures ReqOk(Submit(s, h, d1, d2, b, write), g)
  {
    assert OwnerOk(s, h) && OwnerOk(s, d1) && OwnerOk(s, d2) && HolderOk(s, b) && ReqOk(s, h) && ReqOk(s, g);
    hide Inv;
    if g == h { SubmitNew(s, h, d1, d2, b, write); } else { SubmitOld(s, h, d1, d2, b, write, g); }
  }

  lemma SubmitOwner(s: State, h: int, d1: int, d2: int, b: nat, write: bool, i: int, x: nat)
    requires Inv(s) && Submittable(s, h, d1, d2, b)
    ensures OwnerOk(Submit(s, h, d1, d2, b, write), i) && HolderOk(Submit(s, h, d1, d2, b, write), x)
  {
    assert OwnerOk(s, h) && OwnerOk(s, i) && HolderOk(s, x) && ReqOk(s, h);
  }

  /** A head put into its slot leaves the younger entries of the ring alone. */
  lemma RingPush(ring: seq<int>, all: seq<int>, from: nat, h: int, k: int)
    requires |ring| == NUM && |all| - from < NUM && from <= k <= |all| && (k < |all| ==> ring[Slot(k)] == all[k])
    ensures ring[Slot(|all|) := h][Slot(k)] == (all + [h])[k]
  {
    hide Slot;
    if k < |all| { OtherSlot(k, |all|); }
  }

  lemma SubmitAvail(s: State, h: int, d1: int, d2: int, b: nat, write: bool, k: int)
    requires Inv(s) && Submittable(s, h, d1, d2, b)
    ensures AvailOk(Submit(s, h, d1, d2, b, write), k)
  {
    hide Upto, Slot, Wrap;
    SubmitFresh(s, h, d1, d2, b);
    Room(s, h);
    assert AvailOk(s, k);
    hide Inv;
    RingSlot(|s.g.pub|);
    if s.g.taken <= k <= |s.g.pub| { RingPush(s.q.availRing, s.g.pub, s.g.taken, h, k); }
  }

  lemma SubmitRest(s: State, h: int, d1: int, d2: int, b: nat, write: bool, k: int, l: int)
    requires Inv(s) && Submittable(s, h, d1, d2, b)
    ensures UsedOk(Submit(s, h, d1, d2, b, write), k) && OnceEach(Submit(s, h, d1, d2, b, write), k, l)
  {
    hide Slot, Wrap;
    SubmitFresh(s, h, d1, d2, b);
    assert AvailOk(s, k) && UsedOk(s, k) && OnceEach(s, k, l);
    hide Inv;
  }

  lemma OneMore<T>(m: map<int, T>, k: int, v: T)
    requires k !in m
    ensures |m[k := v]| == |m| + 1
  {
    assert m[k := v].Keys == m.Keys + {k};
  }

  lemma ThreeMore(m: map<int, int>, a: int, b: int, c: int)
    requires a !in m && b !in m && c !in m && a != b && a != c && b != c
    ensures |m[a := a][b := a][c := a]| == |m| + 3
  {
    OneMore(m, a, a);
    OneMore(m[a := a], b, a);
    OneMore(m[a := a][b := a], c, a);
  }

  lemma SubmitFresh(s: State, h: int, d1: int, d2: int, b: nat)
    requires Inv(s) && Submittable(s, h, d1, d2, b)
    ensures h !in s.g.owner && d1 !in s.g.owner && d2 !in s.g.owner && h !in s.g.reqs && h !in s.g.pending && CountOk(s)
  {
    assert OwnerOk(s, h) && OwnerOk(s, d1) && OwnerOk(s, d2) && ReqOk(s, h);
  }

  lemma SubmitShape(s: State, h: int, d1: int, d2: int, b: nat, write: bool)
    requires Inv(s) && Submittable(s, h, d1, d2, b)
    ensures var s' := Submit(s, h, d1, d2, b, write);
            && s'.q.availIdx == Wrap(s.q.availIdx + 1) && s'.q.usedIdx == s.q.usedIdx && s'.q.seenIdx == s.q.seenIdx
            && s'.g.pub == s.g.pub + [h] && s'.g.pending == s.g.pending + {h}
            && s'.g.done == s.g.done && s'.g.taken == s.g.taken
            && s'.g.seen == s.g.seen && s'.g.inDevice == s.g.inDevice
            && s'.g.reqs == s.g.reqs[h := Req(b, write, d1, d2, Published)]
            && s'.g.owner == s.g.owner[h := h][d1 := h][d2 := h]
  {
    hide Inv, Sized, Index, Slot, Wrap;
  }

  lemma CountNext(s: State, s': State)
    requires CountOk(s) && s'.q.availIdx == Wrap(s.q.availIdx + 1)
    requires s'.q.usedIdx == s.q.usedIdx && s'.q.seenIdx == s.q.seenIdx
    requires |s'.g.pub| == |s.g.pub| + 1 && |s'.g.pending| == |s.g.pending| + 1
    requires s'.g.done == s.g.done && s'.g.taken == s.g.taken
    requires s'.g.seen == s.g.seen && s'.g.inDevice == s.g.inDevice
    requires |s'.g.reqs| == |s.g.reqs| + 1 && |s'.g.owner| == |s.g.owner| + 3
    ensures CountOk(s')
  {
    hide Wrap;
    WrapNext(|s.g.pub|);
  }

  lemma SubmitCount(s: State, h: int, d1: int, d2: int, b: nat, write: bool)
    requires Inv(s) && Submittable(s, h, d1, d2, b)
    ensures CountOk(Submit(s, h, d1, d2, b, write))
  {
    hide Inv, Sized, Index, Slot, Wrap, Submit, CountOk;
    SubmitFresh(s, h, d1, d2, b);
    SubmitShape(s, h, d1, d2, b, write);
    ThreeMore(s.g.owner, h, d1, d2);
    OneMore(s.g.reqs, h, Req(b, write, d1, d2, Published));
    assert |s.g.pending + {h}| == |s.g.pending| + 1 && |s.g.pub + [h]| == |s.g.pub| + 1;
    CountNext(s, Submit(s, h, d1, d2, b, write));
  }

  lemma SubmitInv(s: State, h: int, d1: int, d2: int, b: nat, write: bool)
    requires Inv(s) && Submittable(s, h, d1, d2, b)
    ensures Inv(Submit(s, h, d1, d2, b, write))
  {
    var s' := Submit(s, h, d1, d2, b, write);
    SubmitCount(s, h, d1, d2, b, write);
    forall g ensures ReqOk(s', g) { SubmitReq(s, h, d1, d2, b, write, g); }
    forall i ensures OwnerOk(s', i) { SubmitOwner(s, h, d1, d2, b, write, i, 0); }
    forall x ensures HolderOk(s', x) { SubmitOwner(s, h, d1, d2, b, write, 0, x); }
    forall k ensures AvailOk(s', k) && UsedOk(s', k) {
      SubmitAvail(s, h, d1, d2, b, write, k);
      SubmitRest(s, h, d1, d2, b, write, k, 0);
    }
    forall k, l ensures OnceEach(s', k, l) { SubmitRest(s, h, d1, d2, b, write, k, l); }
  }

  /** There is room in the rings for one more head. */
  lemma Room(s: State, h: int)
    requires Inv(s) && Index(h) && h !in s.g.pending
    ensures |s.g.pub| - s.g.seen < NUM
  {
    hide Upto;
    forall i | i in s.g.pending ensures Index(i) { assert OwnerOk(s, i) && ReqOk(s, i); }
    assert CountOk(s);
    hide Inv;
    SubsetCount(s.g.pending + {h}, Upto(NUM));
  }

  lemma TakeInv(s: State)
    requires Inv(s) && s.g.taken < |s.g.pub|
    ensures s.q.availRing[Slot(s.g.taken)] in s.g.reqs && Inv(Take(s))
  {
    assert AvailOk(s, s.g.taken);
    var s', h := Take(s), s.g.pub[s.g.taken];
    assert ReqOk(s, h);
    forall g ensures ReqOk(s', g) { assert ReqOk(s, g); }
    forall i ensures OwnerOk(s', i) { assert OwnerOk(s, i); }
    forall x ensures HolderOk(s', x) { assert HolderOk(s, x); }
    forall k ensures AvailOk(s', k) { assert AvailOk(s, k) && OnceEach(s, s.g.taken, k); }
    forall k ensures UsedOk(s', k) { assert UsedOk(s, k); }
    forall k, l ensures OnceEach(s', k, l) { assert OnceEach(s, k, l); }
  }

  lemma CompleteInv(s: State, h: int)
    requires Inv(s) && h in s.g.reqs && s.g.reqs[h].phase == Taken
    ensures Index(h) && Inv(Complete(s, h))
  {
    assert ReqOk(s, h);
    var s' := Complete(s, h);
    IndicesClose(s);
    RingSlot(|s.g.done|);
    InDeviceRoom(s, h);
    forall g ensures ReqOk(s', g) { assert ReqOk(s, g); }
    forall i ensures OwnerOk(s', i) { assert OwnerOk(s, i); }
    forall x ensures HolderOk(s', x) { assert HolderOk(s, x); }
    forall k ensures AvailOk(s', k) { assert AvailOk(s, k); }
    forall k ensures UsedOk(s', k) {
      assert UsedOk(s, k);
      if s.g.seen <= k < |s.g.done| { OtherSlot(k, |s.g.done|); }
    }
    forall k, l ensures OnceEach(s', k, l) { assert OnceEach(s, k, l) && UsedOk(s, k); }
  }

  lemma InDeviceRoom(s: State, h: int)
    requires Inv(s) && h in s.g.inDevice
    ensures |s.g.done| < s.g.taken
  {
    assert CountOk(s);
    hide Inv;
    assert s.g.inDevice != {};
  }

  lemma SeeReq(s: State, h: int, g: int)
    requires Sized(s) && h == s.q.usedRing[Slot(s.q.seenIdx)] && Index(h)
    requires h in s.g.reqs && s.g.reqs[h].phase == Completed
    requires s.g.seen < |s.g.done| && s.g.done[s.g.seen] == h && ReqOk(s, h) && ReqOk(s, g)
    ensures ReqOk(See(s), g)
  {
  }

  lemma SeeInv(s: State)
    requires Inv(s) && s.q.seenIdx != s.q.usedIdx
    ensures var h := s.q.usedRing[Slot(s.q.seenIdx)];
            && h in s.g.reqs && Index(h) && s.g.reqs[h].phase == Completed && s.q.status[h] == 0
            && s.q.info[h] == s.g.reqs[h].b && s.g.reqs[h].b in s.q.busy
            && Inv(See(s)) && See(s).g.seen == s.g.seen + 1 && See(s).q.busy == s.q.busy - {s.g.reqs[h].b}
  {
    IndicesClose(s);
    RingSlot(s.g.seen);
    assert UsedOk(s, s.g.seen);
    var s', h := See(s), s.g.done[s.g.seen];
    assert ReqOk(s, h);
    forall g ensures ReqOk(s', g) { SeeReq(s, h, g); }
    forall i ensures OwnerOk(s', i) { assert OwnerOk(s, i); }
    forall x ensures HolderOk(s', x) { assert HolderOk(s, x); }
    forall k ensures AvailOk(s', k) { assert AvailOk(s, k); }
    forall k ensures UsedOk(s', k) { assert UsedOk(s, k) && OnceEach(s, s.g.seen, k); }
    forall k, l ensures OnceEach(s', k, l) { assert OnceEach(s, k, l); }
  }

  lemma ReleaseReq(s: State, h: int, g: int)
    requires Inv(s) && h in s.g.reqs && ReqOk(s, h)
    ensures ReqOk(Release(s, h), g)
  {
    assert ReqOk(s, g);
  }

  lemma ReleaseOwner(s: State, h: int, i: int, x: nat)
    requires Inv(s) && h in s.g.reqs && ReqOk(s, h) && s.g.reqs[h].phase == Seen
    ensures OwnerOk(Release(s, h), i) && HolderOk(Release(s, h), x)
  {
    assert OwnerOk(s, i) && HolderOk(s, x);
    if x in s.g.holder { assert ReqOk(s, s.g.holder[x]); }
  }

  lemma ReleaseInv(s: State, h: int)
    requires Inv(s) && h in s.g.reqs && s.g.reqs[h].phase == Seen
    ensures Index(h) && Index(s.g.reqs[h].d1) && Index(s.g.reqs[h].d2) && Inv(Release(s, h))
  {
    assert ReqOk(s, h);
    var s' := Release(s, h);
    RemovedCount(s, h);
    forall g ensures ReqOk(s', g) { ReleaseReq(s, h, g); }
    forall i ensures OwnerOk(s', i) { ReleaseOwner(s, h, i, 0); }
    forall x ensures HolderOk(s', x) { ReleaseOwner(s, h, 0, x); }
    forall k ensures AvailOk(s', k) && UsedOk(s', k) { assert AvailOk(s, k) && UsedOk(s, k); }
    forall k, l ensures OnceEach(s', k, l) { assert OnceEach(s, k, l); }
  }

  lemma OneLess<T>(m: map<int, T>, k: int)
    requires k in m
    ensures |m - {k}| == |m| - 1
  {
    assert (m - {k}).Keys == m.Keys - {k};
  }

  lemma ThreeLess(m: map<int, int>, a: int, b: int, c: int)
    requires a in m && b in m && c in m && a != b && a != c && b != c
    ensures |m - {a, b, c}| == |m| - 3
  {
    OneLess(m, a);
    OneLess(m - {a}, b);
    OneLess(m - {a} - {b}, c);
    assert m - {a, b, c} == m - {a} - {b} - {c};
  }

  lemma RemovedCount(s: State, h: int)
    requires Inv(s) && h in s.g.reqs
    ensures ReqOk(s, h) && |s.g.reqs - {h}| == |s.g.reqs| - 1
    ensures |s.g.owner - {h, s.g.reqs[h].d1, s.g.reqs[h].d2}| == |s.g.owner| - 3
  {
    var r := s.g.reqs[h];
    assert ReqOk(s, h);
    assert h in s.g.owner && r.d1 in s.g.owner && r.d2 in s.g.owner && h != r.d1 && h != r.d2 && r.d1 != r.d2;
    OneLess(s.g.reqs, h);
    ThreeLess(s.g.owner, h, r.d1, r.d2);
    hide Inv;
  }

  /** What the free descriptors hold does not matter. */
  lemma FreeDescAny(s: State, desc: seq<Desc>)
    requires Inv(s) && |desc| == NUM && forall i :: 0 <= i < NUM && !s.q.free[i] ==> desc[i] == s.q.desc[i]
    ensures Inv(s.(q := s.q.(desc := desc)))
  {
    var s' := s.(q := s.q.(desc := desc));
    forall h ensures ReqOk(s', h) {
      assert ReqOk(s, h);
      if h in s.g.reqs { assert OwnerOk(s, h) && OwnerOk(s, s.g.reqs[h].d1) && OwnerOk(s, s.g.reqs[h].d2); }
    }
    forall i ensures OwnerOk(s', i) { assert OwnerOk(s, i); }
    forall b ensures HolderOk(s', b) { assert HolderOk(s, b); }
    forall k ensures AvailOk(s', k) && UsedOk(s', k) { assert AvailOk(s, k) && UsedOk(s, k); }
    forall k, l ensures OnceEach(s', k, l) { assert OnceEach(s, k, l); }
  }
}
