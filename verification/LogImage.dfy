/** What a disk with a redo log stands for: header list, log slots and home blocks,
    and how commit and recovery move from one disk image to the next. */
module LogImage {
  import opened Common

  const LOGSIZE := MAXOPBLOCKS * 3

  /** The contents of a disk block. */
  datatype Block = Block(bytes: seq<int>)

  type Home = map<int, Block>

  /** The block numbers in the log header, the log blocks after it, and everything else. */
  datatype Image = Image(head: seq<int>, slots: seq<Block>, home: Home) {
    predicate Valid() { |slots| >= LOGSIZE && Loggable(head, home.Keys) }
  }

  predicate Distinct(bs: seq<int>) { forall i, j :: 0 <= i < j < |bs| ==> bs[i] != bs[j] }

  /** A list of block numbers the log may hold: distinct home blocks, not too many. */
  predicate Loggable(bs: seq<int>, home: set<int>) {
    |bs| <= LOGSIZE && Distinct(bs) && forall i :: 0 <= i < |bs| ==> bs[i] in home
  }

  /** The log slot that holds block `b`. */
  function Slot(bs: seq<int>, b: int): (i: nat)
    requires b in bs
    ensures i < |bs| && bs[i] == b
  {
    if bs[0] == b then 0 else 1 + Slot(bs[1..], b)
  }

  /** `home` with every block of `bs` replaced by its log slot, all at once. */
  function Overlay(home: Home, bs: seq<int>, slots: seq<Block>): Home
    requires |bs| <= |slots|
  {
    map b | b in home :: if b in bs then slots[Slot(bs, b)] else home[b]
  }

  /** The contents that survive a crash: the home blocks once the log is replayed. */
  function Committed(im: Image): Home
    requires im.Valid()
  {
    Overlay(im.home, im.head, im.slots)
  }

  /** The image after the first `k` logged blocks were copied home, one after the other. */
  function Installed(im: Image, k: nat): (r: Image)
    requires im.Valid() && k <= |im.head|
    ensures r.head == im.head && r.slots == im.slots && r.home.Keys == im.home.Keys
  {
    if k == 0 then im
    else var p := Installed(im, k - 1);
         p.(home := p.home[im.head[k - 1] := im.slots[k - 1]])
  }

  lemma {:induction false} InstalledIsOverlay(im: Image, k: nat)
    requires im.Valid() && k <= |im.head|
    ensures Installed(im, k).home == Overlay(im.home, im.head[..k], im.slots)
  {
    hide Overlay, Loggable;
    if k == 0 {
      OverlayNone(im);
    } else {
      InstalledIsOverlay(im, k - 1);
      OverlayNext(im, k - 1);
    }
  }

  lemma OverlayNone(im: Image)
    ensures Overlay(im.home, im.head[..0], im.slots) == im.home
  {
  }

  lemma OverlayNext(im: Image, k: nat)
    requires im.Valid() && k < |im.head|
    ensures Overlay(im.home, im.head[..k + 1], im.slots)
         == Overlay(im.home, im.head[..k], im.slots)[im.head[k] := im.slots[k]]
  {
    var bs := im.head;
    assert bs[..k + 1] == bs[..k] + [bs[k]];
    forall b | b in im.home && b in bs[..k + 1]
      ensures im.slots[Slot(bs[..k + 1], b)] == if b == bs[k] then im.slots[k] else im.slots[Slot(bs[..k], b)]
    {
      SlotNext(bs, k, b);
    }
    hide Slot, Loggable;
  }

  lemma SlotNext(bs: seq<int>, k: nat, b: int)
    requires Distinct(bs) && k < |bs| && b in bs[..k + 1]
    ensures Slot(bs[..k + 1], b) == if b == bs[k] then k else if b in bs[..k] then Slot(bs[..k], b) else k
    ensures b != bs[k] ==> b in bs[..k]
  {
    var i := Slot(bs[..k + 1], b);
    assert bs[i] == b;
    if b != bs[k] {
      assert bs[..k][i] == b;
      assert bs[Slot(bs[..k], b)] == b;
    }
    hide Slot;
  }

  /** Recovery may be restarted from any point: the partly installed image stands for the same contents. */
  lemma PartialInstallKeepsCommitted(im: Image, k: nat)
    requires im.Valid() && k <= |im.head|
    ensures Installed(im, k).Valid() && Committed(Installed(im, k)) == Committed(im)
  {
    InstalledIsOverlay(im, k);
    var r := Installed(im, k);
    assert forall b :: b in im.head[..k] ==> b in im.head;
    hide Loggable, Installed;
    assert Overlay(r.home, im.head, im.slots) == Overlay(im.home, im.head, im.slots);
  }

  lemma FullInstallReachesCommitted(im: Image)
    requires im.Valid()
    ensures Installed(im, |im.head|).home == Committed(im)
  {
    InstalledIsOverlay(im, |im.head|);
    assert im.head[..|im.head|] == im.head;
  }

  /** An image with an empty header stands for its home blocks, whatever the log slots hold. */
  lemma EmptyLogStandsForHome(im: Image)
    requires im.Valid() && im.head == []
    ensures Committed(im) == im.home
  {
  }

  // ---------------------------------------------------------------- crashes during recovery

  /** Recovery cut off by a crash after `k` block writes: up to |head| installs, then the
      write that empties the header. */
  function CutRecovery(im: Image, k: nat): Image
    requires im.Valid()
  {
    if k <= |im.head| then Installed(im, k) else Installed(im, |im.head|).(head := [])
  }

  lemma CutRecoveryKeepsCommitted(im: Image, k: nat)
    requires im.Valid()
    ensures var r := CutRecovery(im, k);
            && r.Valid() && Committed(r) == Committed(im)
            && (k > |im.head| ==> r.head == [] && r.home == Committed(im))
  {
    if k <= |im.head| { PartialInstallKeepsCommitted(im, k); } else { FullInstallReachesCommitted(im); }
  }

  /** The image left by recoveries that were cut off after ks[0], ks[1], ... writes. */
  function AfterCrashes(im: Image, ks: seq<nat>): (r: Image)
    requires im.Valid()
    ensures r.Valid()
    decreases |ks|
  {
    CutRecoveryKeepsCommitted(im, if ks == [] then 0 else ks[0]);
    if ks == [] then im else AfterCrashes(CutRecovery(im, ks[0]), ks[1..])
  }

  /** However many recoveries are cut off, wherever, one complete recovery then yields
      exactly the contents that the first image stood for, and an empty log. */
  lemma {:induction false} RecoverySurvivesCrashes(im: Image, ks: seq<nat>, last: nat)
    requires im.Valid() && last > |AfterCrashes(im, ks).head|
    ensures Committed(AfterCrashes(im, ks)) == Committed(im)
    ensures CutRecovery(AfterCrashes(im, ks), last).head == []
    ensures CutRecovery(AfterCrashes(im, ks), last).home == Committed(im)
    decreases |ks|
  {
    if ks == [] {
      CutRecoveryKeepsCommitted(im, last);
    } else {
      CutRecoveryKeepsCommitted(im, ks[0]);
      RecoverySurvivesCrashes(CutRecovery(im, ks[0]), ks[1..], last);
    }
  }

  // ---------------------------------------------------------------- the cache over the disk

  /** Home buffers differ from the disk only at the logged blocks `bs`, and all of those are cached. */
  predicate Consistent(home: Home, cache: Home, bs: seq<int>) {
    && cache.Keys <= home.Keys
    && (forall b :: b in cache && b !in bs ==> cache[b] == home[b])
    && (forall i :: 0 <= i < |bs| ==> bs[i] in cache)
  }

  /** What readers see: the buffer if there is one, else the disk. */
  function View(home: Home, cache: Home): Home {
    map b | b in home :: if b in cache then cache[b] else home[b]
  }

  /** Once every log slot holds its buffer, replaying the log gives exactly what readers see:
      writing the header then commits the whole transaction in one block write. */
  lemma OverlayIsView(home: Home, cache: Home, bs: seq<int>, slots: seq<Block>)
    requires Consistent(home, cache, bs) && |bs| <= |slots|
    requires forall i :: 0 <= i < |bs| ==> slots[i] == cache[bs[i]]
    ensures Overlay(home, bs, slots) == View(home, cache)
  {
  }

  /** The image is valid and stands for `m`. */
  predicate Stands(im: Image, m: Home) { im.Valid() && Committed(im) == m }

  /** The disk images seen so far, newest last; a crash leaves one of them. */
  datatype Trace = Boot | Then(earlier: Trace, image: Image)

  /** `t` extends `mark` by exactly `k` images, all standing for `m`. */
  ghost predicate Since(t: Trace, mark: Trace, k: nat, m: Home) {
    if k == 0 then t == mark
    else t.Then? && Stands(t.image, m) && Since(t.earlier, mark, k - 1, m)
  }

  /** `t` extends `mark` by the images that `k` block writes of recovery from `im` leave. */
  ghost predicate Recovering(t: Trace, mark: Trace, im: Image, k: nat)
    requires im.Valid()
  {
    if k == 0 then t == mark
    else t.Then? && t.image == CutRecovery(im, k) && Recovering(t.earlier, mark, im, k - 1)
  }

  lemma {:induction false} RecoveringStands(t: Trace, mark: Trace, im: Image, k: nat)
    requires im.Valid() && Recovering(t, mark, im, k)
    ensures Since(t, mark, k, Committed(im))
  {
    if k > 0 {
      CutRecoveryKeepsCommitted(im, k);
      RecoveringStands(t.earlier, mark, im, k - 1);
    }
  }

  lemma {:induction false} SinceJoin(t: Trace, mid: Trace, mark: Trace, j: nat, k: nat, m: Home)
    requires Since(t, mid, j, m) && Since(mid, mark, k, m)
    ensures Since(t, mark, j + k, m)
  {
    if j > 0 { SinceJoin(t.earlier, mid, mark, j - 1, k, m); }
  }
}
