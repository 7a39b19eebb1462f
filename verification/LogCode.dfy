/** log.c's commit and recovery paths as code over numbered disk blocks. `trace` records
    every disk image that a crash could leave behind: it grows by one at each block write. */
module LogCode {
  import opened LogImage

  /** struct logheader, as it lies in the header block and in memory. */
  datatype LogHeader = LogHeader(n: int, block: seq<int>) {
    predicate Valid() { 0 <= n <= LOGSIZE == |block| }

    function List(): seq<int>
      requires Valid()
    {
      block[..n]
    }
  }

  /** A disk whose log starts at block `start`: the header block there, the log blocks
      right after it, and all other blocks by number. */
  datatype Disk = Disk(start: nat, header: LogHeader, slots: seq<Block>, home: Home) {
    predicate Valid() {
      && |slots| >= LOGSIZE && header.Valid()
      && forall b :: b in home ==> !(start <= b <= start + |slots|)
    }

    predicate Has(b: int) { start < b <= start + |slots| || b in home }

    function Get(b: int): Block
      requires Has(b)
    {
      if start < b <= start + |slots| then slots[b - start - 1] else home[b]
    }

    function Put(b: int, v: Block): Disk
      requires Has(b)
    {
      if start < b <= start + |slots| then this.(slots := slots[b - start - 1 := v])
      else this.(home := home[b := v])
    }

    function ToImage(): Image
      requires header.Valid()
    {
      Image(header.List(), slots, home)
    }
  }

  /** The disk and the valid buffers of home blocks over it. The log's own blocks are
      written through whenever they change, so their buffers are not represented. */
  datatype Store = Store(disk: Disk, cache: Home) {
    /** bread: the buffer if there is one, else the disk block. */
    function Read(b: int): Block
      requires disk.Has(b)
    {
      if b in cache then cache[b] else disk.Get(b)
    }

    /** bread leaves a buffer behind. */
    function Cached(b: int): (r: Store)
      requires disk.Has(b)
      ensures r.disk == disk && (b in disk.home ==> b in r.cache) && r.Read(b) == Read(b)
    {
      if b in disk.home then this.(cache := cache[b := Read(b)]) else this
    }

    /** bwrite: the block reaches the disk, and its buffer if it is a home block. */
    function Write(b: int, v: Block): Store
      requires disk.Has(b)
    {
      Store(disk.Put(b, v), if b in disk.home then cache[b := v] else cache)
    }

    /** Every buffer outside `dirty` agrees with the disk. */
    predicate Clean(dirty: set<int>) {
      cache.Keys <= disk.home.Keys && forall b :: b in cache && b !in dirty ==> cache[b] == disk.home[b]
    }

    /** The home blocks as any reader sees them. */
    function Memory(): Home { View(disk.home, cache) }
  }

  function Members(bs: seq<int>): set<int> { set b | b in bs }

  // ---------------------------------------------------------------- write_log

  /** The log on disk is empty, the blocks `bs` are cached and the only ones ahead of the
      disk, and the first `tail` log slots hold their buffers. */
  ghost predicate Logging(bs: seq<int>, tail: nat, s: Store) {
    && s.disk.Valid() && s.disk.header.n == 0 && Loggable(bs, s.disk.home.Keys) && tail <= |bs|
    && s.Clean(Members(bs)) && (forall i :: 0 <= i < |bs| ==> bs[i] in s.cache)
    && forall i :: 0 <= i < tail ==> s.disk.slots[i] == s.cache[bs[i]]
  }

  lemma LoggingNext(bs: seq<int>, tail: nat, s: Store)
    requires Logging(bs, tail, s) && tail < |bs|
    ensures var lb := s.disk.start + tail + 1;
            var s' := s.Write(lb, s.cache[bs[tail]]);
            && s.disk.Has(bs[tail]) && s.Cached(bs[tail]) == s && s.Read(bs[tail]) == s.cache[bs[tail]]
            && Logging(bs, tail + 1, s') && s'.disk.home == s.disk.home && s'.Memory() == s.Memory()
            && Stands(s'.disk.ToImage(), s.disk.home)
  {
    EmptyLogStandsForHome(s.disk.ToImage());
  }

  /** Once every log slot holds its buffer, the header write commits what readers see. */
  lemma CommitPoint(bs: seq<int>, s: Store)
    requires Logging(bs, |bs|, s)
    ensures Stands(s.disk.ToImage().(head := bs), s.Memory())
  {
    assert forall b :: b in s.cache && b !in bs ==> b !in Members(bs);
    OverlayIsView(s.disk.home, s.cache, bs, s.disk.slots);
  }

  // ---------------------------------------------------------------- install_trans

  /** Every buffer holds what the log of `d` commits its block to. */
  ghost predicate Agrees(s: Store, target: Home) {
    s.cache.Keys <= target.Keys && forall b :: b in s.cache ==> s.cache[b] == target[b]
  }

  /** `tail` logged blocks of `d` are home. */
  ghost predicate Installing(d: Disk, tail: nat, s: Store)
    requires d.Valid() && d.ToImage().Valid() && tail <= |d.header.List()|
  {
    s.disk == d.(home := Installed(d.ToImage(), tail).home) && Agrees(s, Committed(d.ToImage()))
  }

  lemma InstallOne(d: Disk, tail: nat, s: Store)
    requires d.Valid() && d.ToImage().Valid() && tail < |d.header.List()| && Installing(d, tail, s)
    ensures var b, lb := d.header.List()[tail], d.start + tail + 1;
            && s.disk.start == d.start && s.disk.Has(lb) && s.disk.Has(b)
            && s.Cached(b).disk.header.Valid() && s.Cached(b).disk.Has(b)
            && var s' := s.Cached(b).Write(b, s.Read(lb));
               && Installing(d, tail + 1, s')
               && s'.disk.header.Valid() && s'.disk.ToImage() == CutRecovery(d.ToImage(), tail + 1)
  {
    SlotOf(d.ToImage(), tail);
    assert d.start + tail + 1 !in s.disk.home;
    hide Loggable, Overlay, Committed;
  }

  lemma SlotOf(im: Image, k: nat)
    requires im.Valid() && k < |im.head|
    ensures im.head[k] in im.home && Committed(im)[im.head[k]] == im.slots[k]
    ensures Committed(im).Keys == im.home.Keys
  {
  }

  /** The pins left once install_trans has dropped those of the first `k` blocks. */
  function Unpinned(pins: set<int>, bs: seq<int>, k: nat): set<int>
    requires k <= |bs|
  {
    if k == 0 then pins else Unpinned(pins, bs, k - 1) - {bs[k - 1]}
  }

  lemma {:induction false} UnpinnedAll(pins: set<int>, bs: seq<int>, k: nat)
    requires k <= |bs|
    ensures Unpinned(pins, bs, k) == pins - Members(bs[..k])
  {
    if k > 0 {
      UnpinnedAll(pins, bs, k - 1);
      assert bs[..k] == bs[..k - 1] + [bs[k - 1]];
    }
  }

  lemma InstallDone(d: Disk, s: Store)
    requires d.Valid() && d.ToImage().Valid() && Installing(d, |d.header.List()|, s)
    ensures s.disk.Valid() && s.disk.home == Committed(d.ToImage()) == s.Memory() && s.Clean({})
  {
    FullInstallReachesCommitted(d.ToImage());
    AllClean(s);
  }

  /** With no dirty buffer, readers see the disk. */
  lemma AllClean(s: Store)
    requires s.disk.Valid() && s.Clean({})
    ensures s.Memory() == s.disk.home
  {
    forall b | b in s.cache ensures s.cache[b] == s.disk.home[b] { assert b !in {}; }
  }

  // ---------------------------------------------------------------- the code

  class Log {
    var s: Store
    var pins: set<int>           // buffers kept in the cache by bpin
    var n: nat                   // log.lh.n
    var block: seq<int>          // log.lh.block
    var outstanding: nat
    ghost var trace: Trace

    /** initlog, on any readable disk: it ends with recovery. */
    constructor (disk: Disk)
      requires disk.Valid() && disk.ToImage().Valid()
      ensures Valid() && n == 0 && pins == {} && outstanding == 0
      ensures s.disk.home == s.Memory() == Committed(disk.ToImage())
      ensures Recovering(trace, Boot, disk.ToImage(), |disk.header.List()| + 1)
    {
      s, pins, n, block, outstanding, trace := Store(disk, map[]), {}, 0, seq(LOGSIZE, _ => 0), 0, Boot;
      new;
      RecoverFromLog();
    }

    /** The state in which file system calls run: the log on disk is empty and a buffer
        differs from its disk block only if its block number is logged, and then it is cached. */
    ghost predicate Valid() reads this {
      n <= LOGSIZE == |block| && Logging(block[..n], 0, s)
    }

    method Bwrite(b: int, v: Block)
      requires s.disk.header.Valid() && s.disk.Has(b)
      modifies this`s, this`trace
      ensures s == old(s).Write(b, v) && trace == Then(old(trace), s.disk.ToImage())
    {
      s := s.Write(b, v);
      trace := Then(trace, s.disk.ToImage());
    }

    /** The caller has changed buffer `b`; false stands for either panic. */
    method LogWrite(b: int) returns (ok: bool)
      requires n <= LOGSIZE == |block|
      modifies this`block, this`n, this`pins
      ensures n <= LOGSIZE == |block|
      ensures ok == (old(n) < LOGSIZE && old(n) < |s.disk.slots| && outstanding >= 1)
      ensures !ok || b in old(block[..n]) ==> n == old(n) && block[..n] == old(block[..n]) && pins == old(pins)
      ensures ok && b !in old(block[..n]) ==> block[..n] == old(block[..n]) + [b] && pins == old(pins) + {b}
    {
      if n >= LOGSIZE || n >= |s.disk.slots| || outstanding < 1 { return false; }
      var i := 0;
      while i < n && block[i] != b
        invariant 0 <= i <= n
        invariant b !in block[..i]
      {
        i := i + 1;
      }
      ghost var was := block[..n];
      assert i < n ==> block[i] in was;
      block := block[i := b];
      if i == n {
        pins, n := pins + {b}, n + 1;
        assert block[..n] == was + [b];
      } else {
        assert block[..n] == was;
      }
      ok := true;
    }

    /** Copies modified blocks from the cache to the log; no crash in here can be noticed. */
    method WriteLog()
      requires Valid()
      modifies this`s, this`trace
      ensures Logging(block[..n], n, s) && s.Memory() == old(s.Memory()) && s.disk.home == old(s.disk.home)
      ensures Since(trace, old(trace), n, old(s.disk.home))
    {
      hide Loggable, Store.Clean, Store.Memory;
      ghost var bs := block[..n];
      var tail := 0;
      while tail < n
        invariant 0 <= tail <= n && Logging(bs, tail, s)
        invariant s.Memory() == old(s.Memory()) && s.disk.home == old(s.disk.home)
        invariant Since(trace, old(trace), tail, old(s.disk.home))
      {
        LoggingNext(bs, tail, s);
        var lb := s.disk.start + tail + 1;
        var from := s.Read(block[tail]);
        s := s.Cached(block[tail]);
        Bwrite(lb, from);
        tail := tail + 1;
      }
    }

    /** Writes the in-memory header over the header block; entries past n keep stale values. */
    method WriteHead()
      requires s.disk.Valid() && n <= LOGSIZE == |block|
      modifies this`s, this`trace
      ensures s == old(s).(disk := old(s.disk).(header := s.disk.header))
      ensures s.disk.header.Valid() && s.disk.header.List() == block[..n]
      ensures trace == Then(old(trace), s.disk.ToImage())
    {
      var hb := s.disk.header.(n := n);
      var i := 0;
      while i < n
        invariant 0 <= i <= n && hb.n == n && |hb.block| == LOGSIZE
        invariant hb.block[..i] == block[..i]
      {
        hb := hb.(block := hb.block[i := block[i]]);
        i := i + 1;
      }
      s := s.(disk := s.disk.(header := hb));
      trace := Then(trace, s.disk.ToImage());
    }

    method ReadHead()
      requires s.disk.header.Valid() && |block| == LOGSIZE
      modifies this`n, this`block
      ensures n <= LOGSIZE == |block| && block[..n] == s.disk.header.List()
    {
      var lh := s.disk.header;
      n := lh.n;
      var i := 0;
      while i < n
        invariant 0 <= i <= n == lh.n && |block| == LOGSIZE
        invariant block[..i] == lh.block[..i]
      {
        block := block[i := lh.block[i]];
        i := i + 1;
      }
    }

    /** One round of install_trans: log block `tail` is copied home and its buffer unpinned. */
    method InstallBlock(tail: nat, recovering: bool, ghost d: Disk)
      requires d.Valid() && d.ToImage().Valid() && n <= LOGSIZE == |block| && tail < n
      requires d.header.List() == block[..n] && Installing(d, tail, s)
      modifies this`s, this`trace, this`pins
      ensures Installing(d, tail + 1, s)
      ensures trace == Then(old(trace), CutRecovery(d.ToImage(), tail + 1))
      ensures pins == if recovering then old(pins) else old(pins) - {block[tail]}
    {
      hide Loggable, Installing, Agrees, Committed, CutRecovery, Store.Read, Store.Cached, Store.Write, Disk.Has;
      InstallOne(d, tail, s);
      var lbuf := s.Read(s.disk.start + tail + 1);
      s := s.Cached(block[tail]);
      Bwrite(block[tail], lbuf);
      if !recovering { pins := pins - {block[tail]}; }
    }

    /** Copies the committed blocks home. Write number t leaves the image with t blocks installed. */
    method InstallTrans(recovering: bool)
      requires s.disk.Valid() && s.disk.ToImage().Valid() && n <= LOGSIZE == |block|
      requires s.disk.header.List() == block[..n] && Agrees(s, Committed(s.disk.ToImage()))
      modifies this`s, this`trace, this`pins
      ensures Installing(old(s.disk), n, s)
      ensures pins == if recovering then old(pins) else Unpinned(old(pins), block[..n], n)
      ensures Recovering(trace, old(trace), old(s.disk.ToImage()), n)
    {
      ghost var d, bs := s.disk, block[..n];
      assert Installing(d, 0, s);
      hide Loggable, Installing, Agrees, Committed, CutRecovery;
      var tail := 0;
      while tail < n
        invariant 0 <= tail <= n && Installing(d, tail, s)
        invariant pins == if recovering then old(pins) else Unpinned(old(pins), bs, tail)
        invariant Recovering(trace, old(trace), d.ToImage(), tail)
      {
        InstallBlock(tail, recovering, d);
        tail := tail + 1;
      }
    }

    /** commit(). A crash before the header write leaves the old home blocks committed,
        a crash from that write on leaves every logged block of the transaction committed. */
    method Commit() returns (ghost mid: Trace)
      requires Valid()
      modifies this`s, this`trace, this`pins, this`n
      ensures Valid() && n == 0 && s.Memory() == old(s.Memory()) == s.disk.home
      ensures pins == old(pins) - Members(old(block[..n]))
      ensures Since(mid, old(trace), old(n), old(s.disk.home))
      ensures Since(trace, mid, if old(n) == 0 then 0 else old(n) + 2, old(s.Memory()))
    {
      ghost var bs := block[..n];
      if n > 0 {
        WriteLog();
        mid := trace;
        CommitPoint(bs, s);
        WriteHead();
        CommitTail(bs);
      } else {
        mid := trace;
        assert s.Clean({});
        AllClean(s);
      }
    }

    /** commit() from the header write on. */
    method CommitTail(ghost bs: seq<int>)
      requires s.disk.Valid() && s.disk.ToImage().Valid()
      requires n <= LOGSIZE == |block| && s.disk.header.List() == block[..n] == bs
      requires Agrees(s, Committed(s.disk.ToImage()))
      requires trace.Then? && Committed(s.disk.ToImage()) == s.Memory() && trace.image == s.disk.ToImage()
      modifies this`s, this`trace, this`pins, this`n
      ensures Valid() && n == 0 && s.Memory() == old(s.Memory()) == s.disk.home
      ensures pins == old(pins) - Members(bs)
      ensures Since(trace, old(trace.earlier), |bs| + 2, old(s.Memory()))
    {
      hide Installed, CutRecovery, Overlay, View;
      ghost var d, im, start := s.disk, s.disk.ToImage(), trace;
      InstallTrans(false);
      InstallDone(d, s);
      UnpinnedAll(old(pins), bs, n);
      RecoveringStands(trace, start, im, n);
      SinceJoin(trace, start, start.earlier, n, 1, Committed(im));
      n := 0;
      assert block[..n] == [];
      WriteHead();
      EmptyLogStandsForHome(s.disk.ToImage());
      AllClean(s);
    }

    /** recover_from_log() at boot: the t-th block write leaves exactly the image of a recovery
        cut off after t writes, and the last one leaves the committed contents in place. */
    method RecoverFromLog()
      requires s.disk.Valid() && s.disk.ToImage().Valid() && s.cache == map[] && |block| == LOGSIZE
      modifies this`s, this`trace, this`pins, this`n, this`block
      ensures Valid() && n == 0 && pins == old(pins)
      ensures s.disk.home == s.Memory() == old(Committed(s.disk.ToImage()))
      ensures Recovering(trace, old(trace), old(s.disk.ToImage()), |old(s.disk.header.List())| + 1)
    {
      ghost var d := s.disk;
      ReadHead();
      InstallTrans(true);
      InstallDone(d, s);
      n := 0;
      assert block[..n] == [];
      WriteHead();
      AllClean(s);
    }
  }
}
