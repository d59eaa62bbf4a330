/**
 How many log streams can be open. A scan that evicts nothing has met every listed key
 locked by another thread, and while the scan goes on a logging thread can lock one key
 only, since it must pass the management mutex before the next; a decoding thread two.
 */
module LoggerBound {
  import opened Text
  import opened LogCodec
  import opened LoggerProtocol
  import opened LoggerLocks
  import opened LoggerCache
  import opened LoggerStreams
  import opened LoggerHistory

  // ---------- counting ----------

  lemma {:induction false} SubsetSize<T>(a: set<T>, b: set<T>)
    requires a <= b
    ensures |a| <= |b|
  {
    assert b == a + (b - a);
    assert |a + (b - a)| == |a| + |b - a|;
  }

  lemma AtMostOne<T>(a: set<T>, x: T)
    requires a <= {x}
    ensures |a| <= 1
  {
    SubsetSize(a, {x});
  }

  lemma {:induction false} DistinctSize(ks: seq<Key>)
    requires NoDuplicates(ks)
    ensures |set k | k in ks| == |ks|
  {
    if ks == [] {
      assert (set k | k in ks) == {};
    } else {
      var n := |ks| - 1;
      DistinctSize(ks[..n]);
      assert ks[n] !in ks[..n];
      assert (set k | k in ks) == (set k | k in ks[..n]) + {ks[n]};
    }
  }

  /** The keys met in the hands of some of the threads. */
  function Met(s: State, hs: set<Tid>): set<Key> {
    set h, k | h in hs && k in Seen(s, h) :: k
  }

  /** Each thread accounts for one key, a decoder for two. */
  lemma {:induction false} MetSize(s: State, hs: set<Tid>, decoders: set<Tid>)
    requires forall h :: h in hs ==> |Seen(s, h)| <= if h in decoders then 2 else 1
    ensures |Met(s, hs)| <= |hs| + |hs * decoders|
    decreases hs
  {
    if hs == {} {
      assert Met(s, hs) == {};
    } else {
      var h :| h in hs;
      var rest := hs - {h};
      MetSize(s, rest, decoders);
      assert Met(s, hs) == Met(s, rest) + Seen(s, h);
      UnionSize(Met(s, rest), Seen(s, h));
      if h in decoders {
        assert hs * decoders == rest * decoders + {h};
      } else {
        assert hs * decoders == rest * decoders;
      }
    }
  }

  lemma UnionSize<T>(a: set<T>, b: set<T>)
    ensures |a + b| <= |a| + |b|
  {
    assert a + b == a + (b - a);
    SubsetSize(b - a, b);
  }

  // ---------- the invariant ----------

  /** How the keys that the scan met in the hands of a thread relate to where it is now. */
  ghost predicate Pinned(cfg: Config, h: Tid, th: Thread, pins: set<Key>) {
    || pins == {}
    || (th.holding && pins <= {th.job.key})
    || (!th.holding && |pins| <= 1
        && (th.pc.Idle? || th.pc.WantMgmt? || (th.pc.WantKey? && th.job.DecodeJob? && h in cfg.decoders)))
    || (th.holding && th.pc.WantMgmt? && th.job.DecodeJob? && h in cfg.decoders && |pins - {th.job.key}| <= 1)
  }

  lemma PinnedSize(cfg: Config, h: Tid, th: Thread, pins: set<Key>)
    requires Pinned(cfg, h, th, pins)
    ensures |pins| <= if h in cfg.decoders then 2 else 1
  {
    if pins != {} && th.holding {
      if pins <= {th.job.key} {
        AtMostOne(pins, th.job.key);
      } else {
        UnionSize(pins - {th.job.key}, {th.job.key});
        SubsetSize(pins, pins - {th.job.key} + {th.job.key});
      }
    }
  }

  /** The keys the scan has passed. */
  function Passed(pc: PC): nat {
    match pc case Scan(i) => i case CloseStream(i) => i case _ => 0
  }

  /** Each of them was met in the hands of some other thread. */
  ghost predicate MetLocked(s: State, m: Tid, n: nat) {
    n <= |s.used| && forall j :: 0 <= j < n ==> s.used[j] in Met(s, s.threads.Keys - {m})
  }

  ghost predicate ScanOk(cfg: Config, s: State, m: Tid)
    requires m in s.threads
  {
    && Seen(s, m) == {}
    && (forall h :: h in s.threads ==> Pinned(cfg, h, s.threads[h], Seen(s, h)))
    && MetLocked(s, m, Passed(s.threads[m].pc))
  }

  /** One key for each thread, and a second one for each decoding thread but the one that opens a stream. */
  function Peak(threads: nat, decoders: nat): nat {
    if threads == 0 then 0 else threads + if decoders < threads then decoders else threads - 1
  }

  function Bound(cfg: Config, s: State): nat {
    var n := Peak(|s.threads|, |s.threads.Keys * cfg.decoders|);
    if cfg.maxOpen < n then n else cfg.maxOpen
  }

  /** The statements with room for the stream to be opened. */
  predicate RoomMade(pc: PC) {
    pc.UnlockVictim? || pc.PushKey? || pc.OpenFile?
  }

  predicate Scanning(pc: PC) {
    pc.Scan? || pc.CloseStream?
  }

  ghost predicate BoundOk(cfg: Config, s: State) {
    && |s.streams| + (if RoomMade(MgmtPC(s)) then 1 else 0) <= Bound(cfg, s)
    && (Scanning(MgmtPC(s)) ==> ScanOk(cfg, s, s.mgmt.value))
  }

  lemma BoundInit(cfg: Config, s: State)
    requires Init(s)
    ensures BoundOk(cfg, s)
  {
  }

  // ---------- the end of a scan ----------

  /** A scan that found no free key leaves room: other threads account for all the listed keys. */
  lemma ScanEnd(cfg: Config, s: State, m: Tid, i: nat)
    requires CacheOk(s) && m in s.threads && s.mgmt == Some(m) && s.threads[m].pc == Scan(i) && i >= |s.used|
    requires ScanOk(cfg, s, m)
    ensures |s.streams| + 1 <= Bound(cfg, s)
  {
    hide Pinned, Mapped, InOrder, Seen;
    var others := s.threads.Keys - {m};
    forall h | h in others ensures |Seen(s, h)| <= if h in cfg.decoders then 2 else 1 {
      PinnedSize(cfg, h, s.threads[h], Seen(s, h));
    }
    MetSize(s, others, cfg.decoders);
    var listed := set k | k in s.used;
    DistinctSize(s.used);
    assert listed == s.streams.Keys;
    SubsetSize(listed, Met(s, others));
    SubsetSize(others * cfg.decoders, s.threads.Keys * cfg.decoders);
    SubsetSize(others * cfg.decoders, others);
    assert |s.threads.Keys| == |others| + 1;
  }

  // ---------- the statements of the thread that opens a stream ----------

  lemma ScanStart(cfg: Config, s: State, t: Tid)
    requires t in s.threads
    ensures ScanOk(cfg, At(s.(seen := map[]), t, s.threads[t], Scan(0)), t)
  {
  }

  lemma ThreadsSame(cfg: Config, s: State, s': State)
    requires s'.threads.Keys == s.threads.Keys
    ensures Bound(cfg, s') == Bound(cfg, s)
  {
  }

  /** A statement of the holder of the management mutex. */
  lemma BoundAt(cfg: Config, s: State, r: State, t: Tid, pc: PC)
    requires t in s.threads && s.mgmt == Some(t) && r.threads == s.threads && r.mgmt == s.mgmt
    requires |r.streams| + (if RoomMade(pc) then 1 else 0) <= Bound(cfg, s)
    requires Scanning(pc) ==> ScanOk(cfg, At(r, t, s.threads[t], pc), t)
    ensures BoundOk(cfg, At(r, t, s.threads[t], pc))
  {
    hide ScanOk, Bound;
    var s' := At(r, t, s.threads[t], pc);
    assert s'.threads.Keys == s.threads.Keys;
    ThreadsSame(cfg, s, s');
  }

  lemma LookupBound(cfg: Config, s: State, t: Tid)
    requires BoundOk(cfg, s) && t in s.threads && s.mgmt == Some(t) && s.threads[t].pc.Lookup?
    ensures BoundOk(cfg, LookupKey(cfg, s, t, s.threads[t]))
  {
    hide BoundOk, ScanOk, Bound, At;
    RoomOf(cfg, s, t);
    if s.threads[t].job.key in s.streams && s.streams[s.threads[t].job.key] in s.open {
      BoundAt(cfg, s, s, t, ReturnStream);
    } else if |s.streams| >= cfg.maxOpen {
      ScanStart(cfg, s, t);
      BoundAt(cfg, s, s.(seen := map[]), t, Scan(0));
    } else {
      BoundAt(cfg, s, s, t, PushKey);
    }
  }

  /** The room there is for the holder of the management mutex. */
  lemma RoomOf(cfg: Config, s: State, t: Tid)
    requires BoundOk(cfg, s) && t in s.threads && s.mgmt == Some(t)
    ensures |s.streams| + (if RoomMade(s.threads[t].pc) then 1 else 0) <= Bound(cfg, s) && cfg.maxOpen <= Bound(cfg, s)
    ensures Scanning(s.threads[t].pc) ==> ScanOk(cfg, s, t)
  {
    hide ScanOk;
  }

  /** The thread that holds a listed key holds it as its own. */
  lemma HolderOfListed(s: State, m: Tid, k: Key)
    requires LocksOk(s) && m in s.threads && s.mgmt == Some(m) && s.threads[m].pc.Scan? && k in s.mutex
    requires s.mutex[k] != m
    ensures var h := s.mutex[k]; h in s.threads && s.threads[h].holding && s.threads[h].job.key == k
  {
    assert KeyLock(s, k);
    assert ThreadLocks(s, s.mutex[k]);
  }

  lemma PinnedAlso(cfg: Config, h: Tid, th: Thread, pins: set<Key>)
    requires Pinned(cfg, h, th, pins) && th.holding
    ensures Pinned(cfg, h, th, pins + {th.job.key})
  {
    assert pins + {th.job.key} - {th.job.key} == pins - {th.job.key};
  }

  lemma PassScan(cfg: Config, s: State, t: Tid, i: nat)
    requires LocksOk(s) && CacheOk(s) && t in s.threads && s.mgmt == Some(t) && s.threads[t].pc == Scan(i)
    requires ScanOk(cfg, s, t) && i < |s.used| && s.used[i] in s.mutex
    ensures ScanOk(cfg, TryVictim(s, t, s.threads[t], i), t)
  {
    hide LocksOk, CacheOk, Pinned, Met, MetLocked, Seen;
    ScannedIsOther(s, t, i);
    var k := s.used[i];
    HolderOfListed(s, t, k);
    var h, s' := s.mutex[k], TryVictim(s, t, s.threads[t], i);
    SeenMore(s, s', h, k);
    PinnedAlso(cfg, h, s.threads[h], Seen(s, h));
    NoPins(cfg, t, s'.threads[t]);
    assert s'.threads.Keys == s.threads.Keys;
    MetMore(s, s', t, h, i);
  }

  lemma ScannedIsOther(s: State, t: Tid, i: nat)
    requires LocksOk(s) && CacheOk(s) && t in s.threads && s.threads[t].pc == Scan(i)
    requires i < |s.used| && s.used[i] in s.mutex
    ensures s.mutex[s.used[i]] != t
  {
    hide LocksOk, CacheOk;
    NeverFaulty(s, t);
  }

  lemma SeenMore(s: State, s': State, h: Tid, k: Key)
    requires s'.seen == s.seen[h := Seen(s, h) + {k}]
    ensures Seen(s', h) == Seen(s, h) + {k} && forall g :: g != h ==> Seen(s', g) == Seen(s, g)
  {
  }

  lemma MetMore(s: State, s': State, t: Tid, h: Tid, i: nat)
    requires MetLocked(s, t, i) && i < |s.used| && s'.used == s.used && s'.threads.Keys == s.threads.Keys
    requires h in s.threads && h != t && Seen(s', h) == Seen(s, h) + {s.used[i]}
    requires forall g :: g != h ==> Seen(s', g) == Seen(s, g)
    ensures MetLocked(s', t, i + 1)
  {
    hide Seen;
    forall j | 0 <= j < i + 1 ensures s'.used[j] in Met(s', s'.threads.Keys - {t}) {
      if j < i {
        assert s.used[j] in Met(s, s.threads.Keys - {t});
      } else {
        assert s.used[i] in Seen(s', h) && h in s'.threads.Keys - {t};
      }
    }
  }

  lemma NoPins(cfg: Config, t: Tid, th: Thread)
    ensures Pinned(cfg, t, th, {})
  {
  }

  lemma FindScan(cfg: Config, s: State, t: Tid, i: nat)
    requires t in s.threads && s.threads[t].pc == Scan(i) && ScanOk(cfg, s, t) && i < |s.used| && s.used[i] !in s.mutex
    ensures ScanOk(cfg, TryVictim(s, t, s.threads[t], i), t)
  {
    hide Pinned;
    var s' := TryVictim(s, t, s.threads[t], i);
    assert forall g :: Seen(s', g) == Seen(s, g);
    NoPins(cfg, t, s'.threads[t]);
    forall j | 0 <= j < i ensures s'.used[j] in Met(s', s'.threads.Keys - {t}) {
      assert s.used[j] in Met(s, s.threads.Keys - {t});
    }
  }

  lemma TryBound(cfg: Config, s: State, t: Tid, i: nat)
    requires LocksOk(s) && CacheOk(s) && BoundOk(cfg, s)
    requires t in s.threads && s.mgmt == Some(t) && s.threads[t].pc == Scan(i)
    ensures BoundOk(cfg, TryVictim(s, t, s.threads[t], i))
  {
    hide LocksOk, CacheOk, BoundOk, ScanOk, Bound, Seen, At, TryVictim;
    RoomOf(cfg, s, t);
    if i >= |s.used| {
      ScanEnd(cfg, s, t, i);
      EndBound(cfg, s, t, i);
    } else if s.used[i] in s.mutex {
      PassScan(cfg, s, t, i);
      PassBound(cfg, s, t, i);
    } else {
      FindScan(cfg, s, t, i);
      FindBound(cfg, s, t, i);
    }
  }

  lemma EndBound(cfg: Config, s: State, t: Tid, i: nat)
    requires t in s.threads && s.mgmt == Some(t) && i >= |s.used| && |s.streams| + 1 <= Bound(cfg, s)
    ensures BoundOk(cfg, TryVictim(s, t, s.threads[t], i))
  {
    hide BoundOk, Bound, At;
    BoundAt(cfg, s, s, t, PushKey);
  }

  lemma PassBound(cfg: Config, s: State, t: Tid, i: nat)
    requires t in s.threads && s.mgmt == Some(t) && i < |s.used| && s.used[i] in s.mutex && |s.streams| <= Bound(cfg, s)
    requires ScanOk(cfg, TryVictim(s, t, s.threads[t], i), t)
    ensures BoundOk(cfg, TryVictim(s, t, s.threads[t], i))
  {
    hide BoundOk, ScanOk, Bound, Seen, At;
    var h := s.mutex[s.used[i]];
    BoundAt(cfg, s, s.(seen := s.seen[h := Seen(s, h) + {s.used[i]}]), t, Scan(i + 1));
  }

  lemma FindBound(cfg: Config, s: State, t: Tid, i: nat)
    requires t in s.threads && s.mgmt == Some(t) && i < |s.used| && s.used[i] !in s.mutex
    requires |s.streams| <= Bound(cfg, s)
    requires ScanOk(cfg, TryVictim(s, t, s.threads[t], i), t)
    ensures BoundOk(cfg, TryVictim(s, t, s.threads[t], i))
  {
    hide BoundOk, ScanOk, Bound, Seen, At;
    BoundAt(cfg, s, s.(mutex := s.mutex[s.used[i] := t]), t, CloseStream(i));
  }

  lemma CloseBound(cfg: Config, s: State, t: Tid, i: nat)
    requires BoundOk(cfg, s) && CanAdvance(s, t) && s.mgmt == Some(t) && s.threads[t].pc == CloseStream(i)
    ensures BoundOk(cfg, CloseVictim(s, t, s.threads[t], i))
  {
    RoomOf(cfg, s, t);
    ClosedLocks(s, s.streams[s.used[i]]);
    ClosedStreams(s, s.streams[s.used[i]]);
    hide BoundOk, ScanOk, Bound, At, Closed;
    BoundAt(cfg, s, Closed(s, s.streams[s.used[i]]), t, EraseList(i));
  }

  lemma ClosedStreams(s: State, sid: Sid)
    ensures Closed(s, sid).streams == s.streams
  {
  }

  /** An eviction makes room for one more stream. */
  lemma UnmapBound(cfg: Config, s: State, t: Tid, v: Key)
    requires CacheOk(s) && BoundOk(cfg, s) && t in s.threads && s.mgmt == Some(t) && s.threads[t].pc == EraseMap(v)
    ensures BoundOk(cfg, UnmapVictim(s, t, s.threads[t], v))
  {
    hide BoundOk, ScanOk, Bound, At, Listed, Mapped, InOrder;
    RoomOf(cfg, s, t);
    assert |s.streams - {v}| == |s.streams| - 1;
    BoundAt(cfg, s, s.(streams := s.streams - {v}), t, UnlockVictim(v));
  }

  lemma OpenBound(cfg: Config, s: State, t: Tid)
    requires BoundOk(cfg, s) && t in s.threads && s.mgmt == Some(t) && s.threads[t].pc.OpenFile?
    ensures BoundOk(cfg, OpenStream(s, t, s.threads[t]))
  {
    hide BoundOk, ScanOk, Bound, At;
    RoomOf(cfg, s, t);
    var k := s.threads[t].job.key;
    BoundAt(cfg, s, s.(streams := s.streams[k := s.next], open := s.open[s.next := Stream(k, "")], next := s.next + 1),
            t, ReturnStream);
  }

  lemma EvictBound(cfg: Config, s: State, t: Tid)
    requires BoundOk(cfg, s) && CanAdvance(s, t) && s.mgmt == Some(t)
    requires var pc := s.threads[t].pc; pc.EraseList? || pc.UnlockVictim? || pc.PushKey?
    ensures BoundOk(cfg, Advance(cfg, s, t))
  {
    hide BoundOk, ScanOk, Bound, At;
    RoomOf(cfg, s, t);
    var th := s.threads[t];
    match th.pc {
      case EraseList(i) => BoundAt(cfg, s, s.(used := s.used[..i] + s.used[i + 1..]), t, EraseMap(s.used[i]));
      case UnlockVictim(v) => BoundAt(cfg, s, s.(mutex := s.mutex - {v}), t, PushKey);
      case PushKey => BoundAt(cfg, s, s.(used := s.used + [th.job.key]), t, OpenFile);
    }
  }

  lemma TakeBound(cfg: Config, s: State, t: Tid)
    requires BoundOk(cfg, s) && CanAdvance(s, t) && s.mgmt == Some(t) && s.threads[t].pc.ReturnStream?
    ensures BoundOk(cfg, TakeStream(s, t, s.threads[t]))
  {
    RoomOf(cfg, s, t);
    hide ScanOk, Bound;
    var s' := TakeStream(s, t, s.threads[t]);
    assert s'.threads.Keys == s.threads.Keys;
    ThreadsSame(cfg, s, s');
  }

  // ---------- the other threads meanwhile ----------

  lemma PinnedMoves(cfg: Config, t: Tid, th: Thread, th': Thread, pins: set<Key>)
    requires Pinned(cfg, t, th, pins) && Consistent(th) && ThreadMoved(th, th')
    requires !th.pc.Idle? && !th.pc.WantMgmt? && !InMgmt(th.pc)
    ensures Pinned(cfg, t, th', pins)
  {
    if th.pc.WantKey? {
      SubsetSize(pins - {th.job.key}, pins);
    } else if th.pc.UnlockKey? && pins <= {th.job.key} {
      AtMostOne(pins, th.job.key);
    }
  }

  /** Moving another thread than the scanning one, with the scan untouched. */
  lemma ScanOther(cfg: Config, s: State, s': State, m: Tid, t: Tid)
    requires m in s.threads && t in s.threads && t != m && ScanOk(cfg, s, m)
    requires t in s'.threads && s'.threads == s.threads[t := s'.threads[t]]
    requires s'.used == s.used && s'.seen == s.seen
    requires Pinned(cfg, t, s'.threads[t], Seen(s, t))
    ensures ScanOk(cfg, s', m)
  {
    hide Pinned;
    assert forall g :: Seen(s', g) == Seen(s, g);
    assert s'.threads.Keys == s.threads.Keys;
    assert Met(s', s'.threads.Keys - {m}) == Met(s, s.threads.Keys - {m});
  }

  /** What keeps the bound when the thread is not the holder of the management mutex. */
  lemma BoundOther(cfg: Config, s: State, s': State, t: Tid)
    requires LocksOk(s) && BoundOk(cfg, s) && t in s.threads && s.mgmt != Some(t)
    requires t in s'.threads && s'.threads == s.threads[t := s'.threads[t]]
    requires s'.streams == s.streams && s'.used == s.used && s'.seen == s.seen
    requires s'.mgmt == s.mgmt || (s.mgmt == None && s'.mgmt == Some(t) && s'.threads[t].pc.Lookup?)
    requires s.mgmt.Some? && Pinned(cfg, t, s.threads[t], Seen(s, t)) ==> Pinned(cfg, t, s'.threads[t], Seen(s, t))
    ensures BoundOk(cfg, s')
  {
    hide ScanOk, Bound, ThreadLocks, KeyLock;
    assert s'.threads.Keys == s.threads.Keys;
    ThreadsSame(cfg, s, s');
    if Scanning(MgmtPC(s)) {
      PinnedOf(cfg, s, s.mgmt.value, t);
      ScanOther(cfg, s, s', s.mgmt.value, t);
    }
  }

  lemma PinnedOf(cfg: Config, s: State, m: Tid, t: Tid)
    requires m in s.threads && t in s.threads && ScanOk(cfg, s, m)
    ensures Pinned(cfg, t, s.threads[t], Seen(s, t))
  {
  }

  lemma BoundOutside(cfg: Config, s: State, t: Tid)
    requires LocksOk(s) && BoundOk(cfg, s) && CanAdvance(s, t) && s.mgmt != Some(t)
    ensures BoundOk(cfg, Advance(cfg, s, t))
  {
    hide BoundOk, Advance, LocksOk, Pinned;
    var s' := Advance(cfg, s, t);
    ThreadLocksOf(s, t);
    AdvanceMoves(cfg, s, t);
    if s.threads[t].pc.WantMgmt? {
      EnterState(cfg, s, t);
    } else if Pinned(cfg, t, s.threads[t], Seen(s, t)) {
      PinnedMoves(cfg, t, s.threads[t], s'.threads[t], Seen(s, t));
    }
    BoundOther(cfg, s, s', t);
  }

  lemma EnterState(cfg: Config, s: State, t: Tid)
    requires CanAdvance(s, t) && s.threads[t].pc.WantMgmt?
    ensures s.mgmt == None && Advance(cfg, s, t).mgmt == Some(t) && Advance(cfg, s, t).threads[t].pc.Lookup?
  {
  }

  lemma BoundStep(cfg: Config, s: State, t: Tid)
    requires LocksOk(s) && CacheOk(s) && BoundOk(cfg, s) && CanAdvance(s, t)
    ensures BoundOk(cfg, Advance(cfg, s, t))
  {
    hide LocksOk, CacheOk, BoundOk, CanAdvance, LookupKey, TryVictim, CloseVictim, TakeStream,
         UnmapVictim, OpenStream;
    Inside(s, t);
    ThreadLocksOf(s, t);
    if s.mgmt != Some(t) {
      BoundOutside(cfg, s, t);
    } else {
      match s.threads[t].pc {
        case Lookup => LookupBound(cfg, s, t);
        case Scan(i) => TryBound(cfg, s, t, i);
        case CloseStream(i) => CloseBound(cfg, s, t, i);
        case EraseMap(v) => UnmapBound(cfg, s, t, v);
        case OpenFile => OpenBound(cfg, s, t);
        case ReturnStream => TakeBound(cfg, s, t);
        case _ => EvictBound(cfg, s, t);
      }
    }
  }

  lemma BoundBegin(cfg: Config, s: State, t: Tid, job: Job)
    requires LocksOk(s) && BoundOk(cfg, s) && MayBegin(cfg, s, t, job)
    ensures BoundOk(cfg, Begin(s, t, job))
  {
    ThreadLocksOf(s, t);
    hide LocksOk, BoundOk, Seen;
    BoundOther(cfg, s, Begin(s, t, job), t);
  }

  /** Steps that move no thread. */
  lemma BoundSame(cfg: Config, s: State, s': State)
    requires BoundOk(cfg, s) && s'.threads == s.threads && s'.mgmt == s.mgmt
    requires s'.streams == s.streams && s'.used == s.used && s'.seen == s.seen
    ensures BoundOk(cfg, s')
  {
    hide ScanOk, Bound;
    ThreadsSame(cfg, s, s');
    if Scanning(MgmtPC(s)) { ScanSame(cfg, s, s', s.mgmt.value); }
  }

  lemma ScanSame(cfg: Config, s: State, s': State, m: Tid)
    requires m in s.threads && ScanOk(cfg, s, m)
    requires s'.threads == s.threads && s'.used == s.used && s'.seen == s.seen
    ensures ScanOk(cfg, s', m)
  {
    hide Pinned;
    assert forall g :: Seen(s', g) == Seen(s, g);
    assert Met(s', s'.threads.Keys - {m}) == Met(s, s.threads.Keys - {m});
  }
}
