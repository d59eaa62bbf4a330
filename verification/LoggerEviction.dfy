/** When streams are closed: only where the limit on open streams is reached, one at a time. */
module LoggerEviction {
  import opened Text
  import opened LogCodec
  import opened LoggerProtocol
  import opened LoggerLocks
  import opened LoggerCache
  import opened LoggerStreams
  import opened LoggerFiles
  import opened LoggerHistory
  import opened LoggerBound
  import opened LoggerTheorems

  /** Whoever looks for a stream to close has met the limit. */
  ghost predicate ScanFull(cfg: Config, s: State) {
    forall t :: t in s.threads && Scanning(s.threads[t].pc) ==> |s.streams| >= cfg.maxOpen
  }

  /** A statement keeps every stream open but a victim's, and leads into a scan only where the limit is reached. */
  ghost predicate Kept(cfg: Config, s: State, s': State, t: Tid)
    requires t in s.threads
  {
    && t in s'.threads
    && (s.open.Keys <= s'.open.Keys
        || (s.threads[t].pc.CloseStream? && s.threads[t].pc.i < |s.used| && s.used[s.threads[t].pc.i] in s.streams
            && s'.open.Keys == s.open.Keys - {s.streams[s.used[s.threads[t].pc.i]]}))
    && (Scanning(s'.threads[t].pc) ==>
          s'.streams == s.streams && (|s.streams| >= cfg.maxOpen || Scanning(s.threads[t].pc)))
  }

  lemma KeptAt(cfg: Config, s: State, r: State, t: Tid, th: Thread, pc: PC)
    requires t in s.threads && s.open.Keys <= r.open.Keys
    requires Scanning(pc) ==> r.streams == s.streams && (|s.streams| >= cfg.maxOpen || Scanning(s.threads[t].pc))
    ensures Kept(cfg, s, At(r, t, th, pc), t)
  {
  }

  lemma CloseKept(cfg: Config, s: State, t: Tid, i: nat)
    requires CanAdvance(s, t) && s.threads[t].pc == CloseStream(i)
    ensures Kept(cfg, s, CloseVictim(s, t, s.threads[t], i), t)
  {
    hide Disk;
  }

  lemma LookupKept(cfg: Config, s: State, t: Tid)
    requires t in s.threads && s.threads[t].pc.Lookup?
    ensures Kept(cfg, s, LookupKey(cfg, s, t, s.threads[t]), t)
  {
    hide At, Kept;
    var th := s.threads[t];
    KeptAt(cfg, s, s, t, th, ReturnStream);
    KeptAt(cfg, s, s, t, th, PushKey);
    if |s.streams| >= cfg.maxOpen { KeptAt(cfg, s, s.(seen := map[]), t, th, Scan(0)); }
  }

  lemma TryKept(cfg: Config, s: State, t: Tid, i: nat)
    requires t in s.threads && s.threads[t].pc == Scan(i)
    ensures Kept(cfg, s, TryVictim(s, t, s.threads[t], i), t)
  {
    hide At, Kept, Seen;
    var th := s.threads[t];
    KeptAt(cfg, s, s, t, th, PushKey);
    if i < |s.used| && s.used[i] in s.mutex {
      var h := s.mutex[s.used[i]];
      KeptAt(cfg, s, s.(seen := s.seen[h := Seen(s, h) + {s.used[i]}]), t, th, Scan(i + 1));
    } else if i < |s.used| {
      KeptAt(cfg, s, s.(mutex := s.mutex[s.used[i] := t]), t, th, CloseStream(i));
    }
  }

  lemma EvictKept(cfg: Config, s: State, t: Tid)
    requires CanAdvance(s, t)
    requires var pc := s.threads[t].pc; pc.EraseList? || pc.EraseMap? || pc.UnlockVictim? || pc.PushKey? || pc.OpenFile?
    ensures Kept(cfg, s, Advance(cfg, s, t), t)
  {
    hide At, Kept;
    var th := s.threads[t];
    match th.pc {
      case EraseList(i) => KeptAt(cfg, s, s.(used := s.used[..i] + s.used[i + 1..]), t, th, EraseMap(s.used[i]));
      case EraseMap(v) => KeptAt(cfg, s, s.(streams := s.streams - {v}), t, th, UnlockVictim(v));
      case UnlockVictim(v) => KeptAt(cfg, s, s.(mutex := s.mutex - {v}), t, th, PushKey);
      case PushKey => KeptAt(cfg, s, s.(used := s.used + [th.job.key]), t, th, OpenFile);
      case OpenFile =>
        KeptAt(cfg, s, s.(streams := s.streams[th.job.key := s.next],
                          open := s.open[s.next := Stream(th.job.key, "")], next := s.next + 1), t, th, ReturnStream);
    }
  }

  lemma QuietKept(cfg: Config, s: State, t: Tid)
    requires CanAdvance(s, t)
    requires var pc := s.threads[t].pc; pc.WantMgmt? || pc.ReturnStream? || pc.Recheck? || pc.Stamp?
    ensures Kept(cfg, s, Advance(cfg, s, t), t)
  {
    hide At, Kept;
    var th := s.threads[t];
    match th.pc {
      case WantMgmt => KeptAt(cfg, s, s.(mgmt := Some(t)), t, th, Lookup);
      case ReturnStream =>
        KeptAt(cfg, s, s.(mgmt := None), t, th.(stream := s.streams[th.job.key]),
               if th.job.DecodeJob? then Flush else if th.holding then Stamp else WantKey);
      case Recheck => KeptAt(cfg, s, s, t, th, if th.stream in s.open then Stamp else WantMgmt);
      case Stamp =>
        if th.job.LogJob? { KeptAt(cfg, s, s, t, th.(record := LogRecord(s.clock, th.job.call)), WriteSize); }
        else { NothingMoves(cfg, s, t); }
    }
  }

  lemma NothingMoves(cfg: Config, s: State, t: Tid)
    requires t in s.threads && !Scanning(s.threads[t].pc)
    ensures Kept(cfg, s, s, t)
  {
  }

  lemma LockKept(cfg: Config, s: State, t: Tid)
    requires t in s.threads
    ensures Kept(cfg, s, LockKey(s, t, s.threads[t]), t) && Kept(cfg, s, Leave(s, t, s.threads[t]), t)
  {
    hide Acquired, Finished;
  }

  lemma WriteKept(cfg: Config, s: State, t: Tid, bytes: string, pc: PC)
    requires t in s.threads && !Scanning(pc)
    ensures Kept(cfg, s, At(WrittenTo(s, s.threads[t].stream, bytes), t, s.threads[t], pc), t)
  {
    hide At, Kept;
    KeptAt(cfg, s, WrittenTo(s, s.threads[t].stream, bytes), t, s.threads[t], pc);
  }

  lemma FlushKept(cfg: Config, s: State, t: Tid)
    requires t in s.threads
    ensures Kept(cfg, s, FlushStream(s, t, s.threads[t]), t)
  {
    hide Disk, At, Kept;
    var th := s.threads[t];
    if th.stream in s.open {
      KeptAt(cfg, s, Drained(s, th.stream, |s.open[th.stream].buffer|), t, th, ReadFrame(0));
    } else {
      KeptAt(cfg, s, s, t, th, UnlockKey);
    }
  }

  lemma ReadKept(cfg: Config, s: State, t: Tid, pos: nat)
    requires t in s.threads
    ensures Kept(cfg, s, ReadEntry(s, t, s.threads[t], pos), t)
  {
    hide Disk, LittleEndianValue, EntryAt;
  }

  lemma AdvanceKept(cfg: Config, s: State, t: Tid)
    requires CanAdvance(s, t)
    ensures t in s.threads && Kept(cfg, s, Advance(cfg, s, t), t)
  {
    hide CanAdvance, Kept, At, WrittenTo, LookupKey, TryVictim, CloseVictim, UnlistVictim, UnmapVictim, ReleaseVictim,
         ListKey, OpenStream, TakeStream, LockKey, EncodeNow, FlushStream, ReadEntry, Leave, LittleEndian, EncodeEntry;
    Inside(s, t);
    match s.threads[t].pc {
      case Lookup => LookupKept(cfg, s, t);
      case Scan(i) => TryKept(cfg, s, t, i);
      case CloseStream(i) => CloseKept(cfg, s, t, i);
      case EraseList(_) | EraseMap(_) | UnlockVictim(_) | PushKey | OpenFile => EvictKept(cfg, s, t);
      case WriteSize => WriteKept(cfg, s, t, LittleEndian(|EncodeEntry(s.threads[t].record)|, 8), WriteBody);
      case WriteBody => WriteKept(cfg, s, t, EncodeEntry(s.threads[t].record), UnlockKey);
      case Flush => FlushKept(cfg, s, t);
      case ReadFrame(pos) => ReadKept(cfg, s, t, pos);
      case WantKey | UnlockKey => LockKept(cfg, s, t);
      case _ => QuietKept(cfg, s, t);
    }
  }

  lemma FullAdvance(cfg: Config, s: State, t: Tid)
    requires LocksOk(s) && ScanFull(cfg, s) && CanAdvance(s, t)
    ensures ScanFull(cfg, Advance(cfg, s, t))
  {
    hide Advance, LocksOk, CanAdvance, Finished, BuffersMoved, ThreadMoved;
    Inside(s, t);
    var s' := Advance(cfg, s, t);
    AdvanceMoves(cfg, s, t);
    ThreadLocksOf(s, t);
    forall h | h in s'.threads && Scanning(s'.threads[h].pc) ensures |s'.streams| >= cfg.maxOpen {
      if h == t {
        AdvanceKept(cfg, s, t);
      } else {
        ThreadLocksOf(s, h);
      }
    }
  }

  lemma FullStep(cfg: Config, s: State, s': State)
    requires Inv(cfg, s) && Next(cfg, s, s') && ScanFull(cfg, s)
    ensures ScanFull(cfg, s')
  {
    hide Advance, LocksOk, CacheOk, StreamsOk, LogsOk, TimeOk, ReadersOk, BoundOk, Blocked, Faulty;
    if t :| ThreadStep(cfg, s, s', t) {
      if CanAdvance(s, t) && s' == Advance(cfg, s, t) {
        FullAdvance(cfg, s, t);
      }
    }
  }

  lemma {:induction false} FullRun(cfg: Config, ss: seq<State>, i: nat)
    requires Behaviour(cfg, ss) && i < |ss|
    ensures ScanFull(cfg, ss[i])
  {
    hide Inv, Next;
    if i > 0 {
      FullRun(cfg, ss, i - 1);
      InvRun(cfg, ss, i - 1);
      assert Next(cfg, ss[i - 1], ss[i - 1 + 1]);
      FullStep(cfg, ss[i - 1], ss[i]);
    }
  }

  /** Before a stream is closed, every mapped key has its own open one. */
  lemma OpenAsMapped(s: State, t: Tid)
    requires CacheOk(s) && LocksOk(s) && t in s.threads && s.threads[t].pc.CloseStream?
    ensures |s.open| >= |s.streams|
  {
    ThreadLocksOf(s, t);
    hide LocksOk;
    FitsWired(CacheOf(s), MgmtPC(s), MgmtKey(s));
    OpenSize(CacheOf(s), s.open.Keys);
    var ks := set j | j in s.open.Keys :: s.open[j].key;
    forall k | k in s.streams ensures k in ks {
      assert s.streams[k] in s.open && s.open[s.streams[k]].key == k;
    }
    hide Wired, Listed, InOrder, HolderOk, Mapped;
    SubsetSize(s.streams.Keys, ks);
  }

  /**
   A stream is closed only by an eviction, while as many streams as the limit allows are
   open, and then it is the only one.
   */
  lemma EvictsOnlyAtLimit(cfg: Config, ss: seq<State>, i: nat, sid: Sid)
    requires Behaviour(cfg, ss) && i + 1 < |ss| && sid in ss[i].open && sid !in ss[i + 1].open
    ensures |ss[i].open| >= cfg.maxOpen
    ensures ss[i + 1].open.Keys == ss[i].open.Keys - {sid}
  {
    hide Init, Advance, LocksOk, CacheOk, StreamsOk, LogsOk, TimeOk, ReadersOk, BoundOk, Blocked, Faulty;
    InvRun(cfg, ss, i);
    FullRun(cfg, ss, i);
    var s, s' := ss[i], ss[i + 1];
    assert Next(cfg, s, s');
    var t :| ThreadStep(cfg, s, s', t);
    AdvanceKept(cfg, s, t);
    OpenAsMapped(s, t);
  }
}
