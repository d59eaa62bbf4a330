/** The bytes of a log: whatever the threads do, they are never lost, changed or reordered. */
module LoggerGrowth {
  import opened Text
  import opened LogCodec
  import opened LoggerProtocol
  import opened LoggerLocks
  import opened LoggerCache
  import opened LoggerStreams
  import opened LoggerFiles
  import opened LoggerHistory
  import opened LoggerBound
  import opened LoggerTheorems

  /** The log of the key, and its file alone, are as before up to what has been added at the end. */
  predicate Grown(s: State, s': State, k: Key) {
    Content(s, k) <= Content(s', k) && Disk(s, k) <= Disk(s', k)
  }

  lemma SameFiles(s: State, s': State, k: Key)
    requires s'.streams == s.streams && s'.open == s.open && s'.disk == s.disk
    ensures Grown(s, s', k)
  {
  }

  lemma DrainDisk(s: State, sid: Sid, n: nat, k: Key)
    requires sid in s.open && n <= |s.open[sid].buffer|
    ensures Disk(s, k) <= Disk(Drained(s, sid, n), k)
  {
  }

  lemma PlacedFiles(s: State, r: State, t: Tid, th: Thread, pc: PC, k: Key)
    requires Content(s, k) <= Content(r, k) && Disk(s, k) <= Disk(r, k)
    ensures Grown(s, At(r, t, th, pc), k)
  {
  }

  lemma CloseGrows(s: State, t: Tid, i: nat, k: Key)
    requires CacheOk(s) && t in s.threads && s.mgmt == Some(t) && s.threads[t].pc == CloseStream(i)
    ensures Grown(s, CloseVictim(s, t, s.threads[t], i), k)
  {
    hide Grown, Content, Disk, At, Fits, Wired;
    FitsClose(CacheOf(s), i, s.threads[t].job.key);
    FitsWired(CacheOf(s), MgmtPC(s), MgmtKey(s));
    var sid := s.streams[s.used[i]];
    CloseContent(s, sid, k);
    DrainDisk(s, sid, |s.open[sid].buffer|, k);
    CloseDisk(s, sid, k);
    hide Closed;
    PlacedFiles(s, Closed(s, sid), t, s.threads[t], EraseList(i), k);
  }

  lemma CloseDisk(s: State, sid: Sid, k: Key)
    requires sid in s.open
    ensures Disk(Closed(s, sid), k) == Disk(Drained(s, sid, |s.open[sid].buffer|), k)
  {
  }

  lemma UnmapGrows(s: State, t: Tid, v: Key, k: Key)
    requires CacheOk(s) && t in s.threads && s.mgmt == Some(t) && s.threads[t].pc == EraseMap(v)
    ensures Grown(s, UnmapVictim(s, t, s.threads[t], v), k)
  {
    hide Grown, Content, At, Listed, InOrder;
    assert v in s.streams && s.streams[v] !in s.open;
    UnmapContent(s, v, k);
    PlacedFiles(s, s.(streams := s.streams - {v}), t, s.threads[t], UnlockVictim(v), k);
  }

  lemma OpenGrows(s: State, t: Tid, k: Key)
    requires CacheOk(s) && t in s.threads && s.mgmt == Some(t) && s.threads[t].pc.OpenFile?
    ensures Grown(s, OpenStream(s, t, s.threads[t]), k)
  {
    hide Content, Fits, Wired;
    assert s.threads[t].job.key !in s.streams by { OpensUnmapped(s, t); }
    FitsWired(CacheOf(s), MgmtPC(s), MgmtKey(s));
    OpenContent(s, t, k);
  }

  lemma OpensUnmapped(s: State, t: Tid)
    requires CacheOk(s) && t in s.threads && s.mgmt == Some(t) && s.threads[t].pc.OpenFile?
    ensures s.threads[t].job.key !in s.streams
  {
  }

  lemma WriteGrows(s: State, t: Tid, bytes: string, pc: PC, k: Key)
    requires CacheOk(s) && StreamsOk(s) && t in s.threads && Relies(s.threads[t].pc)
    ensures Grown(s, At(WrittenTo(s, s.threads[t].stream, bytes), t, s.threads[t], pc), k)
  {
    hide Grown, Content, At, CacheOk, StreamsOk, Wired;
    StreamOf(s, t);
    CacheWired(s);
    WriteContent(s, s.threads[t].stream, bytes, k);
    assert WrittenTo(s, s.threads[t].stream, bytes).disk == s.disk;
    hide WrittenTo;
    PlacedFiles(s, WrittenTo(s, s.threads[t].stream, bytes), t, s.threads[t], pc, k);
  }

  lemma CacheWired(s: State)
    requires CacheOk(s)
    ensures Wired(CacheOf(s))
  {
    hide Fits;
    FitsWired(CacheOf(s), MgmtPC(s), MgmtKey(s));
  }

  lemma FlushGrows(s: State, t: Tid, k: Key)
    requires CacheOk(s) && t in s.threads && s.threads[t].pc.Flush?
    ensures Grown(s, FlushStream(s, t, s.threads[t]), k)
  {
    hide Grown, Content, Disk, At, CacheOk, Wired;
    CacheWired(s);
    var sid := s.threads[t].stream;
    if sid in s.open {
      var n := |s.open[sid].buffer|;
      DrainContent(s, sid, n, k);
      DrainDisk(s, sid, n, k);
      hide Drained;
      PlacedFiles(s, Drained(s, sid, n), t, s.threads[t], ReadFrame(0), k);
    } else {
      PlacedFiles(s, s, t, s.threads[t], UnlockKey, k);
    }
  }

  lemma PlacedSame(s: State, r: State, t: Tid, th: Thread, pc: PC, k: Key)
    requires r.streams == s.streams && r.open == s.open && r.disk == s.disk
    ensures Grown(s, At(r, t, th, pc), k)
  {
    hide Grown, Content, Disk;
    SameFiles(s, At(r, t, th, pc), k);
  }

  lemma LookupGrows(cfg: Config, s: State, t: Tid, k: Key)
    requires t in s.threads && s.threads[t].pc.Lookup?
    ensures Grown(s, LookupKey(cfg, s, t, s.threads[t]), k)
  {
    hide Grown, At;
    var th := s.threads[t];
    PlacedSame(s, s, t, th, ReturnStream, k);
    PlacedSame(s, s.(seen := map[]), t, th, Scan(0), k);
    PlacedSame(s, s, t, th, PushKey, k);
  }

  lemma TryGrows(s: State, t: Tid, i: nat, k: Key)
    requires t in s.threads && s.threads[t].pc == Scan(i)
    ensures Grown(s, TryVictim(s, t, s.threads[t], i), k)
  {
    hide Grown, At, Seen;
    var th := s.threads[t];
    if i >= |s.used| {
      PlacedSame(s, s, t, th, PushKey, k);
    } else if s.used[i] in s.mutex {
      var h := s.mutex[s.used[i]];
      PlacedSame(s, s.(seen := s.seen[h := Seen(s, h) + {s.used[i]}]), t, th, Scan(i + 1), k);
    } else {
      PlacedSame(s, s.(mutex := s.mutex[s.used[i] := t]), t, th, CloseStream(i), k);
    }
  }

  /** The other statements under the management mutex leave streams and files alone. */
  lemma FetchGrows(cfg: Config, s: State, t: Tid, k: Key)
    requires CanAdvance(s, t)
    requires var pc := s.threads[t].pc;
             pc.WantMgmt? || pc.EraseList? || pc.UnlockVictim? || pc.PushKey? || pc.ReturnStream?
    ensures Grown(s, Advance(cfg, s, t), k)
  {
    hide Grown, At;
    var th := s.threads[t];
    match th.pc {
      case WantMgmt => PlacedSame(s, s.(mgmt := Some(t)), t, th, Lookup, k);
      case EraseList(i) => PlacedSame(s, s.(used := s.used[..i] + s.used[i + 1..]), t, th, EraseMap(s.used[i]), k);
      case UnlockVictim(v) => PlacedSame(s, s.(mutex := s.mutex - {v}), t, th, PushKey, k);
      case PushKey => PlacedSame(s, s.(used := s.used + [th.job.key]), t, th, OpenFile, k);
      case ReturnStream =>
        PlacedSame(s, s.(mgmt := None), t, th.(stream := s.streams[th.job.key]),
                   if th.job.DecodeJob? then Flush else if th.holding then Stamp else WantKey, k);
    }
  }

  /** So do those that lock, recheck, read the clock, read an entry, or unlock. */
  lemma LockGrows(s: State, t: Tid, k: Key)
    requires t in s.threads
    ensures Grown(s, LockKey(s, t, s.threads[t]), k) && Grown(s, Leave(s, t, s.threads[t]), k)
  {
    hide Grown, Acquired, Finished;
    SameFiles(s, LockKey(s, t, s.threads[t]), k);
    SameFiles(s, Leave(s, t, s.threads[t]), k);
  }

  lemma KeyGrows(cfg: Config, s: State, t: Tid, k: Key)
    requires CanAdvance(s, t)
    requires var pc := s.threads[t].pc; pc.Recheck? || (pc.Stamp? && s.threads[t].job.LogJob?) || pc.ReadFrame?
    ensures Grown(s, Advance(cfg, s, t), k)
  {
    hide Grown, At, Disk, LittleEndianValue, EntryAt;
    var th := s.threads[t];
    match th.pc {
      case Recheck => PlacedSame(s, s, t, th, if th.stream in s.open then Stamp else WantMgmt, k);
      case Stamp => PlacedSame(s, s, t, th.(record := LogRecord(s.clock, th.job.call)), WriteSize, k);
      case ReadFrame(pos) =>
        var file := Disk(s, th.job.key);
        if pos + 8 > |file| {
          PlacedSame(s, s, t, th, UnlockKey, k);
        } else {
          var size := LittleEndianValue(file[pos..pos + 8]);
          PlacedSame(s, s, t, th.(got := th.got + [EntryAt(file, pos + 8, size)]), ReadFrame(pos + 8 + size), k);
        }
    }
  }

  lemma AdvanceGrows(cfg: Config, s: State, t: Tid, k: Key)
    requires LocksOk(s) && CacheOk(s) && StreamsOk(s) && CanAdvance(s, t)
    ensures Grown(s, Advance(cfg, s, t), k)
  {
    hide LocksOk, CacheOk, StreamsOk, Grown, At, WrittenTo, LookupKey, TryVictim, CloseVictim, UnlistVictim,
         UnmapVictim, CanAdvance, ReleaseVictim, ListKey, OpenStream, TakeStream, LockKey, EncodeNow,
         FlushStream, ReadEntry, Leave,
         LittleEndian, EncodeEntry;
    Inside(s, t);
    ThreadLocksOf(s, t);
    match s.threads[t].pc {
      case CloseStream(i) => CloseGrows(s, t, i, k);
      case EraseMap(v) => UnmapGrows(s, t, v, k);
      case OpenFile => OpenGrows(s, t, k);
      case WriteSize => WriteGrows(s, t, LittleEndian(|EncodeEntry(s.threads[t].record)|, 8), WriteBody, k);
      case WriteBody => WriteGrows(s, t, EncodeEntry(s.threads[t].record), UnlockKey, k);
      case Flush => FlushGrows(s, t, k);
      case Lookup => LookupGrows(cfg, s, t, k);
      case Scan(i) => TryGrows(s, t, i, k);
      case WantKey | UnlockKey => LockGrows(s, t, k);
      case Recheck | Stamp | ReadFrame(_) => KeyGrows(cfg, s, t, k);
      case _ => FetchGrows(cfg, s, t, k);
    }
  }

  lemma SpillGrows(s: State, s': State, sid: Sid, n: nat, k: Key)
    requires CacheOk(s) && Spill(s, s', sid, n)
    ensures Grown(s, s', k)
  {
    hide CacheOk, Content, Disk, Wired;
    CacheWired(s);
    DrainContent(s, sid, n, k);
    DrainDisk(s, sid, n, k);
  }

  lemma StepGrows(cfg: Config, s: State, s': State, k: Key)
    requires Inv(cfg, s) && Next(cfg, s, s')
    ensures Grown(s, s', k)
  {
    hide Advance, LocksOk, CacheOk, StreamsOk, LogsOk, TimeOk, ReadersOk, BoundOk, Blocked, Faulty, Grown, Spill;
    if Tick(s, s') {
      SameFiles(s, s', k);
    } else if sid, n :| Spill(s, s', sid, n) {
      SpillGrows(s, s', sid, n, k);
    } else {
      var t :| ThreadStep(cfg, s, s', t);
      if CanAdvance(s, t) && s' == Advance(cfg, s, t) {
        AdvanceGrows(cfg, s, t, k);
      } else {
        SameFiles(s, s', k);
      }
    }
  }

  lemma GrownThen(a: State, b: State, c: State, k: Key)
    requires Grown(a, b, k) && Grown(b, c, k)
    ensures Grown(a, c, k)
  {
    hide Content, Disk;
  }

  /**
   From one state of a run to any later one, the bytes of a log, and those of its file, stay
   as they were and only more are added at the end; so does the list of the calls they record.
   */
  lemma {:induction false} LogGrows(cfg: Config, ss: seq<State>, i: nat, j: nat, k: Key)
    requires Behaviour(cfg, ss) && i <= j < |ss|
    ensures Content(ss[i], k) <= Content(ss[j], k)
    ensures Disk(ss[i], k) <= Disk(ss[j], k)
    ensures Finished(ss[i], k) <= Finished(ss[j], k)
    decreases j
  {
    hide Inv, Next, Init, Finished, Content, Disk;
    if i < j {
      LogGrows(cfg, ss, i, j - 1, k);
      InvRun(cfg, ss, j - 1);
      assert Next(cfg, ss[j - 1], ss[j - 1 + 1]);
      StepGrows(cfg, ss[j - 1], ss[j], k);
      GrownThen(ss[i], ss[j - 1], ss[j], k);
      HistoryGrows(cfg, ss, i, j, k);
    }
  }
}
