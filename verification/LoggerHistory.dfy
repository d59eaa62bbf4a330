/**
 What was logged and what is read back: the finished calls of a key are recorded in time
 order, and a decoder reads every one of them, once and whole.
 */
module LoggerHistory {
  import opened Text
  import opened Numbers
  import opened LogCodec
  import opened LoggerProtocol
  import opened LoggerLocks
  import opened LoggerCache
  import opened LoggerStreams
  import opened LoggerFiles

  // ---------- what one statement leaves alone ----------

  /** The statements after the entry was encoded. */
  predicate Stamped(pc: PC) {
    pc.WriteSize? || pc.WriteBody? || pc.UnlockKey?
  }

  /** How a statement changes the thread that executes it. */
  predicate ThreadMoved(th: Thread, th': Thread) {
    && th'.job == th.job
    && (!th.pc.Stamp? ==> th'.record == th.record)
    && (!th.pc.ReadFrame? ==> th'.got == th.got)
    && (Stamped(th'.pc) && th.job.LogJob? && Consistent(th) ==> th.pc.Stamp? || Stamped(th.pc))
    && (th'.pc.ReadFrame? || (th'.pc.UnlockKey? && th.job.DecodeJob? && Consistent(th)) ==>
          th.pc.Flush? || th.pc.ReadFrame?)
    && (if th.pc.UnlockKey? then th'.pc.Idle? && !th'.holding
        else if th.pc.WantKey? then th'.holding && th'.pc == if th.job.LogJob? then Recheck else WantMgmt
        else !th'.pc.Idle? && th'.holding == th.holding)
  }

  predicate Writes(pc: PC) {
    pc.WriteSize? || pc.WriteBody?
  }

  /** An empty buffer stays empty unless the thread writes to its stream. */
  ghost predicate BuffersMoved(s: State, s': State, th: Thread) {
    forall i :: i in s.open && i in s'.open && s.open[i].buffer == "" && !(Writes(th.pc) && th.stream == i) ==>
      s'.open[i].buffer == ""
  }

  /** Outside the management mutex the map and the list are left alone. */
  predicate FetchMoved(s: State, s': State, th: Thread) {
    InMgmt(th.pc)
    || (s'.streams == s.streams && s'.used == s.used && s'.seen == s.seen && (th.pc.WantMgmt? || s'.mgmt == s.mgmt))
  }

  /** A statement moves one thread, and only finishing a log call adds to the history of its key. */
  ghost predicate Moved(s: State, s': State, t: Tid)
    requires t in s.threads
  {
    var th := s.threads[t];
    && t in s'.threads && s'.threads == s.threads[t := s'.threads[t]] && s'.clock == s.clock
    && ThreadMoved(th, s'.threads[t])
    && s'.finished == (if th.pc.UnlockKey? && th.job.LogJob?
                       then s.finished[th.job.key := Finished(s, th.job.key) + [(t, th.record)]] else s.finished)
    && BuffersMoved(s, s', th) && FetchMoved(s, s', th)
  }

  lemma MovedAt(s: State, r: State, t: Tid, th: Thread, pc: PC)
    requires t in s.threads && r.threads == s.threads && r.clock == s.clock && r.finished == s.finished
    requires !s.threads[t].pc.UnlockKey? && ThreadMoved(s.threads[t], th.(pc := pc))
    requires BuffersMoved(s, r, s.threads[t]) && FetchMoved(s, r, s.threads[t])
    ensures Moved(s, At(r, t, th, pc), t)
  {
  }

  lemma LookupMoves(cfg: Config, s: State, t: Tid)
    requires t in s.threads && s.threads[t].pc.Lookup?
    ensures Moved(s, LookupKey(cfg, s, t, s.threads[t]), t)
  {
    hide At, Moved;
    var th := s.threads[t];
    MovedAt(s, s, t, th, ReturnStream);
    MovedAt(s, s.(seen := map[]), t, th, Scan(0));
    MovedAt(s, s, t, th, PushKey);
  }

  lemma TryMoves(s: State, t: Tid, i: nat)
    requires t in s.threads && s.threads[t].pc == Scan(i)
    ensures Moved(s, TryVictim(s, t, s.threads[t], i), t)
  {
    hide Seen, At, Moved;
    var th := s.threads[t];
    if i >= |s.used| { MovedAt(s, s, t, th, PushKey); }
    else if s.used[i] in s.mutex {
      var h := s.mutex[s.used[i]];
      MovedAt(s, s.(seen := s.seen[h := Seen(s, h) + {s.used[i]}]), t, th, Scan(i + 1));
    } else {
      MovedAt(s, s.(mutex := s.mutex[s.used[i] := t]), t, th, CloseStream(i));
    }
  }

  lemma CloseMoves(s: State, t: Tid, i: nat)
    requires CanAdvance(s, t) && s.threads[t].pc == CloseStream(i)
    ensures Moved(s, CloseVictim(s, t, s.threads[t], i), t)
  {
    hide Disk, At, Moved;
    MovedAt(s, Closed(s, s.streams[s.used[i]]), t, s.threads[t], EraseList(i));
  }

  lemma EvictMoves(cfg: Config, s: State, t: Tid)
    requires CanAdvance(s, t)
    requires var pc := s.threads[t].pc; pc.EraseList? || pc.EraseMap? || pc.UnlockVictim? || pc.PushKey? || pc.OpenFile?
    ensures Moved(s, Advance(cfg, s, t), t)
  {
    hide At, Moved;
    var th := s.threads[t];
    match th.pc {
      case EraseList(i) => MovedAt(s, s.(used := s.used[..i] + s.used[i + 1..]), t, th, EraseMap(s.used[i]));
      case EraseMap(v) => MovedAt(s, s.(streams := s.streams - {v}), t, th, UnlockVictim(v));
      case UnlockVictim(v) => MovedAt(s, s.(mutex := s.mutex - {v}), t, th, PushKey);
      case PushKey => MovedAt(s, s.(used := s.used + [th.job.key]), t, th, OpenFile);
      case OpenFile =>
        MovedAt(s, s.(streams := s.streams[th.job.key := s.next], open := s.open[s.next := Stream(th.job.key, "")],
                      next := s.next + 1), t, th, ReturnStream);
    }
  }

  lemma LockMoves(s: State, t: Tid)
    requires t in s.threads && s.threads[t].pc.WantKey?
    ensures Moved(s, LockKey(s, t, s.threads[t]), t)
  {
    hide Acquired;
  }

  lemma QuietMoves(cfg: Config, s: State, t: Tid)
    requires CanAdvance(s, t)
    requires var pc := s.threads[t].pc;
             pc.WantMgmt? || pc.ReturnStream? || pc.Recheck? || (pc.Stamp? && s.threads[t].job.LogJob?)
    ensures Moved(s, Advance(cfg, s, t), t)
  {
    hide At, Moved;
    var th := s.threads[t];
    match th.pc {
      case WantMgmt => MovedAt(s, s.(mgmt := Some(t)), t, th, Lookup);
      case ReturnStream =>
        MovedAt(s, s.(mgmt := None), t, th.(stream := s.streams[th.job.key]),
                if th.job.DecodeJob? then Flush else if th.holding then Stamp else WantKey);
      case Recheck => MovedAt(s, s, t, th, if th.stream in s.open then Stamp else WantMgmt);
      case Stamp => MovedAt(s, s, t, th.(record := LogRecord(s.clock, th.job.call)), WriteSize);
    }
  }

  lemma WriteMoves(s: State, t: Tid, bytes: string)
    requires t in s.threads && Writes(s.threads[t].pc)
    ensures var th := s.threads[t];
            Moved(s, At(WrittenTo(s, th.stream, bytes), t, th, if th.pc.WriteSize? then WriteBody else UnlockKey), t)
  {
    hide At, Moved;
    var th := s.threads[t];
    MovedAt(s, WrittenTo(s, th.stream, bytes), t, th, if th.pc.WriteSize? then WriteBody else UnlockKey);
  }

  lemma FlushMoves(s: State, t: Tid)
    requires t in s.threads && s.threads[t].pc.Flush?
    ensures Moved(s, FlushStream(s, t, s.threads[t]), t)
  {
    hide At, Moved, Disk;
    var th := s.threads[t];
    if th.stream in s.open {
      MovedAt(s, Drained(s, th.stream, |s.open[th.stream].buffer|), t, th, ReadFrame(0));
    } else {
      MovedAt(s, s, t, th, UnlockKey);
    }
  }

  lemma ReadMoves(s: State, t: Tid, pos: nat)
    requires t in s.threads && s.threads[t].pc == ReadFrame(pos)
    ensures Moved(s, ReadEntry(s, t, s.threads[t], pos), t)
  {
    hide At, Moved, Disk, LittleEndianValue, EntryAt;
    var th, file := s.threads[t], Disk(s, s.threads[t].job.key);
    if pos + 8 > |file| {
      MovedAt(s, s, t, th, UnlockKey);
    } else {
      var size := LittleEndianValue(file[pos..pos + 8]);
      MovedAt(s, s, t, th.(got := th.got + [EntryAt(file, pos + 8, size)]), ReadFrame(pos + 8 + size));
    }
  }

  lemma LeaveMoves(s: State, t: Tid)
    requires t in s.threads && s.threads[t].pc.UnlockKey?
    ensures Moved(s, Leave(s, t, s.threads[t]), t)
  {
    hide Finished;
  }

  lemma AdvanceMoves(cfg: Config, s: State, t: Tid)
    requires LocksOk(s) && CanAdvance(s, t)
    ensures Moved(s, Advance(cfg, s, t), t)
  {
    hide LocksOk, Moved, At, WrittenTo, LookupKey, TryVictim, CloseVictim, UnlistVictim, UnmapVictim, CanAdvance,
         ReleaseVictim, ListKey, OpenStream, TakeStream, LockKey, EncodeNow, FlushStream, ReadEntry, Leave,
         LittleEndian, EncodeEntry;
    Inside(s, t);
    ThreadLocksOf(s, t);
    match s.threads[t].pc {
      case Lookup => LookupMoves(cfg, s, t);
      case Scan(i) => TryMoves(s, t, i);
      case CloseStream(i) => CloseMoves(s, t, i);
      case EraseList(_) | EraseMap(_) | UnlockVictim(_) | PushKey | OpenFile => EvictMoves(cfg, s, t);
      case WantKey => LockMoves(s, t);
      case WriteSize => WriteMoves(s, t, LittleEndian(|EncodeEntry(s.threads[t].record)|, 8));
      case WriteBody => WriteMoves(s, t, EncodeEntry(s.threads[t].record));
      case Flush => FlushMoves(s, t);
      case ReadFrame(pos) => ReadMoves(s, t, pos);
      case UnlockKey => LeaveMoves(s, t);
      case _ => QuietMoves(cfg, s, t);
    }
  }

  lemma AdvanceHistory(cfg: Config, s: State, t: Tid, k: Key)
    requires LocksOk(s) && CanAdvance(s, t)
    ensures var th := s.threads[t];
            Finished(Advance(cfg, s, t), k) ==
            if th.pc.UnlockKey? && th.job.LogJob? && k == th.job.key then Finished(s, k) + [(t, th.record)]
            else Finished(s, k)
  {
    AdvanceMoves(cfg, s, t);
    hide Advance, LocksOk, CanAdvance;
  }

  // ---------- records and time ----------

  predicate Small(call: LogCall) {
    |call.user| + |call.newValue| + 12 < U64
  }

  /** The record of the call in progress is a new last one for its key. */
  ghost predicate RecordOk(th: Thread, es: seq<(Tid, LogRecord)>, now: int) {
    && th.job.LogJob? && th.record.call == th.job.call && Recordable(th.record) && th.record.timestamp <= now
    && forall e :: e in es ==> e.1.timestamp <= th.record.timestamp
  }

  ghost predicate ThreadTime(s: State, th: Thread) {
    && (th.job.LogJob? && !th.pc.Idle? ==> Small(th.job.call))
    && (th.job.LogJob? && Stamped(th.pc) ==> RecordOk(th, Finished(s, th.job.key), s.clock))
  }

  ghost predicate TimeOk(s: State) {
    && -I64 <= s.clock < I64
    && (forall k :: GoodHistory(Finished(s, k), s.clock))
    && (forall t :: t in s.threads ==> ThreadTime(s, s.threads[t]))
  }

  lemma TimeInit(s: State)
    requires Init(s)
    ensures TimeOk(s)
  {
  }

  lemma TimeOf(s: State, t: Tid, k: Key)
    requires TimeOk(s) && t in s.threads
    ensures ThreadTime(s, s.threads[t]) && GoodHistory(Finished(s, k), s.clock) && -I64 <= s.clock < I64
  {
  }

  lemma EncodedSize(r: LogRecord)
    ensures |EncodeEntry(r)| == |r.call.user| + |r.call.newValue| + 12
  {
  }

  lemma HistoryLonger(es: seq<(Tid, LogRecord)>, t: Tid, th: Thread, now: int)
    requires GoodHistory(es, now) && th.job.LogJob? && RecordOk(th, es, now)
    ensures GoodHistory(es + [(t, th.record)], now)
  {
    hide Recordable;
    var more := es + [(t, th.record)];
    assert Records(more) == Records(es) + [th.record];
    forall i | 0 <= i < |es| ensures Records(es)[i].timestamp <= th.record.timestamp {
      assert es[i] in es;
    }
  }

  /** The clock a call reads is not behind that of any earlier call. */
  lemma StampTime(s: State, t: Tid)
    requires TimeOk(s) && t in s.threads && s.threads[t].pc.Stamp? && s.threads[t].job.LogJob?
    ensures var s' := EncodeNow(s, t, s.threads[t]); ThreadTime(s', s'.threads[t])
  {
    hide EncodeEntry;
    var th := s.threads[t];
    TimeOf(s, t, th.job.key);
    EncodedSize(LogRecord(s.clock, th.job.call));
  }

  lemma OwnTime(cfg: Config, s: State, t: Tid)
    requires LocksOk(s) && TimeOk(s) && CanAdvance(s, t)
    ensures var s' := Advance(cfg, s, t); t in s'.threads && ThreadTime(s', s'.threads[t])
  {
    ThreadLocksOf(s, t);
    var th := s.threads[t];
    TimeOf(s, t, th.job.key);
    if th.pc.Stamp? {
      StampTime(s, t);
    } else {
      AdvanceMoves(cfg, s, t);
      AdvanceHistory(cfg, s, t, th.job.key);
      hide Advance, LocksOk, TimeOk, Recordable, CanAdvance, Finished;
    }
  }

  lemma OtherTime(cfg: Config, s: State, t: Tid, h: Tid)
    requires LocksOk(s) && TimeOk(s) && CanAdvance(s, t) && h in s.threads && h != t
    ensures h in Advance(cfg, s, t).threads && ThreadTime(Advance(cfg, s, t), Advance(cfg, s, t).threads[h])
  {
    AdvanceMoves(cfg, s, t);
    AdvanceHistory(cfg, s, t, s.threads[h].job.key);
    TimeOf(s, h, s.threads[h].job.key);
    ThreadLocksOf(s, h);
    ThreadLocksOf(s, t);
    hide Advance, LocksOk, TimeOk, RecordOk, CanAdvance, Finished;
  }

  lemma TimeStep(cfg: Config, s: State, t: Tid)
    requires LocksOk(s) && TimeOk(s) && CanAdvance(s, t)
    ensures TimeOk(Advance(cfg, s, t))
  {
    var s' := Advance(cfg, s, t);
    AdvanceMoves(cfg, s, t);
    hide Advance, LocksOk, CanAdvance, Finished, ThreadTime, GoodHistory;
    forall k ensures GoodHistory(Finished(s', k), s'.clock) {
      AdvanceHistory(cfg, s, t, k);
      TimeOf(s, t, k);
      FinishedTime(s, t, k);
    }
    forall h | h in s'.threads ensures ThreadTime(s', s'.threads[h]) {
      if h == t { OwnTime(cfg, s, t); } else { OtherTime(cfg, s, t, h); }
    }
  }

  lemma FinishedTime(s: State, t: Tid, k: Key)
    requires TimeOk(s) && t in s.threads
    ensures var th := s.threads[t];
            th.pc.UnlockKey? && th.job.LogJob? && k == th.job.key ==>
              GoodHistory(Finished(s, k) + [(t, th.record)], s.clock)
  {
    var th := s.threads[t];
    TimeOf(s, t, k);
    hide TimeOk, GoodHistory, RecordOk, Finished;
    if th.pc.UnlockKey? && th.job.LogJob? && k == th.job.key {
      HistoryLonger(Finished(s, k), t, th, s.clock);
    }
  }

  lemma TimeBegin(cfg: Config, s: State, t: Tid, job: Job)
    requires TimeOk(s) && MayBegin(cfg, s, t, job)
    ensures TimeOk(Begin(s, t, job))
  {
    var s' := Begin(s, t, job);
    assert forall k :: Finished(s', k) == Finished(s, k);
    hide GoodHistory, RecordOk, Finished;
    forall h | h in s'.threads ensures ThreadTime(s', s'.threads[h]) {
      assert h != t ==> ThreadTime(s, s.threads[h]);
    }
  }

  lemma TimeTick(s: State, s': State)
    requires TimeOk(s) && Tick(s, s')
    ensures TimeOk(s')
  {
    hide Recordable;
    assert forall k :: Finished(s', k) == Finished(s, k);
    forall k ensures GoodHistory(Finished(s', k), s'.clock) { assert GoodHistory(Finished(s, k), s.clock); }
    forall h | h in s'.threads ensures ThreadTime(s', s'.threads[h]) { assert ThreadTime(s, s.threads[h]); }
  }

  lemma TimeSpill(s: State, s': State, sid: Sid, n: nat)
    requires TimeOk(s) && Spill(s, s', sid, n)
    ensures TimeOk(s')
  {
    hide GoodHistory, RecordOk;
    assert forall k :: Finished(s', k) == Finished(s, k);
    forall h | h in s'.threads ensures ThreadTime(s', s'.threads[h]) { assert ThreadTime(s, s.threads[h]); }
  }

  // ---------- readers ----------

  /** The entries of the finished calls of a key. */
  function Entries(s: State, k: Key): seq<string> {
    Encoded(Records(Finished(s, k)))
  }

  /** So many whole entries have been read, and the rest of the file lies ahead. */
  predicate ReadSoFar(es: seq<string>, got: seq<string>, pos: nat) {
    && |got| <= |es| && got == es[..|got|]
    && pos <= |Frames(es)| && Frames(es)[pos..] == Frames(es[|got|..])
  }

  predicate Reading(s: State, th: Thread) {
    && (th.job.DecodeJob? && th.pc.ReadFrame? ==>
          && th.stream in s.open && s.open[th.stream].buffer == ""
          && ReadSoFar(Entries(s, th.job.key), th.got, th.pc.pos))
    && (th.job.DecodeJob? && th.pc.UnlockKey? ==> th.got == Entries(s, th.job.key))
    && (th.job.DecodeJob? && !th.pc.Idle? && !th.pc.ReadFrame? && !th.pc.UnlockKey? ==> th.got == [])
  }

  ghost predicate ReadersOk(s: State) {
    forall t :: t in s.threads ==> Reading(s, s.threads[t])
  }

  lemma ReadersInit(s: State)
    requires Init(s)
    ensures ReadersOk(s)
  {
  }

  lemma ReadingOf(s: State, t: Tid)
    requires ReadersOk(s) && t in s.threads
    ensures Reading(s, s.threads[t])
  {
  }

  /** While a decoder has the mutex of a key and the buffer is empty, the file is the whole log. */
  lemma FileIsLog(s: State, t: Tid)
    requires LocksOk(s) && StreamsOk(s) && LogsOk(s) && t in s.threads
    requires s.threads[t].job.DecodeJob? && s.threads[t].holding && Relies(s.threads[t].pc)
    ensures var th := s.threads[t];
            && th.stream in s.open
            && (s.open[th.stream].buffer == "" ==> Disk(s, th.job.key) == Frames(Entries(s, th.job.key)))
  {
    var th := s.threads[t];
    ThreadLocksOf(s, t);
    StreamOf(s, t);
    KeyLogOf(s, th.job.key);
    hide LocksOk, StreamsOk, LogsOk, Frames, Encoded;
    assert Writer(s, th.job.key) == None;
    assert LogBytes(Finished(s, th.job.key)) + "" == LogBytes(Finished(s, th.job.key));
    if s.open[th.stream].buffer == "" {
      assert Disk(s, th.job.key) + "" == Disk(s, th.job.key);
    }
  }

  lemma EntriesSized(s: State, k: Key)
    requires TimeOk(s)
    ensures Sized(Entries(s, k))
  {
    var es := Finished(s, k);
    assert GoodHistory(es, s.clock);
    hide EncodeEntry;
    forall i | 0 <= i < |es| ensures |Entries(s, k)[i]| < U64 {
      assert es[i] in es;
    }
  }

  /** One turn of the reading loop reads the next entry, or finds the end of the log. */
  lemma ReadNext(es: seq<string>, got: seq<string>, pos: nat)
    requires Sized(es) && ReadSoFar(es, got, pos)
    ensures var file := Frames(es);
            if pos + 8 > |file| then got == es
            else var size := LittleEndianValue(file[pos..pos + 8]);
                 ReadSoFar(es, got + [EntryAt(file, pos + 8, size)], pos + 8 + size)
  {
    hide LittleEndianValue, EntryAt, Frame;
    var file, n := Frames(es), |got|;
    if n == |es| {
      assert es[n..] == [] && es[..n] == es && |file[pos..]| == 0;
    } else {
      var rest := es[n..];
      assert rest[0] == es[n] && rest[1..] == es[n + 1..];
      FrameAt(file, pos, es[n], Frames(es[n + 1..]));
      assert got + [es[n]] == es[..n + 1];
    }
  }

  lemma FlushReads(s: State, t: Tid)
    requires LocksOk(s) && StreamsOk(s) && ReadersOk(s) && t in s.threads && s.threads[t].pc.Flush?
    ensures var s' := FlushStream(s, t, s.threads[t]); Reading(s', s'.threads[t])
  {
    var th := s.threads[t];
    var es := Entries(s, th.job.key);
    ThreadLocksOf(s, t);
    StreamOf(s, t);
    ReadingOf(s, t);
    hide LocksOk, StreamsOk, ReadersOk, Disk, Encoded, Records, Frames;
    assert es[..0] == [] && es[0..] == es && Frames(es)[0..] == Frames(es);
    var s' := FlushStream(s, t, th);
    assert Finished(s', th.job.key) == Finished(s, th.job.key);
    assert s'.open[th.stream].buffer == "";
  }

  lemma NextOfFile(s: State, t: Tid, pos: nat)
    requires LocksOk(s) && StreamsOk(s) && LogsOk(s) && TimeOk(s) && ReadersOk(s)
    requires t in s.threads && s.threads[t].pc == ReadFrame(pos)
    ensures var th := s.threads[t];
            var es, file := Entries(s, th.job.key), Disk(s, th.job.key);
            && th.job.DecodeJob? && th.stream in s.open && s.open[th.stream].buffer == ""
            && if pos + 8 > |file| then th.got == es
               else var size := LittleEndianValue(file[pos..pos + 8]);
                    ReadSoFar(es, th.got + [EntryAt(file, pos + 8, size)], pos + 8 + size)
  {
    hide LocksOk, StreamsOk, LogsOk, TimeOk, ReadersOk, Frames, LittleEndianValue, EntryAt, ReadSoFar, Sized, Entries,
         Disk;
    var th := s.threads[t];
    ThreadLocksOf(s, t);
    ReadingOf(s, t);
    FileIsLog(s, t);
    EntriesSized(s, th.job.key);
    ReadNext(Entries(s, th.job.key), th.got, pos);
  }

  lemma ReadReads(s: State, t: Tid, pos: nat)
    requires LocksOk(s) && StreamsOk(s) && LogsOk(s) && TimeOk(s) && ReadersOk(s)
    requires t in s.threads && s.threads[t].pc == ReadFrame(pos)
    ensures var s' := ReadEntry(s, t, s.threads[t], pos); t in s'.threads && Reading(s', s'.threads[t])
  {
    hide LocksOk, StreamsOk, LogsOk, TimeOk, ReadersOk, LittleEndianValue, EntryAt, ReadSoFar, Reading, Entries, Disk;
    var th := s.threads[t];
    NextOfFile(s, t, pos);
    var file := Disk(s, th.job.key);
    if pos + 8 > |file| {
      ReadingAt(s, t, th, UnlockKey);
    } else {
      var size := LittleEndianValue(file[pos..pos + 8]);
      ReadingAt(s, t, th.(got := th.got + [EntryAt(file, pos + 8, size)]), ReadFrame(pos + 8 + size));
    }
  }

  lemma ReadingAt(s: State, t: Tid, th: Thread, pc: PC)
    requires t in s.threads && th.job.DecodeJob?
    requires match pc
             case ReadFrame(pos) => th.stream in s.open && s.open[th.stream].buffer == ""
                                    && ReadSoFar(Entries(s, th.job.key), th.got, pos)
             case _ => pc.UnlockKey? && th.got == Entries(s, th.job.key)
    ensures Reading(At(s, t, th, pc), th.(pc := pc))
  {
    hide ReadSoFar, Records, Encoded;
    assert Finished(At(s, t, th, pc), th.job.key) == Finished(s, th.job.key);
  }

  lemma OwnReads(cfg: Config, s: State, t: Tid)
    requires LocksOk(s) && StreamsOk(s) && LogsOk(s) && TimeOk(s) && ReadersOk(s) && CanAdvance(s, t)
    ensures var s' := Advance(cfg, s, t); t in s'.threads && Reading(s', s'.threads[t])
  {
    var th := s.threads[t];
    AdvanceMoves(cfg, s, t);
    match th.pc {
      case Flush => FlushReads(s, t);
      case ReadFrame(pos) => ReadReads(s, t, pos);
      case _ =>
        ThreadLocksOf(s, t);
        ReadingOf(s, t);
        hide Advance, LocksOk, StreamsOk, LogsOk, TimeOk, ReadersOk, CanAdvance;
    }
  }

  lemma OtherReads(cfg: Config, s: State, t: Tid, h: Tid)
    requires LocksOk(s) && StreamsOk(s) && ReadersOk(s) && CanAdvance(s, t) && h in s.threads && h != t
    requires StreamsOk(Advance(cfg, s, t))
    ensures var s' := Advance(cfg, s, t); h in s'.threads && Reading(s', s'.threads[h])
  {
    var s', th := Advance(cfg, s, t), s.threads[h];
    AdvanceMoves(cfg, s, t);
    AdvanceHistory(cfg, s, t, th.job.key);
    ThreadLocksOf(s, h);
    ThreadLocksOf(s, t);
    ReadingOf(s, h);
    StreamOf(s, h);
    StreamOf(s, t);
    StreamOf(s', h);
    hide Advance, LocksOk, StreamsOk, ReadersOk, CanAdvance, Finished, ReadSoFar;
  }

  lemma ReadersStep(cfg: Config, s: State, t: Tid)
    requires LocksOk(s) && StreamsOk(s) && LogsOk(s) && TimeOk(s) && ReadersOk(s) && CanAdvance(s, t)
    requires StreamsOk(Advance(cfg, s, t))
    ensures ReadersOk(Advance(cfg, s, t))
  {
    var s' := Advance(cfg, s, t);
    AdvanceMoves(cfg, s, t);
    hide Advance, LocksOk, StreamsOk, LogsOk, TimeOk, CanAdvance, Reading;
    forall h | h in s'.threads ensures Reading(s', s'.threads[h]) {
      if h == t { OwnReads(cfg, s, t); } else { OtherReads(cfg, s, t, h); }
    }
  }

  /** Steps that move no thread and write to no buffer. */
  lemma ReadersSame(s: State, s': State)
    requires ReadersOk(s) && s'.threads == s.threads && s'.finished == s.finished
    requires forall i :: i in s.open && s.open[i].buffer == "" ==> i in s'.open && s'.open[i].buffer == ""
    ensures ReadersOk(s')
  {
    hide ReadSoFar, Records, Encoded;
    forall h | h in s'.threads ensures Reading(s', s'.threads[h]) {
      ReadingOf(s, h);
      assert Finished(s', s.threads[h].job.key) == Finished(s, s.threads[h].job.key);
    }
  }

  lemma ReadersBegin(cfg: Config, s: State, t: Tid, job: Job)
    requires ReadersOk(s) && MayBegin(cfg, s, t, job)
    ensures ReadersOk(Begin(s, t, job))
  {
    hide ReadSoFar, Records, Encoded;
    var s' := Begin(s, t, job);
    forall h | h in s'.threads ensures Reading(s', s'.threads[h]) {
      if h != t {
        ReadingOf(s, h);
        assert Finished(s', s.threads[h].job.key) == Finished(s, s.threads[h].job.key);
      }
    }
  }
}
