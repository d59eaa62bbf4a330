/**
 Which stream a thread works on. A thread fetches its stream before it gets the mutex of
 its key, so the stream may be evicted in between; from the recheck on it is the open one.
 */
module LoggerStreams {
  import opened Text
  import opened LogCodec
  import opened LoggerProtocol
  import opened LoggerLocks
  import opened LoggerCache

  /** The statements at which the thread relies on its stream. */
  predicate Relies(pc: PC) {
    pc.Stamp? || pc.WriteSize? || pc.WriteBody? || pc.Flush? || pc.ReadFrame? || pc.UnlockKey?
  }

  /** The stream is open and is the one the map holds for the key. */
  predicate HasStream(c: Cache, k: Key, sid: Sid) {
    k in c.streams && c.streams[k] == sid && sid in c.open && c.open[sid].key == k
  }

  predicate StreamOk(c: Cache, th: Thread) {
    && th.stream < c.next
    && (th.job.LogJob? && (th.pc.WantKey? || th.pc.Recheck?) && th.stream in c.open ==>
          c.open[th.stream].key == th.job.key)
    && (Relies(th.pc) ==> HasStream(c, th.job.key, th.stream))
  }

  ghost predicate StreamsOk(s: State) {
    forall t :: t in s.threads ==> StreamOk(CacheOf(s), s.threads[t])
  }

  lemma StreamsInit(s: State)
    requires Init(s)
    ensures StreamsOk(s)
  {
  }

  /** What another thread's statement must leave alone. */
  predicate Undisturbed(c: Cache, c': Cache, th: Thread) {
    && c.next <= c'.next
    && (th.stream in c'.open ==> th.stream in c.open && c'.open[th.stream].key == c.open[th.stream].key)
    && (Relies(th.pc) && HasStream(c, th.job.key, th.stream) ==> HasStream(c', th.job.key, th.stream))
  }

  lemma StreamsAt(s: State, r: State, t: Tid, th: Thread, pc: PC)
    requires StreamsOk(s) && t in s.threads && r.threads == s.threads
    requires forall h :: h in s.threads && h != t ==> Undisturbed(CacheOf(s), CacheOf(r), s.threads[h])
    requires StreamOk(CacheOf(r), th.(pc := pc))
    ensures StreamsOk(At(r, t, th, pc))
  {
    var s' := At(r, t, th, pc);
    assert CacheOf(s') == CacheOf(r);
    forall h | h in s'.threads ensures StreamOk(CacheOf(s'), s'.threads[h]) {
      if h != t {
        assert Undisturbed(CacheOf(s), CacheOf(r), s.threads[h]) && StreamOk(CacheOf(s), s.threads[h]);
      }
    }
  }

  /** Statements that change no stream but for its buffer. */
  lemma StreamsSteady(s: State, r: State, t: Tid, th: Thread, pc: PC)
    requires StreamsOk(s) && t in s.threads && r.threads == s.threads
    requires r.streams == s.streams && r.next == s.next
    requires r.open.Keys == s.open.Keys && forall i :: i in s.open ==> r.open[i].key == s.open[i].key
    requires StreamOk(CacheOf(s), th.(pc := pc))
    ensures StreamsOk(At(r, t, th, pc))
  {
    forall h | h in s.threads && h != t ensures Undisturbed(CacheOf(s), CacheOf(r), s.threads[h]) { }
    StreamsAt(s, r, t, th, pc);
  }

  /** The victim of an eviction is never the key of another thread that holds its mutex. */
  lemma VictimIsFree(s: State, t: Tid, h: Tid, v: Key)
    requires LocksOk(s) && t in s.threads && h in s.threads && h != t
    requires Victim(s, s.threads[t]) == Some(v) && s.threads[h].holding
    ensures s.threads[h].job.key != v
  {
    assert ThreadLocks(s, t) && ThreadLocks(s, h);
  }

  lemma CloseStreams(s: State, t: Tid)
    requires LocksOk(s) && CacheOk(s) && StreamsOk(s)
    requires t in s.threads && s.mgmt == Some(t) && s.threads[t].pc.CloseStream?
    ensures StreamsOk(CloseVictim(s, t, s.threads[t], s.threads[t].pc.i))
  {
    var th, i, c := s.threads[t], s.threads[t].pc.i, CacheOf(s);
    FitsClose(c, i, th.job.key);
    var v := s.used[i];
    var r := Closed(s, s.streams[v]);
    ClosedCache(s, s.streams[v]);
    VictimStream(c, CloseStream(i), th.job.key, v);
    assert StreamOk(c, th);
    hide CacheOk, Fits, Closed;
    forall h | h in s.threads && h != t ensures Undisturbed(c, CacheOf(r), s.threads[h]) {
      if Relies(s.threads[h].pc) {
        assert ThreadLocks(s, h);
        VictimIsFree(s, t, h, v);
      }
    }
    StreamsAt(s, r, t, th, EraseList(i));
  }

  lemma VictimStream(c: Cache, pc: PC, own: Key, v: Key)
    requires Fits(c, pc, own) && v in c.streams && c.streams[v] in c.open
    ensures c.open[c.streams[v]].key == v
  {
  }

  lemma UnmapStreams(s: State, t: Tid)
    requires LocksOk(s) && CacheOk(s) && StreamsOk(s)
    requires t in s.threads && s.mgmt == Some(t) && s.threads[t].pc.EraseMap?
    ensures StreamsOk(UnmapVictim(s, t, s.threads[t], s.threads[t].pc.victim))
  {
    var th, v, c := s.threads[t], s.threads[t].pc.victim, CacheOf(s);
    var r := s.(streams := s.streams - {v});
    hide CacheOk;
    assert StreamOk(c, th);
    forall h | h in s.threads && h != t ensures Undisturbed(c, CacheOf(r), s.threads[h]) {
      if Relies(s.threads[h].pc) {
        assert ThreadLocks(s, h);
        VictimIsFree(s, t, h, v);
      }
    }
    StreamsAt(s, r, t, th, UnlockVictim(v));
  }

  lemma OpenStreams(s: State, t: Tid)
    requires LocksOk(s) && CacheOk(s) && StreamsOk(s)
    requires t in s.threads && s.mgmt == Some(t) && s.threads[t].pc.OpenFile?
    ensures StreamsOk(OpenStream(s, t, s.threads[t]))
  {
    var th, c := s.threads[t], CacheOf(s);
    var r := OpenStream(s, t, th).(threads := s.threads);
    assert th.job.key !in s.streams;
    assert StreamOk(c, th);
    forall h | h in s.threads && h != t ensures Undisturbed(c, CacheOf(r), s.threads[h]) {
      assert StreamOk(c, s.threads[h]);
    }
    StreamsAt(s, r, t, th, ReturnStream);
  }

  /** The stream returned by the fetch is the open one of the key. */
  lemma TakeStreams(s: State, t: Tid)
    requires LocksOk(s) && CacheOk(s) && StreamsOk(s)
    requires t in s.threads && s.mgmt == Some(t) && s.threads[t].pc.ReturnStream?
    ensures StreamsOk(TakeStream(s, t, s.threads[t]))
  {
    var th := s.threads[t];
    var k := th.job.key;
    assert k in s.streams;
    VictimStream(CacheOf(s), ReturnStream, k, k);
    assert HasStream(CacheOf(s), k, s.streams[k]);
    hide CacheOk;
    StreamsSteady(s, s.(mgmt := None), t, th.(stream := s.streams[k]),
                  if th.job.DecodeJob? then Flush else if th.holding then Stamp else WantKey);
  }

  /** A stream that is still open after the key's mutex was taken is the one of the key. */
  lemma RecheckStreams(s: State, t: Tid)
    requires CacheOk(s) && StreamsOk(s) && t in s.threads
    requires s.threads[t].pc.Recheck? && s.threads[t].job.LogJob?
    ensures StreamsOk(At(s, t, s.threads[t], if s.threads[t].stream in s.open then Stamp else WantMgmt))
  {
    var th := s.threads[t];
    assert StreamOk(CacheOf(s), th);
    if th.stream in s.open {
      assert HasStream(CacheOf(s), th.job.key, th.stream);
    }
    hide CacheOk;
    StreamsSteady(s, s, t, th, if th.stream in s.open then Stamp else WantMgmt);
  }

  /** Statements under the management mutex that leave the map and the streams alone. */
  lemma StreamsHere(s: State, r: State, t: Tid, pc: PC)
    requires StreamsOk(s) && t in s.threads && r.threads == s.threads
    requires r.streams == s.streams && r.next == s.next && r.open == s.open
    requires !Relies(pc) && !pc.WantKey? && !pc.Recheck?
    ensures StreamsOk(At(r, t, s.threads[t], pc))
  {
    StreamOf(s, t);
    StreamsSteady(s, r, t, s.threads[t], pc);
  }

  lemma LookupStreams(cfg: Config, s: State, t: Tid)
    requires StreamsOk(s) && t in s.threads && s.threads[t].pc.Lookup?
    ensures StreamsOk(LookupKey(cfg, s, t, s.threads[t]))
  {
    hide StreamsOk, At;
    StreamsHere(s, s, t, ReturnStream);
    StreamsHere(s, s.(seen := map[]), t, Scan(0));
    StreamsHere(s, s, t, PushKey);
  }

  lemma TryStreams(s: State, t: Tid, i: nat)
    requires StreamsOk(s) && t in s.threads && s.threads[t].pc == Scan(i)
    ensures StreamsOk(TryVictim(s, t, s.threads[t], i))
  {
    hide StreamsOk, At, Seen;
    if i >= |s.used| {
      StreamsHere(s, s, t, PushKey);
    } else if s.used[i] in s.mutex {
      var h := s.mutex[s.used[i]];
      StreamsHere(s, s.(seen := s.seen[h := Seen(s, h) + {s.used[i]}]), t, Scan(i + 1));
    } else {
      StreamsHere(s, s.(mutex := s.mutex[s.used[i] := t]), t, CloseStream(i));
    }
  }

  /** The other statements under the management mutex. */
  lemma MgmtStreams(cfg: Config, s: State, t: Tid)
    requires StreamsOk(s) && CanAdvance(s, t)
    requires var pc := s.threads[t].pc; pc.WantMgmt? || pc.EraseList? || pc.UnlockVictim? || pc.PushKey?
    ensures StreamsOk(Advance(cfg, s, t))
  {
    hide StreamsOk, At;
    match s.threads[t].pc {
      case WantMgmt => StreamsHere(s, s.(mgmt := Some(t)), t, Lookup);
      case EraseList(i) => StreamsHere(s, s.(used := s.used[..i] + s.used[i + 1..]), t, EraseMap(s.used[i]));
      case UnlockVictim(v) => StreamsHere(s, s.(mutex := s.mutex - {v}), t, PushKey);
      case PushKey => StreamsHere(s, s.(used := s.used + [s.threads[t].job.key]), t, OpenFile);
    }
  }

  lemma StreamOf(s: State, t: Tid)
    requires StreamsOk(s) && t in s.threads
    ensures StreamOk(CacheOf(s), s.threads[t])
  {
  }

  lemma LockStreams(s: State, t: Tid)
    requires StreamsOk(s) && t in s.threads && s.threads[t].pc.WantKey?
    ensures StreamsOk(LockKey(s, t, s.threads[t]))
  {
    hide Acquired;
    var th, r := s.threads[t], LockKey(s, t, s.threads[t]);
    StreamOf(s, t);
    StreamsSteady(s, r.(threads := s.threads), t, th.(holding := true), r.threads[t].pc);
    assert r == At(r.(threads := s.threads), t, th.(holding := true), r.threads[t].pc);
  }

  lemma LeaveStreams(s: State, t: Tid)
    requires StreamsOk(s) && t in s.threads && s.threads[t].pc.UnlockKey?
    ensures StreamsOk(Leave(s, t, s.threads[t]))
  {
    hide Finished;
    var th, r := s.threads[t], Leave(s, t, s.threads[t]);
    StreamOf(s, t);
    StreamsSteady(s, r.(threads := s.threads), t, th.(holding := false), Idle);
    assert r == At(r.(threads := s.threads), t, th.(holding := false), Idle);
  }

  lemma WriteStreams(s: State, t: Tid, bytes: string, pc: PC)
    requires StreamsOk(s) && t in s.threads && Relies(s.threads[t].pc) && Relies(pc)
    ensures StreamsOk(At(WrittenTo(s, s.threads[t].stream, bytes), t, s.threads[t], pc))
  {
    StreamOf(s, t);
    StreamsSteady(s, WrittenTo(s, s.threads[t].stream, bytes), t, s.threads[t], pc);
  }

  lemma FlushStreams(s: State, t: Tid)
    requires StreamsOk(s) && t in s.threads && s.threads[t].pc.Flush?
    ensures StreamsOk(FlushStream(s, t, s.threads[t]))
  {
    hide Disk;
    var th := s.threads[t];
    StreamOf(s, t);
    StreamsSteady(s, Drained(s, th.stream, |s.open[th.stream].buffer|), t, th, ReadFrame(0));
  }

  lemma ReadStreams(s: State, t: Tid, pos: nat)
    requires StreamsOk(s) && t in s.threads && s.threads[t].pc == ReadFrame(pos)
    ensures StreamsOk(ReadEntry(s, t, s.threads[t], pos))
  {
    hide LittleEndianValue, EntryAt, Disk, StreamsOk;
    var th, file := s.threads[t], Disk(s, s.threads[t].job.key);
    StreamOf(s, t);
    if pos + 8 > |file| {
      StreamsSteady(s, s, t, th, UnlockKey);
    } else {
      var size := LittleEndianValue(file[pos..pos + 8]);
      StreamsSteady(s, s, t, th.(got := th.got + [EntryAt(file, pos + 8, size)]), ReadFrame(pos + 8 + size));
    }
  }

  lemma EncodeStreams(s: State, t: Tid)
    requires StreamsOk(s) && t in s.threads && s.threads[t].pc.Stamp? && s.threads[t].job.LogJob?
    ensures StreamsOk(EncodeNow(s, t, s.threads[t]))
  {
    var th := s.threads[t];
    StreamOf(s, t);
    StreamsSteady(s, s, t, th.(record := LogRecord(s.clock, th.job.call)), WriteSize);
  }

  lemma StreamsStep(cfg: Config, s: State, t: Tid)
    requires LocksOk(s) && CacheOk(s) && StreamsOk(s) && CanAdvance(s, t)
    ensures StreamsOk(Advance(cfg, s, t))
  {
    hide LocksOk, CacheOk, StreamsOk, LookupKey, TryVictim, CloseVictim, UnlistVictim, UnmapVictim, CanAdvance,
         ReleaseVictim, ListKey, OpenStream, TakeStream, LockKey, EncodeNow, FlushStream, ReadEntry, Leave,
         EncodeEntry, LittleEndian, WrittenTo;
    Inside(s, t);
    ThreadLocksOf(s, t);
    var th := s.threads[t];
    match th.pc {
      case Lookup => LookupStreams(cfg, s, t);
      case Scan(i) => TryStreams(s, t, i);
      case CloseStream(_) => CloseStreams(s, t);
      case EraseMap(_) => UnmapStreams(s, t);
      case OpenFile => OpenStreams(s, t);
      case ReturnStream => TakeStreams(s, t);
      case WantKey => LockStreams(s, t);
      case Recheck => RecheckStreams(s, t);
      case Stamp => EncodeStreams(s, t);
      case WriteSize => WriteStreams(s, t, LittleEndian(|EncodeEntry(th.record)|, 8), WriteBody);
      case WriteBody => WriteStreams(s, t, EncodeEntry(th.record), UnlockKey);
      case Flush => FlushStreams(s, t);
      case ReadFrame(pos) => ReadStreams(s, t, pos);
      case UnlockKey => LeaveStreams(s, t);
      case _ => MgmtStreams(cfg, s, t);
    }
  }

  lemma StreamsBegin(cfg: Config, s: State, t: Tid, job: Job)
    requires StreamsOk(s) && MayBegin(cfg, s, t, job)
    ensures StreamsOk(Begin(s, t, job))
  {
    StreamOf(s, t);
    StreamsSteady(s, s, t, s.threads[t].(job := job, got := []), if job.LogJob? then WantMgmt else WantKey);
  }
}
