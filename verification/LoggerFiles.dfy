/**
 What the log of a key contains: whole frames of the finished calls, in the order in which
 they got the mutex of the key, and of a call in progress what it has written so far;
 through evictions, reopenings and partial flushes.
 */
module LoggerFiles {
  import opened Text
  import opened Numbers
  import opened LogCodec
  import opened LoggerProtocol
  import opened LoggerLocks
  import opened LoggerCache
  import opened LoggerStreams

  /** Open streams and mapped keys point at each other. */
  ghost predicate Wired(c: Cache) {
    && (forall i :: i in c.open ==> i < c.next && c.open[i].key in c.streams && c.streams[c.open[i].key] == i)
    && (forall k :: k in c.streams ==> c.streams[k] < c.next)
    && (forall k :: k in c.streams && c.streams[k] in c.open ==> c.open[c.streams[k]].key == k)
  }

  lemma FitsWired(c: Cache, pc: PC, own: Key)
    requires Fits(c, pc, own)
    ensures Wired(c)
  {
  }

  // ---------- the content of a log under each operation ----------

  lemma DrainContent(s: State, sid: Sid, n: nat, k: Key)
    requires Wired(CacheOf(s)) && sid in s.open && n <= |s.open[sid].buffer|
    ensures Content(Drained(s, sid, n), k) == Content(s, k)
  {
    var st, r := s.open[sid], Drained(s, sid, n);
    if k == st.key {
      assert s.streams[k] == sid && Disk(r, k) == Disk(s, k) + st.buffer[..n];
      assert st.buffer[..n] + st.buffer[n..] == st.buffer;
      assert Disk(s, k) + st.buffer[..n] + st.buffer[n..] == Disk(s, k) + (st.buffer[..n] + st.buffer[n..]);
    } else {
      assert Disk(r, k) == Disk(s, k);
    }
  }

  lemma CloseContent(s: State, sid: Sid, k: Key)
    requires Wired(CacheOf(s)) && sid in s.open
    ensures Content(Closed(s, sid), k) == Content(s, k)
  {
    var st, r := s.open[sid], Closed(s, sid);
    if k == st.key {
      assert s.streams[k] == sid && st.buffer[..|st.buffer|] == st.buffer;
      assert Disk(r, k) == Disk(s, k) + st.buffer;
    } else {
      assert Disk(r, k) == Disk(s, k);
    }
  }

  lemma WriteContent(s: State, sid: Sid, bytes: string, k: Key)
    requires Wired(CacheOf(s)) && sid in s.open
    ensures Content(WrittenTo(s, sid, bytes), k) == Content(s, k) + (if k == s.open[sid].key then bytes else "")
  {
    var st := s.open[sid];
    if k == st.key {
      assert Disk(s, k) + (st.buffer + bytes) == Disk(s, k) + st.buffer + bytes;
    } else {
      assert Content(s, k) + "" == Content(s, k);
    }
  }

  lemma UnmapContent(s: State, v: Key, k: Key)
    requires v in s.streams && s.streams[v] !in s.open
    ensures Content(s.(streams := s.streams - {v}), k) == Content(s, k)
  {
  }

  lemma OpenContent(s: State, t: Tid, k: Key)
    requires Wired(CacheOf(s)) && t in s.threads && s.threads[t].job.key !in s.streams
    ensures Content(OpenStream(s, t, s.threads[t]), k) == Content(s, k)
  {
    assert s.next !in s.open;
  }

  // ---------- the invariant ----------

  /** The thread that is logging to the key, from the lock on its mutex to the unlock. */
  function Writer(s: State, k: Key): Option<Tid> {
    if k in s.mutex && s.mutex[k] in s.threads && IsWriter(s.threads[s.mutex[k]], k) then Some(s.mutex[k]) else None
  }

  predicate IsWriter(th: Thread, k: Key) {
    th.holding && th.job.LogJob? && th.job.key == k
  }

  /** What the call in progress has written of its frame. */
  function Partial(th: Thread): string {
    if th.pc.WriteBody? then LittleEndian(|EncodeEntry(th.record)|, 8)
    else if th.pc.UnlockKey? then Frame(EncodeEntry(th.record))
    else ""
  }

  function InProgress(s: State, k: Key): string {
    if Writer(s, k).Some? then Partial(s.threads[Writer(s, k).value]) else ""
  }

  function CallInProgress(s: State, k: Key): seq<(Tid, LogCall)> {
    if Writer(s, k).Some? then [(Writer(s, k).value, s.threads[Writer(s, k).value].job.call)] else []
  }

  ghost predicate KeyLog(s: State, k: Key) {
    && Content(s, k) == LogBytes(Finished(s, k)) + InProgress(s, k)
    && Acquired(s, k) == Calls(Finished(s, k)) + CallInProgress(s, k)
  }

  ghost predicate LogsOk(s: State) {
    forall k :: KeyLog(s, k)
  }

  lemma LogsInit(s: State)
    requires Init(s)
    ensures LogsOk(s)
  {
    forall k ensures KeyLog(s, k) {
      assert LogBytes(Finished(s, k)) + "" == LogBytes(Finished(s, k));
      assert Calls(Finished(s, k)) + [] == Calls(Finished(s, k));
    }
  }

  lemma KeyLogOf(s: State, k: Key)
    requires LogsOk(s)
    ensures KeyLog(s, k)
  {
  }

  /** Nothing that concerns the key has changed. */
  predicate SameLog(s: State, s': State, k: Key) {
    && Content(s', k) == Content(s, k) && Finished(s', k) == Finished(s, k) && Acquired(s', k) == Acquired(s, k)
    && InProgress(s', k) == InProgress(s, k) && CallInProgress(s', k) == CallInProgress(s, k)
  }

  lemma LogsSame(s: State, s': State)
    requires LogsOk(s) && forall k :: SameLog(s, s', k)
    ensures LogsOk(s')
  {
    hide LogBytes, Calls, Content, Finished, Acquired, InProgress, CallInProgress;
    forall k ensures KeyLog(s', k) {
      KeyLogOf(s, k);
      assert SameLog(s, s', k);
    }
  }

  /** A statement that keeps mutexes and histories, and leaves every content as it was. */
  lemma LogsAt(s: State, r: State, t: Tid, th: Thread, pc: PC)
    requires LogsOk(s) && t in s.threads && r.threads == s.threads
    requires r.mutex == s.mutex && r.finished == s.finished && r.acquired == s.acquired
    requires forall k :: Content(r, k) == Content(s, k)
    requires th.holding == s.threads[t].holding
    requires th.holding && th.job.LogJob? ==> Partial(th.(pc := pc)) == Partial(s.threads[t])
    requires th.holding ==> th.job == s.threads[t].job
    ensures LogsOk(At(r, t, th, pc))
  {
    hide Partial, LogsOk;
    var s' := At(r, t, th, pc);
    forall k ensures SameLog(s, s', k) {
      assert Content(s', k) == Content(r, k);
      assert Writer(s', k) == Writer(s, k);
    }
    LogsSame(s, s');
  }

  /** The same when only the streams' bookkeeping is untouched. */
  lemma LogsQuiet(s: State, r: State, t: Tid, th: Thread, pc: PC)
    requires LogsOk(s) && t in s.threads && r.threads == s.threads
    requires r.mutex == s.mutex && r.finished == s.finished && r.acquired == s.acquired
    requires r.streams == s.streams && r.open == s.open && r.disk == s.disk
    requires th.holding == s.threads[t].holding && (th.holding ==> th.job == s.threads[t].job)
    requires th.holding && th.job.LogJob? ==> Partial(th.(pc := pc)) == Partial(s.threads[t])
    ensures LogsOk(At(r, t, th, pc))
  {
    hide Partial, LogsOk;
    forall k ensures Content(r, k) == Content(s, k) { }
    LogsAt(s, r, t, th, pc);
  }

  /** Locking or unlocking a victim: the evicting thread never writes to its log. */
  lemma LogsVictim(s: State, r: State, t: Tid, v: Key, pc: PC)
    requires LogsOk(s) && t in s.threads
    requires r == s.(mutex := r.mutex) && (r.mutex == s.mutex[v := t] || r.mutex == s.mutex - {v})
    requires v in s.mutex ==> s.mutex[v] == t
    requires s.threads[t].holding ==> s.threads[t].job.key != v
    requires Partial(s.threads[t].(pc := pc)) == Partial(s.threads[t])
    ensures LogsOk(At(r, t, s.threads[t], pc))
  {
    hide Partial, LogsOk;
    var s' := At(r, t, s.threads[t], pc);
    forall k ensures SameLog(s, s', k) {
      assert Content(s', k) == Content(s, k);
      assert Writer(s', k) == Writer(s, k);
    }
    LogsSame(s, s');
  }

  // ---------- the statements ----------

  lemma CloseLogs(s: State, t: Tid)
    requires CacheOk(s) && LogsOk(s) && t in s.threads && s.mgmt == Some(t) && s.threads[t].pc.CloseStream?
    ensures LogsOk(CloseVictim(s, t, s.threads[t], s.threads[t].pc.i))
  {
    var th, i := s.threads[t], s.threads[t].pc.i;
    FitsClose(CacheOf(s), i, th.job.key);
    FitsWired(CacheOf(s), MgmtPC(s), MgmtKey(s));
    hide CacheOk, LogsOk, Wired;
    var r := Closed(s, s.streams[s.used[i]]);
    forall k ensures Content(r, k) == Content(s, k) { CloseContent(s, s.streams[s.used[i]], k); }
    LogsAt(s, r, t, th, EraseList(i));
  }

  lemma UnmapLogs(s: State, t: Tid)
    requires CacheOk(s) && LogsOk(s) && t in s.threads && s.mgmt == Some(t) && s.threads[t].pc.EraseMap?
    ensures LogsOk(UnmapVictim(s, t, s.threads[t], s.threads[t].pc.victim))
  {
    var th, v := s.threads[t], s.threads[t].pc.victim;
    assert v in s.streams && s.streams[v] !in s.open;
    hide CacheOk, LogsOk;
    var r := s.(streams := s.streams - {v});
    forall k ensures Content(r, k) == Content(s, k) { UnmapContent(s, v, k); }
    LogsAt(s, r, t, th, UnlockVictim(v));
  }

  lemma OpenLogs(s: State, t: Tid)
    requires CacheOk(s) && LogsOk(s) && t in s.threads && s.mgmt == Some(t) && s.threads[t].pc.OpenFile?
    ensures LogsOk(OpenStream(s, t, s.threads[t]))
  {
    var th := s.threads[t];
    assert th.job.key !in s.streams;
    FitsWired(CacheOf(s), MgmtPC(s), MgmtKey(s));
    hide CacheOk, LogsOk, Wired;
    var r := OpenStream(s, t, th).(threads := s.threads);
    forall k ensures Content(r, k) == Content(s, k) {
      OpenContent(s, t, k);
      assert Content(r, k) == Content(OpenStream(s, t, th), k);
    }
    LogsAt(s, r, t, th, ReturnStream);
  }

  lemma FlushLogs(s: State, t: Tid)
    requires CacheOk(s) && LogsOk(s) && t in s.threads && s.threads[t].pc.Flush? && s.threads[t].job.DecodeJob?
    ensures LogsOk(FlushStream(s, t, s.threads[t]))
  {
    var th := s.threads[t];
    FitsWired(CacheOf(s), MgmtPC(s), MgmtKey(s));
    hide CacheOk, LogsOk, Wired;
    if th.stream in s.open {
      var n := |s.open[th.stream].buffer|;
      var r := Drained(s, th.stream, n);
      forall k ensures Content(r, k) == Content(s, k) { DrainContent(s, th.stream, n, k); }
      LogsAt(s, r, t, th, ReadFrame(0));
    } else {
      LogsQuiet(s, s, t, th, UnlockKey);
    }
  }

  lemma SpillLogs(s: State, s': State, sid: Sid, n: nat)
    requires CacheOk(s) && LogsOk(s) && Spill(s, s', sid, n)
    ensures LogsOk(s')
  {
    FitsWired(CacheOf(s), MgmtPC(s), MgmtKey(s));
    hide CacheOk, LogsOk, Wired, Content, Writer, Partial;
    SpillKeeps(s, s', sid, n);
    forall k ensures SameLog(s, s', k) {
      hide InProgress, CallInProgress, Spill, Drained;
      DrainContent(s, sid, n, k);
      SameWriter(s, s', k);
    }
    hide SameLog;
    LogsSame(s, s');
  }

  lemma SpillKeeps(s: State, s': State, sid: Sid, n: nat)
    requires Spill(s, s', sid, n)
    ensures sid in s.open && n <= |s.open[sid].buffer| && s' == Drained(s, sid, n)
    ensures s'.threads == s.threads && s'.mutex == s.mutex
    ensures s'.finished == s.finished && s'.acquired == s.acquired
  {
  }

  lemma SameWriter(s: State, s': State, k: Key)
    requires s'.threads == s.threads && s'.mutex == s.mutex
    ensures InProgress(s', k) == InProgress(s, k) && CallInProgress(s', k) == CallInProgress(s, k)
  {
  }

  /** A thread at a writing statement is the writer of its key. */
  lemma ThisWriter(s: State, t: Tid)
    requires LocksOk(s) && t in s.threads && s.threads[t].holding && s.threads[t].job.LogJob?
    ensures Writer(s, s.threads[t].job.key) == Some(t)
    ensures forall k :: k != s.threads[t].job.key ==> Writer(s, k) != Some(t)
  {
    assert ThreadLocks(s, t);
  }

  /** The log of another key is not concerned by what the thread does under its own. */
  lemma OtherWriter(s: State, s': State, t: Tid, k: Key)
    requires t in s.threads && t in s'.threads && Writer(s, k) != Some(t) && Writer(s', k) != Some(t)
    requires s'.threads == s.threads[t := s'.threads[t]]
    requires k in s'.mutex <==> k in s.mutex
    requires k in s.mutex ==> s'.mutex[k] == s.mutex[k]
    ensures InProgress(s', k) == InProgress(s, k) && CallInProgress(s', k) == CallInProgress(s, k)
  {
    hide Partial;
    assert Writer(s', k) == Writer(s, k);
  }

  /** Writing bytes extends the content of the thread's own log, and of no other. */
  lemma WriteLogs(s: State, t: Tid, bytes: string, pc: PC)
    requires LocksOk(s) && CacheOk(s) && StreamsOk(s) && LogsOk(s)
    requires t in s.threads && Relies(s.threads[t].pc) && s.threads[t].holding && s.threads[t].job.LogJob?
    requires Partial(s.threads[t].(pc := pc)) == Partial(s.threads[t]) + bytes
    ensures LogsOk(At(WrittenTo(s, s.threads[t].stream, bytes), t, s.threads[t], pc))
  {
    var th := s.threads[t];
    var r := WrittenTo(s, th.stream, bytes);
    var s' := At(r, t, th, pc);
    StreamOf(s, t);
    FitsWired(CacheOf(s), MgmtPC(s), MgmtKey(s));
    ThisWriter(s, t);
    hide CacheOk, LogsOk, Wired, LocksOk, StreamsOk, Partial, LogBytes, Calls, WrittenTo, Content;
    forall k ensures KeyLog(s', k) {
      KeyLogOf(s, k);
      WriteContent(s, th.stream, bytes, k);
      Placed(s, t, bytes, pc, k);
      if k == th.job.key {
        OwnLonger(LogBytes(Finished(s, k)), Partial(th), bytes);
      } else {
        OtherWriter(s, s', t, k);
        OwnLonger(Content(s, k), "", "");
      }
    }
  }

  lemma OwnLonger(done: string, part: string, bytes: string)
    ensures done + part + bytes == done + (part + bytes) && done + "" == done
  {
  }

  /** Moving the thread changes nothing else of what concerns a log. */
  lemma Placed(s: State, t: Tid, bytes: string, pc: PC, k: Key)
    requires t in s.threads
    ensures var r := WrittenTo(s, s.threads[t].stream, bytes);
            var s' := At(r, t, s.threads[t], pc);
            && Content(s', k) == Content(r, k) && Finished(s', k) == Finished(s, k) && Acquired(s', k) == Acquired(s, k)
            && Writer(s', k) == Writer(s, k) && s'.mutex == s.mutex
            && s'.threads == s.threads[t := s.threads[t].(pc := pc)]
  {
    var r := WrittenTo(s, s.threads[t].stream, bytes);
    assert r.mutex == s.mutex && r.threads == s.threads && r.finished == s.finished && r.acquired == s.acquired;
    hide WrittenTo;
    ContentOf(r, At(r, t, s.threads[t], pc), k);
    hide Content;
  }

  lemma HeaderLogs(s: State, t: Tid)
    requires LocksOk(s) && CacheOk(s) && StreamsOk(s) && LogsOk(s)
    requires t in s.threads && s.threads[t].pc.WriteSize? && s.threads[t].holding && s.threads[t].job.LogJob?
    ensures LogsOk(WriteHeader(s, t, s.threads[t]))
  {
    hide LittleEndian, EncodeEntry;
    var th := s.threads[t];
    var size := LittleEndian(|EncodeEntry(th.record)|, 8);
    assert "" + size == size;
    WriteLogs(s, t, size, WriteBody);
  }

  lemma EntryLogs(s: State, t: Tid)
    requires LocksOk(s) && CacheOk(s) && StreamsOk(s) && LogsOk(s)
    requires t in s.threads && s.threads[t].pc.WriteBody? && s.threads[t].holding && s.threads[t].job.LogJob?
    ensures LogsOk(WriteEntry(s, t, s.threads[t]))
  {
    hide LittleEndian, EncodeEntry;
    WriteLogs(s, t, EncodeEntry(s.threads[t].record), UnlockKey);
  }

  /** Getting the mutex of a key makes the thread the last of the acquirers. */
  lemma LockLogs(s: State, t: Tid)
    requires LogsOk(s) && t in s.threads && s.threads[t].pc.WantKey? && s.threads[t].job.key !in s.mutex
    requires !s.threads[t].holding
    ensures LogsOk(LockKey(s, t, s.threads[t]))
  {
    hide LockKey, KeyLog;
    forall k ensures KeyLog(LockKey(s, t, s.threads[t]), k) {
      if k == s.threads[t].job.key {
        LockOwnLog(s, t);
      } else {
        LockOtherLog(s, t, k);
      }
    }
  }

  lemma LockOtherLog(s: State, t: Tid, k: Key)
    requires t in s.threads && s.threads[t].pc.WantKey? && !s.threads[t].holding && s.threads[t].job.key != k
    requires KeyLog(s, k)
    ensures KeyLog(LockKey(s, t, s.threads[t]), k)
  {
    hide LogBytes, Calls, Content, InProgress, CallInProgress;
    var s' := LockKey(s, t, s.threads[t]);
    ContentOf(s, s', k);
    assert Acquired(s', k) == Acquired(s, k) && Finished(s', k) == Finished(s, k);
    OtherWriter(s, s', t, k);
  }

  lemma LockOwnLog(s: State, t: Tid)
    requires t in s.threads && s.threads[t].pc.WantKey? && s.threads[t].job.key !in s.mutex
    requires KeyLog(s, s.threads[t].job.key)
    ensures KeyLog(LockKey(s, t, s.threads[t]), s.threads[t].job.key)
  {
    hide LogBytes, Calls, Content;
    var th, s', k := s.threads[t], LockKey(s, t, s.threads[t]), s.threads[t].job.key;
    ContentOf(s, s', k);
    assert Writer(s, k) == None && Finished(s', k) == Finished(s, k);
    assert Calls(Finished(s, k)) + [] == Calls(Finished(s, k));
    assert InProgress(s', k) == "";
    if th.job.LogJob? {
      assert Writer(s', k) == Some(t);
      assert Acquired(s', k) == Acquired(s, k) + [(t, th.job.call)];
    } else {
      assert Writer(s', k) == None && Acquired(s', k) == Acquired(s, k);
    }
  }

  lemma OneMore(es: seq<(Tid, LogRecord)>, t: Tid, r: LogRecord)
    ensures LogBytes(es + [(t, r)]) == LogBytes(es) + Frame(EncodeEntry(r))
    ensures Calls(es + [(t, r)]) == Calls(es) + [(t, r.call)]
  {
    assert Records(es + [(t, r)]) == Records(es) + [r];
    EncodedOne(Records(es), r);
    FramesAppend(Encoded(Records(es)), [EncodeEntry(r)]);
    assert Frames([EncodeEntry(r)]) == Frame(EncodeEntry(r)) + "" == Frame(EncodeEntry(r));
  }

  lemma EncodedOne(rs: seq<LogRecord>, r: LogRecord)
    ensures Encoded(rs + [r]) == Encoded(rs) + [EncodeEntry(r)]
  {
  }

  /** Finishing a call turns what it wrote into one more whole frame. */
  lemma LeaveLogs(s: State, t: Tid)
    requires LocksOk(s) && LogsOk(s) && t in s.threads && s.threads[t].pc.UnlockKey? && s.threads[t].holding
    requires s.threads[t].job.LogJob? ==> s.threads[t].record.call == s.threads[t].job.call
    ensures LogsOk(Leave(s, t, s.threads[t]))
  {
    ThreadLocksOf(s, t);
    hide Leave, KeyLog, LocksOk;
    forall k ensures KeyLog(Leave(s, t, s.threads[t]), k) {
      if k == s.threads[t].job.key {
        LeaveOwnLog(s, t);
      } else {
        LeaveOtherLog(s, t, k);
      }
    }
  }

  lemma LeaveOtherLog(s: State, t: Tid, k: Key)
    requires t in s.threads && s.threads[t].pc.UnlockKey? && s.threads[t].job.key != k
    requires KeyLog(s, k)
    ensures KeyLog(Leave(s, t, s.threads[t]), k)
  {
    hide LogBytes, Calls, Content, InProgress, CallInProgress;
    var s' := Leave(s, t, s.threads[t]);
    ContentOf(s, s', k);
    assert Acquired(s', k) == Acquired(s, k) && Finished(s', k) == Finished(s, k);
    OtherWriter(s, s', t, k);
  }

  lemma LeaveOwnLog(s: State, t: Tid)
    requires t in s.threads && s.threads[t].pc.UnlockKey? && s.threads[t].holding
    requires s.threads[t].job.LogJob? ==> s.threads[t].record.call == s.threads[t].job.call
    requires s.threads[t].job.key in s.mutex && s.mutex[s.threads[t].job.key] == t
    requires KeyLog(s, s.threads[t].job.key)
    ensures KeyLog(Leave(s, t, s.threads[t]), s.threads[t].job.key)
  {
    hide LogBytes, Calls, Frame, Content;
    var th, s', k := s.threads[t], Leave(s, t, s.threads[t]), s.threads[t].job.key;
    assert Content(s', k) == Content(s, k) by { ContentOf(s, s', k); }
    assert Acquired(s', k) == Acquired(s, k) && Writer(s', k) == None;
    var es := Finished(s, k);
    if th.job.LogJob? {
      assert Writer(s, k) == Some(t);
      OneMore(es, t, th.record);
      assert Finished(s', k) == es + [(t, th.record)];
      OwnLonger(LogBytes(es + [(t, th.record)]), "", "");
      assert Calls(es + [(t, th.record)]) + [] == Calls(es + [(t, th.record)]);
    } else {
      assert Writer(s, k) == None && Finished(s', k) == es;
    }
  }

  lemma ContentOf(s: State, s': State, k: Key)
    requires s'.streams == s.streams && s'.open == s.open && s'.disk == s.disk
    ensures Content(s', k) == Content(s, k)
  {
  }

  lemma TryLogs(s: State, t: Tid, i: nat)
    requires LocksOk(s) && CacheOk(s) && LogsOk(s) && t in s.threads && s.mgmt == Some(t) && s.threads[t].pc == Scan(i)
    ensures LogsOk(TryVictim(s, t, s.threads[t], i))
  {
    NeverFaulty(s, t);
    var th := s.threads[t];
    assert Partial(th) == "";
    hide LocksOk, CacheOk, LogsOk, Seen, At;
    if i >= |s.used| {
      LogsQuiet(s, s, t, th, PushKey);
    } else if s.used[i] in s.mutex {
      var h := s.mutex[s.used[i]];
      LogsQuiet(s, s.(seen := s.seen[h := Seen(s, h) + {s.used[i]}]), t, th, Scan(i + 1));
    } else {
      LogsVictim(s, s.(mutex := s.mutex[s.used[i] := t]), t, s.used[i], CloseStream(i));
    }
  }

  lemma ReleaseLogs(s: State, t: Tid, v: Key)
    requires LocksOk(s) && LogsOk(s) && t in s.threads && s.threads[t].pc == UnlockVictim(v)
    ensures LogsOk(ReleaseVictim(s, t, s.threads[t], v))
  {
    assert ThreadLocks(s, t) && Partial(s.threads[t]) == "";
    hide LocksOk, LogsOk, At;
    LogsVictim(s, s.(mutex := s.mutex - {v}), t, v, PushKey);
  }

  /** The statements that move no bytes and change no history. */
  lemma QuietLogs(cfg: Config, s: State, t: Tid)
    requires LogsOk(s) && CanAdvance(s, t)
    requires var pc := s.threads[t].pc;
             pc.WantMgmt? || pc.EraseList? || pc.PushKey? || pc.ReturnStream? || pc.Recheck? || pc.Stamp?
    ensures LogsOk(Advance(cfg, s, t))
  {
    hide LogsOk, At;
    var th := s.threads[t];
    match th.pc {
      case WantMgmt => LogsQuiet(s, s.(mgmt := Some(t)), t, th, Lookup);
      case EraseList(i) => LogsQuiet(s, s.(used := s.used[..i] + s.used[i + 1..]), t, th, EraseMap(s.used[i]));
      case PushKey => LogsQuiet(s, s.(used := s.used + [th.job.key]), t, th, OpenFile);
      case ReturnStream =>
        LogsQuiet(s, s.(mgmt := None), t, th.(stream := s.streams[th.job.key]),
                  if th.job.DecodeJob? then Flush else if th.holding then Stamp else WantKey);
      case Recheck => LogsQuiet(s, s, t, th, if th.stream in s.open then Stamp else WantMgmt);
      case Stamp => if th.job.LogJob? { LogsQuiet(s, s, t, th.(record := LogRecord(s.clock, th.job.call)), WriteSize); }
    }
  }

  lemma LookupLogs(cfg: Config, s: State, t: Tid)
    requires LogsOk(s) && t in s.threads && s.threads[t].pc.Lookup?
    ensures LogsOk(LookupKey(cfg, s, t, s.threads[t]))
  {
    hide LogsOk, At;
    var th := s.threads[t];
    LogsQuiet(s, s, t, th, ReturnStream);
    LogsQuiet(s, s.(seen := map[]), t, th, Scan(0));
    LogsQuiet(s, s, t, th, PushKey);
  }

  lemma ReadLogs(s: State, t: Tid, pos: nat)
    requires LogsOk(s) && t in s.threads && s.threads[t].pc == ReadFrame(pos) && s.threads[t].job.DecodeJob?
    ensures LogsOk(ReadEntry(s, t, s.threads[t], pos))
  {
    hide LogsOk, At, LittleEndianValue, EntryAt, Disk;
    var th, file := s.threads[t], Disk(s, s.threads[t].job.key);
    if pos + 8 > |file| {
      LogsQuiet(s, s, t, th, UnlockKey);
    } else {
      var size := LittleEndianValue(file[pos..pos + 8]);
      LogsQuiet(s, s, t, th.(got := th.got + [EntryAt(file, pos + 8, size)]), ReadFrame(pos + 8 + size));
    }
  }

  lemma LogsStep(cfg: Config, s: State, t: Tid)
    requires LocksOk(s) && CacheOk(s) && StreamsOk(s) && LogsOk(s) && CanAdvance(s, t)
    requires s.threads[t].pc.UnlockKey? && s.threads[t].job.LogJob? ==>
               s.threads[t].record.call == s.threads[t].job.call
    ensures LogsOk(Advance(cfg, s, t))
  {
    hide LocksOk, CacheOk, StreamsOk, LogsOk, LookupKey, TryVictim, CloseVictim, UnlistVictim, UnmapVictim,
         CanAdvance, ReleaseVictim, ListKey, OpenStream, TakeStream, LockKey, EncodeNow, FlushStream,
         ReadEntry, Leave, WriteHeader, WriteEntry;
    Inside(s, t);
    ThreadLocksOf(s, t);
    match s.threads[t].pc {
      case Lookup => LookupLogs(cfg, s, t);
      case Scan(i) => TryLogs(s, t, i);
      case CloseStream(_) => CloseLogs(s, t);
      case EraseMap(_) => UnmapLogs(s, t);
      case UnlockVictim(v) => ReleaseLogs(s, t, v);
      case OpenFile => OpenLogs(s, t);
      case WantKey => KeyFree(s, t); LockLogs(s, t);
      case WriteSize => HeaderLogs(s, t);
      case WriteBody => EntryLogs(s, t);
      case Flush => FlushLogs(s, t);
      case ReadFrame(pos) => ReadLogs(s, t, pos);
      case UnlockKey => LeaveLogs(s, t);
      case _ => QuietLogs(cfg, s, t);
    }
  }

  lemma KeyFree(s: State, t: Tid)
    requires CanAdvance(s, t) && s.threads[t].pc.WantKey?
    ensures s.threads[t].job.key !in s.mutex
  {
  }

  lemma LogsBegin(cfg: Config, s: State, t: Tid, job: Job)
    requires LocksOk(s) && LogsOk(s) && MayBegin(cfg, s, t, job)
    ensures LogsOk(Begin(s, t, job))
  {
    assert ThreadLocks(s, t);
    LogsQuiet(s, s, t, s.threads[t].(job := job, got := []), if job.LogJob? then WantMgmt else WantKey);
  }
}
