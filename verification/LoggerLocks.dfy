/** Who holds which mutex, and why the two levels of locking never deadlock. */
module LoggerLocks {
  import opened Text
  import opened LogCodec
  import opened LoggerProtocol

  /** The statements executed under the management mutex. */
  predicate InMgmt(pc: PC) {
    pc.Lookup? || pc.Scan? || pc.CloseStream? || pc.EraseList? || pc.EraseMap? || pc.UnlockVictim?
    || pc.PushKey? || pc.OpenFile? || pc.ReturnStream?
  }

  /** The key whose mutex the thread holds in order to evict it. */
  function Victim(s: State, th: Thread): Option<Key> {
    match th.pc
    case CloseStream(i) => if i < |s.used| then Some(s.used[i]) else None
    case EraseList(i) => if i < |s.used| then Some(s.used[i]) else None
    case EraseMap(v) => Some(v)
    case UnlockVictim(v) => Some(v)
    case _ => None
  }

  /** The statements executed under the mutex of the thread's own key, fetching apart. */
  predicate WithKey(pc: PC) {
    pc.Recheck? || pc.Stamp? || pc.WriteSize? || pc.WriteBody? || pc.Flush? || pc.ReadFrame? || pc.UnlockKey?
  }

  /** Which statements a job runs through, and at which of them it holds its key. */
  predicate Consistent(th: Thread) {
    && (th.pc.Idle? || th.pc.WantKey? ==> !th.holding)
    && (WithKey(th.pc) ==> th.holding)
    && (th.pc.Recheck? || th.pc.Stamp? || th.pc.WriteSize? || th.pc.WriteBody? ==> th.job.LogJob?)
    && (th.pc.Flush? || th.pc.ReadFrame? ==> th.job.DecodeJob?)
    && ((th.pc.WantMgmt? || InMgmt(th.pc)) && !th.holding ==> th.job.LogJob?)
  }

  /** The mutex of the victim is the thread's, and is not that of its own key. */
  predicate HoldsVictim(s: State, t: Tid, v: Key)
    requires t in s.threads
  {
    v in s.mutex && s.mutex[v] == t && (s.threads[t].holding ==> v != s.threads[t].job.key)
  }

  ghost predicate ThreadLocks(s: State, t: Tid)
    requires t in s.threads
  {
    var th := s.threads[t];
    && Consistent(th)
    && (InMgmt(th.pc) <==> s.mgmt == Some(t))
    && (th.holding ==> th.job.key in s.mutex && s.mutex[th.job.key] == t)
    && (Victim(s, th).Some? ==> HoldsVictim(s, t, Victim(s, th).value))
  }

  ghost predicate KeyLock(s: State, k: Key)
    requires k in s.mutex
  {
    var h := s.mutex[k];
    h in s.threads && ((s.threads[h].holding && s.threads[h].job.key == k) || Victim(s, s.threads[h]) == Some(k))
  }

  ghost predicate LocksOk(s: State) {
    && (s.mgmt.Some? ==> s.mgmt.value in s.threads)
    && (forall t :: t in s.threads ==> ThreadLocks(s, t))
    && (forall k :: k in s.mutex ==> KeyLock(s, k))
  }

  /** The key of a thread that is opening its stream is not listed, so it is never its own victim. */
  ghost predicate OwnKeyUnlisted(s: State, t: Tid)
    requires t in s.threads
  {
    var th := s.threads[t];
    (th.pc.Scan? || th.pc.CloseStream? || th.pc.EraseList? || th.pc.PushKey?) ==> th.job.key !in s.used
  }

  lemma LocksInit(s: State)
    requires Init(s)
    ensures LocksOk(s)
  {
  }

  /** Moving to a statement with the same locks, after changes that touch no lock. */
  lemma LocksAt(s: State, r: State, t: Tid, th: Thread, pc: PC)
    requires LocksOk(s) && t in s.threads
    requires r.threads == s.threads && r.mgmt == s.mgmt && r.mutex == s.mutex
    requires r.used == s.used || s.mgmt == Some(t)
    requires th.holding ==> th.job == s.threads[t].job
    requires th.holding == s.threads[t].holding
    requires InMgmt(pc) <==> InMgmt(s.threads[t].pc)
    requires Consistent(th.(pc := pc))
    requires Victim(At(r, t, th, pc), th.(pc := pc)) == Victim(s, s.threads[t])
    ensures LocksOk(At(r, t, th, pc))
  {
    var s' := At(r, t, th, pc);
    assert ThreadLocks(s, t);
    forall h | h in s'.threads ensures ThreadLocks(s', h) {
      assert ThreadLocks(s, h);
      if h != t { VictimSame(s, s', s.threads[h], h, t); }
    }
    forall k | k in s'.mutex ensures KeyLock(s', k) {
      assert KeyLock(s, k);
      var h := s.mutex[k];
      assert ThreadLocks(s, h);
      if h != t { VictimSame(s, s', s.threads[h], h, t); }
    }
  }

  lemma VictimSame(s: State, s': State, th: Thread, h: Tid, t: Tid)
    requires h in s.threads && s.threads[h] == th && ThreadLocks(s, h)
    requires s'.used == s.used || (s.mgmt == Some(t) && h != t)
    ensures Victim(s', th) == Victim(s, th)
  {
  }

  lemma ThreadLocksOf(s: State, t: Tid)
    requires LocksOk(s) && t in s.threads
    ensures ThreadLocks(s, t)
  {
  }

  // One lemma per statement; the first group leaves the locks as they are.

  lemma LookupLocks(cfg: Config, s: State, t: Tid)
    requires LocksOk(s) && CanAdvance(s, t) && s.threads[t].pc.Lookup?
    ensures LocksOk(LookupKey(cfg, s, t, s.threads[t]))
  {
    hide LocksOk;
    var th := s.threads[t];
    ThreadLocksOf(s, t);
    var k := th.job.key;
    if k in s.streams && s.streams[k] in s.open { LocksAt(s, s, t, th, ReturnStream); }
    else if |s.streams| >= cfg.maxOpen { LocksAt(s, s.(seen := map[]), t, th, Scan(0)); }
    else { LocksAt(s, s, t, th, PushKey); }
  }

  lemma PassLocks(s: State, t: Tid)
    requires LocksOk(s) && CanAdvance(s, t) && s.threads[t].pc.Scan?
    requires s.threads[t].pc.i < |s.used| ==> s.used[s.threads[t].pc.i] in s.mutex
    ensures LocksOk(TryVictim(s, t, s.threads[t], s.threads[t].pc.i))
  {
    hide LocksOk;
    var th := s.threads[t];
    ThreadLocksOf(s, t);
    var i := th.pc.i;
    if i >= |s.used| { LocksAt(s, s, t, th, PushKey); }
    else {
      var h := s.mutex[s.used[i]];
      LocksAt(s, s.(seen := s.seen[h := Seen(s, h) + {s.used[i]}]), t, th, Scan(i + 1));
    }
  }

  lemma ClosedLocks(s: State, sid: Sid)
    ensures var r := Closed(s, sid);
            r.threads == s.threads && r.mgmt == s.mgmt && r.mutex == s.mutex && r.used == s.used
  {
  }

  lemma CloseLocks(s: State, t: Tid)
    requires LocksOk(s) && CanAdvance(s, t) && s.threads[t].pc.CloseStream?
    ensures LocksOk(CloseVictim(s, t, s.threads[t], s.threads[t].pc.i))
  {
    hide LocksOk;
    var th := s.threads[t];
    ThreadLocksOf(s, t);
    ClosedLocks(s, s.streams[s.used[th.pc.i]]);
    hide Closed;
    LocksAt(s, Closed(s, s.streams[s.used[th.pc.i]]), t, th, EraseList(th.pc.i));
  }

  lemma UnlistLocks(s: State, t: Tid)
    requires LocksOk(s) && CanAdvance(s, t) && s.threads[t].pc.EraseList?
    ensures LocksOk(UnlistVictim(s, t, s.threads[t], s.threads[t].pc.i))
  {
    hide LocksOk;
    var th := s.threads[t];
    ThreadLocksOf(s, t);
    var i := th.pc.i;
    LocksAt(s, s.(used := s.used[..i] + s.used[i + 1..]), t, th, EraseMap(s.used[i]));
  }

  lemma UnmapLocks(s: State, t: Tid)
    requires LocksOk(s) && CanAdvance(s, t) && s.threads[t].pc.EraseMap?
    ensures LocksOk(UnmapVictim(s, t, s.threads[t], s.threads[t].pc.victim))
  {
    hide LocksOk;
    var th := s.threads[t];
    ThreadLocksOf(s, t);
    LocksAt(s, s.(streams := s.streams - {th.pc.victim}), t, th, UnlockVictim(th.pc.victim));
  }

  lemma ListLocks(s: State, t: Tid)
    requires LocksOk(s) && CanAdvance(s, t) && s.threads[t].pc.PushKey?
    ensures LocksOk(ListKey(s, t, s.threads[t]))
  {
    hide LocksOk;
    var th := s.threads[t];
    ThreadLocksOf(s, t);
    LocksAt(s, s.(used := s.used + [th.job.key]), t, th, OpenFile);
  }

  lemma OpenLocks(s: State, t: Tid)
    requires LocksOk(s) && CanAdvance(s, t) && s.threads[t].pc.OpenFile?
    ensures LocksOk(OpenStream(s, t, s.threads[t]))
  {
    hide LocksOk;
    var th := s.threads[t];
    ThreadLocksOf(s, t);
    LocksAt(s, OpenStream(s, t, th).(threads := s.threads), t, th, ReturnStream);
  }

  lemma RecheckLocks(s: State, t: Tid)
    requires LocksOk(s) && CanAdvance(s, t) && s.threads[t].pc.Recheck?
    ensures LocksOk(At(s, t, s.threads[t], if s.threads[t].stream in s.open then Stamp else WantMgmt))
  {
    hide LocksOk;
    var th := s.threads[t];
    ThreadLocksOf(s, t);
    if th.stream in s.open { LocksAt(s, s, t, th, Stamp); } else { LocksAt(s, s, t, th, WantMgmt); }
  }

  lemma EncodeLocks(s: State, t: Tid)
    requires LocksOk(s) && CanAdvance(s, t) && s.threads[t].pc.Stamp?
    ensures LocksOk(EncodeNow(s, t, s.threads[t]))
  {
    hide LocksOk;
    var th := s.threads[t];
    ThreadLocksOf(s, t);
    LocksAt(s, s, t, th.(record := LogRecord(s.clock, th.job.call)), WriteSize);
  }

  lemma HeaderLocks(s: State, t: Tid)
    requires LocksOk(s) && CanAdvance(s, t) && s.threads[t].pc.WriteSize?
    ensures LocksOk(WriteHeader(s, t, s.threads[t]))
  {
    hide LocksOk;
    var th := s.threads[t];
    ThreadLocksOf(s, t);
    LocksAt(s, WrittenTo(s, th.stream, LittleEndian(|EncodeEntry(th.record)|, 8)), t, th, WriteBody);
  }

  lemma EntryLocks(s: State, t: Tid)
    requires LocksOk(s) && CanAdvance(s, t) && s.threads[t].pc.WriteBody?
    ensures LocksOk(WriteEntry(s, t, s.threads[t]))
  {
    hide LocksOk;
    var th := s.threads[t];
    ThreadLocksOf(s, t);
    LocksAt(s, WrittenTo(s, th.stream, EncodeEntry(th.record)), t, th, UnlockKey);
  }

  lemma FlushLocks(s: State, t: Tid)
    requires LocksOk(s) && CanAdvance(s, t) && s.threads[t].pc.Flush?
    ensures LocksOk(FlushStream(s, t, s.threads[t]))
  {
    hide LocksOk;
    var th := s.threads[t];
    ThreadLocksOf(s, t);
    if th.stream in s.open {
      LocksAt(s, Drained(s, th.stream, |s.open[th.stream].buffer|), t, th, ReadFrame(0));
    } else {
      LocksAt(s, s, t, th, UnlockKey);
    }
  }

  lemma ReadLocks(s: State, t: Tid)
    requires LocksOk(s) && CanAdvance(s, t) && s.threads[t].pc.ReadFrame?
    ensures LocksOk(ReadEntry(s, t, s.threads[t], s.threads[t].pc.pos))
  {
    hide LocksOk;
    var th := s.threads[t];
    ThreadLocksOf(s, t);
    hide LittleEndianValue, EntryAt, Disk;
    var file, pos := Disk(s, th.job.key), th.pc.pos;
    if pos + 8 > |file| { LocksAt(s, s, t, th, UnlockKey); }
    else {
      var size := LittleEndianValue(file[pos..pos + 8]);
      LocksAt(s, s, t, th.(got := th.got + [EntryAt(file, pos + 8, size)]), ReadFrame(pos + 8 + size));
    }
  }

  lemma EnterLocks(s: State, t: Tid)
    requires LocksOk(s) && CanAdvance(s, t) && s.threads[t].pc.WantMgmt?
    ensures LocksOk(At(s.(mgmt := Some(t)), t, s.threads[t], Lookup))
  {
    var s' := At(s.(mgmt := Some(t)), t, s.threads[t], Lookup);
    assert ThreadLocks(s, t);
    forall h | h in s'.threads ensures ThreadLocks(s', h) { assert ThreadLocks(s, h); }
    forall k | k in s'.mutex ensures KeyLock(s', k) {
      if k in s.mutex { assert KeyLock(s, k); }
    }
  }

  lemma TakeLocks(s: State, t: Tid)
    requires LocksOk(s) && CanAdvance(s, t) && s.threads[t].pc.ReturnStream?
    ensures LocksOk(TakeStream(s, t, s.threads[t]))
  {
    var s' := TakeStream(s, t, s.threads[t]);
    assert ThreadLocks(s, t);
    forall h | h in s'.threads ensures ThreadLocks(s', h) { assert ThreadLocks(s, h); }
    forall k | k in s'.mutex ensures KeyLock(s', k) {
      if k in s.mutex { assert KeyLock(s, k); }
    }
  }

  lemma TryLocks(s: State, t: Tid)
    requires LocksOk(s) && CanAdvance(s, t) && s.threads[t].pc.Scan? && OwnKeyUnlisted(s, t)
    requires s.threads[t].pc.i < |s.used| && s.used[s.threads[t].pc.i] !in s.mutex
    ensures LocksOk(TryVictim(s, t, s.threads[t], s.threads[t].pc.i))
  {
    var s' := TryVictim(s, t, s.threads[t], s.threads[t].pc.i);
    assert ThreadLocks(s, t);
    forall h | h in s'.threads ensures ThreadLocks(s', h) { assert ThreadLocks(s, h); }
    forall k | k in s'.mutex ensures KeyLock(s', k) {
      if k in s.mutex { assert KeyLock(s, k); }
    }
  }

  lemma ReleaseLocks(s: State, t: Tid)
    requires LocksOk(s) && CanAdvance(s, t) && s.threads[t].pc.UnlockVictim?
    ensures LocksOk(ReleaseVictim(s, t, s.threads[t], s.threads[t].pc.victim))
  {
    var s' := ReleaseVictim(s, t, s.threads[t], s.threads[t].pc.victim);
    assert ThreadLocks(s, t);
    forall h | h in s'.threads ensures ThreadLocks(s', h) { assert ThreadLocks(s, h); }
    forall k | k in s'.mutex ensures KeyLock(s', k) {
      if k in s.mutex { assert KeyLock(s, k); }
    }
  }

  lemma LockLocks(s: State, t: Tid)
    requires LocksOk(s) && CanAdvance(s, t) && s.threads[t].pc.WantKey?
    ensures LocksOk(LockKey(s, t, s.threads[t]))
  {
    var s' := LockKey(s, t, s.threads[t]);
    assert ThreadLocks(s, t);
    forall h | h in s'.threads ensures ThreadLocks(s', h) { assert ThreadLocks(s, h); }
    forall k | k in s'.mutex ensures KeyLock(s', k) {
      if k in s.mutex { assert KeyLock(s, k); }
    }
  }

  lemma LeaveLocks(s: State, t: Tid)
    requires LocksOk(s) && CanAdvance(s, t) && s.threads[t].pc.UnlockKey?
    ensures LocksOk(Leave(s, t, s.threads[t]))
  {
    hide Finished, ThreadLocks, KeyLock;
    var s', k := Leave(s, t, s.threads[t]), s.threads[t].job.key;
    forall h | h in s'.threads ensures ThreadLocks(s', h) { LeaveThread(s, s', t, h); }
    forall k' | k' in s'.mutex ensures KeyLock(s', k') { LeaveMutex(s, s', t, k'); }
  }

  lemma LeaveThread(s: State, s': State, t: Tid, h: Tid)
    requires t in s.threads && h in s.threads && ThreadLocks(s, t) && ThreadLocks(s, h) && s.threads[t].pc.UnlockKey?
    requires s'.threads == s.threads[t := s.threads[t].(holding := false, pc := Idle)]
    requires s'.mutex == s.mutex - {s.threads[t].job.key} && s'.mgmt == s.mgmt && s'.used == s.used
    ensures ThreadLocks(s', h)
  {
  }

  lemma LeaveMutex(s: State, s': State, t: Tid, k: Key)
    requires t in s.threads && ThreadLocks(s, t) && s.threads[t].pc.UnlockKey?
    requires s'.threads == s.threads[t := s.threads[t].(holding := false, pc := Idle)] && s'.used == s.used
    requires s'.mutex == s.mutex - {s.threads[t].job.key} && k in s'.mutex && KeyLock(s, k)
    ensures KeyLock(s', k)
  {
  }

  lemma LocksStep(cfg: Config, s: State, t: Tid)
    requires LocksOk(s) && CanAdvance(s, t) && OwnKeyUnlisted(s, t)
    ensures LocksOk(Advance(cfg, s, t))
  {
    hide LocksOk, OwnKeyUnlisted, CanAdvance, At, LookupKey, TryVictim, CloseVictim, UnlistVictim, UnmapVictim,
         ReleaseVictim, ListKey, OpenStream, TakeStream, LockKey, EncodeNow, WriteHeader, WriteEntry,
         FlushStream, ReadEntry, Leave;
    Inside(s, t);
    match s.threads[t].pc {
      case WantMgmt => EnterLocks(s, t);
      case Lookup => LookupLocks(cfg, s, t);
      case Scan(i) => if i < |s.used| && s.used[i] !in s.mutex { TryLocks(s, t); } else { PassLocks(s, t); }
      case CloseStream(_) => CloseLocks(s, t);
      case EraseList(_) => UnlistLocks(s, t);
      case EraseMap(_) => UnmapLocks(s, t);
      case UnlockVictim(_) => ReleaseLocks(s, t);
      case PushKey => ListLocks(s, t);
      case OpenFile => OpenLocks(s, t);
      case ReturnStream => TakeLocks(s, t);
      case WantKey => LockLocks(s, t);
      case Recheck => RecheckLocks(s, t);
      case Stamp => EncodeLocks(s, t);
      case WriteSize => HeaderLocks(s, t);
      case WriteBody => EntryLocks(s, t);
      case Flush => FlushLocks(s, t);
      case ReadFrame(_) => ReadLocks(s, t);
      case UnlockKey => LeaveLocks(s, t);
    }
  }

  lemma Inside(s: State, t: Tid)
    requires CanAdvance(s, t)
    ensures t in s.threads && !s.threads[t].pc.Idle?
  {
  }

  lemma LocksBegin(cfg: Config, s: State, t: Tid, job: Job)
    requires LocksOk(s) && MayBegin(cfg, s, t, job)
    ensures LocksOk(Begin(s, t, job))
  {
    var th := s.threads[t].(job := job, got := []);
    assert ThreadLocks(s, t);
    LocksAt(s, s, t, th, if job.LogJob? then WantMgmt else WantKey);
  }

  // ---------- no deadlock ----------

  /** No thread ever tries a mutex it holds, or unlocks one it does not hold. */
  ghost predicate NoLockFault(s: State, t: Tid)
    requires t in s.threads
  {
    var th := s.threads[t];
    && (th.pc.Scan? && th.pc.i < |s.used| && s.used[th.pc.i] in s.mutex ==> s.mutex[s.used[th.pc.i]] != t)
    && (th.pc.UnlockVictim? ==> th.pc.victim in s.mutex && s.mutex[th.pc.victim] == t)
    && (th.pc.UnlockKey? ==> th.job.key in s.mutex && s.mutex[th.job.key] == t)
  }

  lemma LocksNoFault(s: State, t: Tid)
    requires LocksOk(s) && t in s.threads && OwnKeyUnlisted(s, t)
    ensures NoLockFault(s, t)
  {
    var th := s.threads[t];
    assert ThreadLocks(s, t);
    if th.pc.Scan? && th.pc.i < |s.used| && s.used[th.pc.i] in s.mutex {
      assert KeyLock(s, s.used[th.pc.i]);
    }
  }

  /** With some thread inside a call, some thread inside a call is not blocked. */
  lemma SomeoneUnblocked(s: State, t: Tid) returns (h: Tid)
    requires LocksOk(s) && t in s.threads && !s.threads[t].pc.Idle?
    ensures h in s.threads && !s.threads[h].pc.Idle? && !Blocked(s, h)
  {
    if s.mgmt.Some? {
      h := s.mgmt.value;
      assert ThreadLocks(s, h);
    } else if Blocked(s, t) {
      h := s.mutex[s.threads[t].job.key];
      assert KeyLock(s, s.threads[t].job.key);
      assert ThreadLocks(s, h);
    } else {
      h := t;
    }
  }
}
