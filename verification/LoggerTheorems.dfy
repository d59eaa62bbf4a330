/** What holds in every state of every run of the log manager, with any number of threads. */
module LoggerTheorems {
  import opened Text
  import opened Numbers
  import opened LogCodec
  import opened LoggerProtocol
  import opened LoggerLocks
  import opened LoggerCache
  import opened LoggerStreams
  import opened LoggerFiles
  import opened LoggerHistory
  import opened LoggerBound

  ghost predicate Inv(cfg: Config, s: State) {
    LocksOk(s) && CacheOk(s) && StreamsOk(s) && LogsOk(s) && TimeOk(s) && ReadersOk(s) && BoundOk(cfg, s)
  }

  lemma InvInit(cfg: Config, s: State)
    requires Init(s)
    ensures Inv(cfg, s)
  {
    hide Init, LocksOk, CacheOk, StreamsOk, LogsOk, TimeOk, ReadersOk, BoundOk;
    LocksInit(s);
    CacheInit(s);
    StreamsInit(s);
    LogsInit(s);
    TimeInit(s);
    ReadersInit(s);
    BoundInit(cfg, s);
  }

  lemma InvAdvance(cfg: Config, s: State, t: Tid)
    requires Inv(cfg, s) && CanAdvance(s, t)
    ensures Inv(cfg, Advance(cfg, s, t))
  {
    hide CanAdvance, Advance, LocksOk, CacheOk, StreamsOk, LogsOk, TimeOk, ReadersOk, BoundOk;
    Inside(s, t);
    NeverFaulty(s, t);
    LocksStep(cfg, s, t);
    CacheStep(cfg, s, t);
    StreamsStep(cfg, s, t);
    RecordInProgress(s, t);
    LogsStep(cfg, s, t);
    TimeStep(cfg, s, t);
    ReadersStep(cfg, s, t);
    BoundStep(cfg, s, t);
  }

  lemma RecordInProgress(s: State, t: Tid)
    requires TimeOk(s) && t in s.threads
    ensures s.threads[t].pc.UnlockKey? && s.threads[t].job.LogJob? ==> s.threads[t].record.call == s.threads[t].job.call
  {
    TimeOf(s, t, s.threads[t].job.key);
  }

  lemma InvBegin(cfg: Config, s: State, t: Tid, job: Job)
    requires Inv(cfg, s) && MayBegin(cfg, s, t, job)
    ensures Inv(cfg, Begin(s, t, job))
  {
    hide Begin, MayBegin, LocksOk, CacheOk, StreamsOk, LogsOk, TimeOk, ReadersOk, BoundOk;
    LocksBegin(cfg, s, t, job);
    CacheBegin(cfg, s, t, job);
    StreamsBegin(cfg, s, t, job);
    LogsBegin(cfg, s, t, job);
    TimeBegin(cfg, s, t, job);
    ReadersBegin(cfg, s, t, job);
    BoundBegin(cfg, s, t, job);
  }

  /** Moving bytes from a buffer to the file, and the clock, leave locks and streams alone. */
  lemma InvBackground(cfg: Config, s: State, s': State)
    requires LocksOk(s) && CacheOk(s) && StreamsOk(s) && BoundOk(cfg, s)
    requires s'.threads == s.threads && s'.mgmt == s.mgmt && s'.mutex == s.mutex && s'.seen == s.seen
    requires s'.streams == s.streams && s'.used == s.used && s'.next == s.next
    requires s'.open.Keys == s.open.Keys && forall i :: i in s.open ==> s'.open[i].key == s.open[i].key
    ensures LocksOk(s') && CacheOk(s') && StreamsOk(s') && BoundOk(cfg, s')
  {
    LocksSame(s, s');
    CacheSame(s, s');
    StreamsSame(s, s');
    hide LocksOk, CacheOk, StreamsOk, BoundOk;
    BoundSame(cfg, s, s');
  }

  lemma LocksSame(s: State, s': State)
    requires LocksOk(s) && s'.threads == s.threads && s'.mgmt == s.mgmt && s'.mutex == s.mutex && s'.used == s.used
    ensures LocksOk(s')
  {
    forall t | t in s'.threads ensures ThreadLocks(s', t) { assert ThreadLocks(s, t); }
    forall k | k in s'.mutex ensures KeyLock(s', k) { assert KeyLock(s, k); }
  }

  lemma CacheSame(s: State, s': State)
    requires CacheOk(s) && s'.threads == s.threads && s'.mgmt == s.mgmt
    requires s'.streams == s.streams && s'.used == s.used && s'.next == s.next
    requires s'.open.Keys == s.open.Keys && forall i :: i in s.open ==> s'.open[i].key == s.open[i].key
    ensures CacheOk(s')
  {
    hide Fits;
    FitsBuffers(CacheOf(s), CacheOf(s'), MgmtPC(s), MgmtKey(s));
  }

  lemma StreamsSame(s: State, s': State)
    requires StreamsOk(s) && s'.threads == s.threads && s'.streams == s.streams && s'.next == s.next
    requires s'.open.Keys == s.open.Keys && forall i :: i in s.open ==> s'.open[i].key == s.open[i].key
    ensures StreamsOk(s')
  {
    forall t | t in s'.threads ensures StreamOk(CacheOf(s'), s'.threads[t]) {
      assert StreamOk(CacheOf(s), s.threads[t]);
    }
  }

  lemma InvTick(cfg: Config, s: State, s': State)
    requires Inv(cfg, s) && Tick(s, s')
    ensures Inv(cfg, s')
  {
    hide LocksOk, CacheOk, StreamsOk, LogsOk, TimeOk, ReadersOk, BoundOk;
    InvBackground(cfg, s, s');
    TimeTick(s, s');
    ReadersSame(s, s');
    forall k ensures SameLog(s, s', k) { }
    LogsSame(s, s');
  }

  lemma InvSpill(cfg: Config, s: State, s': State, sid: Sid, n: nat)
    requires Inv(cfg, s) && Spill(s, s', sid, n)
    ensures Inv(cfg, s')
  {
    hide LocksOk, CacheOk, StreamsOk, LogsOk, TimeOk, ReadersOk, BoundOk, Disk;
    SpillLogs(s, s', sid, n);
    TimeSpill(s, s', sid, n);
    InvBackground(cfg, s, s');
    ReadersSame(s, s');
  }

  lemma InvStep(cfg: Config, s: State, s': State)
    requires Inv(cfg, s) && Next(cfg, s, s')
    ensures Inv(cfg, s')
  {
    hide Inv, Advance, Begin, Tick, Spill;
    if Tick(s, s') {
      InvTick(cfg, s, s');
    } else if sid, n :| Spill(s, s', sid, n) {
      InvSpill(cfg, s, s', sid, n);
    } else {
      var t :| ThreadStep(cfg, s, s', t);
      if CanAdvance(s, t) && s' == Advance(cfg, s, t) {
        InvAdvance(cfg, s, t);
      } else {
        var job :| MayBegin(cfg, s, t, job) && s' == Begin(s, t, job);
        InvBegin(cfg, s, t, job);
      }
    }
  }

  lemma {:induction false} InvRun(cfg: Config, ss: seq<State>, i: nat)
    requires Behaviour(cfg, ss) && i < |ss|
    ensures Inv(cfg, ss[i])
  {
    hide Inv, Init, Next;
    if i == 0 {
      InvInit(cfg, ss[0]);
    } else {
      InvRun(cfg, ss, i - 1);
      assert Next(cfg, ss[i - 1], ss[i - 1 + 1]);
      InvStep(cfg, ss[i - 1], ss[i]);
    }
  }

  // ---------- open streams ----------

  /**
   At every statement that writes to, flushes or reads a stream the thread has the mutex of
   its key, and the stream is open and is the one the map holds for that key.
   */
  lemma OpenStreamSafety(cfg: Config, ss: seq<State>, i: nat, t: Tid)
    requires Behaviour(cfg, ss) && i < |ss| && t in ss[i].threads && Relies(ss[i].threads[t].pc)
    ensures var s, th := ss[i], ss[i].threads[t];
            && th.job.key in s.mutex && s.mutex[th.job.key] == t
            && th.stream in s.open && s.open[th.stream].key == th.job.key
            && th.job.key in s.streams && s.streams[th.job.key] == th.stream
  {
    hide Behaviour, LocksOk, CacheOk, StreamsOk, LogsOk, TimeOk, ReadersOk, BoundOk;
    InvRun(cfg, ss, i);
    ThreadLocksOf(ss[i], t);
    StreamOf(ss[i], t);
  }

  /** While the management mutex is free, list and map agree and each mapped key has one open stream. */
  lemma ListIsMap(cfg: Config, ss: seq<State>, i: nat)
    requires Behaviour(cfg, ss) && i < |ss| && ss[i].mgmt.None?
    ensures var s := ss[i];
            && NoDuplicates(s.used) && (forall k :: k in s.used <==> k in s.streams)
            && (forall k :: k in s.streams ==> s.streams[k] in s.open && s.open[s.streams[k]].key == k)
            && (forall sid :: sid in s.open ==> s.open[sid].key in s.streams && s.streams[s.open[sid].key] == sid)
            && (forall a, b :: 0 <= a < b < |s.used| ==> s.streams[s.used[a]] < s.streams[s.used[b]])
  {
    hide Behaviour, LocksOk, StreamsOk, LogsOk, TimeOk, ReadersOk, BoundOk;
    InvRun(cfg, ss, i);
  }

  /**
   The stream an eviction closes is the oldest whose key was free when tried: the keys of
   all older streams were found locked, each by some other thread, in the same scan.
   */
  lemma EvictsOldestFree(cfg: Config, ss: seq<State>, i: nat, m: Tid, n: nat)
    requires Behaviour(cfg, ss) && i < |ss| && m in ss[i].threads && ss[i].threads[m].pc == CloseStream(n)
    ensures var s := ss[i];
            && n < |s.used| && s.used[n] in s.streams && s.streams[s.used[n]] in s.open
            && s.used[n] in s.mutex && s.mutex[s.used[n]] == m
            && forall k :: k in s.streams && s.streams[k] < s.streams[s.used[n]] ==>
                 exists h :: h in s.threads && h != m && k in Seen(s, h)
  {
    hide Behaviour, LocksOk, CacheOk, StreamsOk, LogsOk, TimeOk, ReadersOk, BoundOk, Seen;
    InvRun(cfg, ss, i);
    var s := ss[i];
    ThreadLocksOf(s, m);
    VictimOpen(s, m, n);
    ScanPassed(cfg, s, m, n);
    forall k | k in s.streams && s.streams[k] < s.streams[s.used[n]]
      ensures exists h :: h in s.threads && h != m && k in Seen(s, h)
    {
      OlderIsBefore(s, m, n, k);
      var j :| 0 <= j < n && s.used[j] == k;
      assert s.used[j] in Met(s, s.threads.Keys - {m});
    }
  }

  lemma VictimOpen(s: State, m: Tid, n: nat)
    requires CacheOk(s) && m in s.threads && s.mgmt == Some(m) && s.threads[m].pc == CloseStream(n)
    ensures n < |s.used| && s.used[n] in s.streams && s.streams[s.used[n]] in s.open
  {
    hide Fits;
    FitsClose(CacheOf(s), n, s.threads[m].job.key);
  }

  lemma ScanPassed(cfg: Config, s: State, m: Tid, n: nat)
    requires BoundOk(cfg, s) && m in s.threads && s.mgmt == Some(m) && s.threads[m].pc == CloseStream(n)
    ensures MetLocked(s, m, n)
  {
    hide Pinned, Bound;
  }

  /** The list is in order of opening. */
  lemma OlderIsBefore(s: State, m: Tid, n: nat, k: Key)
    requires CacheOk(s) && m in s.threads && s.mgmt == Some(m) && s.threads[m].pc == CloseStream(n)
    requires n < |s.used| && k in s.streams && s.used[n] in s.streams && s.streams[k] < s.streams[s.used[n]]
    ensures exists j :: 0 <= j < n && s.used[j] == k
  {
    hide Mapped, HolderOk;
    assert k in s.used;
  }

  // ---------- logs ----------

  /**
   When no thread has the mutex of a key, its file and buffer hold whole frames only: one
   for each finished call, in the order in which the calls got the mutex, in time order.
   */
  lemma WholeFrames(cfg: Config, ss: seq<State>, i: nat, k: Key)
    requires Behaviour(cfg, ss) && i < |ss| && k !in ss[i].mutex
    ensures var s := ss[i];
            && Content(s, k) == LogBytes(Finished(s, k))
            && Acquired(s, k) == Calls(Finished(s, k))
            && GoodHistory(Finished(s, k), s.clock)
  {
    hide Behaviour, LocksOk, CacheOk, StreamsOk, TimeOk, ReadersOk, BoundOk, LogBytes, Calls, Content, LogsOk;
    InvRun(cfg, ss, i);
    var s := ss[i];
    KeyLogOf(s, k);
    assert LogBytes(Finished(s, k)) + "" == LogBytes(Finished(s, k));
    assert Calls(Finished(s, k)) + [] == Calls(Finished(s, k));
    GoodOf(s, k);
  }

  lemma GoodOf(s: State, k: Key)
    requires TimeOk(s)
    ensures GoodHistory(Finished(s, k), s.clock)
  {
  }

  /** Read back, such a log shows every finished call as it was made; a threshold blanks a suffix. */
  lemma LogShowsCalls(cfg: Config, ss: seq<State>, i: nat, k: Key, threshold: int) returns (n: nat)
    requires Behaviour(cfg, ss) && i < |ss| && k !in ss[i].mutex
    requires forall e :: e in Finished(ss[i], k) ==> ',' !in e.1.call.user
    ensures n <= |Finished(ss[i], k)|
    ensures var es, shown := Finished(ss[i], k), DecodedFrom(Content(ss[i], k), 0, threshold);
            |shown| == |es|
            && forall j :: 0 <= j < |es| ==> shown[j] == View(es[j].1, threshold) && (shown[j] == Blank <==> n <= j)
  {
    hide Behaviour, Content, View, DecodedFrom, SortedByTime, Finished;
    WholeFrames(cfg, ss, i, k);
    var es := Finished(ss[i], k);
    GoodRecords(es, ss[i].clock);
    LogRoundTrip(Records(es), threshold);
    n := ThresholdBlanksSuffix(Records(es), threshold);
  }

  lemma GoodRecords(es: seq<(Tid, LogRecord)>, now: int)
    requires GoodHistory(es, now) && forall e :: e in es ==> ',' !in e.1.call.user
    ensures SortedByTime(Records(es)) && forall r :: r in Records(es) ==> Recordable(r) && ',' !in r.call.user
  {
    hide Recordable;
    forall r | r in Records(es) ensures Recordable(r) && ',' !in r.call.user {
      var j :| 0 <= j < |es| && Records(es)[j] == r;
      assert es[j] in es;
    }
  }

  /** A decoder that is done has read the entry of every finished call on its key, once and whole. */
  lemma DecoderReadsAll(cfg: Config, ss: seq<State>, i: nat, t: Tid)
    requires Behaviour(cfg, ss) && i < |ss| && t in ss[i].threads
    requires ss[i].threads[t].pc.UnlockKey? && ss[i].threads[t].job.DecodeJob?
    ensures var s, th := ss[i], ss[i].threads[t];
            && th.got == Encoded(Records(Finished(s, th.job.key)))
            && Calls(Finished(s, th.job.key)) == Acquired(s, th.job.key)
  {
    hide Behaviour, LocksOk, CacheOk, StreamsOk, LogsOk, TimeOk, ReadersOk, BoundOk, LogBytes, Calls, Content,
         Acquired, Finished;
    InvRun(cfg, ss, i);
    var s, th := ss[i], ss[i].threads[t];
    ThreadLocksOf(s, t);
    ReadingOf(s, t);
    KeyLogOf(s, th.job.key);
    assert Calls(Finished(s, th.job.key)) + [] == Calls(Finished(s, th.job.key));
  }

  /** What has been logged stays as it is: a later history extends an earlier one. */
  lemma {:induction false} HistoryGrows(cfg: Config, ss: seq<State>, i: nat, j: nat, k: Key)
    requires Behaviour(cfg, ss) && i <= j < |ss|
    ensures Finished(ss[i], k) <= Finished(ss[j], k)
    decreases j
  {
    hide Inv, Next, Init, Finished;
    if i < j {
      HistoryGrows(cfg, ss, i, j - 1, k);
      InvRun(cfg, ss, j - 1);
      assert Next(cfg, ss[j - 1], ss[j - 1 + 1]);
      HistoryStep(cfg, ss[j - 1], ss[j], k);
    }
  }

  lemma HistoryStep(cfg: Config, s: State, s': State, k: Key)
    requires Inv(cfg, s) && Next(cfg, s, s')
    ensures Finished(s, k) <= Finished(s', k)
  {
    hide Advance, LocksOk, CacheOk, StreamsOk, LogsOk, TimeOk, ReadersOk, BoundOk, Blocked, Faulty;
    if t :| ThreadStep(cfg, s, s', t) {
      if CanAdvance(s, t) && s' == Advance(cfg, s, t) {
        AdvanceHistory(cfg, s, t, k);
      }
    }
  }

  // ---------- progress and resources ----------

  /** No thread tries a mutex it holds, unlocks one it does not hold or uses an absent map entry. */
  lemma NoFault(cfg: Config, ss: seq<State>, i: nat, t: Tid)
    requires Behaviour(cfg, ss) && i < |ss| && t in ss[i].threads
    ensures !Faulty(ss[i], t)
  {
    hide Behaviour, LocksOk, CacheOk, StreamsOk, LogsOk, TimeOk, ReadersOk, BoundOk, Faulty;
    InvRun(cfg, ss, i);
    NeverFaulty(ss[i], t);
  }

  /** While some thread is inside a logger call, some thread can execute its next statement. */
  lemma NoDeadlock(cfg: Config, ss: seq<State>, i: nat, t: Tid) returns (h: Tid)
    requires Behaviour(cfg, ss) && i < |ss| && t in ss[i].threads && !ss[i].threads[t].pc.Idle?
    ensures CanAdvance(ss[i], h)
  {
    hide Behaviour, LocksOk, CacheOk, StreamsOk, LogsOk, TimeOk, ReadersOk, BoundOk, Faulty, Blocked;
    InvRun(cfg, ss, i);
    h := SomeoneUnblocked(ss[i], t);
    NeverFaulty(ss[i], h);
  }

  lemma {:induction false} OpenSize(c: Cache, ids: set<Sid>)
    requires Wired(c) && ids <= c.open.Keys
    ensures |ids| == |set i | i in ids :: c.open[i].key|
    decreases ids
  {
    if ids == {} {
      assert (set i | i in ids :: c.open[i].key) == {};
    } else {
      var i :| i in ids;
      var rest := ids - {i};
      OpenSize(c, rest);
      var ks := set j | j in rest :: c.open[j].key;
      assert c.open[i].key !in ks;
      assert (set j | j in ids :: c.open[j].key) == ks + {c.open[i].key};
    }
  }

  /** At most one open stream per thread and a second one per decoding thread but one, or the limit if that is more. */
  lemma OpenStreamsBounded(cfg: Config, ss: seq<State>, i: nat)
    requires Behaviour(cfg, ss) && i < |ss|
    ensures |ss[i].open| <= Bound(cfg, ss[i])
  {
    hide Behaviour, LocksOk, StreamsOk, LogsOk, TimeOk, ReadersOk, Bound, ScanOk;
    InvRun(cfg, ss, i);
    var s := ss[i];
    FitsWired(CacheOf(s), MgmtPC(s), MgmtKey(s));
    OpenSize(CacheOf(s), s.open.Keys);
    SubsetSize(set j | j in s.open.Keys :: s.open[j].key, s.streams.Keys);
  }

  /** Without decoding threads: the limit or one stream per thread, whichever is more. */
  lemma WritersBounded(cfg: Config, ss: seq<State>, i: nat)
    requires Behaviour(cfg, ss) && i < |ss| && ss[i].threads.Keys !! cfg.decoders
    ensures |ss[i].open| <= if cfg.maxOpen < |ss[i].threads| then |ss[i].threads| else cfg.maxOpen
  {
    hide Behaviour;
    OpenStreamsBounded(cfg, ss, i);
    assert ss[i].threads.Keys * cfg.decoders == {};
  }
}
