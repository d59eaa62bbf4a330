/**
 Where the time of a log entry comes from: it is what the clock showed while the very call
 that wrote the entry had the mutex of the key and stood at the reading of the clock.
 */
module LoggerStamps {
  import opened Text
  import opened LogCodec
  import opened LoggerProtocol
  import opened LoggerLocks
  import opened LoggerCache
  import opened LoggerStreams
  import opened LoggerFiles
  import opened LoggerHistory
  import opened LoggerBound
  import opened LoggerTheorems

  /** The thread is about to read this clock, as the call that will be the n-th finished one of its key. */
  predicate ReadsClock(s: State, t: Tid, k: Key, e: LogRecord, n: nat) {
    && t in s.threads && s.threads[t].pc.Stamp? && s.threads[t].job == LogJob(k, e.call)
    && k in s.mutex && s.mutex[k] == t
    && s.clock == e.timestamp && |Finished(s, k)| == n
  }

  ghost predicate StampedBefore(ss: seq<State>, j: nat, t: Tid, k: Key, e: LogRecord, n: nat) {
    exists i :: 0 <= i < j && i < |ss| && ReadsClock(ss[i], t, k, e, n)
  }

  ghost predicate ThreadStamp(ss: seq<State>, j: nat, t: Tid)
    requires j < |ss| && t in ss[j].threads
  {
    var th := ss[j].threads[t];
    th.job.LogJob? && LoggerHistory.Stamped(th.pc) ==>
      StampedBefore(ss, j, t, th.job.key, th.record, |Finished(ss[j], th.job.key)|)
  }

  ghost predicate KeyStamps(ss: seq<State>, j: nat, k: Key)
    requires j < |ss|
  {
    forall n :: |Finished(ss[0], k)| <= n < |Finished(ss[j], k)| ==>
      StampedBefore(ss, j, Finished(ss[j], k)[n].0, k, Finished(ss[j], k)[n].1, n)
  }

  ghost predicate StampsOk(ss: seq<State>, j: nat)
    requires j < |ss|
  {
    (forall t :: t in ss[j].threads ==> ThreadStamp(ss, j, t)) && forall k :: KeyStamps(ss, j, k)
  }

  lemma Later(ss: seq<State>, j: nat, t: Tid, k: Key, e: LogRecord, n: nat)
    requires StampedBefore(ss, j, t, k, e, n)
    ensures StampedBefore(ss, j + 1, t, k, e, n)
  {
    hide ReadsClock;
  }

  /** A thread whose record and history are as before. */
  lemma ThreadKept(ss: seq<State>, j: nat, t: Tid)
    requires j + 1 < |ss| && t in ss[j].threads && ThreadStamp(ss, j, t) && t in ss[j + 1].threads
    requires var th, th' := ss[j].threads[t], ss[j + 1].threads[t];
             th'.job.LogJob? && LoggerHistory.Stamped(th'.pc) ==>
               && th'.job == th.job && LoggerHistory.Stamped(th.pc) && th'.record == th.record
               && Finished(ss[j + 1], th.job.key) == Finished(ss[j], th.job.key)
    ensures ThreadStamp(ss, j + 1, t)
  {
    hide StampedBefore, Finished;
    var th := ss[j].threads[t];
    if th.job.LogJob? && LoggerHistory.Stamped(th.pc) {
      Later(ss, j, t, th.job.key, th.record, |Finished(ss[j], th.job.key)|);
    }
  }

  lemma KeyKept(ss: seq<State>, j: nat, k: Key)
    requires j + 1 < |ss| && KeyStamps(ss, j, k) && Finished(ss[j + 1], k) == Finished(ss[j], k)
    ensures KeyStamps(ss, j + 1, k)
  {
    hide StampedBefore, Finished;
    var es := Finished(ss[j], k);
    forall n | |Finished(ss[0], k)| <= n < |es| ensures StampedBefore(ss, j + 1, es[n].0, k, es[n].1, n) {
      Later(ss, j, es[n].0, k, es[n].1, n);
    }
  }

  /** At the end of a call its entry joins the history, as the next one. */
  lemma KeyLonger(ss: seq<State>, j: nat, k: Key, t: Tid, e: LogRecord)
    requires j + 1 < |ss| && KeyStamps(ss, j, k) && Finished(ss[j + 1], k) == Finished(ss[j], k) + [(t, e)]
    requires StampedBefore(ss, j, t, k, e, |Finished(ss[j], k)|)
    ensures KeyStamps(ss, j + 1, k)
  {
    hide StampedBefore, Finished;
    var es, more := Finished(ss[j], k), Finished(ss[j + 1], k);
    forall n | |Finished(ss[0], k)| <= n < |more| ensures StampedBefore(ss, j + 1, more[n].0, k, more[n].1, n) {
      Later(ss, j, more[n].0, k, more[n].1, n);
    }
  }

  /** Reading the clock. */
  lemma JustStamped(cfg: Config, ss: seq<State>, j: nat, t: Tid)
    requires j + 1 < |ss| && LocksOk(ss[j]) && CanAdvance(ss[j], t) && ss[j + 1] == Advance(cfg, ss[j], t)
    requires ss[j].threads[t].pc.Stamp?
    ensures t in ss[j + 1].threads && ThreadStamp(ss, j + 1, t)
  {
    ThreadLocksOf(ss[j], t);
    hide LocksOk, CanAdvance;
    var th, th' := ss[j].threads[t], ss[j + 1].threads[t];
    assert ReadsClock(ss[j], t, th'.job.key, th'.record, |Finished(ss[j + 1], th'.job.key)|);
  }

  /** Two threads that have the mutex of a key are one. */
  lemma OneHolder(s: State, t: Tid, h: Tid)
    requires LocksOk(s) && t in s.threads && h in s.threads && s.threads[t].job.key == s.threads[h].job.key
    requires WithKey(s.threads[t].pc) && WithKey(s.threads[h].pc)
    ensures t == h
  {
    ThreadLocksOf(s, t);
    ThreadLocksOf(s, h);
  }

  lemma AdvanceStamps(cfg: Config, ss: seq<State>, j: nat, t: Tid)
    requires j + 1 < |ss| && LocksOk(ss[j]) && StampsOk(ss, j) && CanAdvance(ss[j], t)
    requires ss[j + 1] == Advance(cfg, ss[j], t)
    ensures StampsOk(ss, j + 1)
  {
    hide Advance, LocksOk, CanAdvance, Finished, StampedBefore, ThreadStamp, KeyStamps, BuffersMoved, FetchMoved;
    var s, s', next := ss[j], ss[j + 1], j + 1;
    Inside(s, t);
    AdvanceMoves(cfg, s, t);
    ThreadLocksOf(s, t);
    forall k ensures KeyStamps(ss, next, k) {
      AdvanceHistory(cfg, s, t, k);
      assert KeyStamps(ss, j, k) && ThreadStamp(ss, j, t);
      if s.threads[t].pc.UnlockKey? && s.threads[t].job.LogJob? && k == s.threads[t].job.key {
        StampOf(ss, j, t);
        KeyLonger(ss, j, k, t, s.threads[t].record);
      } else {
        KeyKept(ss, j, k);
      }
    }
    forall h | h in s'.threads ensures ThreadStamp(ss, next, h) {
      AdvanceHistory(cfg, s, t, s.threads[h].job.key);
      assert ThreadStamp(ss, j, h);
      if h == t && s.threads[t].pc.Stamp? {
        JustStamped(cfg, ss, j, t);
      } else {
        if h != t && LoggerHistory.Stamped(s.threads[h].pc) && s.threads[t].pc.UnlockKey?
           && s.threads[h].job.key == s.threads[t].job.key {
          OneHolder(s, t, h);
        }
        ThreadKept(ss, j, h);
      }
    }
  }

  lemma StampOf(ss: seq<State>, j: nat, t: Tid)
    requires j < |ss| && t in ss[j].threads && ThreadStamp(ss, j, t)
    requires ss[j].threads[t].job.LogJob? && ss[j].threads[t].pc.UnlockKey?
    ensures StampedBefore(ss, j, t, ss[j].threads[t].job.key, ss[j].threads[t].record,
                          |Finished(ss[j], ss[j].threads[t].job.key)|)
  {
  }

  /** A step that neither stamps nor finishes. */
  lemma QuietStamps(ss: seq<State>, j: nat)
    requires j + 1 < |ss| && StampsOk(ss, j) && ss[j + 1].finished == ss[j].finished
    requires ss[j + 1].threads.Keys == ss[j].threads.Keys
    requires forall t :: t in ss[j].threads ==>
               ss[j + 1].threads[t] == ss[j].threads[t] || !LoggerHistory.Stamped(ss[j + 1].threads[t].pc)
    ensures StampsOk(ss, j + 1)
  {
    hide StampedBefore, ThreadStamp, KeyStamps;
    var next := j + 1;
    forall k ensures KeyStamps(ss, next, k) {
      assert KeyStamps(ss, j, k);
      KeyKept(ss, j, k);
    }
    forall t | t in ss[next].threads ensures ThreadStamp(ss, next, t) {
      assert ThreadStamp(ss, j, t);
      ThreadKept(ss, j, t);
    }
  }

  lemma {:induction false} StampsRun(cfg: Config, ss: seq<State>, j: nat)
    requires Behaviour(cfg, ss) && j < |ss|
    ensures StampsOk(ss, j)
  {
    hide Inv, Next, StampsOk;
    if j == 0 {
      StampsInit(ss);
    } else {
      StampsRun(cfg, ss, j - 1);
      InvRun(cfg, ss, j - 1);
      assert Next(cfg, ss[j - 1], ss[j - 1 + 1]);
      StampsStep(cfg, ss, j - 1);
    }
  }

  lemma StampsInit(ss: seq<State>)
    requires |ss| > 0 && Init(ss[0])
    ensures StampsOk(ss, 0)
  {
  }

  lemma StampsStep(cfg: Config, ss: seq<State>, j: nat)
    requires j + 1 < |ss| && Inv(cfg, ss[j]) && Next(cfg, ss[j], ss[j + 1]) && StampsOk(ss, j)
    ensures StampsOk(ss, j + 1)
  {
    hide StampsOk, Advance, LocksOk, CacheOk, StreamsOk, LogsOk, TimeOk, ReadersOk, BoundOk, Blocked, Faulty;
    var s, s' := ss[j], ss[j + 1];
    if t :| ThreadStep(cfg, s, s', t) {
      if CanAdvance(s, t) && s' == Advance(cfg, s, t) {
        AdvanceStamps(cfg, ss, j, t);
      } else {
        QuietStamps(ss, j);
      }
    } else {
      QuietStamps(ss, j);
    }
  }

  /**
   The time of every entry is what the clock showed while this very call, as the next to
   finish on its key, had the mutex of the key and was about to read the clock.
   */
  lemma StampIsClock(cfg: Config, ss: seq<State>, j: nat, k: Key, n: nat) returns (i: nat)
    requires Behaviour(cfg, ss) && j < |ss| && |Finished(ss[0], k)| <= n < |Finished(ss[j], k)|
    ensures i < j
    ensures var (t, e) := Finished(ss[j], k)[n];
            && ss[i].clock == e.timestamp && |Finished(ss[i], k)| == n
            && k in ss[i].mutex && ss[i].mutex[k] == t
            && t in ss[i].threads && ss[i].threads[t].pc.Stamp? && ss[i].threads[t].job == LogJob(k, e.call)
  {
    hide Behaviour, Finished, ThreadStamp;
    StampsRun(cfg, ss, j);
    assert KeyStamps(ss, j, k);
    i :| 0 <= i < j && i < |ss| && ReadsClock(ss[i], Finished(ss[j], k)[n].0, k, Finished(ss[j], k)[n].1, n);
  }
}
