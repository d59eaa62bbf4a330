/**
 Runs in which one thread executes the statements of its call one after the other. They are
 the parts of the runs in which the limit on open log files is exceeded.
 */
module LoggerCalls {
  import opened Text
  import opened LogCodec
  import opened LoggerProtocol
  import opened LoggerLocks
  import opened LoggerCache
  import opened LoggerStreams
  import opened LoggerFiles
  import opened LoggerHistory
  import opened LoggerBound
  import opened LoggerTheorems

  const QUERY := LogCall("", "get", true, "")

  ghost predicate Reachable(cfg: Config, start: State, s: State) {
    exists ss :: Behaviour(cfg, ss) && ss[0] == start && ss[|ss| - 1] == s
  }

  lemma ReachableInv(cfg: Config, start: State, s: State)
    requires Reachable(cfg, start, s)
    ensures Inv(cfg, s)
  {
    hide Init, Next, Inv;
    var ss :| Behaviour(cfg, ss) && ss[0] == start && ss[|ss| - 1] == s;
    InvRun(cfg, ss, |ss| - 1);
  }

  lemma ReachableNext(cfg: Config, start: State, s: State, s': State)
    requires Reachable(cfg, start, s) && Next(cfg, s, s')
    ensures Reachable(cfg, start, s')
  {
    hide Init, Next;
    var ss :| Behaviour(cfg, ss) && ss[0] == start && ss[|ss| - 1] == s;
    var more := ss + [s'];
    forall i | 0 <= i < |more| - 1 ensures Next(cfg, more[i], more[i + 1]) {
      assert i < |ss| - 1 ==> Next(cfg, ss[i], ss[i + 1]);
    }
    assert Behaviour(cfg, more);
  }

  /** One more statement of a thread that is not blocked. */
  lemma Go(cfg: Config, start: State, s: State, t: Tid)
    requires Reachable(cfg, start, s) && t in s.threads && !s.threads[t].pc.Idle? && !Blocked(s, t)
    ensures Reachable(cfg, start, Advance(cfg, s, t))
  {
    hide Reachable, Advance, Blocked, Faulty, LocksOk, CacheOk, StreamsOk, LogsOk, TimeOk, ReadersOk, BoundOk;
    ReachableInv(cfg, start, s);
    NeverFaulty(s, t);
    assert ThreadStep(cfg, s, Advance(cfg, s, t), t);
    ReachableNext(cfg, start, s, Advance(cfg, s, t));
  }

  /** What a thread sees of the state, buffers and histories apart. */
  datatype Shape = Shape(job: Job, pc: PC, holding: bool, stream: Sid, mgmt: Option<Tid>, mutex: map<Key, Tid>,
    streams: map<Key, Sid>, used: seq<Key>)

  function ShapeOf(s: State, t: Tid): Shape
    requires t in s.threads
  {
    var th := s.threads[t];
    Shape(th.job, th.pc, th.holding, th.stream, s.mgmt, s.mutex, s.streams, s.used)
  }

  predicate OnlyThread(s: State, s': State, t: Tid) {
    t in s.threads && t in s'.threads && s'.threads == s.threads[t := s'.threads[t]]
  }

  /** From s to s' only the thread has moved, and sees the shape. */
  ghost predicate Ran(cfg: Config, start: State, s: State, s': State, t: Tid, shape: Shape) {
    Reachable(cfg, start, s') && OnlyThread(s, s', t) && ShapeOf(s', t) == shape
  }

  lemma RanThen(cfg: Config, start: State, s: State, q: State, s': State, t: Tid, shape: Shape)
    requires OnlyThread(s, q, t) && Ran(cfg, start, q, s', t, shape)
    ensures Ran(cfg, start, s, s', t, shape)
  {
    hide Reachable;
    assert s.threads[t := q.threads[t]][t := s'.threads[t]] == s.threads[t := s'.threads[t]];
  }

  // ---------- single statements ----------

  lemma Begins(cfg: Config, start: State, s: State, t: Tid, job: Job) returns (s': State)
    requires Reachable(cfg, start, s) && MayBegin(cfg, s, t, job)
    ensures Ran(cfg, start, s, s', t, ShapeOf(s, t).(job := job, pc := if job.LogJob? then WantMgmt else WantKey))
  {
    hide Reachable, Advance;
    s' := Begin(s, t, job);
    assert ThreadStep(cfg, s, s', t);
    ReachableNext(cfg, start, s, s');
  }

  lemma Enters(cfg: Config, start: State, s: State, t: Tid) returns (s': State)
    requires Reachable(cfg, start, s) && t in s.threads && s.threads[t].pc.WantMgmt? && s.mgmt.None?
    ensures Ran(cfg, start, s, s', t, ShapeOf(s, t).(pc := Lookup, mgmt := Some(t)))
  {
    hide Reachable;
    Go(cfg, start, s, t);
    s' := Advance(cfg, s, t);
  }

  lemma Looks(cfg: Config, start: State, s: State, t: Tid) returns (s': State)
    requires Reachable(cfg, start, s) && t in s.threads && s.threads[t].pc.Lookup?
    requires s.threads[t].job.key !in s.streams
    ensures Ran(cfg, start, s, s', t, ShapeOf(s, t).(pc := if |s.streams| >= cfg.maxOpen then Scan(0) else PushKey))
  {
    hide Reachable, At, ShapeOf, OnlyThread;
    Go(cfg, start, s, t);
    s' := Advance(cfg, s, t);
    PlacedShape(s, s, t, PushKey);
    PlacedShape(s, s.(seen := map[]), t, Scan(0));
  }

  lemma PlacedShape(s: State, r: State, t: Tid, pc: PC)
    requires t in s.threads && r.threads == s.threads && r.mgmt == s.mgmt && r.mutex == s.mutex
    requires r.streams == s.streams && r.used == s.used
    ensures OnlyThread(s, At(r, t, s.threads[t], pc), t)
    ensures ShapeOf(At(r, t, s.threads[t], pc), t) == ShapeOf(s, t).(pc := pc)
  {
  }

  lemma Passes(cfg: Config, start: State, s: State, t: Tid, i: nat) returns (s': State)
    requires Reachable(cfg, start, s) && t in s.threads && s.threads[t].pc == Scan(i)
    requires i < |s.used| ==> s.used[i] in s.mutex
    ensures Ran(cfg, start, s, s', t, ShapeOf(s, t).(pc := if i < |s.used| then Scan(i + 1) else PushKey))
  {
    hide Reachable, Seen;
    Go(cfg, start, s, t);
    s' := Advance(cfg, s, t);
  }

  /** Listing the key and opening its stream. */
  lemma Opens(cfg: Config, start: State, s: State, t: Tid) returns (s': State)
    requires Reachable(cfg, start, s) && t in s.threads && s.threads[t].pc.PushKey?
    ensures var k := s.threads[t].job.key;
            && k in s'.streams && s'.streams == s.streams[k := s'.streams[k]]
            && Ran(cfg, start, s, s', t,
                   ShapeOf(s, t).(pc := ReturnStream, used := s.used + [k], streams := s'.streams))
  {
    hide Reachable;
    Go(cfg, start, s, t);
    var q := Advance(cfg, s, t);
    Go(cfg, start, q, t);
    s' := Advance(cfg, q, t);
    RanThen(cfg, start, s, q, s', t, ShapeOf(s', t));
  }

  lemma Takes(cfg: Config, start: State, s: State, t: Tid) returns (s': State)
    requires Reachable(cfg, start, s) && t in s.threads && s.threads[t].pc.ReturnStream?
    requires s.threads[t].job.LogJob? && !s.threads[t].holding && s.threads[t].job.key in s.streams
    ensures Ran(cfg, start, s, s', t,
                ShapeOf(s, t).(pc := WantKey, mgmt := None, stream := s.streams[s.threads[t].job.key]))
  {
    hide Reachable;
    Go(cfg, start, s, t);
    s' := Advance(cfg, s, t);
  }

  lemma Locks(cfg: Config, start: State, s: State, t: Tid) returns (s': State)
    requires Reachable(cfg, start, s) && t in s.threads && s.threads[t].pc.WantKey? && s.threads[t].job.key !in s.mutex
    ensures Ran(cfg, start, s, s', t, ShapeOf(s, t).(pc := if s.threads[t].job.LogJob? then Recheck else WantMgmt,
                                                     holding := true, mutex := s.mutex[s.threads[t].job.key := t]))
  {
    hide Reachable, Acquired;
    Go(cfg, start, s, t);
    s' := Advance(cfg, s, t);
  }

  /** The recheck of a stream that is still open, and the clock. */
  lemma Stamps(cfg: Config, start: State, s: State, t: Tid) returns (s': State)
    requires Reachable(cfg, start, s) && t in s.threads && s.threads[t].pc.Recheck? && s.threads[t].job.LogJob?
    requires s.threads[t].stream in s.open
    ensures Ran(cfg, start, s, s', t, ShapeOf(s, t).(pc := WriteSize))
  {
    hide Reachable;
    Go(cfg, start, s, t);
    var q := Advance(cfg, s, t);
    Go(cfg, start, q, t);
    s' := Advance(cfg, q, t);
  }

  lemma Writes2(cfg: Config, start: State, s: State, t: Tid) returns (s': State)
    requires Reachable(cfg, start, s) && t in s.threads && s.threads[t].pc.WriteSize?
    ensures Ran(cfg, start, s, s', t, ShapeOf(s, t).(pc := UnlockKey))
  {
    hide Reachable, EncodeEntry, LittleEndian;
    Go(cfg, start, s, t);
    var q := Advance(cfg, s, t);
    Go(cfg, start, q, t);
    s' := Advance(cfg, q, t);
  }

  lemma Leaves(cfg: Config, start: State, s: State, t: Tid) returns (s': State)
    requires Reachable(cfg, start, s) && t in s.threads && s.threads[t].pc.UnlockKey?
    ensures Ran(cfg, start, s, s', t,
                ShapeOf(s, t).(pc := Idle, holding := false, mutex := s.mutex - {s.threads[t].job.key}))
  {
    hide Reachable, Finished;
    Go(cfg, start, s, t);
    s' := Advance(cfg, s, t);
  }

  // ---------- parts of calls ----------

  lemma IdleIsFree(cfg: Config, start: State, s: State, t: Tid)
    requires Reachable(cfg, start, s) && t in s.threads && s.threads[t].pc.Idle?
    ensures !s.threads[t].holding
  {
    hide Reachable, LocksOk, CacheOk, StreamsOk, LogsOk, TimeOk, ReadersOk, BoundOk;
    ReachableInv(cfg, start, s);
    ThreadLocksOf(s, t);
  }

  /** An idle thread looks up a key that has no stream. */
  lemma StartCall(cfg: Config, start: State, s: State, t: Tid, k: Key) returns (s': State)
    requires Reachable(cfg, start, s) && t in s.threads && s.threads[t].pc.Idle? && s.mgmt.None? && k !in s.streams
    ensures Ran(cfg, start, s, s', t,
                ShapeOf(s, t).(job := LogJob(k, QUERY), pc := if |s.streams| >= cfg.maxOpen then Scan(0) else PushKey,
                               mgmt := Some(t)))
  {
    hide Reachable;
    s' := Begins(cfg, start, s, t, LogJob(k, QUERY));
    var q := s';
    s' := Enters(cfg, start, q, t);
    RanThen(cfg, start, s, q, s', t, ShapeOf(s', t));
    q := s';
    s' := Looks(cfg, start, q, t);
    RanThen(cfg, start, s, q, s', t, ShapeOf(s', t));
  }

  predicate HasRoom(cfg: Config, s: State) {
    |s.streams| < cfg.maxOpen
  }

  /** While there is room, a call opens the stream of a key and gets its mutex. */
  lemma OpenCall(cfg: Config, start: State, s: State, t: Tid, k: Key) returns (s': State)
    requires Reachable(cfg, start, s) && t in s.threads && s.threads[t].pc.Idle? && s.mgmt.None?
    requires k !in s.streams && k !in s.mutex && HasRoom(cfg, s)
    ensures k in s'.streams && s'.streams == s.streams[k := s'.streams[k]]
    ensures Ran(cfg, start, s, s', t, Shape(LogJob(k, QUERY), Recheck, true, s'.streams[k], None, s.mutex[k := t],
                                            s'.streams, s.used + [k]))
  {
    hide Reachable;
    IdleIsFree(cfg, start, s, t);
    s' := StartCall(cfg, start, s, t, k);
    var q := s';
    s' := Opens(cfg, start, q, t);
    RanThen(cfg, start, s, q, s', t, ShapeOf(s', t));
    q := s';
    s' := Takes(cfg, start, q, t);
    RanThen(cfg, start, s, q, s', t, ShapeOf(s', t));
    q := s';
    s' := Locks(cfg, start, q, t);
    RanThen(cfg, start, s, q, s', t, ShapeOf(s', t));
  }

  /** The mapped streams are open while no eviction has begun. */
  lemma MappedOpen(cfg: Config, start: State, s: State, k: Key)
    requires Reachable(cfg, start, s) && k in s.streams
    requires s.mgmt.None? || (s.mgmt.value in s.threads && s.threads[s.mgmt.value].pc.Scan?)
    ensures s.streams[k] in s.open
  {
    hide Reachable, LocksOk, StreamsOk, LogsOk, TimeOk, ReadersOk, BoundOk, Listed, InOrder;
    ReachableInv(cfg, start, s);
  }

  /** A call that has its key writes its entry and ends. */
  lemma FinishCall(cfg: Config, start: State, s: State, t: Tid) returns (s': State)
    requires Reachable(cfg, start, s) && t in s.threads && s.threads[t].pc.Recheck? && s.threads[t].job.LogJob?
    requires var k := s.threads[t].job.key; k in s.streams && s.streams[k] == s.threads[t].stream
    requires s.mgmt.None? || (s.mgmt.value in s.threads && s.threads[s.mgmt.value].pc.Scan?)
    ensures Ran(cfg, start, s, s', t,
                ShapeOf(s, t).(pc := Idle, holding := false, mutex := s.mutex - {s.threads[t].job.key}))
  {
    hide Reachable;
    MappedOpen(cfg, start, s, s.threads[t].job.key);
    s' := Stamps(cfg, start, s, t);
    var q := s';
    s' := Writes2(cfg, start, q, t);
    RanThen(cfg, start, s, q, s', t, ShapeOf(s', t));
    q := s';
    s' := Leaves(cfg, start, q, t);
    RanThen(cfg, start, s, q, s', t, ShapeOf(s', t));
  }

  /** A decoding thread locks a key before it passes the management mutex. */
  lemma DecodeLocks(cfg: Config, start: State, s: State, t: Tid, k: Key) returns (s': State)
    requires Reachable(cfg, start, s) && t in s.threads && s.threads[t].pc.Idle? && t in cfg.decoders && k !in s.mutex
    ensures Ran(cfg, start, s, s', t, ShapeOf(s, t).(job := DecodeJob(k, 0), pc := WantMgmt, holding := true,
                                                     mutex := s.mutex[k := t]))
  {
    hide Reachable;
    s' := Begins(cfg, start, s, t, DecodeJob(k, 0));
    var q := s';
    s' := Locks(cfg, start, q, t);
    RanThen(cfg, start, s, q, s', t, ShapeOf(s', t));
  }

  /** A scan passes keys that are locked. */
  lemma {:induction false} ScanPast(cfg: Config, start: State, s: State, t: Tid, i: nat, n: nat) returns (s': State)
    requires Reachable(cfg, start, s) && t in s.threads && s.threads[t].pc == Scan(i) && i <= n <= |s.used|
    requires forall j :: i <= j < n ==> s.used[j] in s.mutex
    ensures Ran(cfg, start, s, s', t, ShapeOf(s, t).(pc := Scan(n)))
    decreases n - i
  {
    hide Reachable;
    if i == n {
      s' := s;
    } else {
      var q := Passes(cfg, start, s, t, i);
      s' := ScanPast(cfg, start, q, t, i + 1, n);
      RanThen(cfg, start, s, q, s', t, ShapeOf(s', t));
    }
  }

  /** A scan that has passed all listed keys is followed by opening one stream more. */
  lemma OpenPast(cfg: Config, start: State, s: State, t: Tid) returns (s': State)
    requires Reachable(cfg, start, s) && t in s.threads && s.threads[t].pc == Scan(|s.used|)
    requires s.threads[t].job.key !in s.streams
    ensures Reachable(cfg, start, s') && |s'.open| > |s.streams|
  {
    hide Reachable;
    var q := Passes(cfg, start, s, t, |s.used|);
    s' := Opens(cfg, start, q, t);
    AllOpen(cfg, start, s', t);
    OneMoreKey(s.streams, s.threads[t].job.key, s'.streams[s.threads[t].job.key]);
  }

  lemma OneMoreKey<K, V>(m: map<K, V>, k: K, v: V)
    requires k !in m
    ensures |m[k := v]| == |m| + 1 && m[k := v].Keys == m.Keys + {k}
  {
  }

  lemma AllOpen(cfg: Config, start: State, s: State, t: Tid)
    requires Reachable(cfg, start, s) && t in s.threads && s.threads[t].pc.ReturnStream?
    ensures |s.streams| <= |s.open|
  {
    hide Reachable, LocksOk, StreamsOk, LogsOk, TimeOk, ReadersOk, BoundOk, Listed, InOrder;
    ReachableInv(cfg, start, s);
    ThreadLocksOf(s, t);
    var c := CacheOf(s);
    FitsWired(c, MgmtPC(s), MgmtKey(s));
    OpenSize(c, s.open.Keys);
    var keys := set j | j in s.open.Keys :: s.open[j].key;
    assert forall k :: k in s.streams ==> s.open[s.streams[k]].key in keys;
    SubsetSize(s.streams.Keys, keys);
  }
}
