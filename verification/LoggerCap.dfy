/**
 The limit on open log files is not always kept. When all the threads but one hold keys
 that have streams, and decoding threads change to a second such key while a scan is under
 way, the scan finds no key to evict and a stream is opened all the same. The bound on
 open streams is thereby reached, so that it tells exactly when the limit is kept.
 */
module LoggerCap {
  import opened Text
  import opened LogCodec
  import opened LoggerProtocol
  import opened LoggerLocks
  import opened LoggerCache
  import opened LoggerStreams
  import opened LoggerFiles
  import opened LoggerHistory
  import opened LoggerBound
  import opened LoggerTheorems
  import opened LoggerCalls

  // ---------- keys and threads ----------

  /** A key for each thread. */
  function OwnKey(t: Tid): (k: Key)
    ensures |k.name| == t + 1 && k.name[0] == 'k'
  {
    Key("k" + seq(t, _ => 'k'))
  }

  /** A second one. */
  function Second(t: Tid): (k: Key)
    ensures |k.name| == t + 1 && k.name[0] == 's'
  {
    Key("s" + seq(t, _ => 'k'))
  }

  function OwnKeys(ts: set<Tid>): set<Key> {
    set t | t in ts :: OwnKey(t)
  }

  function SecondKeys(ts: set<Tid>): set<Key> {
    set t | t in ts :: Second(t)
  }

  function Keys(own: set<Tid>, second: set<Tid>): set<Key> {
    OwnKeys(own) + SecondKeys(second)
  }

  lemma InKeys(own: set<Tid>, second: set<Tid>, t: Tid)
    ensures OwnKey(t) in Keys(own, second) <==> t in own
    ensures Second(t) in Keys(own, second) <==> t in second
  {
    assert forall h :: |OwnKey(h).name| == |OwnKey(t).name| ==> h == t;
    assert forall h :: OwnKey(h) != Second(t) && Second(h) != OwnKey(t);
    assert forall h :: |Second(h).name| == |Second(t).name| ==> h == t;
  }

  lemma KeysMore(own: set<Tid>, second: set<Tid>, t: Tid)
    ensures Keys(own + {t}, second) == Keys(own, second) + {OwnKey(t)}
    ensures Keys(own, second + {t}) == Keys(own, second) + {Second(t)}
    ensures Keys(own - {t}, second) == Keys(own, second) - {OwnKey(t)}
  {
    forall h ensures OwnKey(h) == OwnKey(t) <==> h == t { }
    forall h ensures OwnKey(t) != Second(h) { }
  }

  lemma {:induction false} OwnSize(ts: set<Tid>)
    ensures |OwnKeys(ts)| == |ts|
    decreases ts
  {
    if ts == {} {
      assert OwnKeys(ts) == {};
    } else {
      var t :| t in ts;
      OwnSize(ts - {t});
      assert forall h :: |OwnKey(h).name| == |OwnKey(t).name| ==> h == t;
      assert OwnKeys(ts) == OwnKeys(ts - {t}) + {OwnKey(t)};
    }
  }

  lemma {:induction false} SecondSize(ts: set<Tid>)
    ensures |SecondKeys(ts)| == |ts|
    decreases ts
  {
    if ts == {} {
      assert SecondKeys(ts) == {};
    } else {
      var t :| t in ts;
      SecondSize(ts - {t});
      assert forall h :: |Second(h).name| == |Second(t).name| ==> h == t;
      assert SecondKeys(ts) == SecondKeys(ts - {t}) + {Second(t)};
    }
  }

  lemma KeysSize(own: set<Tid>, second: set<Tid>)
    ensures |Keys(own, second)| == |own| + |second|
  {
    OwnSize(own);
    SecondSize(second);
    assert OwnKeys(own) !! SecondKeys(second) by {
      forall k | k in OwnKeys(own) ensures k !in SecondKeys(second) { assert k.name[0] == 'k'; }
    }
  }

  lemma {:induction false} SubsetOfSize(a: set<Tid>, n: nat) returns (b: set<Tid>)
    requires n <= |a|
    ensures b <= a && |b| == n
  {
    if n == 0 {
      b := {};
    } else {
      var t :| t in a;
      b := SubsetOfSize(a - {t}, n - 1);
      b := b + {t};
    }
  }

  // ---------- first, each of some threads opens a stream and keeps its key ----------

  /** The thread has its own key and the open stream of it. */
  predicate Holds(s: State, t: Tid) {
    && t in s.threads && s.threads[t].pc.Recheck? && s.threads[t].job == LogJob(OwnKey(t), QUERY)
    && OwnKey(t) in s.streams && s.streams[OwnKey(t)] == s.threads[t].stream
  }

  /** Some threads hold their key, the others are idle. */
  ghost predicate Holding(s: State, ts: set<Tid>, done: set<Tid>) {
    && s.threads.Keys == ts && done <= ts && s.mgmt.None? && s.mutex.Keys == Keys(done, {})
    && (forall t :: t in done ==> Holds(s, t)) && (forall t :: t in ts - done ==> s.threads[t].pc.Idle?)
  }

  lemma HoldsStill(s: State, s': State, t: Tid, h: Tid, k: Key)
    requires Holds(s, h) && h != t && OnlyThread(s, s', t) && k != OwnKey(h)
    requires s'.streams == s.streams || (k in s'.streams && s'.streams == s.streams[k := s'.streams[k]])
    ensures Holds(s', h)
  {
  }

  lemma StreamCount(s: State, own: set<Tid>, second: set<Tid>)
    requires s.streams.Keys == Keys(own, second)
    ensures |s.streams| == |own| + |second|
  {
    hide Keys;
    KeysSize(own, second);
    assert |s.streams| == |s.streams.Keys|;
  }

  lemma HoldOne(cfg: Config, start: State, s: State, ts: set<Tid>, done: set<Tid>, t: Tid) returns (s': State)
    requires Reachable(cfg, start, s) && Holding(s, ts, done) && s.streams.Keys == Keys(done, {})
    requires t in ts && t !in done && HasRoom(cfg, s)
    ensures Reachable(cfg, start, s') && Holding(s', ts, done + {t}) && s'.streams.Keys == Keys(done + {t}, {})
  {
    hide Reachable, Holds, Keys, HasRoom;
    InKeys(done, {}, t);
    KeysMore(done, {}, t);
    s' := OpenCall(cfg, start, s, t, OwnKey(t));
    assert Holds(s', t) by { NowHolds(s', t); }
    forall h | h in done ensures Holds(s', h) { HoldsStill(s, s', t, h, OwnKey(t)); }
  }

  lemma NowHolds(s: State, t: Tid)
    requires t in s.threads && s.threads[t].pc.Recheck? && s.threads[t].job == LogJob(OwnKey(t), QUERY)
    requires OwnKey(t) in s.streams && s.streams[OwnKey(t)] == s.threads[t].stream
    ensures Holds(s, t)
  {
  }

  lemma FirstRoom(cfg: Config, s: State, done: set<Tid>)
    requires s.streams.Keys == Keys(done, {}) && |done| < cfg.maxOpen
    ensures HasRoom(cfg, s)
  {
    hide Keys;
    StreamCount(s, done, {});
  }

  lemma {:induction false} HoldAll(cfg: Config, start: State, s: State, ts: set<Tid>, done: set<Tid>, rest: set<Tid>)
    returns (s': State)
    requires Reachable(cfg, start, s) && Holding(s, ts, done) && s.streams.Keys == Keys(done, {})
    requires done !! rest && rest <= ts && |done| + |rest| <= cfg.maxOpen
    ensures Reachable(cfg, start, s') && Holding(s', ts, done + rest) && s'.streams.Keys == Keys(done + rest, {})
    decreases rest
  {
    hide Reachable, Holding, Keys, HasRoom;
    if rest == {} {
      assert done + rest == done;
      s' := s;
    } else {
      var t :| t in rest;
      FirstRoom(cfg, s, done);
      s' := HoldOne(cfg, start, s, ts, done, t);
      s' := HoldAll(cfg, start, s', ts, done + {t}, rest - {t});
      assert done + {t} + (rest - {t}) == done + rest;
    }
  }

  // ---------- then one thread opens the streams of the second keys ----------

  /** The list begins with the first keys, and goes on with second ones. */
  ghost predicate ListedAfter(used: seq<Key>, n: nat, second: set<Tid>) {
    n <= |used| && forall j :: n <= j < |used| ==> used[j] in Keys({}, second)
  }

  ghost predicate Seconds(s: State, ts: set<Tid>, own: set<Tid>, first: seq<Key>, second: set<Tid>) {
    && Holding(s, ts, own) && s.streams.Keys == Keys(own, second)
    && |first| <= |s.used| && s.used[..|first|] == first && ListedAfter(s.used, |first|, second)
  }

  lemma SecondOne(cfg: Config, start: State, s: State, ts: set<Tid>, own: set<Tid>, first: seq<Key>, second: set<Tid>,
                  m: Tid, b: Tid) returns (s': State)
    requires Reachable(cfg, start, s) && Seconds(s, ts, own, first, second)
    requires m in ts && m !in own && b !in second && HasRoom(cfg, s)
    ensures Reachable(cfg, start, s') && Seconds(s', ts, own, first, second + {b})
  {
    hide Reachable, Holds, Keys, HasRoom;
    InKeys(own, second, b);
    InKeys(own, {}, b);
    InKeys({}, second + {b}, b);
    KeysMore(own, second, b);
    KeysMore({}, second, b);
    var q := OpenCall(cfg, start, s, m, Second(b));
    s' := FinishCall(cfg, start, q, m);
    RanThen(cfg, start, s, q, s', m, ShapeOf(s', m));
    assert s.mutex[Second(b) := m] - {Second(b)} == s.mutex;
    forall h | h in own ensures Holds(s', h) {
      assert Second(b) != OwnKey(h);
      HoldsStill(s, s', m, h, Second(b));
    }
    assert s'.used == s.used + [Second(b)];
  }

  lemma SecondRoom(cfg: Config, s: State, ts: set<Tid>, own: set<Tid>, first: seq<Key>, second: set<Tid>)
    requires Seconds(s, ts, own, first, second) && |own| + |second| < cfg.maxOpen
    ensures HasRoom(cfg, s)
  {
    hide Holding, ListedAfter, Keys;
    StreamCount(s, own, second);
  }

  lemma {:induction false} SecondAll(cfg: Config, start: State, s: State, ts: set<Tid>, own: set<Tid>, first: seq<Key>,
                                     second: set<Tid>, rest: set<Tid>, m: Tid) returns (s': State)
    requires Reachable(cfg, start, s) && Seconds(s, ts, own, first, second)
    requires m in ts && m !in own && second !! rest && |own| + |second| + |rest| <= cfg.maxOpen
    ensures Reachable(cfg, start, s') && Seconds(s', ts, own, first, second + rest)
    decreases rest
  {
    hide Reachable, Seconds;
    if rest == {} {
      assert second + rest == second;
      s' := s;
    } else {
      var b :| b in rest;
      SecondRoom(cfg, s, ts, own, first, second);
      s' := SecondOne(cfg, start, s, ts, own, first, second, m, b);
      s' := SecondAll(cfg, start, s', ts, own, first, second + {b}, rest - {b}, m);
      assert second + {b} + (rest - {b}) == second + rest;
    }
  }

  // ---------- while it scans, decoding threads change to their second keys ----------

  /** The scan has passed the first keys; some threads have changed from their own key to the second. */
  ghost predicate Changing(s: State, m: Tid, own: set<Tid>, n: nat, second: set<Tid>, changed: set<Tid>) {
    && m in s.threads && m !in own && s.mgmt == Some(m) && s.threads[m].pc == Scan(n)
    && s.threads[m].job == LogJob(OwnKey(m), QUERY)
    && s.streams.Keys == Keys(own, second) && ListedAfter(s.used, n, second)
    && s.mutex.Keys == Keys(own - changed, changed)
    && forall t :: t in own - changed ==> Holds(s, t)
  }

  lemma ChangeOne(cfg: Config, start: State, s: State, m: Tid, own: set<Tid>, n: nat, second: set<Tid>,
                  changed: set<Tid>, b: Tid) returns (s': State)
    requires Reachable(cfg, start, s) && Changing(s, m, own, n, second, changed)
    requires b in own && b !in changed && b in cfg.decoders
    ensures Reachable(cfg, start, s') && Changing(s', m, own, n, second, changed + {b})
  {
    hide Reachable, Keys, ListedAfter;
    InKeys(own - changed, changed, b);
    KeysMore(own - changed, changed, b);
    KeysMore(own - changed - {b}, changed, b);
    assert own - changed - {b} == own - (changed + {b});
    var q := FinishCall(cfg, start, s, b);
    assert Second(b) !in q.mutex;
    s' := DecodeLocks(cfg, start, q, b, Second(b));
    RanThen(cfg, start, s, q, s', b, ShapeOf(s', b));
    forall h | h in own - (changed + {b}) ensures Holds(s', h) {
      assert OwnKey(h) != Second(b);
      HoldsStill(s, s', b, h, Second(b));
    }
  }

  lemma {:induction false} ChangeAll(cfg: Config, start: State, s: State, m: Tid, own: set<Tid>, n: nat,
                                     second: set<Tid>, changed: set<Tid>, rest: set<Tid>) returns (s': State)
    requires Reachable(cfg, start, s) && Changing(s, m, own, n, second, changed)
    requires rest <= own && rest <= cfg.decoders && changed !! rest
    ensures Reachable(cfg, start, s') && Changing(s', m, own, n, second, changed + rest)
    decreases rest
  {
    hide Reachable, Changing;
    if rest == {} {
      assert changed + rest == changed;
      s' := s;
    } else {
      var b :| b in rest;
      s' := ChangeOne(cfg, start, s, m, own, n, second, changed, b);
      s' := ChangeAll(cfg, start, s', m, own, n, second, changed + {b}, rest - {b});
      assert changed + {b} + (rest - {b}) == changed + rest;
    }
  }

  // ---------- the whole run ----------

  lemma ScanOwn(cfg: Config, start: State, s: State, ts: set<Tid>, own: set<Tid>, first: seq<Key>, second: set<Tid>,
                m: Tid)
    returns (s': State)
    requires Reachable(cfg, start, s) && Seconds(s, ts, own, first, second) && m in ts && m !in own
    requires |own| + |second| >= cfg.maxOpen && forall j :: 0 <= j < |first| ==> first[j] in Keys(own, {})
    ensures Reachable(cfg, start, s') && Changing(s', m, own, |first|, second, {})
  {
    hide Reachable, Holds, Keys, ListedAfter;
    InKeys(own, second, m);
    StreamCount(s, own, second);
    var q := StartCall(cfg, start, s, m, OwnKey(m));
    forall j | 0 <= j < |first| ensures q.used[j] in q.mutex { assert s.used[j] == first[j]; }
    s' := ScanPast(cfg, start, q, m, 0, |first|);
    RanThen(cfg, start, s, q, s', m, ShapeOf(s', m));
    assert own - {} == own;
    forall h | h in own ensures Holds(s', h) { HoldsStill(s, s', m, h, Key("")); }
  }

  lemma ScanSecond(cfg: Config, start: State, s: State, m: Tid, own: set<Tid>, n: nat, second: set<Tid>)
    returns (s': State)
    requires Reachable(cfg, start, s) && Changing(s, m, own, n, second, second)
    ensures Reachable(cfg, start, s') && |s'.open| > |own| + |second|
  {
    hide Reachable, Holds;
    forall j | n <= j < |s.used| ensures s.used[j] in s.mutex { assert s.used[j] in Keys({}, second); }
    hide Keys;
    InKeys(own, second, m);
    StreamCount(s, own, second);
    var q := ScanPast(cfg, start, s, m, n, |s.used|);
    s' := OpenPast(cfg, start, q, m);
  }

  /** A process that has not logged anything. */
  function Fresh(ts: set<Tid>): State {
    State(map t | t in ts :: Thread(Idle, LogJob(OwnKey(t), QUERY), false, 0, LogRecord(0, QUERY), []),
          None, map[], map[], [], map[], 1, map[], 0, map[], map[], map[])
  }

  lemma FreshInit(ts: set<Tid>)
    ensures Init(Fresh(ts)) && Holding(Fresh(ts), ts, {}) && Fresh(ts).streams.Keys == Keys({}, {})
  {
    var s := Fresh(ts);
    forall k ensures GoodHistory(Finished(s, k), s.clock) && Disk(s, k) == LogBytes(Finished(s, k))
                     && Acquired(s, k) == Calls(Finished(s, k)) {
      assert Records([]) == [] && Calls([]) == [];
    }
  }

  /** The list holds the mapped keys while the management mutex is free. */
  lemma ListedAll(cfg: Config, start: State, s: State)
    requires Reachable(cfg, start, s) && s.mgmt.None?
    ensures forall k :: k in s.used <==> k in s.streams
  {
    hide Reachable, LocksOk, StreamsOk, LogsOk, TimeOk, ReadersOk, BoundOk, Mapped, InOrder;
    ReachableInv(cfg, start, s);
  }

  /** All threads but one hold streams for their own keys and, if they decode, for second ones: one more is opened. */
  lemma Exceed(cfg: Config, ts: set<Tid>, m: Tid, own: set<Tid>, second: set<Tid>) returns (start: State, s: State)
    requires m in ts && own <= ts - {m} && second <= own * cfg.decoders && |own| + |second| == cfg.maxOpen
    ensures Reachable(cfg, start, s) && start.threads.Keys == ts && |s.open| > cfg.maxOpen
  {
    hide Init, Next, Seconds, Changing;
    FreshInit(ts);
    start := Fresh(ts);
    assert Behaviour(cfg, [start]) && [start][0] == start;
    assert Reachable(cfg, start, start);
    hide Reachable, Holding;
    s := HoldAll(cfg, start, start, ts, {}, own);
    assert {} + own == own;
    var first := s.used;
    OwnListed(cfg, start, s, ts, own);
    s := SecondAll(cfg, start, s, ts, own, first, {}, second, m);
    assert {} + second == second;
    s := ScanOwn(cfg, start, s, ts, own, first, second, m);
    s := ChangeAll(cfg, start, s, m, own, |first|, second, {}, second);
    s := ScanSecond(cfg, start, s, m, own, |first|, second);
  }

  lemma OwnListed(cfg: Config, start: State, s: State, ts: set<Tid>, own: set<Tid>)
    requires Reachable(cfg, start, s) && Holding(s, ts, own) && s.streams.Keys == Keys(own, {})
    ensures Seconds(s, ts, own, s.used, {}) && forall j :: 0 <= j < |s.used| ==> s.used[j] in Keys(own, {})
  {
    hide Reachable, Holds, Keys;
    ListedAll(cfg, start, s);
    assert s.used[..|s.used|] == s.used;
  }

  lemma {:induction false} SameThreads(cfg: Config, ss: seq<State>, i: nat)
    requires Behaviour(cfg, ss) && i < |ss|
    ensures ss[i].threads.Keys == ss[0].threads.Keys
  {
    hide Inv, Init, Next;
    if i > 0 {
      SameThreads(cfg, ss, i - 1);
      InvRun(cfg, ss, i - 1);
      assert Next(cfg, ss[i - 1], ss[i - 1 + 1]);
      ThreadsStep(cfg, ss[i - 1], ss[i]);
    }
  }

  lemma ThreadsStep(cfg: Config, s: State, s': State)
    requires Inv(cfg, s) && Next(cfg, s, s')
    ensures s'.threads.Keys == s.threads.Keys
  {
    hide Advance, LocksOk, CacheOk, StreamsOk, LogsOk, TimeOk, ReadersOk, BoundOk, Blocked, Faulty, ThreadMoved,
         BuffersMoved, FetchMoved;
    if t :| ThreadStep(cfg, s, s', t) {
      if CanAdvance(s, t) && s' == Advance(cfg, s, t) {
        AdvanceMoves(cfg, s, t);
      }
    }
  }

  /** In no run of these threads are more log files open than the limit allows. */
  ghost predicate LimitKept(cfg: Config, ts: set<Tid>) {
    forall ss: seq<State>, i: int :: Behaviour(cfg, ss) && 0 <= i < |ss| && ss[0].threads.Keys == ts ==>
      |ss[i].open| <= cfg.maxOpen
  }

  lemma LimitExceeded(cfg: Config, ts: set<Tid>)
    requires cfg.maxOpen < Peak(|ts|, |ts * cfg.decoders|)
    ensures !LimitKept(cfg, ts)
  {
    hide Init, Next;
    var m := Opener(ts, cfg.decoders);
    var others := ts - {m};
    var own, second: set<Tid> := others, {};
    if cfg.maxOpen <= |others| {
      own := SubsetOfSize(others, cfg.maxOpen);
    } else {
      second := SubsetOfSize(others * cfg.decoders, cfg.maxOpen - |others|);
    }
    var start, s := Exceed(cfg, ts, m, own, second);
    var ss: seq<State> :| Behaviour(cfg, ss) && ss[0] == start && ss[|ss| - 1] == s;
    var last := |ss| - 1;
    assert 0 <= last < |ss| && |ss[last].open| > cfg.maxOpen;
  }

  /** The thread to open the last stream: one that does not decode, if there is one. */
  lemma Opener(ts: set<Tid>, decoders: set<Tid>) returns (m: Tid)
    requires ts != {}
    ensures m in ts && |ts - {m}| + |(ts - {m}) * decoders| + 1 == Peak(|ts|, |ts * decoders|)
  {
    if ts <= decoders {
      m :| m in ts;
      assert ts * decoders == ts && (ts - {m}) * decoders == ts - {m};
    } else {
      m :| m in ts && m !in decoders;
      assert (ts - {m}) * decoders == ts * decoders;
      assert ts * decoders < ts;
      SubsetSize(ts * decoders, ts - {m});
    }
  }

  /**
   The limit on open log files is kept in every run exactly when it allows one file for
   each thread and a second one for each decoding thread, all but one if every thread decodes.
   */
  lemma LimitKeptExactly(cfg: Config, ts: set<Tid>)
    ensures LimitKept(cfg, ts) <==> Peak(|ts|, |ts * cfg.decoders|) <= cfg.maxOpen
  {
    hide Behaviour;
    if Peak(|ts|, |ts * cfg.decoders|) <= cfg.maxOpen {
      forall ss: seq<State>, i: int | Behaviour(cfg, ss) && 0 <= i < |ss| && ss[0].threads.Keys == ts
        ensures |ss[i].open| <= cfg.maxOpen
      {
        SameThreads(cfg, ss, i);
        assert |ss[i].threads| == |ss[i].threads.Keys|;
        OpenStreamsBounded(cfg, ss, i);
      }
    } else {
      LimitExceeded(cfg, ts);
    }
  }
}
