/**
 Calls come to an end: under any scheduling, if no further calls begin, every call in
 progress is finished after finitely many statements, although a thread may have to fetch
 its stream twice and scans and logs may be of any length.
 */
module LoggerProgress {
  import opened Text
  import opened LogCodec
  import opened LoggerProtocol
  import opened LoggerLocks
  import opened LoggerCache
  import opened LoggerStreams
  import opened LoggerFiles
  import opened LoggerHistory
  import opened LoggerBound
  import opened LoggerTheorems
  import opened LoggerGrowth

  /** How far a thread is from the end of its call, loops apart. */
  function Rank(th: Thread): nat {
    match th.pc
    case Idle => 0
    case UnlockKey => 1
    case ReadFrame(_) => 2
    case WriteBody => 2
    case Flush => 3
    case WriteSize => 3
    case Stamp => 4
    case Recheck => 15
    case WantKey => 16
    case _ => FetchRank(th.pc) + if th.holding then 0 else 12
  }

  function FetchRank(pc: PC): nat {
    match pc
    case ReturnStream => 5
    case OpenFile => 6
    case PushKey => 7
    case UnlockVictim(_) => 8
    case EraseMap(_) => 9
    case EraseList(_) => 10
    case CloseStream(_) => 11
    case Scan(_) => 12
    case Lookup => 13
    case _ => 14
  }

  /** What is left of the loop the thread is in: keys to try, or bytes of the file to read. */
  function Left(s: State, th: Thread): nat {
    match th.pc
    case Scan(i) => if i <= |s.used| then |s.used| - i else 0
    case ReadFrame(pos) => if pos <= |Disk(s, th.job.key)| then |Disk(s, th.job.key)| - pos else 0
    case _ => 0
  }

  function RankSum(s: State, n: nat): nat {
    if n == 0 then 0 else RankSum(s, n - 1) + if n - 1 in s.threads then Rank(s.threads[n - 1]) else 0
  }

  function LeftSum(s: State, n: nat): nat {
    if n == 0 then 0 else LeftSum(s, n - 1) + if n - 1 in s.threads then Left(s, s.threads[n - 1]) else 0
  }

  lemma {:induction false} RankSumMoves(s: State, s': State, t: Tid, n: nat)
    requires t in s.threads && t in s'.threads && s'.threads == s.threads[t := s'.threads[t]]
    ensures RankSum(s', n) + (if t < n then Rank(s.threads[t]) else 0)
         == RankSum(s, n) + (if t < n then Rank(s'.threads[t]) else 0)
  {
    hide Rank;
    if n > 0 {
      RankSumMoves(s, s', t, n - 1);
    }
  }

  lemma {:induction false} LeftSumMoves(s: State, s': State, t: Tid, n: nat)
    requires t in s.threads && t in s'.threads && s'.threads == s.threads[t := s'.threads[t]]
    requires s'.used == s.used && s'.disk == s.disk
    ensures LeftSum(s', n) + (if t < n then Left(s, s.threads[t]) else 0)
         == LeftSum(s, n) + (if t < n then Left(s', s'.threads[t]) else 0)
  {
    if n > 0 {
      LeftSumMoves(s, s', t, n - 1);
      SameLeft(s, s', n - 1);
      hide Left;
    }
  }

  lemma SameLeft(s: State, s': State, h: Tid)
    requires s'.used == s.used && s'.disk == s.disk
    ensures h in s.threads ==> Left(s', s.threads[h]) == Left(s, s.threads[h])
  {
  }

  // ---------- every statement makes progress ----------

  /** The statements that go round a loop once more. */
  predicate Turns(s: State, th: Thread) {
    || (th.pc.Scan? && th.pc.i < |s.used| && s.used[th.pc.i] in s.mutex)
    || (th.pc.ReadFrame? && th.pc.pos + 8 <= |Disk(s, th.job.key)|)
  }

  ghost predicate Progress(s: State, s': State, t: Tid)
    requires t in s.threads
  {
    && t in s'.threads && s'.threads == s.threads[t := s'.threads[t]]
    && if Turns(s, s.threads[t]) then
         && Rank(s'.threads[t]) == Rank(s.threads[t]) && s'.used == s.used && s'.disk == s.disk
         && Left(s', s'.threads[t]) < Left(s, s.threads[t])
       else Rank(s'.threads[t]) < Rank(s.threads[t])
  }

  lemma PlaceProgress(s: State, r: State, t: Tid, th: Thread, pc: PC)
    requires t in s.threads && r.threads == s.threads && !Turns(s, s.threads[t])
    requires Rank(th.(pc := pc)) < Rank(s.threads[t])
    ensures Progress(s, At(r, t, th, pc), t)
  {
    hide Rank, Turns;
  }

  lemma FetchProgress(cfg: Config, s: State, t: Tid)
    requires t in s.threads && s.threads[t].pc.Lookup?
    ensures Progress(s, LookupKey(cfg, s, t, s.threads[t]), t)
  {
    hide At, Progress;
    var th := s.threads[t];
    PlaceProgress(s, s, t, th, ReturnStream);
    PlaceProgress(s, s.(seen := map[]), t, th, Scan(0));
    PlaceProgress(s, s, t, th, PushKey);
  }

  lemma ScanProgress(s: State, t: Tid, i: nat)
    requires t in s.threads && s.threads[t].pc == Scan(i)
    ensures Progress(s, TryVictim(s, t, s.threads[t], i), t)
  {
    hide Seen, At, Progress;
    var th := s.threads[t];
    if i >= |s.used| {
      PlaceProgress(s, s, t, th, PushKey);
    } else if s.used[i] !in s.mutex {
      PlaceProgress(s, s.(mutex := s.mutex[s.used[i] := t]), t, th, CloseStream(i));
    } else {
      var h := s.mutex[s.used[i]];
      TurnProgress(s, s.(seen := s.seen[h := Seen(s, h) + {s.used[i]}]), t, i);
    }
  }

  lemma TurnProgress(s: State, r: State, t: Tid, i: nat)
    requires t in s.threads && s.threads[t].pc == Scan(i) && i < |s.used| && s.used[i] in s.mutex
    requires r.threads == s.threads && r.used == s.used && r.disk == s.disk
    ensures Progress(s, At(r, t, s.threads[t], Scan(i + 1)), t)
  {
  }

  lemma CloseProgress(s: State, t: Tid, i: nat)
    requires CanAdvance(s, t) && s.threads[t].pc == CloseStream(i)
    ensures Progress(s, CloseVictim(s, t, s.threads[t], i), t)
  {
    hide Disk, At, Progress;
    ClosedLocks(s, s.streams[s.used[i]]);
    hide Closed;
    PlaceProgress(s, Closed(s, s.streams[s.used[i]]), t, s.threads[t], EraseList(i));
  }

  lemma EvictProgress(cfg: Config, s: State, t: Tid)
    requires CanAdvance(s, t)
    requires var pc := s.threads[t].pc; pc.EraseList? || pc.EraseMap? || pc.UnlockVictim? || pc.PushKey? || pc.OpenFile?
    ensures Progress(s, Advance(cfg, s, t), t)
  {
    hide At, Progress;
    var th := s.threads[t];
    match th.pc {
      case EraseList(i) => PlaceProgress(s, s.(used := s.used[..i] + s.used[i + 1..]), t, th, EraseMap(s.used[i]));
      case EraseMap(v) => PlaceProgress(s, s.(streams := s.streams - {v}), t, th, UnlockVictim(v));
      case UnlockVictim(v) => PlaceProgress(s, s.(mutex := s.mutex - {v}), t, th, PushKey);
      case PushKey => PlaceProgress(s, s.(used := s.used + [th.job.key]), t, th, OpenFile);
      case OpenFile =>
        var k := th.job.key;
        PlaceProgress(s, s.(streams := s.streams[k := s.next], open := s.open[s.next := Stream(k, "")],
                            next := s.next + 1), t, th, ReturnStream);
    }
  }

  lemma QuietProgress(cfg: Config, s: State, t: Tid)
    requires CanAdvance(s, t) && Consistent(s.threads[t])
    requires var pc := s.threads[t].pc; pc.WantMgmt? || pc.ReturnStream? || pc.Recheck? || pc.Stamp?
    ensures Progress(s, Advance(cfg, s, t), t)
  {
    hide At, Progress;
    var th := s.threads[t];
    match th.pc {
      case WantMgmt => PlaceProgress(s, s.(mgmt := Some(t)), t, th, Lookup);
      case ReturnStream =>
        PlaceProgress(s, s.(mgmt := None), t, th.(stream := s.streams[th.job.key]),
                      if th.job.DecodeJob? then Flush else if th.holding then Stamp else WantKey);
      case Recheck => PlaceProgress(s, s, t, th, if th.stream in s.open then Stamp else WantMgmt);
      case Stamp => PlaceProgress(s, s, t, th.(record := LogRecord(s.clock, th.job.call)), WriteSize);
    }
  }

  lemma LockProgress(s: State, t: Tid)
    requires t in s.threads && s.threads[t].pc.WantKey?
    ensures Progress(s, LockKey(s, t, s.threads[t]), t)
  {
    hide Acquired;
  }

  lemma WriteProgress(s: State, t: Tid, bytes: string)
    requires t in s.threads && Writes(s.threads[t].pc)
    ensures var th := s.threads[t];
            Progress(s, At(WrittenTo(s, th.stream, bytes), t, th, if th.pc.WriteSize? then WriteBody else UnlockKey), t)
  {
    hide At, Progress;
    var th := s.threads[t];
    PlaceProgress(s, WrittenTo(s, th.stream, bytes), t, th, if th.pc.WriteSize? then WriteBody else UnlockKey);
  }

  lemma FlushProgress(s: State, t: Tid)
    requires t in s.threads && s.threads[t].pc.Flush?
    ensures Progress(s, FlushStream(s, t, s.threads[t]), t)
  {
    hide At, Progress, Disk;
    var th := s.threads[t];
    if th.stream in s.open {
      PlaceProgress(s, Drained(s, th.stream, |s.open[th.stream].buffer|), t, th, ReadFrame(0));
    } else {
      PlaceProgress(s, s, t, th, UnlockKey);
    }
  }

  lemma ReadProgress(s: State, t: Tid, pos: nat)
    requires t in s.threads && s.threads[t].pc == ReadFrame(pos)
    ensures Progress(s, ReadEntry(s, t, s.threads[t], pos), t)
  {
    hide LittleEndianValue, EntryAt;
    var th, file := s.threads[t], Disk(s, s.threads[t].job.key);
    if pos + 8 > |file| {
      PlaceProgress(s, s, t, th, UnlockKey);
    } else {
      var size := LittleEndianValue(file[pos..pos + 8]);
      var s' := ReadEntry(s, t, th, pos);
      assert s'.disk == s.disk && Disk(s', th.job.key) == file;
    }
  }

  lemma LeaveProgress(s: State, t: Tid)
    requires t in s.threads && s.threads[t].pc.UnlockKey?
    ensures Progress(s, Leave(s, t, s.threads[t]), t)
  {
    hide Finished;
  }

  lemma AdvanceProgress(cfg: Config, s: State, t: Tid)
    requires LocksOk(s) && CanAdvance(s, t)
    ensures Progress(s, Advance(cfg, s, t), t)
  {
    hide LocksOk, Progress, At, WrittenTo, LookupKey, TryVictim, CloseVictim, UnlistVictim, UnmapVictim, CanAdvance,
         ReleaseVictim, ListKey, OpenStream, TakeStream, LockKey, EncodeNow, FlushStream, ReadEntry, Leave,
         LittleEndian, EncodeEntry;
    Inside(s, t);
    ThreadLocksOf(s, t);
    match s.threads[t].pc {
      case Lookup => FetchProgress(cfg, s, t);
      case Scan(i) => ScanProgress(s, t, i);
      case CloseStream(i) => CloseProgress(s, t, i);
      case EraseList(_) | EraseMap(_) | UnlockVictim(_) | PushKey | OpenFile => EvictProgress(cfg, s, t);
      case WantKey => LockProgress(s, t);
      case WriteSize => WriteProgress(s, t, LittleEndian(|EncodeEntry(s.threads[t].record)|, 8));
      case WriteBody => WriteProgress(s, t, EncodeEntry(s.threads[t].record));
      case Flush => FlushProgress(s, t);
      case ReadFrame(pos) => ReadProgress(s, t, pos);
      case UnlockKey => LeaveProgress(s, t);
      case _ => QuietProgress(cfg, s, t);
    }
  }

  // ---------- no run goes on for ever ----------

  /** Some thread executes a statement of the call it is in. */
  ghost predicate Works(cfg: Config, s: State, s': State) {
    exists t :: t in s.threads && CanAdvance(s, t) && s' == Advance(cfg, s, t)
  }

  predicate AllIdle(s: State) {
    forall t :: t in s.threads ==> s.threads[t].pc.Idle?
  }

  ghost predicate NumbersBelow(s: State, n: nat) {
    forall t :: t in s.threads ==> t < n
  }

  lemma {:induction false} NumberAbove(ts: set<Tid>) returns (n: nat)
    ensures forall t :: t in ts ==> t < n
    decreases ts
  {
    n := 0;
    if ts != {} {
      var t :| t in ts;
      var m := NumberAbove(ts - {t});
      n := if m <= t then t + 1 else m;
      assert forall h :: h in ts ==> h == t || h in ts - {t};
    }
  }

  lemma WorkProgress(cfg: Config, s: State, s': State, n: nat)
    requires Inv(cfg, s) && Works(cfg, s, s') && NumbersBelow(s, n)
    ensures Inv(cfg, s') && NumbersBelow(s', n)
    ensures RankSum(s', n) < RankSum(s, n) || (RankSum(s', n) == RankSum(s, n) && LeftSum(s', n) < LeftSum(s, n))
  {
    hide CanAdvance, Advance, LocksOk, CacheOk, StreamsOk, LogsOk, TimeOk, ReadersOk, Rank, Left, Turns;
    var t :| t in s.threads && CanAdvance(s, t) && s' == Advance(cfg, s, t);
    InvAdvance(cfg, s, t);
    AdvanceProgress(cfg, s, t);
    RankSumMoves(s, s', t, n);
    if Turns(s, s.threads[t]) {
      LeftSumMoves(s, s', t, n);
    }
  }

  // ---------- what happens between statements ----------

  /** Time passes, or the library moves bytes from a buffer to its file; possibly nothing changes. */
  ghost predicate Background(s: State, s': State) {
    Tick(s, s') || exists sid, n :: Spill(s, s', sid, n)
  }

  /** The file a decoder is reading does not change: the buffer of its stream is empty. */
  lemma SpillLeft(s: State, s': State, sid: Sid, n: nat, t: Tid)
    requires LocksOk(s) && CacheOk(s) && StreamsOk(s) && ReadersOk(s) && Spill(s, s', sid, n) && t in s.threads
    ensures Left(s', s.threads[t]) == Left(s, s.threads[t])
  {
    hide LocksOk, CacheOk, StreamsOk, ReadersOk, ReadSoFar, Entries;
    ThreadLocksOf(s, t);
    StreamOf(s, t);
    ReadingOf(s, t);
    CacheWired(s);
    var th := s.threads[t];
    if th.pc.ReadFrame? {
      assert Disk(s, th.job.key) + "" == Disk(s, th.job.key);
      assert s.open[sid].key == th.job.key ==> sid == th.stream && s.open[sid].buffer[..n] == "";
    }
  }

  lemma {:induction false} SumsSame(s: State, s': State, n: nat)
    requires s'.threads == s.threads && forall t :: t in s.threads ==> Left(s', s.threads[t]) == Left(s, s.threads[t])
    ensures RankSum(s', n) == RankSum(s, n) && LeftSum(s', n) == LeftSum(s, n)
  {
    hide Rank, Left;
    if n > 0 {
      SumsSame(s, s', n - 1);
    }
  }

  lemma BackgroundKeeps(cfg: Config, s: State, s': State, n: nat)
    requires Inv(cfg, s) && Background(s, s') && NumbersBelow(s, n)
    ensures Inv(cfg, s') && NumbersBelow(s', n)
    ensures RankSum(s', n) == RankSum(s, n) && LeftSum(s', n) == LeftSum(s, n)
  {
    hide LocksOk, CacheOk, StreamsOk, LogsOk, TimeOk, ReadersOk, Rank, Left, Disk;
    if Tick(s, s') {
      InvTick(cfg, s, s');
      forall t | t in s.threads ensures Left(s', s.threads[t]) == Left(s, s.threads[t]) { SameLeft(s, s', t); }
    } else {
      var sid, m :| Spill(s, s', sid, m);
      InvSpill(cfg, s, s', sid, m);
      forall t | t in s.threads ensures Left(s', s.threads[t]) == Left(s, s.threads[t]) {
        SpillLeft(s, s', sid, m, t);
      }
    }
    SumsSame(s, s', n);
  }

  // ---------- under every scheduling all calls finish ----------

  /** A step without a new call. */
  ghost predicate Proceeds(cfg: Config, s: State, s': State) {
    Works(cfg, s, s') || Background(s, s')
  }

  /** At this point of the run every call is finished, or some thread executes a statement. */
  ghost predicate Served(cfg: Config, f: nat -> State, j: nat) {
    AllIdle(f(j)) || Works(cfg, f(j), f(j + 1))
  }

  ghost predicate ServedAfter(cfg: Config, f: nat -> State, j: nat) {
    exists m: nat :: m >= j && Served(cfg, f, m)
  }

  /** From a point on no call begins, and statements are executed again and again while there are calls. */
  ghost predicate WindsDown(cfg: Config, f: nat -> State, i: nat) {
    && (forall j: nat :: j >= i ==> Proceeds(cfg, f(j), f(j + 1)))
    && (forall j: nat :: j >= i ==> ServedAfter(cfg, f, j))
  }

  /**
   Under every scheduling, with time and buffers moving between statements as they like, a
   run in which no further calls begin comes to a state where every call is finished.
   */
  lemma {:induction false} AllCallsFinish(cfg: Config, f: nat -> State, i: nat, n: nat, next: nat) returns (end: nat)
    requires Inv(cfg, f(i)) && NumbersBelow(f(i), n) && WindsDown(cfg, f, i)
    requires next >= i && Served(cfg, f, next)
    ensures end >= i && AllIdle(f(end))
    decreases RankSum(f(i), n), LeftSum(f(i), n), next - i
  {
    hide Inv, Works, Background, AllIdle, NumbersBelow;
    if AllIdle(f(i)) {
      end := i;
    } else if Works(cfg, f(i), f(i + 1)) {
      WorkProgress(cfg, f(i), f(i + 1), n);
      assert ServedAfter(cfg, f, i + 1);
      var m: nat :| m >= i + 1 && Served(cfg, f, m);
      end := AllCallsFinish(cfg, f, i + 1, n, m);
    } else {
      assert Proceeds(cfg, f(i), f(i + 1));
      BackgroundKeeps(cfg, f(i), f(i + 1), n);
      end := AllCallsFinish(cfg, f, i + 1, n, next);
    }
  }

  /** An infinite run; a step of `Tick` may leave everything as it is. */
  ghost predicate EndlessRun(cfg: Config, f: nat -> State) {
    Init(f(0)) && forall j: nat :: Next(cfg, f(j), f(j + 1))
  }

  lemma {:induction false} InvAlong(cfg: Config, f: nat -> State, i: nat)
    requires EndlessRun(cfg, f)
    ensures Inv(cfg, f(i))
  {
    hide Inv, Init, Next;
    if i == 0 {
      InvInit(cfg, f(0));
    } else {
      InvAlong(cfg, f, i - 1);
      assert Next(cfg, f(i - 1), f(i - 1 + 1));
      InvStep(cfg, f(i - 1), f(i));
    }
  }

  /** Every run in which finitely many calls begin comes to a state where all of them are finished. */
  lemma CallsFinish(cfg: Config, f: nat -> State, last: nat) returns (end: nat)
    requires EndlessRun(cfg, f) && WindsDown(cfg, f, last)
    ensures end >= last && AllIdle(f(end))
  {
    hide Inv, Served, Proceeds, AllIdle, EndlessRun;
    InvAlong(cfg, f, last);
    var n := NumberAbove(f(last).threads.Keys);
    assert ServedAfter(cfg, f, last);
    var next: nat :| next >= last && Served(cfg, f, next);
    end := AllCallsFinish(cfg, f, last, n, next);
  }

  /** Such a run never gets stuck: while a thread is inside a call, some statement can be executed. */
  lemma WorkGoesOn(cfg: Config, s: State) returns (s': State)
    requires Inv(cfg, s) && !AllIdle(s)
    ensures Works(cfg, s, s')
  {
    hide LocksOk, CacheOk, StreamsOk, LogsOk, TimeOk, ReadersOk, Blocked, Faulty, Advance;
    var t :| t in s.threads && !s.threads[t].pc.Idle?;
    var h := SomeoneUnblocked(s, t);
    NeverFaulty(s, h);
    s' := Advance(cfg, s, h);
  }
}
