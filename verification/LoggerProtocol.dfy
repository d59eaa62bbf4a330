/**
 The log manager of logger.hpp as a system of threads that share a map of open log
 streams, the list of opened keys in order of opening, one mutex per key, and one mutex
 for the map and the list. A thread's program counter names the statement it is about to
 execute; a step executes that statement.

 Bytes written to a stream stay in its buffer until the stream is flushed or closed; the
 C++ library may also move a part of the buffer to the file on its own.
 */
module LoggerProtocol {
  import opened Text
  import opened Numbers
  import opened LogCodec

  datatype Key = Key(name: string)
  type Tid = nat
  type Sid = nat

  datatype Job = LogJob(key: Key, call: LogCall) | DecodeJob(key: Key, threshold: int)

  datatype PC =
    | Idle
    | WantMgmt              // waits for the management mutex
    | Lookup                // looks its key up in the map
    | Scan(i: nat)          // tries the mutex of the i-th listed key
    | CloseStream(i: nat)   // has that mutex
    | EraseList(i: nat)
    | EraseMap(victim: Key)
    | UnlockVictim(victim: Key)
    | PushKey
    | OpenFile
    | ReturnStream          // takes the stream and leaves the management mutex
    | WantKey               // waits for the mutex of its key
    | Recheck               // is the stream it holds still open?
    | Stamp                 // reads the clock and encodes the entry
    | WriteSize
    | WriteBody
    | Flush
    | ReadFrame(pos: nat)
    | UnlockKey

  /** `holding`: the thread has the mutex of its own key. `got`: entries read so far. */
  datatype Thread = Thread(pc: PC, job: Job, holding: bool, stream: Sid, record: LogRecord, got: seq<string>)

  datatype Stream = Stream(key: Key, buffer: string)

  /**
   The last three components only record history: the log calls in the order they got the
   key's mutex, the finished ones with what they wrote, and the locked keys that the
   eviction scan in progress has met, by the thread that held them.
   */
  datatype State = State(
    threads: map<Tid, Thread>,
    mgmt: Option<Tid>,
    mutex: map<Key, Tid>,
    streams: map<Key, Sid>,
    used: seq<Key>,
    open: map<Sid, Stream>,
    next: Sid,
    disk: map<Key, string>,
    clock: int,
    acquired: map<Key, seq<(Tid, LogCall)>>,
    finished: map<Key, seq<(Tid, LogRecord)>>,
    seen: map<Tid, set<Key>>)

  /** The bound on open files, and the threads that may also decode logs. */
  datatype Config = Config(maxOpen: nat, decoders: set<Tid>)

  function Disk(s: State, k: Key): string {
    if k in s.disk then s.disk[k] else ""
  }

  function Acquired(s: State, k: Key): seq<(Tid, LogCall)> {
    if k in s.acquired then s.acquired[k] else []
  }

  function Finished(s: State, k: Key): seq<(Tid, LogRecord)> {
    if k in s.finished then s.finished[k] else []
  }

  function Seen(s: State, t: Tid): set<Key> {
    if t in s.seen then s.seen[t] else {}
  }

  /** What has been written to the log of a key: its file and the buffer of its open stream. */
  function Content(s: State, k: Key): string {
    Disk(s, k) + (if k in s.streams && s.streams[k] in s.open then s.open[s.streams[k]].buffer else "")
  }

  // ---------- the statements ----------

  function At(s: State, t: Tid, th: Thread, pc: PC): State {
    s.(threads := s.threads[t := th.(pc := pc)])
  }

  /** Moves the first n buffered bytes of an open stream to its file. */
  function Drained(s: State, sid: Sid, n: nat): State
    requires sid in s.open && n <= |s.open[sid].buffer|
  {
    var st := s.open[sid];
    s.(disk := s.disk[st.key := Disk(s, st.key) + st.buffer[..n]],
       open := s.open[sid := st.(buffer := st.buffer[n..])])
  }

  function Closed(s: State, sid: Sid): State {
    if sid in s.open
    then var d := Drained(s, sid, |s.open[sid].buffer|); d.(open := d.open - {sid})
    else s
  }

  /** `write` on a stream; on a closed one the bytes are lost. */
  function WrittenTo(s: State, sid: Sid, bytes: string): State {
    if sid in s.open then s.(open := s.open[sid := s.open[sid].(buffer := s.open[sid].buffer + bytes)]) else s
  }

  /** A call of `log_encoded_query` or, once its file exists, of `log_decode`. */
  function Begin(s: State, t: Tid, job: Job): State
    requires t in s.threads
  {
    var th := s.threads[t].(job := job, got := []);
    At(s, t, th, if job.LogJob? then WantMgmt else WantKey)
  }

  // `get_or_open_log_stream`, under the management mutex

  function LookupKey(cfg: Config, s: State, t: Tid, th: Thread): State {
    var k := th.job.key;
    if k in s.streams && s.streams[k] in s.open then At(s, t, th, ReturnStream)
    else if |s.streams| >= cfg.maxOpen then At(s.(seen := map[]), t, th, Scan(0))
    else At(s, t, th, PushKey)
  }

  /** One turn of the loop of `close_older_fd`. */
  function TryVictim(s: State, t: Tid, th: Thread, i: nat): State {
    if i >= |s.used| then At(s, t, th, PushKey)
    else if s.used[i] in s.mutex then
      var h := s.mutex[s.used[i]];
      At(s.(seen := s.seen[h := Seen(s, h) + {s.used[i]}]), t, th, Scan(i + 1))
    else At(s.(mutex := s.mutex[s.used[i] := t]), t, th, CloseStream(i))
  }

  function CloseVictim(s: State, t: Tid, th: Thread, i: nat): State {
    if i < |s.used| && s.used[i] in s.streams
    then At(Closed(s, s.streams[s.used[i]]), t, th, EraseList(i)) else s
  }

  function UnlistVictim(s: State, t: Tid, th: Thread, i: nat): State {
    if i < |s.used| then At(s.(used := s.used[..i] + s.used[i + 1..]), t, th, EraseMap(s.used[i])) else s
  }

  function UnmapVictim(s: State, t: Tid, th: Thread, v: Key): State {
    At(s.(streams := s.streams - {v}), t, th, UnlockVictim(v))
  }

  function ReleaseVictim(s: State, t: Tid, th: Thread, v: Key): State {
    At(s.(mutex := s.mutex - {v}), t, th, PushKey)
  }

  function ListKey(s: State, t: Tid, th: Thread): State {
    At(s.(used := s.used + [th.job.key]), t, th, OpenFile)
  }

  function OpenStream(s: State, t: Tid, th: Thread): State {
    var k := th.job.key;
    At(s.(streams := s.streams[k := s.next], open := s.open[s.next := Stream(k, "")], next := s.next + 1),
       t, th, ReturnStream)
  }

  function TakeStream(s: State, t: Tid, th: Thread): State {
    if th.job.key in s.streams then
      At(s.(mgmt := None), t, th.(stream := s.streams[th.job.key]),
         if th.job.DecodeJob? then Flush else if th.holding then Stamp else WantKey)
    else s
  }

  // under the mutex of the key

  function LockKey(s: State, t: Tid, th: Thread): State {
    var k := th.job.key;
    var s' := s.(mutex := s.mutex[k := t],
                 acquired := if th.job.LogJob? then s.acquired[k := Acquired(s, k) + [(t, th.job.call)]]
                             else s.acquired);
    At(s', t, th.(holding := true), if th.job.LogJob? then Recheck else WantMgmt)
  }

  function EncodeNow(s: State, t: Tid, th: Thread): State {
    if th.job.LogJob? then At(s, t, th.(record := LogRecord(s.clock, th.job.call)), WriteSize) else s
  }

  function WriteHeader(s: State, t: Tid, th: Thread): State {
    At(WrittenTo(s, th.stream, LittleEndian(|EncodeEntry(th.record)|, 8)), t, th, WriteBody)
  }

  function WriteEntry(s: State, t: Tid, th: Thread): State {
    At(WrittenTo(s, th.stream, EncodeEntry(th.record)), t, th, UnlockKey)
  }

  function FlushStream(s: State, t: Tid, th: Thread): State {
    if th.stream in s.open
    then At(Drained(s, th.stream, |s.open[th.stream].buffer|), t, th, ReadFrame(0))
    else At(s, t, th, UnlockKey)
  }

  /** One turn of the loop of `read_and_decode_log_entries`. */
  function ReadEntry(s: State, t: Tid, th: Thread, pos: nat): State {
    var file := Disk(s, th.job.key);
    if pos + 8 > |file| then At(s, t, th, UnlockKey)
    else
      var size := LittleEndianValue(file[pos..pos + 8]);
      At(s, t, th.(got := th.got + [EntryAt(file, pos + 8, size)]), ReadFrame(pos + 8 + size))
  }

  function Leave(s: State, t: Tid, th: Thread): State {
    var k := th.job.key;
    var s' := s.(mutex := s.mutex - {k},
                 finished := if th.job.LogJob? then s.finished[k := Finished(s, k) + [(t, th.record)]] else s.finished);
    At(s', t, th.(holding := false), Idle)
  }

  function Advance(cfg: Config, s: State, t: Tid): State
    requires t in s.threads
  {
    var th := s.threads[t];
    match th.pc
    case Idle => s
    case WantMgmt => At(s.(mgmt := Some(t)), t, th, Lookup)
    case Lookup => LookupKey(cfg, s, t, th)
    case Scan(i) => TryVictim(s, t, th, i)
    case CloseStream(i) => CloseVictim(s, t, th, i)
    case EraseList(i) => UnlistVictim(s, t, th, i)
    case EraseMap(v) => UnmapVictim(s, t, th, v)
    case UnlockVictim(v) => ReleaseVictim(s, t, th, v)
    case PushKey => ListKey(s, t, th)
    case OpenFile => OpenStream(s, t, th)
    case ReturnStream => TakeStream(s, t, th)
    case WantKey => LockKey(s, t, th)
    case Recheck => At(s, t, th, if th.stream in s.open then Stamp else WantMgmt)
    case Stamp => EncodeNow(s, t, th)
    case WriteSize => WriteHeader(s, t, th)
    case WriteBody => WriteEntry(s, t, th)
    case Flush => FlushStream(s, t, th)
    case ReadFrame(pos) => ReadEntry(s, t, th, pos)
    case UnlockKey => Leave(s, t, th)
  }

  /** The thread waits for a mutex that is taken. */
  predicate Blocked(s: State, t: Tid)
    requires t in s.threads
  {
    var th := s.threads[t];
    (th.pc.WantMgmt? && s.mgmt.Some?) || (th.pc.WantKey? && th.job.key in s.mutex)
  }

  /**
   The next statement has no defined behaviour: it tries a mutex the thread already holds,
   unlocks one it does not hold, or goes through an absent map entry.
   */
  predicate Faulty(s: State, t: Tid)
    requires t in s.threads
  {
    var th := s.threads[t];
    match th.pc
    case Scan(i) => i < |s.used| && s.used[i] in s.mutex && s.mutex[s.used[i]] == t
    case CloseStream(i) => i >= |s.used| || s.used[i] !in s.streams
    case EraseList(i) => i >= |s.used|
    case UnlockVictim(v) => v !in s.mutex || s.mutex[v] != t
    case ReturnStream => th.job.key !in s.streams
    case UnlockKey => th.job.key !in s.mutex || s.mutex[th.job.key] != t
    case _ => false
  }

  /** The thread is inside a logger call and can execute its next statement. */
  predicate CanAdvance(s: State, t: Tid) {
    t in s.threads && !s.threads[t].pc.Idle? && !Blocked(s, t) && !Faulty(s, t)
  }

  /** Only decoding threads decode, and an entry has a size that fits its frame. */
  predicate MayBegin(cfg: Config, s: State, t: Tid, job: Job) {
    && t in s.threads && s.threads[t].pc.Idle?
    && (job.DecodeJob? ==> t in cfg.decoders)
    && (job.LogJob? ==> |job.call.user| + |job.call.newValue| + 12 < U64)
  }

  ghost predicate ThreadStep(cfg: Config, s: State, s': State, t: Tid) {
    || (CanAdvance(s, t) && s' == Advance(cfg, s, t))
    || (exists job :: MayBegin(cfg, s, t, job) && s' == Begin(s, t, job))
  }

  /** Time passes. */
  predicate Tick(s: State, s': State) {
    s.clock <= s'.clock < I64 && s' == s.(clock := s'.clock)
  }

  /** The library moves a part of a buffer to the file. */
  predicate Spill(s: State, s': State, sid: Sid, n: nat) {
    sid in s.open && n <= |s.open[sid].buffer| && s' == Drained(s, sid, n)
  }

  ghost predicate Next(cfg: Config, s: State, s': State) {
    || (exists t :: ThreadStep(cfg, s, s', t))
    || Tick(s, s')
    || (exists sid, n :: Spill(s, s', sid, n))
  }

  // ---------- histories ----------

  function Records(es: seq<(Tid, LogRecord)>): (r: seq<LogRecord>)
    ensures |r| == |es|
    ensures forall i :: 0 <= i < |es| ==> r[i] == es[i].1
  {
    seq(|es|, i requires 0 <= i < |es| => es[i].1)
  }

  function Calls(es: seq<(Tid, LogRecord)>): (r: seq<(Tid, LogCall)>)
    ensures |r| == |es|
    ensures forall i :: 0 <= i < |es| ==> r[i] == (es[i].0, es[i].1.call)
  {
    seq(|es|, i requires 0 <= i < |es| => (es[i].0, es[i].1.call))
  }

  /** The bytes of a log that consists of whole frames of the given records. */
  function LogBytes(es: seq<(Tid, LogRecord)>): string {
    Frames(Encoded(Records(es)))
  }

  ghost predicate GoodHistory(es: seq<(Tid, LogRecord)>, now: int) {
    && SortedByTime(Records(es))
    && forall e :: e in es ==> Recordable(e.1) && e.1.timestamp <= now
  }

  /** At the start no call is in progress, and the files hold the logs of earlier processes. */
  ghost predicate Init(s: State) {
    && (forall t :: t in s.threads ==> s.threads[t].pc.Idle? && !s.threads[t].holding && s.threads[t].stream < s.next)
    && s.mgmt.None? && s.mutex == map[] && s.streams == map[] && s.used == [] && s.open == map[]
    && s.seen == map[]
    && -I64 <= s.clock < I64
    && forall k :: GoodHistory(Finished(s, k), s.clock)
                   && Disk(s, k) == LogBytes(Finished(s, k)) && Acquired(s, k) == Calls(Finished(s, k))
  }

  ghost predicate Behaviour(cfg: Config, ss: seq<State>) {
    |ss| > 0 && Init(ss[0]) && forall i :: 0 <= i < |ss| - 1 ==> Next(cfg, ss[i], ss[i + 1])
  }
}
