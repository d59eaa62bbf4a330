/**
 Handlers and log manager together: connections that run concurrently, each executing the
 moments of its handler and, where its request must be logged, the statements of the log
 manager one by one in between. A run of the server is a run of the log manager, and a
 run of interleaved handlers that log in one moment, so that what is proved of either
 holds of the server.
 */
module Server {
  import opened Text
  import Numbers
  import opened LogCodec
  import opened Filter
  import opened Store
  import opened Records
  import opened Runs
  import opened Serial
  import Handlers = Interleaving
  import Logger = LoggerProtocol
  import LoggerLocks
  import LoggerCache
  import LoggerStreams
  import LoggerFiles
  import LoggerHistory
  import LoggerBound
  import LoggerStamps
  import LoggerTheorems

  /** `Logging` and `Decoding`: inside a call of the log manager. */
  datatype Conn =
    | Idle
    | HasRead(r: Request, res: Option<string>)
    | Logging(r: Request, res: Option<string>, decision: Handlers.Decision)
    | MustWrite(r: Request, res: Option<string>, w: Handlers.Write)
    | Decoding

  /** `logger` is the log manager, in which each connection is a thread. */
  datatype World = World(db: map<string, string>, logger: Logger.State, conns: map<nat, Conn>, crashed: bool,
      served: seq<Handlers.Served>)

  function JobOf(r: Request, d: Handlers.Decision): Logger.Job {
    Logger.LogJob(Logger.Key(r.q.key), EntryFor(r, d.valid, d.logged).call)
  }

  function AfterDecision(r: Request, res: Option<string>, d: Handlers.Decision): Conn {
    if d.write.Some? then MustWrite(r, res, d.write.value) else Idle
  }

  // ---------- the steps of a connection ----------

  predicate ReadNext(w: World, w': World, c: nat, r: Request) {
    && c in w.conns && w.conns[c] == Idle && Handlers.DataCommand(r.q.cmd) && CleanRequest(r)
    && w' == w.(conns := w.conns[c := HasRead(r, Get(w.db, r.q.key))])
  }

  /** Decides on what it read, and calls the log manager if the request must be logged. */
  predicate Decides(cfg: Logger.Config, w: World, w': World, c: nat) {
    && c in w.conns && w.conns[c].HasRead?
    && var r, res := w.conns[c].r, w.conns[c].res;
       match Handlers.Decide(res, r)
       case None => w' == w.(crashed := true)
       case Some(d) =>
         if d.needed then
           && Logger.MayBegin(cfg, w.logger, c, JobOf(r, d))
           && w' == w.(conns := w.conns[c := Logging(r, res, d)], logger := Logger.Begin(w.logger, c, JobOf(r, d)))
         else
           w' == w.(conns := w.conns[c := AfterDecision(r, res, d)], served := w.served + [Handlers.Served(r, res)])
  }

  /** The next statement of the log manager; the last one returns to the handler. */
  predicate LogStatement(cfg: Logger.Config, w: World, w': World, c: nat) {
    && c in w.conns && (w.conns[c].Logging? || w.conns[c].Decoding?) && Logger.CanAdvance(w.logger, c)
    && var conn, th, logger := w.conns[c], w.logger.threads[c], Logger.Advance(cfg, w.logger, c);
       if !th.pc.UnlockKey? then w' == w.(logger := logger)
       else if conn.Decoding? then w' == w.(logger := logger, conns := w.conns[c := Idle])
       else
         w' == w.(logger := logger, conns := w.conns[c := AfterDecision(conn.r, conn.res, conn.decision)],
                  served := w.served + [Handlers.Served(Handlers.Stamped(conn.r, th.record.timestamp), conn.res)])
  }

  /** The backend carries out the write, or refuses it. */
  predicate WritesBack(w: World, w': World, c: nat) {
    && c in w.conns && w.conns[c].MustWrite?
    && var r, write := w.conns[c].r, w.conns[c].w;
       var db := if !r.backendOk then w.db
                 else if write.Put? then w.db[r.q.key := write.text]
                 else w.db - {r.q.key};
       w' == w.(db := db, conns := w.conns[c := Idle])
  }

  /** Begins to decode the log of a key; what the handler makes of the entries is not part of a run. */
  predicate BeginsDecoding(cfg: Logger.Config, w: World, w': World, c: nat, job: Logger.Job) {
    && c in w.conns && w.conns[c] == Idle && job.DecodeJob? && Logger.MayBegin(cfg, w.logger, c, job)
    && w' == w.(conns := w.conns[c := Decoding], logger := Logger.Begin(w.logger, c, job))
  }

  ghost predicate ConnStep(cfg: Logger.Config, w: World, w': World, c: nat) {
    || (exists r :: ReadNext(w, w', c, r))
    || Decides(cfg, w, w', c)
    || LogStatement(cfg, w, w', c)
    || WritesBack(w, w', c)
    || (exists job :: BeginsDecoding(cfg, w, w', c, job))
  }

  /** Time passes, or the library moves a part of a buffer to its file. */
  ghost predicate Background(w: World, w': World) {
    && w' == w.(logger := w'.logger)
    && (Logger.Tick(w.logger, w'.logger) || exists sid, n :: Logger.Spill(w.logger, w'.logger, sid, n))
  }

  ghost predicate Next(cfg: Logger.Config, w: World, w': World) {
    !w.crashed && ((exists c :: ConnStep(cfg, w, w', c)) || Background(w, w'))
  }

  ghost predicate Init(w: World) {
    && Logger.Init(w.logger) && w.conns.Keys == w.logger.threads.Keys
    && (forall c :: c in w.conns ==> w.conns[c] == Idle)
    && WellFormed(State(w.db, map[])) && !w.crashed && w.served == []
  }

  ghost predicate Behaviour(cfg: Logger.Config, ws: seq<World>) {
    |ws| > 0 && Init(ws[0]) && forall i :: 0 <= i < |ws| - 1 ==> Next(cfg, ws[i], ws[i + 1])
  }

  // ---------- what the two parts see ----------

  /** A connection inside the log manager has, for the handlers, still to decide. */
  function ConnOf(conn: Conn): Handlers.Conn {
    match conn
    case Idle | Decoding => Handlers.Idle
    case HasRead(r, res) => Handlers.HasRead(r, res)
    case Logging(r, res, _) => Handlers.HasRead(r, res)
    case MustWrite(r, res, w) => Handlers.MustWrite(r, res, w)
  }

  /** The logs as the records of finished calls. */
  function LogsOf(s: Logger.State): Logs {
    map k | k in s.finished :: k.name := Logger.Records(s.finished[k])
  }

  function HandlersOf(w: World): Handlers.World {
    Handlers.World(w.db, LogsOf(w.logger), map c | c in w.conns :: ConnOf(w.conns[c]), w.crashed, w.served)
  }

  function RecordsOf(s: Logger.State, k: string): seq<LogRecord> {
    Logger.Records(Logger.Finished(s, Logger.Key(k)))
  }

  lemma LogsOfAt(s: Logger.State, k: string)
    ensures LogOf(LogsOf(s), k) == RecordsOf(s, k)
  {
    if k in LogsOf(s) {
      var key :| key in s.finished && key.name == k;
      assert key == Logger.Key(k);
    } else {
      assert Logger.Key(k) in s.finished ==> Logger.Key(k).name in LogsOf(s);
    }
  }

  // ---------- connections and threads go together ----------

  predicate ConnOk(th: Logger.Thread, conn: Conn) {
    match conn
    case Logging(r, res, d) =>
      !th.pc.Idle? && th.job == JobOf(r, d) && Handlers.Decide(res, r) == Some(d) && d.needed
    case Decoding => !th.pc.Idle? && th.job.DecodeJob?
    case _ => th.pc.Idle?
  }

  ghost predicate Inv(cfg: Logger.Config, w: World) {
    && LoggerTheorems.Inv(cfg, w.logger)
    && w.conns.Keys == w.logger.threads.Keys
    && forall c :: c in w.conns ==> ConnOk(w.logger.threads[c], w.conns[c])
  }

  /** Other connections are as before. */
  lemma ConnsKept(cfg: Logger.Config, w: World, w': World, c: nat)
    requires Inv(cfg, w) && LoggerTheorems.Inv(cfg, w'.logger) && c in w.conns && c in w'.conns
    requires w'.conns == w.conns[c := w'.conns[c]]
    requires c in w'.logger.threads && w'.logger.threads == w.logger.threads[c := w'.logger.threads[c]]
    requires ConnOk(w'.logger.threads[c], w'.conns[c])
    ensures Inv(cfg, w')
  {
    hide LoggerTheorems.Inv, ConnOk;
  }

  /** A step that the handlers do not see. */
  lemma Unseen(w: World, w': World)
    requires w'.db == w.db && w'.crashed == w.crashed && w'.served == w.served
    requires w'.logger.finished == w.logger.finished && w'.conns.Keys == w.conns.Keys
    requires forall c :: c in w.conns ==> ConnOf(w'.conns[c]) == ConnOf(w.conns[c])
    ensures HandlersOf(w') == HandlersOf(w)
  {
  }

  /** A step of the handlers, or of time as far as the log manager goes. */
  lemma Rests(cfg: Logger.Config, s: Logger.State)
    requires LoggerTheorems.Inv(cfg, s)
    ensures Logger.Next(cfg, s, s)
  {
    hide LoggerLocks.LocksOk, LoggerHistory.TimeOk, LoggerFiles.LogsOk;
    ClockFits(s);
    assert Logger.Tick(s, s);
  }

  lemma ClockFits(s: Logger.State)
    requires LoggerHistory.TimeOk(s)
    ensures s.clock < Numbers.I64
  {
  }

  ghost predicate Simulated(cfg: Logger.Config, w: World, w': World) {
    && Inv(cfg, w')
    && Logger.Next(cfg, w.logger, w'.logger)
    && Handlers.Next(HandlersOf(w), HandlersOf(w'))
  }

  lemma ReadSimulated(cfg: Logger.Config, w: World, w': World, c: nat, r: Request)
    requires Inv(cfg, w) && !w.crashed && ReadNext(w, w', c, r)
    ensures Simulated(cfg, w, w')
  {
    hide LoggerTheorems.Inv, Logger.Next, CleanRequest, Handlers.DataCommand, LogsOf;
    Rests(cfg, w.logger);
    ConnsKept(cfg, w, w', c);
    assert Handlers.ReadNext(HandlersOf(w), HandlersOf(w'), c, r);
    assert Handlers.ConnStep(HandlersOf(w), HandlersOf(w'), c);
  }

  lemma DecisionSimulated(cfg: Logger.Config, w: World, w': World, c: nat)
    requires Inv(cfg, w) && !w.crashed && Decides(cfg, w, w', c)
    ensures Simulated(cfg, w, w')
  {
    hide LoggerTheorems.Inv, Logger.Next, Handlers.Decide, LogsOf, EntryFor;
    var r, res := w.conns[c].r, w.conns[c].res;
    var d := Handlers.Decide(res, r);
    if d.Some? && d.value.needed {
      LoggerTheorems.InvBegin(cfg, w.logger, c, JobOf(r, d.value));
      BeginNext(cfg, w.logger, c, JobOf(r, d.value));
      ConnsKept(cfg, w, w', c);
      Unseen(w, w');
    } else {
      Rests(cfg, w.logger);
      if d.Some? { ConnsKept(cfg, w, w', c); }
      assert Handlers.Stamped(r, r.clock.log) == r;
      assert HandlersOf(w') == Handlers.Decided(HandlersOf(w), c, r.clock.log);
      assert Handlers.ConnStep(HandlersOf(w), HandlersOf(w'), c);
    }
  }

  lemma BeginNext(cfg: Logger.Config, s: Logger.State, c: nat, job: Logger.Job)
    requires Logger.MayBegin(cfg, s, c, job)
    ensures Logger.Next(cfg, s, Logger.Begin(s, c, job))
    ensures var s' := Logger.Begin(s, c, job);
            && s'.finished == s.finished && c in s'.threads && s'.threads == s.threads[c := s'.threads[c]]
            && s'.threads[c].job == job && !s'.threads[c].pc.Idle?
  {
    assert Logger.ThreadStep(cfg, s, Logger.Begin(s, c, job), c);
  }

  /** What a statement does to its thread and to the finished calls. */
  lemma StatementMoves(cfg: Logger.Config, s: Logger.State, c: nat)
    requires LoggerTheorems.Inv(cfg, s) && Logger.CanAdvance(s, c)
    ensures var s', th := Logger.Advance(cfg, s, c), s.threads[c];
            && c in s'.threads && s'.threads == s.threads[c := s'.threads[c]] && s'.threads[c].job == th.job
            && (s'.threads[c].pc.Idle? <==> th.pc.UnlockKey?)
            && s'.finished == (if th.pc.UnlockKey? && th.job.LogJob?
                               then s.finished[th.job.key := Logger.Finished(s, th.job.key) + [(c, th.record)]]
                               else s.finished)
            && (th.pc.UnlockKey? && th.job.LogJob? ==> th.record.call == th.job.call)
  {
    hide Logger.Advance, Logger.CanAdvance, LoggerLocks.LocksOk, LoggerHistory.TimeOk, LoggerFiles.LogsOk,
         LoggerCache.CacheOk, LoggerStreams.StreamsOk, LoggerHistory.ReadersOk, LoggerBound.BoundOk,
         LoggerHistory.BuffersMoved, LoggerHistory.FetchMoved, Logger.Finished;
    LoggerLocks.Inside(s, c);
    LoggerHistory.AdvanceMoves(cfg, s, c);
    LoggerTheorems.RecordInProgress(s, c);
  }

  lemma StatementNext(cfg: Logger.Config, s: Logger.State, c: nat)
    requires LoggerTheorems.Inv(cfg, s) && Logger.CanAdvance(s, c)
    ensures LoggerTheorems.Inv(cfg, Logger.Advance(cfg, s, c)) && Logger.Next(cfg, s, Logger.Advance(cfg, s, c))
  {
    hide Logger.Advance, Logger.CanAdvance, LoggerTheorems.Inv, Logger.Begin, Logger.MayBegin;
    LoggerLocks.Inside(s, c);
    LoggerTheorems.InvAdvance(cfg, s, c);
    assert Logger.ThreadStep(cfg, s, Logger.Advance(cfg, s, c), c);
  }

  lemma StatementSimulated(cfg: Logger.Config, w: World, w': World, c: nat)
    requires Inv(cfg, w) && !w.crashed && LogStatement(cfg, w, w', c)
    ensures Simulated(cfg, w, w')
  {
    hide LoggerTheorems.Inv, Logger.Next, Logger.Advance, Logger.CanAdvance, Handlers.Decide, EntryFor, LogsOf;
    StatementNext(cfg, w.logger, c);
    StatementMoves(cfg, w.logger, c);
    ConnsKept(cfg, w, w', c);
    if w.logger.threads[c].pc.UnlockKey? && w.conns[c].Logging? {
      LeaveSimulated(cfg, w, w', c);
    } else {
      Unseen(w, w');
    }
  }

  /** The end of a call of the log manager is, for the handlers, the moment of decision. */
  lemma LeaveSimulated(cfg: Logger.Config, w: World, w': World, c: nat)
    requires Inv(cfg, w) && !w.crashed && c in w.conns && w.conns[c].Logging? && c in w.logger.threads
    requires var conn, th := w.conns[c], w.logger.threads[c];
             && w'.db == w.db && w'.crashed == w.crashed
             && w'.conns == w.conns[c := AfterDecision(conn.r, conn.res, conn.decision)]
             && w'.served ==
                w.served + [Handlers.Served(Handlers.Stamped(conn.r, th.record.timestamp), conn.res)]
             && th.record.call == th.job.call
             && w'.logger.finished ==
                w.logger.finished[th.job.key := Logger.Finished(w.logger, th.job.key) + [(c, th.record)]]
    ensures Handlers.Next(HandlersOf(w), HandlersOf(w'))
  {
    hide LoggerTheorems.Inv, Logger.Next, Handlers.Decide, LogsOf, Logger.Finished;
    var conn, th := w.conns[c], w.logger.threads[c];
    var time, d := th.record.timestamp, conn.decision;
    FinishedLogged(w.logger, w'.logger, conn.r.q.key, c, th.record);
    assert th.record == EntryFor(Handlers.Stamped(conn.r, time), d.valid, d.logged);
    assert HandlersOf(w').conns == Handlers.Decided(HandlersOf(w), c, time).conns;
    assert HandlersOf(w') == Handlers.Decided(HandlersOf(w), c, time);
    assert Handlers.ConnStep(HandlersOf(w), HandlersOf(w'), c);
  }

  lemma FinishedLogged(s: Logger.State, s': Logger.State, k: string, c: nat, e: LogRecord)
    requires s'.finished == s.finished[Logger.Key(k) := Logger.Finished(s, Logger.Key(k)) + [(c, e)]]
    ensures LogsOf(s') == LogsOf(s)[k := LogOf(LogsOf(s), k) + [e]]
  {
    LogsOfAt(s, k);
    var key := Logger.Key(k);
    assert Logger.Records(Logger.Finished(s, key) + [(c, e)]) == Logger.Records(Logger.Finished(s, key)) + [e];
  }

  lemma WriteSimulated(cfg: Logger.Config, w: World, w': World, c: nat)
    requires Inv(cfg, w) && !w.crashed && WritesBack(w, w', c)
    ensures Simulated(cfg, w, w')
  {
    hide LoggerTheorems.Inv, Logger.Next, LogsOf;
    Rests(cfg, w.logger);
    ConnsKept(cfg, w, w', c);
    assert HandlersOf(w') == Handlers.Finished(HandlersOf(w), c);
    assert Handlers.ConnStep(HandlersOf(w), HandlersOf(w'), c);
  }

  lemma DecodingSimulated(cfg: Logger.Config, w: World, w': World, c: nat, job: Logger.Job)
    requires Inv(cfg, w) && !w.crashed && BeginsDecoding(cfg, w, w', c, job)
    ensures Simulated(cfg, w, w')
  {
    hide LoggerTheorems.Inv, Logger.Next, LogsOf;
    LoggerTheorems.InvBegin(cfg, w.logger, c, job);
    BeginNext(cfg, w.logger, c, job);
    ConnsKept(cfg, w, w', c);
    Unseen(w, w');
  }

  lemma BackgroundSimulated(cfg: Logger.Config, w: World, w': World)
    requires Inv(cfg, w) && !w.crashed && Background(w, w')
    ensures Simulated(cfg, w, w')
  {
    hide LoggerTheorems.Inv, LogsOf, ConnOk;
    if Logger.Tick(w.logger, w'.logger) {
      LoggerTheorems.InvTick(cfg, w.logger, w'.logger);
    } else {
      var sid, n :| Logger.Spill(w.logger, w'.logger, sid, n);
      LoggerTheorems.InvSpill(cfg, w.logger, w'.logger, sid, n);
    }
    Unseen(w, w');
  }

  /** One step of the server is a step of the log manager and a step of the handlers, or of one of them. */
  lemma StepSimulated(cfg: Logger.Config, w: World, w': World)
    requires Inv(cfg, w) && Next(cfg, w, w')
    ensures Simulated(cfg, w, w')
  {
    hide Inv, ReadNext, Decides, LogStatement, WritesBack, BeginsDecoding, Background, Simulated;
    if Background(w, w') {
      BackgroundSimulated(cfg, w, w');
    } else {
      var c :| ConnStep(cfg, w, w', c);
      if r :| ReadNext(w, w', c, r) {
        ReadSimulated(cfg, w, w', c, r);
      } else if Decides(cfg, w, w', c) {
        DecisionSimulated(cfg, w, w', c);
      } else if LogStatement(cfg, w, w', c) {
        StatementSimulated(cfg, w, w', c);
      } else if WritesBack(w, w', c) {
        WriteSimulated(cfg, w, w', c);
      } else {
        var job :| BeginsDecoding(cfg, w, w', c, job);
        DecodingSimulated(cfg, w, w', c, job);
      }
    }
  }

  // ---------- runs of the server ----------

  function Loggers(ws: seq<World>): (r: seq<Logger.State>)
    ensures |r| == |ws| && forall i :: 0 <= i < |ws| ==> r[i] == ws[i].logger
  {
    seq(|ws|, i requires 0 <= i < |ws| => ws[i].logger)
  }

  function AllHandlers(ws: seq<World>): (r: seq<Handlers.World>)
    ensures |r| == |ws| && forall i :: 0 <= i < |ws| ==> r[i] == HandlersOf(ws[i])
  {
    seq(|ws|, i requires 0 <= i < |ws| => HandlersOf(ws[i]))
  }

  lemma InvStart(cfg: Logger.Config, w: World)
    requires Init(w)
    ensures Inv(cfg, w)
  {
    LoggerTheorems.InvInit(cfg, w.logger);
    hide LoggerTheorems.Inv;
  }

  lemma {:induction false} InvRun(cfg: Logger.Config, ws: seq<World>, i: nat)
    requires Behaviour(cfg, ws) && i < |ws|
    ensures Inv(cfg, ws[i])
  {
    hide Inv, Init, Next;
    if i == 0 {
      InvStart(cfg, ws[0]);
    } else {
      InvRun(cfg, ws, i - 1);
      StepSimulated(cfg, ws[i - 1], ws[i]);
    }
  }

  /**
   A run of the server is, for the log manager, a run of its statements, and for the
   handlers a run in which each logs in one moment: that at which its log call ends.
   */
  lemma ServerRefines(cfg: Logger.Config, ws: seq<World>)
    requires Behaviour(cfg, ws)
    ensures Logger.Behaviour(cfg, Loggers(ws))
    ensures Handlers.Behaviour(AllHandlers(ws))
  {
    hide Inv, Init, Next, Logger.Next, Logger.Init, Handlers.Next, HandlersOf;
    forall i | 0 <= i < |ws| - 1
      ensures Logger.Next(cfg, Loggers(ws)[i], Loggers(ws)[i + 1])
      ensures Handlers.Next(AllHandlers(ws)[i], AllHandlers(ws)[i + 1])
    {
      InvRun(cfg, ws, i);
      StepSimulated(cfg, ws[i], ws[i + 1]);
    }
    StartRefines(ws[0]);
  }

  lemma StartRefines(w: World)
    requires Init(w)
    ensures Logger.Init(w.logger)
    ensures Handlers.Accepted(HandlersOf(w)) && HandlersOf(w).served == []
    ensures forall c :: c in HandlersOf(w).conns ==> HandlersOf(w).conns[c] == Handlers.Idle
  {
    hide Logger.Init, LogsOf;
  }

  /** In every run of the server all stored texts are ones the filter accepts, which therefore never throws. */
  lemma TextsStayParsable(cfg: Logger.Config, ws: seq<World>, i: nat)
    requires Behaviour(cfg, ws) && i < |ws|
    ensures !ws[i].crashed && WellFormed(State(ws[i].db, map[]))
  {
    hide Behaviour, Handlers.Behaviour, Logger.Behaviour;
    ServerRefines(cfg, ws);
    Handlers.InterleavedSafe(AllHandlers(ws), i);
    assert Handlers.Accepted(AllHandlers(ws)[i]);
  }

  /** The connection is logging its request on k, and this is the entry for it at the present clock. */
  predicate LogsNow(w: World, c: nat, k: string, e: LogRecord) {
    && c in w.conns && w.conns[c].Logging? && w.conns[c].r.q.key == k
    && var (r, d) := (w.conns[c].r, w.conns[c].decision);
       e == LogRecord(w.logger.clock, LogCall(EffectiveUser(r.q, r.policy), r.q.cmd, d.valid, d.logged))
  }

  /** At some earlier moment of the run a connection was logging the entry. */
  ghost predicate LoggedBefore(ws: seq<World>, i: nat, k: string, e: LogRecord) {
    exists j, c :: 0 <= j < i && j < |ws| && LogsNow(ws[j], c, k, e)
  }

  /** Every new entry was stamped while the connection that made it was logging it. */
  lemma EntryIsClock(cfg: Logger.Config, ws: seq<World>, j: nat, k: string, n: nat) returns (i: nat, c: nat)
    requires Behaviour(cfg, ws) && j < |ws| && |RecordsOf(ws[0].logger, k)| <= n < |RecordsOf(ws[j].logger, k)|
    ensures i < j && LogsNow(ws[i], c, k, RecordsOf(ws[j].logger, k)[n])
  {
    hide Behaviour, Handlers.Behaviour, Logger.Behaviour, Logger.Finished, LoggerTheorems.Inv, EffectiveUser;
    ServerRefines(cfg, ws);
    i := LoggerStamps.StampIsClock(cfg, Loggers(ws), j, Logger.Key(k), n);
    c := Logger.Finished(ws[j].logger, Logger.Key(k))[n].0;
    InvRun(cfg, ws, i);
    assert ConnOk(ws[i].logger.threads[c], ws[i].conns[c]);
  }

  /**
   In every interleaving of connections and of the statements of the log manager, a key whose
   mutex is free has in its file and buffer whole frames only, of entries that add to the
   earlier ones exactly the audits due for the decisions taken on the key, in their order.
   The time of each new entry is the clock at some moment of its own log call.
   */
  lemma FileIsTrail(cfg: Logger.Config, ws: seq<World>, i: nat, k: string)
    requires Behaviour(cfg, ws) && i < |ws| && Logger.Key(k) !in ws[i].logger.mutex
    ensures var s, es := ws[i].logger, RecordsOf(ws[i].logger, k);
            && Logger.Content(s, Logger.Key(k)) == Frames(Encoded(es))
            && SortedByTime(es)
            && Audits(es) == Audits(RecordsOf(ws[0].logger, k)) + Dues(ws[i].served, k)
            && forall n :: |RecordsOf(ws[0].logger, k)| <= n < |es| ==> LoggedBefore(ws, i, k, es[n])
  {
    hide LogsNow, Behaviour, Handlers.Behaviour, Logger.Behaviour, Frames, Encoded, Audits, Dues, Logger.Content,
         LogsOf;
    ServerRefines(cfg, ws);
    LoggerTheorems.WholeFrames(cfg, Loggers(ws), i, Logger.Key(k));
    LogIsTrailOfDecisions(AllHandlers(ws), i, k);
    LogsOfAt(ws[i].logger, k);
    LogsOfAt(ws[0].logger, k);
    var es := RecordsOf(ws[i].logger, k);
    forall n | |RecordsOf(ws[0].logger, k)| <= n < |es|
      ensures LoggedBefore(ws, i, k, es[n])
    {
      var j, c := EntryIsClock(cfg, ws, i, k, n);
    }
  }

  /**
   Where no handler on the key overlaps with a write of the key, that file is the one of
   serving the requests one after the other: its entries are the log of the sequential run,
   and follow exactly the trail that the metadata prescribes.
   */
  lemma FileIsSerialTrail(cfg: Logger.Config, ws: seq<World>, i: nat, k: string)
    requires Behaviour(cfg, ws) && i < |ws| && Logger.Key(k) !in ws[i].logger.mutex
    requires WritesInTurn(AllHandlers(ws), i, k)
    ensures WellFormed(State(ws[0].db, LogsOf(ws[0].logger)))
    ensures var start, rs := State(ws[0].db, LogsOf(ws[0].logger)), Requests(ws[i].served);
            var log := LogOf(Run(start, rs).0.logs, k);
            && Logger.Content(ws[i].logger, Logger.Key(k)) == Frames(Encoded(log))
            && Audits(log) == Audits(LogOf(start.logs, k)) + Trail(MetaOf(start), rs, k)
  {
    hide Behaviour, Handlers.Behaviour, Logger.Behaviour, Frames, Encoded, Audits, Trail, Logger.Content, LogsOf,
         Run, WritesInTurn;
    ServerRefines(cfg, ws);
    LoggerTheorems.WholeFrames(cfg, Loggers(ws), i, Logger.Key(k));
    ApartIsSerial(AllHandlers(ws), i, k);
    LogsOfAt(ws[i].logger, k);
  }

  /**
   Whatever the log manager does meanwhile, a text that must be logged is in the file or
   buffer of the key's log, with its verdict, before it is written to the backend.
   */
  lemma OnFileBeforeWritten(cfg: Logger.Config, ws: seq<World>, i: nat, c: nat)
    requires Behaviour(cfg, ws) && i < |ws| && c in ws[i].conns && ws[i].conns[c].MustWrite?
    ensures var conn, s := ws[i].conns[c], ws[i].logger;
            var key := Logger.Key(conn.r.q.key);
            && Frames(Encoded(RecordsOf(s, key.name))) <= Logger.Content(s, key)
            && Handlers.Decide(conn.res, conn.r).Some?
            && (Handlers.Decide(conn.res, conn.r).value.needed ==>
                  exists e :: e in RecordsOf(s, key.name) &&
                    e.call == LogCall(EffectiveUser(conn.r.q, conn.r.policy), conn.r.q.cmd, true,
                                      if conn.w.Put? then conn.w.text else ""))
  {
    hide Behaviour, Handlers.Behaviour, Logger.Behaviour, Frames, Encoded, Logger.Content, LogsOf, Handlers.Decide;
    ServerRefines(cfg, ws);
    var k := ws[i].conns[c].r.q.key;
    FinishedIsPrefix(cfg, Loggers(ws), i, k);
    assert AllHandlers(ws)[i].conns[c] == ConnOf(ws[i].conns[c]);
    LoggedBeforeWritten(AllHandlers(ws), i, c);
    LogsOfAt(ws[i].logger, k);
  }

  lemma FinishedIsPrefix(cfg: Logger.Config, ss: seq<Logger.State>, i: nat, k: string)
    requires Logger.Behaviour(cfg, ss) && i < |ss|
    ensures Frames(Encoded(RecordsOf(ss[i], k))) <= Logger.Content(ss[i], Logger.Key(k))
  {
    hide Logger.Behaviour, LoggerFiles.LogsOk, Logger.Content, Frames, LoggerFiles.InProgress;
    LoggerTheorems.InvRun(cfg, ss, i);
    LoggerFiles.KeyLogOf(ss[i], Logger.Key(k));
  }
}
