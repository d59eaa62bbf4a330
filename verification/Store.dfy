/**
 The request handlers of controller.cpp over the key-value backend and the logs.

 The backend is a map from keys to stored texts. A request carries its parsed query, the
 session's policy, the three clock readings its handler may take (in nanoseconds: at the
 expiry check or the reading of logs, at the computation of a new expiry, and when it is
 logged), and whether the backend carries out the write.
 */
module Store {
  import opened Text
  import Numbers
  import opened Metadata
  import opened Query
  import opened Policy
  import opened Filter
  import opened Rewriter
  import opened LogCodec
  import opened LogFormat

  datatype Clock = Clock(check: int, stamp: int, log: int)

  datatype Request = Request(q: Query, policy: Policy, clock: Clock, backendOk: bool)

  /**
   A reply to `getlogs` names the keys that have a log, or shows for each key the lines of
   its log. `Crash` is an exception that no handler catches: the process ends.
   */
  datatype Reply =
    | Text(text: string)
    | LogFiles(keys: set<string>)
    | LogEntries(shown: map<string, seq<Line>>)
    | Crash

  const GET_FAILED := "0"
  const PUT_SUCCESS := "1"
  const PUT_FAILED := "2"
  const DELETE_SUCCESS := "3"
  const DELETE_FAILED := "4"
  const DELETE_REFUSED := "DELETE_FAILED: Invalid key or does not comply with GDPR rules"
  const GETM_FAILED := "5"
  const PUTM_SUCCESS := "6"
  const PUTM_FAILED := "7"
  const PUTM_MISSING := "PUTM_FAILED: The specified key does not exist"
  const GET_LOGS_FAILED := "8"
  const INVALID_COMMAND := "9"
  const REGULATOR_KEY := "reg"

  type Logs = map<string, seq<LogRecord>>

  datatype State = State(db: map<string, string>, logs: Logs)

  function LogOf(logs: Logs, key: string): seq<LogRecord> {
    if key in logs then logs[key] else []
  }

  /** The entry a request leaves in the log of its key. */
  function EntryFor(r: Request, valid: bool, newValue: string): LogRecord {
    LogRecord(r.clock.log, LogCall(EffectiveUser(r.q, r.policy), r.q.cmd, valid, newValue))
  }

  /** `monitor_query`. */
  function Monitored(logs: Logs, needed: bool, r: Request, valid: bool, newValue: string): Logs {
    if needed then logs[r.q.key := LogOf(logs, r.q.key) + [EntryFor(r, valid, newValue)]] else logs
  }

  /** What decoding the log of a key up to a time shows. */
  function LogShown(logs: Logs, key: string, threshold: int): seq<Decoded> {
    DecodeAll(Encoded(LogOf(logs, key)), threshold)
  }

  /** It is what reading the file of the log shows. */
  lemma LogShownIsRead(logs: Logs, key: string, threshold: int)
    requires Sized(Encoded(LogOf(logs, key)))
    ensures DecodedFrom(Frames(Encoded(LogOf(logs, key))), 0, threshold) == LogShown(logs, key, threshold)
  {
    var file := Frames(Encoded(LogOf(logs, key)));
    assert file[0..] == file;
    FramesRoundTripFrom(file, 0, Encoded(LogOf(logs, key)));
  }

  // ---------- what each handler does ----------

  function GetStep(s: State, r: Request): (State, Reply) {
    var k := r.q.key;
    if k !in s.db then (s, Text(GET_FAILED))
    else
      match ParseFields(s.db[k])
      case None => (s, Crash)
      case Some(f) =>
        var valid := Allowed(f, r.q, r.policy, r.clock.check);
        (s.(logs := Monitored(s.logs, f.monitor, r, valid, "")),
         Text(if valid then RemoveMetadata(s.db[k]) else GET_FAILED))
  }

  function GetMStep(s: State, r: Request): (State, Reply) {
    var k := r.q.key;
    if k !in s.db then (s, Text(GETM_FAILED))
    else
      match ParseFields(s.db[k])
      case None => (s, Crash)
      case Some(f) =>
        var valid := Allowed(f, r.q, r.policy, r.clock.check);
        (s.(logs := Monitored(s.logs, f.monitor, r, valid, "")),
         Text(if valid then PreserveMetadata(s.db[k]) else GETM_FAILED))
  }

  function DeleteStep(s: State, r: Request): (State, Reply) {
    var k := r.q.key;
    if k !in s.db then (s, Text(DELETE_REFUSED))
    else
      match ParseFields(s.db[k])
      case None => (s, Crash)
      case Some(f) =>
        var valid := Allowed(f, r.q, r.policy, r.clock.check);
        var logs := Monitored(s.logs, f.monitor, r, valid, "");
        if !valid then (s.(logs := logs), Text(DELETE_REFUSED))
        else if r.backendOk then (State(s.db - {k}, logs), Text(DELETE_SUCCESS))
        else (s.(logs := logs), Text(DELETE_FAILED))
  }

  /** Writes a text after logging it, as both kinds of PUT and PUTM do. */
  function WriteStep(s: State, r: Request, needed: bool, text: string, success: string, failure: string): (State,
      Reply) {
    var logs := Monitored(s.logs, needed, r, true, text);
    if r.backendOk then (State(s.db[r.q.key := text], logs), Text(success))
    else (s.(logs := logs), Text(failure))
  }

  function PutStep(s: State, r: Request): (State, Reply) {
    var k := r.q.key;
    if k !in s.db then
      var text := Serialize(Record(InsertedFields(r.q, r.policy, r.clock.stamp), r.q.value));
      WriteStep(s, r, r.q.monitor.GetOr(r.policy.monitor), text, PUT_SUCCESS, PUT_FAILED)
    else
      match ParseFields(s.db[k])
      case None => (s, Crash)
      case Some(f) =>
        if Allowed(f, r.q, r.policy, r.clock.check)
        then WriteStep(s, r, f.monitor, Splice(s.db[k], r.q.value), PUT_SUCCESS, PUT_FAILED)
        else (s.(logs := Monitored(s.logs, f.monitor, r, false, "")), Text(PUT_FAILED))
  }

  function PutMStep(s: State, r: Request): (State, Reply) {
    var k := r.q.key;
    if k !in s.db then (s, Text(PUTM_MISSING))
    else
      match ParseFields(s.db[k])
      case None => (s, Crash)
      case Some(f) =>
        if Allowed(f, r.q, r.policy, r.clock.check)
        then WriteStep(s, r, f.monitor, UpdatedText(r.q, r.clock.stamp, 0, Split(s.db[k], '|')),
                       PUTM_SUCCESS, PUTM_FAILED)
        else (s.(logs := Monitored(s.logs, f.monitor, r, false, "")), Text(PUTM_FAILED))
  }

  /** The session that may read the logs. */
  predicate IsRegulator(r: Request) {
    EffectiveUser(r.q, r.policy) == REGULATOR_KEY
  }

  /** The lines of the log of a key; `None` is the formatter's error. */
  function Reading(logs: Logs, key: string, time: int): Option<seq<Line>> {
    LinesOf(LogShown(logs, key, time))
  }

  predicate AllReadable(logs: Logs, time: int) {
    forall k :: k in logs ==> Reading(logs, k, time).Some?
  }

  function AllReadings(logs: Logs, time: int): Option<map<string, seq<Line>>> {
    if AllReadable(logs, time) then Some(map k | k in logs :: Reading(logs, k, time).value) else None
  }

  function GetLogsReply(logs: Logs, r: Request): Reply {
    var time, key := r.clock.check, r.q.logKey;
    if !IsRegulator(r) then Text(GET_LOGS_FAILED)
    else if key == "dir" then LogFiles(logs.Keys)
    else if key == "read_all" then
      (match AllReadings(logs, time) case Some(m) => LogEntries(m) case None => Crash)
    else
      (match Reading(logs, key, time) case Some(ls) => LogEntries(map[key := ls]) case None => Crash)
  }

  /** The request is a `getlogs` that ends the process; `GetLogsCrashesExactly` says when. */
  predicate EndsProcess(logs: Logs, r: Request) {
    r.q.cmd == "getlogs" && GetLogsReply(logs, r).Crash?
  }

  /** The request reads the log of the key. */
  predicate ReadsLog(logs: Logs, r: Request, key: string) {
    && r.q.cmd == "getlogs" && IsRegulator(r) && r.q.logKey != "dir"
    && (r.q.logKey == key || (r.q.logKey == "read_all" && key in logs))
    && (key == "read_all" ==> key in logs)
  }

  /** The entry is shown, and the text read from it cannot be formatted. */
  predicate Throws(e: LogRecord, time: int) {
    e.timestamp <= time && TextShown(e.call) != "" && !Formattable(TextShown(e.call))
  }

  /** The timestamps of the log fit their field. */
  predicate Timed(log: seq<LogRecord>) {
    forall e :: e in log ==> -Numbers.I64 <= e.timestamp < Numbers.I64
  }

  lemma {:induction false} ReadingExactly(logs: Logs, key: string, time: int)
    requires Timed(LogOf(logs, key))
    ensures Reading(logs, key, time).None? <==> exists e :: e in LogOf(logs, key) && Throws(e, time)
  {
    hide DecodeEntry, EncodeEntry, LineOf, LinesOf, Formattable, TextShown;
    var log, ds := LogOf(logs, key), LogShown(logs, key, time);
    LinesExactly(ds);
    forall i | 0 <= i < |log| ensures LineOf(ds[i]).None? <==> Throws(log[i], time) {
      assert log[i] in log && ds[i] == DecodeEntry(EncodeEntry(log[i]), time);
      EntryThrows(log[i], time);
    }
    if e :| e in log && Throws(e, time) {
      var i :| 0 <= i < |log| && log[i] == e;
      assert ds[i] in ds;
    }
  }

  /**
   A `getlogs` ends the process exactly when a log it reads holds an entry that is shown
   and whose text cannot be formatted.
   */
  lemma GetLogsCrashesExactly(logs: Logs, r: Request)
    requires r.q.cmd == "getlogs" && forall k :: Timed(LogOf(logs, k))
    ensures GetLogsReply(logs, r).Crash? <==>
              exists k, e :: ReadsLog(logs, r, k) && e in LogOf(logs, k) && Throws(e, r.clock.check)
  {
    hide Reading, Throws, Timed;
    forall k
      ensures Reading(logs, k, r.clock.check).None? <==> exists e :: e in LogOf(logs, k) && Throws(e, r.clock.check)
    {
      ReadingExactly(logs, k, r.clock.check);
    }
    if GetLogsReply(logs, r).Crash? {
      var k := r.q.logKey;
      if k == "read_all" {
        k :| k in logs && Reading(logs, k, r.clock.check).None?;
      }
      assert ReadsLog(logs, r, k);
      var e :| e in LogOf(logs, k) && Throws(e, r.clock.check);
    }
    if k, e :| ReadsLog(logs, r, k) && e in LogOf(logs, k) && Throws(e, r.clock.check) {
      assert Reading(logs, k, r.clock.check).None?;
    }
  }

  function Step(s: State, r: Request): (State, Reply) {
    if r.q.cmd == "get" then GetStep(s, r)
    else if r.q.cmd == "put" then PutStep(s, r)
    else if r.q.cmd == "delete" then DeleteStep(s, r)
    else if r.q.cmd == "putm" then PutMStep(s, r)
    else if r.q.cmd == "getm" then GetMStep(s, r)
    else if r.q.cmd == "getlogs" then (s, GetLogsReply(s.logs, r))
    else (s, Text(INVALID_COMMAND))
  }

  /** Requests one after the other, until the client exits or the process ends. */
  function Run(s: State, rs: seq<Request>): (State, seq<Reply>)
    decreases |rs|
  {
    if rs == [] || rs[0].q.cmd == "exit" then (s, [])
    else
      var (s', reply) := Step(s, rs[0]);
      if reply.Crash? then (s', [Crash])
      else
        var (s'', replies) := Run(s', rs[1..]);
        (s'', [reply] + replies)
  }

  // ---------- the handlers ----------

  class Controller {
    var db: map<string, string>
    var logs: Logs

    function Abs(): State
      reads this
    {
      State(db, logs)
    }

    constructor ()
      ensures Abs() == State(map[], map[])
    {
      db, logs := map[], map[];
    }

    /** Only the log of the request's key grows, by one entry, and only when monitoring is needed. */
    method MonitorQuery(needed: bool, r: Request, valid: bool, newValue: string)
      modifies this`logs
      ensures logs == Monitored(old(logs), needed, r, valid, newValue)
      ensures forall k :: k != r.q.key || !needed ==> LogOf(logs, k) == LogOf(old(logs), k)
      ensures needed ==>
                var before, after := LogOf(old(logs), r.q.key), LogOf(logs, r.q.key);
                && |after| == |before| + 1 && before <= after && after[|before|].timestamp == r.clock.log
                && after[|before|].call == LogCall(EffectiveUser(r.q, r.policy), r.q.cmd, valid, newValue)
    {
      if needed {
        var entry := EntryFor(r, valid, newValue);
        logs := logs[r.q.key := (if r.q.key in logs then logs[r.q.key] else []) + [entry]];
      }
    }

    method HandleGet(r: Request) returns (reply: Reply)
      modifies this
      ensures (Abs(), reply) == GetStep(old(Abs()), r)
    {
      if r.q.key !in db {
        return Text(GET_FAILED);
      }
      var res := db[r.q.key];
      var fields := ReadFields(res);
      if fields.None? {
        return Crash;
      }
      var valid := Validate(fields, r.q, r.policy, r.clock.check);
      MonitorQuery(fields.value.monitor, r, valid, "");
      reply := Text(if valid then RemoveMetadata(res) else GET_FAILED);
    }

    method HandleGetMetadata(r: Request) returns (reply: Reply)
      modifies this
      ensures (Abs(), reply) == GetMStep(old(Abs()), r)
    {
      if r.q.key !in db {
        return Text(GETM_FAILED);
      }
      var res := db[r.q.key];
      var fields := ReadFields(res);
      if fields.None? {
        return Crash;
      }
      var valid := Validate(fields, r.q, r.policy, r.clock.check);
      MonitorQuery(fields.value.monitor, r, valid, "");
      reply := Text(if valid then PreserveMetadata(res) else GETM_FAILED);
    }

    method HandleDelete(r: Request) returns (reply: Reply)
      modifies this
      ensures (Abs(), reply) == DeleteStep(old(Abs()), r)
    {
      if r.q.key !in db {
        return Text(DELETE_REFUSED);
      }
      var fields := ReadFields(db[r.q.key]);
      if fields.None? {
        return Crash;
      }
      var valid := Validate(fields, r.q, r.policy, r.clock.check);
      MonitorQuery(fields.value.monitor, r, valid, "");
      if !valid {
        return Text(DELETE_REFUSED);
      }
      if r.backendOk {
        db := db - {r.q.key};
        return Text(DELETE_SUCCESS);
      }
      reply := Text(DELETE_FAILED);
    }

    method HandlePut(r: Request) returns (reply: Reply)
      modifies this
      ensures (Abs(), reply) == PutStep(old(Abs()), r)
    {
      var text: string;
      if r.q.key !in db {
        text := Insert(r.q, r.policy, r.q.value, r.clock.stamp);
        MonitorQuery(r.q.monitor.GetOr(r.policy.monitor), r, true, text);
      } else {
        var fields := ReadFields(db[r.q.key]);
        if fields.None? {
          return Crash;
        }
        var valid := Validate(fields, r.q, r.policy, r.clock.check);
        if !valid {
          MonitorQuery(fields.value.monitor, r, valid, "");
          return Text(PUT_FAILED);
        }
        text := Splice(db[r.q.key], r.q.value);
        MonitorQuery(fields.value.monitor, r, valid, text);
      }
      if r.backendOk {
        db := db[r.q.key := text];
        return Text(PUT_SUCCESS);
      }
      reply := Text(PUT_FAILED);
    }

    method HandlePutMetadata(r: Request) returns (reply: Reply)
      modifies this
      ensures (Abs(), reply) == PutMStep(old(Abs()), r)
    {
      if r.q.key !in db {
        return Text(PUTM_MISSING);
      }
      var res := db[r.q.key];
      var fields := ReadFields(res);
      if fields.None? {
        return Crash;
      }
      var valid := Validate(fields, r.q, r.policy, r.clock.check);
      if !valid {
        MonitorQuery(fields.value.monitor, r, valid, "");
        return Text(PUTM_FAILED);
      }
      var text := Update(res, r.q, r.clock.stamp);
      MonitorQuery(fields.value.monitor, r, valid, text);
      if r.backendOk {
        db := db[r.q.key := text];
        return Text(PUTM_SUCCESS);
      }
      reply := Text(PUTM_FAILED);
    }

    /** Reads and formats the log of a key; `None` is the formatter's error. */
    method ReadKeyLog(key: string, time: int) returns (lines: Option<seq<Line>>)
      ensures lines == Reading(logs, key, time)
    {
      lines := FormatEntries(LogShown(logs, key, time));
    }

    /** Reads the log of the key asked for, or the logs of all keys one after the other. */
    method HandleGetLogs(r: Request) returns (reply: Reply)
      ensures reply == GetLogsReply(logs, r)
    {
      hide Reading;
      if EffectiveUser(r.q, r.policy) != REGULATOR_KEY {
        return Text(GET_LOGS_FAILED);
      }
      if r.q.logKey == "read_all" {
        var shown: map<string, seq<Line>> := map[];
        var files := logs.Keys;
        while files != {}
          invariant files <= logs.Keys && shown.Keys == logs.Keys - files
          invariant forall k :: k in shown ==> Reading(logs, k, r.clock.check) == Some(shown[k])
        {
          var k :| k in files;
          var lines := ReadKeyLog(k, r.clock.check);
          if lines.None? {
            return Crash;
          }
          shown := shown[k := lines.value];
          files := files - {k};
        }
        assert shown == map k | k in logs :: Reading(logs, k, r.clock.check).value;
        return LogEntries(shown);
      }
      if r.q.logKey == "dir" {
        return LogFiles(logs.Keys);
      }
      var lines := ReadKeyLog(r.q.logKey, r.clock.check);
      reply := if lines.None? then Crash else LogEntries(map[r.q.logKey := lines.value]);
    }

    method Handle(r: Request) returns (reply: Reply)
      modifies this
      ensures (Abs(), reply) == Step(old(Abs()), r)
    {
      if r.q.cmd == "get" {
        reply := HandleGet(r);
      } else if r.q.cmd == "put" {
        reply := HandlePut(r);
      } else if r.q.cmd == "delete" {
        reply := HandleDelete(r);
      } else if r.q.cmd == "putm" {
        reply := HandlePutMetadata(r);
      } else if r.q.cmd == "getm" {
        reply := HandleGetMetadata(r);
      } else if r.q.cmd == "getlogs" {
        reply := HandleGetLogs(r);
      } else {
        reply := Text(INVALID_COMMAND);
      }
    }

    /** `handle_connection`: the loop over the requests of one client. */
    method HandleConnection(rs: seq<Request>) returns (replies: seq<Reply>)
      modifies this
      ensures (Abs(), replies) == Run(old(Abs()), rs)
    {
      replies := [];
      var i := 0;
      assert rs[0..] == rs && [] + Run(Abs(), rs).1 == Run(Abs(), rs).1;
      while i < |rs| && rs[i].q.cmd != "exit"
        invariant 0 <= i <= |rs|
        invariant var (s, rest) := Run(Abs(), rs[i..]); (s, replies + rest) == Run(old(Abs()), rs)
      {
        hide Step;
        ghost var before, sent := Abs(), replies;
        var reply := Handle(rs[i]);
        replies := replies + [reply];
        assert rs[i..][1..] == rs[i + 1..];
        if reply.Crash? {
          return;
        }
        ghost var rest := Run(Abs(), rs[i + 1..]).1;
        assert replies + rest == sent + ([reply] + rest);
        i := i + 1;
      }
      assert replies + [] == replies;
    }
  }
}
