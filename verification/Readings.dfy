/**
 What the regulator reads: the lines shown for a key are, entry by entry, the audits that
 the requests on it had to leave.
 */
module Readings {
  import opened Text
  import opened Numbers
  import opened Metadata
  import opened Query
  import opened Policy
  import opened Filter
  import opened Rewriter
  import opened LogCodec
  import opened LogFormat
  import opened Store
  import opened Records
  import opened Runs

  /** The line of an entry: whole seconds of its time, its user, command and verdict, its text formatted. */
  predicate LineFor(l: Line, e: LogRecord) {
    && l.Line?
    && (e.timestamp >= 0 ==> l.seconds == e.timestamp / 1_000_000_000)
    && l.user == e.call.user
    && l.operation == (if e.call.cmd in {"get", "put", "delete", "getm", "putm", "getLogs"} then e.call.cmd
                       else "invalid_op")
    && l.valid == e.call.valid
    && l.metadata == (if e.call.newValue == "" then None else Format(e.call.newValue))
    && (l.metadata.None? <==> e.call.newValue == "")
  }

  /**
   An entry reads back as its line, unless it is later than the threshold, which leaves an
   empty line, or its text cannot be formatted.
   */
  lemma LineIs(e: LogRecord, time: int)
    requires -I64 <= e.timestamp < I64 && ',' !in e.call.user
    ensures var l := LineOf(DecodeEntry(EncodeEntry(e), time));
            if e.timestamp > time then l == Some(Hidden)
            else if e.call.newValue == "" || Formattable(e.call.newValue) then l.Some? && LineFor(l.value, e)
            else l == None
  {
    hide DecodeEntry, EncodeEntry, Formattable;
    if e.timestamp > time {
      BlankExactly(e, time);
    } else {
      EntryRoundTrip(e, time);
    }
  }

  lemma {:induction false} LinesAt(ds: seq<Decoded>, i: nat)
    requires LinesOf(ds).Some? && i < |ds|
    ensures LineOf(ds[i]) == Some(LinesOf(ds).value[i])
  {
    hide LineOf;
    if i < |ds| - 1 {
      LinesAt(ds[..|ds| - 1], i);
    }
  }

  /** A reply that shows entries of a key shows its whole log up to the time of the request. */
  lemma ShownIsReading(s: State, g: Request, m: map<string, seq<Line>>, k: string)
    requires Step(s, g).1 == LogEntries(m) && k in m
    ensures g.q.cmd == "getlogs" && Reading(s.logs, k, g.clock.check) == Some(m[k])
  {
    hide Reading, ParseFields, Serialize, Allowed, Splice, Split, UpdatedText, RemoveMetadata, PreserveMetadata,
         InsertedFields, Monitored;
  }

  /** Only the user `reg` is shown anything: the keys with a log, all logs, or one. */
  lemma GetLogsShows(s: State, g: Request)
    requires g.q.cmd == "getlogs"
    ensures var user := if g.q.user.Some? then g.q.user.value else g.policy.user;
            && (Step(s, g).1 == Text("8") <==> user != "reg")
            && (user == "reg" ==>
                  match Step(s, g).1
                  case LogFiles(keys) => g.q.logKey == "dir" && keys == s.logs.Keys
                  case LogEntries(m) =>
                    && g.q.logKey != "dir"
                    && (if g.q.logKey == "read_all" then m.Keys == s.logs.Keys else m.Keys == {g.q.logKey})
                  case Crash => g.q.logKey != "dir"
                  case Text(_) => false)
  {
    hide Reading;
  }

  lemma {:induction false} TrailCommands(m: MetaState, rs: seq<Request>, k: string)
    ensures forall a :: a in Trail(m, rs, k) ==> a.cmd in {"get", "put", "delete", "putm", "getm"}
    decreases |rs|
  {
    hide MetaStep, EffectiveUser, Approved;
    if rs != [] && rs[0].q.cmd != "exit" {
      TrailCommands(MetaStep(m, rs[0]), rs[1..], k);
    }
  }

  /** The line shows the audit. */
  predicate Tells(l: Line, a: Audit) {
    && l.Line? && l.user == a.user && l.operation == a.cmd && l.valid == a.valid
    && (a.timestamp >= 0 ==> l.seconds == a.timestamp / 1_000_000_000)
  }

  /**
   After every run, what a `getlogs` shows of a key are the audits of the prescribed trail,
   one line each, in order, with empty lines for those later than the request.
   */
  lemma LinesAreTrail(s: State, rs: seq<Request>, g: Request, m: map<string, seq<Line>>, k: string)
    requires WellFormed(s) && forall i :: 0 <= i < |rs| ==> CleanRequest(rs[i])
    requires Step(Run(s, rs).0, g).1 == LogEntries(m) && k in m
    requires |Run(s, rs).1| <= |rs|
    requires forall a :: a in Trail(MetaOf(s), rs[..|Run(s, rs).1|], k) ==> ',' !in a.user && -I64 <= a.timestamp < I64
    ensures var trail, old_ := Trail(MetaOf(s), rs[..|Run(s, rs).1|], k), |LogOf(s.logs, k)|;
            && |m[k]| == old_ + |trail|
            && forall i :: 0 <= i < |trail| ==>
                 if trail[i].timestamp > g.clock.check then m[k][old_ + i] == Hidden
                 else Tells(m[k][old_ + i], trail[i])
  {
    hide Run, Step, WellFormed, CleanRequest, MetaOf, Trail, Reading, Tells;
    var b, trail, old_ := Run(s, rs).0, Trail(MetaOf(s), rs[..|Run(s, rs).1|], k), |LogOf(s.logs, k)|;
    LogsAreTrail(s, rs, k);
    ShownIsReading(b, g, m, k);
    TrailCommands(MetaOf(s), rs[..|Run(s, rs).1|], k);
    var log := LogOf(b.logs, k);
    ReadingLength(b.logs, k, g.clock.check);
    forall i | 0 <= i < |trail|
      ensures if trail[i].timestamp > g.clock.check then m[k][old_ + i] == Hidden else Tells(m[k][old_ + i], trail[i])
    {
      assert Audits(log)[old_ + i] == trail[i] && trail[i] in trail;
      ReadingAt(b.logs, k, g.clock.check, old_ + i);
      AuditTold(log[old_ + i], g.clock.check, m[k][old_ + i]);
    }
  }

  lemma ReadingLength(logs: Logs, k: string, time: int)
    ensures Reading(logs, k, time).Some? ==> |Reading(logs, k, time).value| == |LogOf(logs, k)|
  {
    hide LinesOf;
  }

  lemma ReadingAt(logs: Logs, k: string, time: int, i: nat)
    requires Reading(logs, k, time).Some? && i < |LogOf(logs, k)|
    ensures i < |Reading(logs, k, time).value|
    ensures LineOf(DecodeEntry(EncodeEntry(LogOf(logs, k)[i]), time)) == Some(Reading(logs, k, time).value[i])
  {
    hide LineOf, DecodeEntry, EncodeEntry;
    LinesAt(LogShown(logs, k, time), i);
  }

  lemma AuditTold(e: LogRecord, time: int, l: Line)
    requires LineOf(DecodeEntry(EncodeEntry(e), time)) == Some(l)
    requires -I64 <= e.timestamp < I64 && ',' !in e.call.user
    requires e.call.cmd in {"get", "put", "delete", "putm", "getm"}
    ensures if e.timestamp > time then l == Hidden else Tells(l, AuditOf(e))
  {
    hide LineOf, DecodeEntry, EncodeEntry, Formattable;
    LineIs(e, time);
  }
}
