/**
 What can be learned about a pair whose expiry has passed: from the replies to data commands
 nothing, but its log goes on recording refused requests, and the regulator may read it as
 long as the formatter does not throw on what it holds.
 */
module Silence {
  import opened Text
  import Numbers
  import opened Metadata
  import opened Query
  import opened Policy
  import opened Filter
  import opened Rewriter
  import opened LogCodec
  import opened LogFormat
  import opened Store
  import opened Records
  import opened Runs
  import opened Interleaving

  // ---------- what a step depends on ----------

  /** The entry a request leaves, given what is stored under its key. */
  function Noted(res: Option<string>, r: Request): Option<LogRecord> {
    if !DataCommand(r.q.cmd) then None
    else
      match Decide(res, r)
      case None => None
      case Some(d) => if d.needed then Some(EntryFor(r, d.valid, d.logged)) else None
  }

  function WithNote(logs: Logs, key: string, note: Option<LogRecord>): Logs {
    match note
    case None => logs
    case Some(e) => logs[key := LogOf(logs, key) + [e]]
  }

  lemma StepNotes(s: State, r: Request)
    ensures Step(s, r).0.logs == WithNote(s.logs, r.q.key, Noted(Get(s.db, r.q.key), r))
  {
    hide ParseFields, Serialize, Allowed, Splice, Split, UpdatedText, RemoveMetadata,
         PreserveMetadata, InsertedFields, EntryFor, GetLogsReply;
  }

  /** Replies other than to `getlogs`, and the stored texts, depend on nothing but the text under the key. */
  lemma StepReads(s: State, t: State, r: Request, k: string)
    requires r.q.key != k && s.db - {k} == t.db - {k}
    ensures r.q.cmd != "getlogs" ==> Step(s, r).1 == Step(t, r).1
    ensures Get(s.db, r.q.key) == Get(t.db, r.q.key)
    ensures Step(s, r).0.db - {k} == Step(t, r).0.db - {k}
  {
    hide ParseFields, Serialize, Allowed, Splice, Split, UpdatedText, RemoveMetadata,
         PreserveMetadata, InsertedFields, EntryFor, Monitored, GetLogsReply;
    SameElsewhere(s.db, t.db, k, r.q.key);
    UpdateElsewhere(s.db, t.db, k, r.q.key, Written(s, r));
  }

  lemma SameElsewhere(a: map<string, string>, b: map<string, string>, k: string, key: string)
    requires key != k && a - {k} == b - {k}
    ensures key in a <==> key in b
    ensures key in a ==> a[key] == b[key]
  {
    assert key in a - {k} <==> key in a;
    assert key in b - {k} <==> key in b;
    assert key in a ==> (a - {k})[key] == a[key];
    assert key in b ==> (b - {k})[key] == b[key];
  }

  lemma UpdateElsewhere(a: map<string, string>, b: map<string, string>, k: string, key: string, v: string)
    requires key != k && a - {k} == b - {k}
    ensures a[key := v] - {k} == b[key := v] - {k}
    ensures a - {key} - {k} == b - {key} - {k}
  {
    assert a[key := v] - {k} == (a - {k})[key := v];
    assert b[key := v] - {k} == (b - {k})[key := v];
    assert a - {key} - {k} == (a - {k}) - {key};
    assert b - {key} - {k} == (b - {k}) - {key};
  }

  /** A request on an expired pair changes no text; it is noted as refused if the pair is monitored. */
  lemma ExpiredKeyStep(s: State, r: Request, now: int)
    requires Expired(s, r.q.key, now) && now <= r.clock.check
    ensures Step(s, r).0.db == s.db
    ensures Noted(Get(s.db, r.q.key), r) ==
            if DataCommand(r.q.cmd) && Flagged(s, r.q.key) then Some(EntryFor(r, false, "")) else None
  {
    hide ParseFields, Serialize, Splice, Split, UpdatedText, RemoveMetadata, Seconds, Subset, Disjoint,
         PreserveMetadata, InsertedFields, EntryFor, EffectiveUser, EffectivePurposes, GetLogsReply;
    SecondsMonotone(now, r.clock.check);
  }

  // ---------- stores that differ in an expired pair ----------

  /** The stores hold the same except for key k, where both pairs have expired. */
  predicate DifferAtExpired(s: State, t: State, k: string, now: int) {
    Expired(s, k, now) && Expired(t, k, now) && s.db - {k} == t.db - {k}
  }

  /** The monitor flag of a stored pair. */
  predicate Flagged(s: State, k: string) {
    k in s.db && ParseFields(s.db[k]).Some? && ParseFields(s.db[k]).value.monitor
  }

  /** The two names that are not taken for keys when logs are read. */
  predicate Special(key: string) {
    key == "read_all" || key == "dir"
  }

  /** Every reading of the logs from now on is answered alike. */
  ghost predicate LogsAgree(a: Logs, b: Logs, now: int) {
    && a.Keys == b.Keys
    && (forall time: int :: time >= now ==> AllReadings(a, time) == AllReadings(b, time))
    && forall key, time: int :: !Special(key) && time >= now ==> Reading(a, key, time) == Reading(b, key, time)
  }

  ghost predicate LogsAgreeBut(a: Logs, b: Logs, k: string, now: int) {
    forall key, time: int :: !Special(key) && key != k && time >= now ==> Reading(a, key, time) == Reading(b, key, time)
  }

  /** One more entry in the log of k would be seen by some reading. */
  predicate Open(logs: Logs, k: string, now: int) {
    k !in logs || if Special(k) then AllReadable(logs, now) else Reading(logs, k, now).Some?
  }

  /** A permitted `getlogs` that shows the log of k, or whether there is one. */
  predicate ReadsLogOf(r: Request, k: string) {
    r.q.cmd == "getlogs" && IsRegulator(r) && (r.q.logKey == k || Special(r.q.logKey))
  }

  // ---------- readings and notes ----------

  lemma ReadingMore(logs: Logs, key: string, e: LogRecord, time: int)
    ensures Reading(logs[key := LogOf(logs, key) + [e]], key, time) ==
            match (Reading(logs, key, time), LineOf(DecodeEntry(EncodeEntry(e), time)))
            case (Some(ls), Some(l)) => Some(ls + [l])
            case _ => None
  {
    hide DecodeEntry, EncodeEntry, LineOf, LinesOf;
    var more, d := LogOf(logs, key) + [e], DecodeEntry(EncodeEntry(e), time);
    assert LogOf(logs[key := more], key) == more;
    assert DecodeAll(Encoded(more), time) == DecodeAll(Encoded(LogOf(logs, key)), time) + [d];
    LinesAppend(LogShown(logs, key, time), d);
  }

  lemma ReadingElsewhere(logs: Logs, key: string, note: Option<LogRecord>, other: string, time: int)
    requires other != key
    ensures Reading(WithNote(logs, key, note), other, time) == Reading(logs, other, time)
  {
    hide DecodeAll, Encoded, LinesOf;
  }

  /** A log that cannot be read now can never be read again, whatever is added to it. */
  lemma StaysBroken(logs: Logs, key: string, note: Option<LogRecord>, other: string, now: int, time: int)
    requires Reading(logs, other, now).None? && now <= time
    ensures Reading(logs, other, time).None? && Reading(WithNote(logs, key, note), other, time).None?
  {
    hide DecodeEntry, EncodeEntry, LineOf, LinesOf;
    var ds, later := LogShown(logs, other, now), LogShown(logs, other, time);
    LinesExactly(ds);
    LinesExactly(later);
    var i :| 0 <= i < |ds| && LineOf(ds[i]).None?;
    LaterBroken(EncodeEntry(LogOf(logs, other)[i]), now, time);
    assert later[i] in later;
    if note.Some? && other == key {
      ReadingMore(logs, key, note.value, time);
    } else if other != key {
      ReadingElsewhere(logs, key, note, other, time);
    }
  }

  lemma LaterBroken(entry: string, now: int, time: int)
    requires now <= time && LineOf(DecodeEntry(entry, now)).None?
    ensures LineOf(DecodeEntry(entry, time)).None?
  {
    hide Format, TimestampValue, UnpackName, UnpackValid, Find;
  }

  /** Once some log cannot be read, the reading of all of them fails for ever. */
  lemma AllStaysBroken(logs: Logs, key: string, note: Option<LogRecord>, now: int, time: int)
    requires !AllReadable(logs, now) && now <= time
    ensures !AllReadable(logs, time) && !AllReadable(WithNote(logs, key, note), time)
  {
    hide Reading;
    var k :| k in logs && Reading(logs, k, now).None?;
    StaysBroken(logs, key, note, k, now, time);
    assert k in WithNote(logs, key, note);
  }

  /** What a note does to one reading depends on that reading alone. */
  lemma NotedReading(a: Logs, b: Logs, key: string, note: Option<LogRecord>, other: string, time: int)
    requires Reading(a, other, time) == Reading(b, other, time)
    ensures Reading(WithNote(a, key, note), other, time) == Reading(WithNote(b, key, note), other, time)
  {
    hide Reading, LineOf;
    if note.Some? && other == key {
      ReadingMore(a, key, note.value, time);
      ReadingMore(b, key, note.value, time);
    } else if other != key {
      ReadingElsewhere(a, key, note, other, time);
      ReadingElsewhere(b, key, note, other, time);
    }
  }

  lemma SameReadings(a: Logs, b: Logs, time: int)
    requires a.Keys == b.Keys
    ensures (forall k :: k in a ==> Reading(a, k, time) == Reading(b, k, time)) ==>
              AllReadings(a, time) == AllReadings(b, time)
    ensures AllReadings(a, time) == AllReadings(b, time) && AllReadable(a, time) ==>
              forall k :: k in a ==> Reading(a, k, time) == Reading(b, k, time)
    ensures AllReadings(a, time) == AllReadings(b, time) ==> (AllReadable(a, time) <==> AllReadable(b, time))
  {
    hide Reading;
    if forall k :: k in a ==> Reading(a, k, time) == Reading(b, k, time) {
      assert AllReadable(a, time) <==> AllReadable(b, time);
      assert (map k | k in a && Reading(a, k, time).Some? :: Reading(a, k, time).value) ==
             (map k | k in b && Reading(b, k, time).Some? :: Reading(b, k, time).value);
      if AllReadable(a, time) {
        assert AllReadings(a, time).value == AllReadings(b, time).value;
      }
    }
    if AllReadings(a, time) == AllReadings(b, time) && AllReadable(a, time) {
      var m := AllReadings(a, time).value;
      forall k | k in a ensures Reading(a, k, time) == Reading(b, k, time) {
        assert k in b && Reading(a, k, time).Some? && Reading(b, k, time).Some?;
        assert m[k] == Reading(a, k, time).value && AllReadings(b, time).value[k] == Reading(b, k, time).value;
      }
    }
  }

  lemma NotedReadings(a: Logs, b: Logs, key: string, note: Option<LogRecord>, time: int)
    requires a.Keys == b.Keys && AllReadings(a, time) == AllReadings(b, time)
    requires key !in a ==> Reading(a, key, time) == Reading(b, key, time)
    ensures AllReadings(WithNote(a, key, note), time) == AllReadings(WithNote(b, key, note), time)
  {
    hide Reading, AllReadable, AllReadings;
    SameReadings(a, b, time);
    var a', b' := WithNote(a, key, note), WithNote(b, key, note);
    assert a'.Keys == b'.Keys;
    if AllReadable(a, time) {
      forall k | k in a' ensures Reading(a', k, time) == Reading(b', k, time) {
        NotedReading(a, b, key, note, k, time);
      }
      SameReadings(a', b', time);
    } else {
      AllStaysBroken(a, key, note, time, time);
      AllStaysBroken(b, key, note, time, time);
      Unreadable(a', time);
      Unreadable(b', time);
    }
  }

  lemma Unreadable(logs: Logs, time: int)
    ensures !AllReadable(logs, time) ==> AllReadings(logs, time) == None
  {
  }

  lemma EmptyReading(logs: Logs, key: string, time: int)
    requires key !in logs
    ensures Reading(logs, key, time) == Some([])
  {
  }

  /** The same note keeps logs in agreement. */
  lemma NotesAgree(a: Logs, b: Logs, key: string, note: Option<LogRecord>, now: int)
    requires LogsAgree(a, b, now)
    ensures LogsAgree(WithNote(a, key, note), WithNote(b, key, note), now)
  {
    hide Reading, AllReadings;
    var a', b' := WithNote(a, key, note), WithNote(b, key, note);
    forall time: int | time >= now ensures AllReadings(a', time) == AllReadings(b', time) {
      if key !in a {
        EmptyReading(a, key, time);
        EmptyReading(b, key, time);
      }
      NotedReadings(a, b, key, note, time);
    }
    forall other, time: int | !Special(other) && time >= now
      ensures Reading(a', other, time) == Reading(b', other, time)
    {
      NotedReading(a, b, key, note, other, time);
    }
  }

  /** Where nobody can see more entries of the log of k, even different notes do. */
  lemma UnseenNotes(a: Logs, b: Logs, k: string, m: Option<LogRecord>, n: Option<LogRecord>, now: int)
    requires LogsAgree(a, b, now) && !Open(a, k, now)
    ensures LogsAgree(WithNote(a, k, m), WithNote(b, k, n), now)
  {
    hide Reading, AllReadings, AllReadable;
    var a', b' := WithNote(a, k, m), WithNote(b, k, n);
    assert a'.Keys == b'.Keys;
    SameReadings(a, b, now);
    Broken(a, k, now);
    forall time: int | time >= now ensures AllReadings(a', time) == AllReadings(b', time) {
      AllStaysBroken(a, k, m, now, time);
      AllStaysBroken(b, k, n, now, time);
      Unreadable(a', time);
      Unreadable(b', time);
    }
    forall other, time: int | !Special(other) && time >= now
      ensures Reading(a', other, time) == Reading(b', other, time)
    {
      if other == k {
        assert Reading(a, k, now) == Reading(b, k, now);
        StaysBroken(a, k, m, k, now, time);
        StaysBroken(b, k, n, k, now, time);
      } else {
        ReadingElsewhere(a, k, m, other, time);
        ReadingElsewhere(b, k, n, other, time);
      }
    }
  }

  lemma Broken(logs: Logs, k: string, now: int)
    requires !Open(logs, k, now)
    ensures !AllReadable(logs, now)
  {
    hide Reading;
  }

  lemma StaysUnseen(logs: Logs, key: string, note: Option<LogRecord>, k: string, now: int)
    requires !Open(logs, k, now)
    ensures !Open(WithNote(logs, key, note), k, now)
  {
    hide Reading, AllReadable;
    if Special(k) {
      AllStaysBroken(logs, key, note, now, now);
    } else {
      StaysBroken(logs, key, note, k, now, now);
    }
  }

  // ---------- steps ----------

  lemma DiffersStill(s: State, t: State, r: Request, k: string, now: int)
    requires DifferAtExpired(s, t, k, now) && now <= r.clock.check
    ensures DifferAtExpired(Step(s, r).0, Step(t, r).0, k, now)
    ensures Flagged(Step(s, r).0, k) == Flagged(s, k) && Flagged(Step(t, r).0, k) == Flagged(t, k)
    ensures r.q.cmd != "getlogs" ==> Step(s, r).1 == Step(t, r).1
  {
    hide Step, ParseFields, Seconds, Refusal;
    ExpiredStep(s, r, k, now);
    ExpiredStep(t, r, k, now);
    if r.q.key == k {
      ExpiredKeyStep(s, r, now);
      ExpiredKeyStep(t, r, now);
      if r.q.cmd != "getlogs" { RefusedAlike(s, t, r, now); }
    } else {
      StepReads(s, t, r, k);
    }
  }

  lemma RefusedAlike(s: State, t: State, r: Request, now: int)
    requires Expired(s, r.q.key, now) && Expired(t, r.q.key, now) && now <= r.clock.check && r.q.cmd != "getlogs"
    ensures Step(s, r).1 == Step(t, r).1
  {
    ExpiredStep(s, r, r.q.key, now);
    ExpiredStep(t, r, r.q.key, now);
    hide Expired, GetStep, GetMStep, PutStep, PutMStep, DeleteStep;
  }

  /** The logs of the other keys stay in agreement. */
  lemma ButAgrees(s: State, t: State, r: Request, k: string, now: int)
    requires DifferAtExpired(s, t, k, now) && LogsAgreeBut(s.logs, t.logs, k, now)
    ensures LogsAgreeBut(Step(s, r).0.logs, Step(t, r).0.logs, k, now)
  {
    hide Step, Noted, WithNote, Reading, Expired;
    StepNotes(s, r);
    StepNotes(t, r);
    var key := r.q.key;
    forall other, time: int | !Special(other) && other != k && time >= now
      ensures Reading(Step(s, r).0.logs, other, time) == Reading(Step(t, r).0.logs, other, time)
    {
      if key == k {
        ReadingElsewhere(s.logs, k, Noted(Get(s.db, key), r), other, time);
        ReadingElsewhere(t.logs, k, Noted(Get(t.db, key), r), other, time);
      } else {
        StepReads(s, t, r, k);
        NotedReading(s.logs, t.logs, key, Noted(Get(s.db, key), r), other, time);
      }
    }
  }

  /** With equal flags, or where nobody can see it, so do all logs. */
  lemma AllAgree(s: State, t: State, r: Request, k: string, now: int)
    requires DifferAtExpired(s, t, k, now) && now <= r.clock.check && LogsAgree(s.logs, t.logs, now)
    requires Flagged(s, k) == Flagged(t, k) || !Open(s.logs, k, now)
    ensures LogsAgree(Step(s, r).0.logs, Step(t, r).0.logs, now)
    ensures !Open(s.logs, k, now) ==> !Open(Step(s, r).0.logs, k, now)
  {
    hide Step, Noted, WithNote, LogsAgree, Open, Expired, Flagged;
    StepNotes(s, r);
    StepNotes(t, r);
    var key := r.q.key;
    var m, n := Noted(Get(s.db, key), r), Noted(Get(t.db, key), r);
    if !Open(s.logs, k, now) { StaysUnseen(s.logs, key, m, k, now); }
    if key == k {
      ExpiredKeyStep(s, r, now);
      ExpiredKeyStep(t, r, now);
    } else {
      StepReads(s, t, r, k);
    }
    if m == n {
      NotesAgree(s.logs, t.logs, key, m, now);
    } else {
      UnseenNotes(s.logs, t.logs, k, m, n, now);
    }
  }

  /** A `getlogs` that does not read the log of k cannot tell logs apart that agree elsewhere. */
  lemma ReportElsewhere(a: Logs, b: Logs, r: Request, k: string, now: int)
    requires LogsAgreeBut(a, b, k, now) && now <= r.clock.check && r.q.cmd == "getlogs" && !ReadsLogOf(r, k)
    ensures GetLogsReply(a, r) == GetLogsReply(b, r)
  {
    hide Reading, AllReadings;
  }

  lemma ReportAgrees(a: Logs, b: Logs, r: Request, now: int)
    requires LogsAgree(a, b, now) && now <= r.clock.check
    ensures GetLogsReply(a, r) == GetLogsReply(b, r)
  {
    hide Reading, AllReadings;
  }

  lemma ClockLater(now: int, later: int, rs: seq<Request>)
    requires now <= later && ClockFrom(later, rs)
    ensures ClockFrom(now, rs)
  {
  }

  lemma GetLogsStep(s: State, r: Request)
    requires r.q.cmd == "getlogs"
    ensures Step(s, r) == (s, GetLogsReply(s.logs, r))
  {
  }

  /**
   As long as no permitted `getlogs` reads the log of the key, neither the value nor the
   metadata of an expired pair has any influence on the replies of a run, even if the logs
   of the key differ.
   */
  lemma {:induction false} ExpiredIsSilent(s: State, t: State, rs: seq<Request>, k: string, now: int)
    requires DifferAtExpired(s, t, k, now) && LogsAgreeBut(s.logs, t.logs, k, now) && ClockFrom(now, rs)
    requires forall i :: 0 <= i < |rs| && i < |Run(s, rs).1| ==> !ReadsLogOf(rs[i], k)
    ensures Run(s, rs).1 == Run(t, rs).1
    decreases |rs|
  {
    hide Step, DifferAtExpired, ReadsLogOf, LogsAgreeBut, Flagged;
    if rs != [] && rs[0].q.cmd != "exit" {
      var r, rest := rs[0], rs[1..];
      assert !ReadsLogOf(rs[0], k);
      DiffersStill(s, t, r, k, now);
      ButAgrees(s, t, r, k, now);
      if r.q.cmd == "getlogs" {
        GetLogsStep(s, r);
        GetLogsStep(t, r);
        ReportElsewhere(s.logs, t.logs, r, k, now);
      }
      ClockLater(now, r.clock.log, rest);
      if !Step(s, r).1.Crash? {
        forall i | 0 <= i < |rest| && i < |Run(Step(s, r).0, rest).1| ensures !ReadsLogOf(rest[i], k) {
          assert rest[i] == rs[i + 1];
        }
        ExpiredIsSilent(Step(s, r).0, Step(t, r).0, rest, k, now);
      }
    }
  }

  // ---------- exactly when nobody can tell ----------

  /** No run of requests from now on, by anybody, is answered differently. */
  ghost predicate Indistinguishable(s: State, t: State, now: int) {
    forall rs :: ClockFrom(now, rs) ==> Run(s, rs).1 == Run(t, rs).1
  }

  lemma {:induction false} SameInRun(s: State, t: State, rs: seq<Request>, k: string, now: int)
    requires DifferAtExpired(s, t, k, now) && ClockFrom(now, rs) && LogsAgree(s.logs, t.logs, now)
    requires Flagged(s, k) == Flagged(t, k) || !Open(s.logs, k, now)
    ensures Run(s, rs).1 == Run(t, rs).1
    decreases |rs|
  {
    hide Step, DifferAtExpired, LogsAgree, Flagged, Open;
    if rs != [] && rs[0].q.cmd != "exit" {
      var r, rest := rs[0], rs[1..];
      DiffersStill(s, t, r, k, now);
      AllAgree(s, t, r, k, now);
      if r.q.cmd == "getlogs" {
        GetLogsStep(s, r);
        GetLogsStep(t, r);
        ReportAgrees(s.logs, t.logs, r, now);
      }
      ClockLater(now, r.clock.log, rest);
      if !Step(s, r).1.Crash? {
        SameInRun(Step(s, r).0, Step(t, r).0, rest, k, now);
      }
    }
  }

  const NOBODY: Policy := Policy("", false, NoBits(), NoBits(), "", 0, "", false)

  /** The regulator asks for the log of a key, for all logs, or for the keys that have one. */
  function ReadLog(key: string, time: int): Request {
    Request(EMPTY.(cmd := "getlogs", user := Some(REGULATOR_KEY), logKey := key), NOBODY,
            Clock(time, time, time), true)
  }

  /** Somebody asks for the value of a key. */
  function Ask(k: string, time: int): Request {
    Request(EMPTY.(cmd := "get", key := k), NOBODY, Clock(time, time, time), true)
  }

  lemma RunOne(s: State, r: Request)
    requires r.q.cmd != "exit"
    ensures Run(s, [r]).1 == [Step(s, r).1]
  {
    hide Step;
    assert [r][1..] == [];
    assert Run(Step(s, r).0, []).1 == [];
  }

  lemma RunTwo(s: State, a: Request, b: Request)
    requires a.q.cmd != "exit" && b.q.cmd != "exit" && !Step(s, a).1.Crash?
    ensures Run(s, [a, b]).1 == [Step(s, a).1, Step(Step(s, a).0, b).1]
  {
    hide Step;
    assert [a, b][1..] == [b];
    RunOne(Step(s, a).0, b);
  }

  lemma ReadLogReplies(s: State, key: string, time: int)
    ensures Step(s, ReadLog(key, time)) ==
            (s, if key == "dir" then LogFiles(s.logs.Keys)
                else if key == "read_all" then
                  if AllReadable(s.logs, time) then LogEntries(AllReadings(s.logs, time).value) else Crash
                else if Reading(s.logs, key, time).Some? then LogEntries(map[key := Reading(s.logs, key, time).value])
                else Crash)
  {
    hide Reading;
    GetLogsStep(s, ReadLog(key, time));
  }

  lemma OneClock(r: Request, now: int, time: int)
    requires r.clock == Clock(time, time, time) && now <= time
    ensures ClockFrom(now, [r])
  {
    assert [r][1..] == [];
  }

  lemma TwoClocks(a: Request, b: Request, now: int)
    requires a.clock == Clock(now, now, now) && b.clock == Clock(now, now, now)
    ensures ClockFrom(now, [a, b])
  {
    assert [a, b][1..] == [b];
    OneClock(b, now, now);
  }

  /** One reading of the logs is answered alike by stores that cannot be told apart. */
  lemma ReadingsEqual(s: State, t: State, key: string, now: int, time: int)
    requires Indistinguishable(s, t, now) && now <= time
    ensures key == "dir" ==> s.logs.Keys == t.logs.Keys
    ensures key == "read_all" ==> AllReadings(s.logs, time) == AllReadings(t.logs, time)
    ensures !Special(key) ==> Reading(s.logs, key, time) == Reading(t.logs, key, time)
  {
    hide Reading, Run, Step, AllReadable, ClockFrom;
    var r := ReadLog(key, time);
    OneClock(r, now, time);
    assert Run(s, [r]).1 == Run(t, [r]).1;
    RunOne(s, r);
    RunOne(t, r);
    assert Step(s, r).1 == Step(t, r).1 by { assert [Step(s, r).1][0] == [Step(t, r).1][0]; }
    ReadLogReplies(s, key, time);
    ReadLogReplies(t, key, time);
    assert !Special(key) ==> map[key := Reading(s.logs, key, time)][key] == Reading(s.logs, key, time);
    if !Special(key) && Reading(s.logs, key, time).Some? && Reading(t.logs, key, time).Some? {
      var a, b := map[key := Reading(s.logs, key, time).value], map[key := Reading(t.logs, key, time).value];
      assert a[key] == b[key];
    }
  }

  lemma IndistinguishableLogs(s: State, t: State, now: int)
    requires Indistinguishable(s, t, now)
    ensures LogsAgree(s.logs, t.logs, now)
  {
    hide Reading, AllReadings, Indistinguishable;
    ReadingsEqual(s, t, "dir", now, now);
    forall time: int | time >= now ensures AllReadings(s.logs, time) == AllReadings(t.logs, time) {
      ReadingsEqual(s, t, "read_all", now, time);
    }
    forall key, time: int | !Special(key) && time >= now
      ensures Reading(s.logs, key, time) == Reading(t.logs, key, time)
    {
      ReadingsEqual(s, t, key, now, time);
    }
  }

  /** How the regulator would see one more entry in the log of k. */
  function Look(logs: Logs, k: string): string {
    if k !in logs then "dir" else if Special(k) then "read_all" else k
  }

  /** An entry of nobody's refused request is seen by that look. */
  lemma NoteSeen(s: State, k: string, e: LogRecord, now: int)
    requires Open(s.logs, k, now) && e.call.user == "" && e.call.newValue == ""
    ensures var s' := s.(logs := WithNote(s.logs, k, Some(e)));
            Step(s', ReadLog(Look(s.logs, k), now)).1 != Step(s, ReadLog(Look(s.logs, k), now)).1
  {
    hide Reading, LineOf, Step, DecodeEntry, EncodeEntry, AllReadable;
    var s' := s.(logs := WithNote(s.logs, k, Some(e)));
    var key := Look(s.logs, k);
    ReadLogReplies(s, key, now);
    ReadLogReplies(s', key, now);
    ReadingMore(s.logs, k, e, now);
    EmptyEntryShows(e, now);
    if key == "read_all" {
      AllReadableAt(s.logs, k, now);
      AllReadingsLonger(s.logs, k, e, now);
    } else if key == k && !Special(k) {
      assert |Reading(s'.logs, k, now).value| == |Reading(s.logs, k, now).value| + 1;
      var a, b := map[k := Reading(s'.logs, k, now).value], map[k := Reading(s.logs, k, now).value];
      assert a[k] != b[k];
    } else {
      assert k in s'.logs.Keys && k !in s.logs.Keys;
    }
  }

  lemma AllReadableAt(logs: Logs, k: string, now: int)
    requires AllReadable(logs, now) && k in logs
    ensures Reading(logs, k, now).Some?
  {
  }

  lemma AllReadingsLonger(logs: Logs, k: string, e: LogRecord, now: int)
    requires k in logs && AllReadable(logs, now) && Reading(logs, k, now).Some?
    requires Reading(WithNote(logs, k, Some(e)), k, now).Some?
    requires |Reading(WithNote(logs, k, Some(e)), k, now).value| == |Reading(logs, k, now).value| + 1
    ensures AllReadable(WithNote(logs, k, Some(e)), now)
    ensures AllReadings(WithNote(logs, k, Some(e)), now) != AllReadings(logs, now)
  {
    hide Reading;
    var more := WithNote(logs, k, Some(e));
    forall other | other in more ensures Reading(more, other, now).Some? {
      if other != k { ReadingElsewhere(logs, k, Some(e), other, now); }
    }
    assert AllReadings(more, now).value[k] == Reading(more, k, now).value;
    assert AllReadings(logs, now).value[k] == Reading(logs, k, now).value;
  }

  /** Asking for the expired value and then looking at the logs tells whether the pair is monitored. */
  lemma FlagTells(s: State, t: State, k: string, now: int) returns (rs: seq<Request>)
    requires DifferAtExpired(s, t, k, now) && Flagged(s, k) && !Flagged(t, k)
    requires LogsAgree(s.logs, t.logs, now) && Open(s.logs, k, now)
    ensures ClockFrom(now, rs) && Run(s, rs).1 != Run(t, rs).1
  {
    hide Step, Noted, Expired, Flagged, Run, ClockFrom, Open, Reading, AllReadings;
    var r, look := Ask(k, now), ReadLog(Look(s.logs, k), now);
    rs := [r, look];
    TwoClocks(r, look, now);
    ExpiredStep(s, r, k, now);
    ExpiredStep(t, r, k, now);
    StepNotes(s, r);
    StepNotes(t, r);
    ExpiredKeyStep(s, r, now);
    ExpiredKeyStep(t, r, now);
    RunTwo(s, r, look);
    RunTwo(t, r, look);
    var a, b := Step(s, r).0, Step(t, r).0;
    assert a == s.(logs := WithNote(s.logs, k, Some(EntryFor(r, false, "")))) && b == t;
    NoteSeen(s, k, EntryFor(r, false, ""), now);
    GetLogsStep(s, look);
    GetLogsStep(t, look);
    ReportAgrees(s.logs, t.logs, look, now);
    assert Run(s, rs).1[1] != Run(t, rs).1[1];
  }

  /**
   Two stores that differ only in expired pairs of one key cannot be told apart by any run
   exactly when every reading of their logs from now on is answered alike and either both
   pairs are monitored, or neither is, or nobody can see more of the log of the key, since
   the formatter throws on what it already holds.
   */
  lemma ExpiredSilentExactly(s: State, t: State, k: string, now: int)
    requires DifferAtExpired(s, t, k, now)
    ensures Indistinguishable(s, t, now) <==>
              LogsAgree(s.logs, t.logs, now) && (Flagged(s, k) == Flagged(t, k) || !Open(s.logs, k, now))
  {
    hide DifferAtExpired, Flagged, Run, LogsAgree, Open, ClockFrom;
    if LogsAgree(s.logs, t.logs, now) && (Flagged(s, k) == Flagged(t, k) || !Open(s.logs, k, now)) {
      forall rs | ClockFrom(now, rs) ensures Run(s, rs).1 == Run(t, rs).1 { SameInRun(s, t, rs, k, now); }
    }
    if Indistinguishable(s, t, now) {
      IndistinguishableLogs(s, t, now);
      if Flagged(s, k) != Flagged(t, k) && Open(s.logs, k, now) {
        if Flagged(s, k) {
          var rs := FlagTells(s, t, k, now);
        } else {
          AgreeBack(s, t, k, now);
          var rs := FlagTells(t, s, k, now);
        }
      }
    }
  }

  lemma AgreeBack(s: State, t: State, k: string, now: int)
    requires DifferAtExpired(s, t, k, now) && LogsAgree(s.logs, t.logs, now)
    ensures DifferAtExpired(t, s, k, now) && LogsAgree(t.logs, s.logs, now)
    ensures Open(t.logs, k, now) == Open(s.logs, k, now)
  {
    hide Reading, AllReadings, AllReadable;
    SameReadings(s.logs, t.logs, now);
  }

  // ---------- what the regulator learns ----------

  /** Two expired pairs with equal, empty logs that a refused GET and a look at the logs tell apart. */
  lemma LeakExample() returns (s: State, t: State, rs: seq<Request>)
    ensures DifferAtExpired(s, t, "k", 2_000_000_000) && s.logs == t.logs && ClockFrom(2_000_000_000, rs)
    ensures Run(s, rs).1 != Run(t, rs).1
  {
    var on := DEFAULT.(expiration := 1, monitor := true);
    var off := DEFAULT.(expiration := 1);
    s := State(map["k" := Serialize(Record(on, "old"))], map[]);
    t := State(map["k" := Serialize(Record(off, "new"))], map[]);
    hide ParseFields, Serialize;
    CleanRoundTrip(Record(on, "old"));
    CleanRoundTrip(Record(off, "new"));
    rs := FlagTells(s, t, "k", 2_000_000_000);
  }

  /**
   A monitored first PUT of a plain value leaves a text the formatter throws on: the next
   `getlogs` that reads the log of the key ends the process.
   */
  lemma PlainPutEndsReading(s: State, r: Request, g: Request)
    requires r.q.cmd == "put" && PlainRequest(r) && r.q.key !in s.db && r.q.monitor.GetOr(r.policy.monitor)
    requires ',' !in EffectiveUser(r.q, r.policy) && -Numbers.I64 <= r.clock.log < Numbers.I64
    requires ReadsLog(Step(s, r).0.logs, g, r.q.key) && r.clock.log <= g.clock.check
    ensures Step(Step(s, r).0, g).1.Crash?
  {
    hide Serialize, InsertedFields, LineOf, LinesOf, DecodeEntry, EncodeEntry, Formattable;
    var k, logs := r.q.key, Step(s, r).0.logs;
    var rec := Record(InsertedFields(r.q, r.policy, r.clock.stamp), r.q.value);
    GoodInsert(r);
    RecordFormats(rec);
    SerializePrefix(rec);
    var e := EntryFor(r, true, Serialize(rec));
    assert logs == s.logs[k := LogOf(s.logs, k) + [e]];
    EntryThrows(e, g.clock.check);
    ReadingMore(s.logs, k, e, g.clock.check);
    GetLogsStep(Step(s, r).0, g);
  }
}
