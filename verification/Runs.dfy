/**
 What holds over whole runs of requests, for values of any kind: the metadata evolves on
 its own, the logs hold exactly the requests that had to be logged, an expired pair is
 frozen, and the log of a monitored key retells its history.
 */
module Runs {
  import opened Text
  import opened Metadata
  import opened Query
  import opened Policy
  import opened Filter
  import opened Rewriter
  import opened LogCodec
  import opened Store
  import opened Records

  // ---------- the metadata on its own ----------

  type MetaState = map<string, Fields>

  /** Every stored text is one the filter accepts. */
  predicate WellFormed(s: State) {
    forall k :: k in s.db ==> ParseFields(s.db[k]).Some?
  }

  function MetaOf(s: State): MetaState
    requires WellFormed(s)
  {
    map k | k in s.db :: ParseFields(s.db[k]).value
  }

  predicate Accepts(m: MetaState, r: Request) {
    r.q.key in m && Allowed(m[r.q.key], r.q, r.policy, r.clock.check)
  }

  /** How a request changes the metadata; values play no part. */
  function MetaStep(m: MetaState, r: Request): MetaState {
    var k := r.q.key;
    if !r.backendOk then m
    else if r.q.cmd == "put" && k !in m then m[k := InsertedFields(r.q, r.policy, r.clock.stamp)]
    else if r.q.cmd == "putm" && Accepts(m, r) then m[k := UpdatedFields(m[k], r.q, r.clock.stamp)]
    else if r.q.cmd == "delete" && Accepts(m, r) then m - {k}
    else m
  }

  lemma InsertionParses(r: Request)
    requires CleanRequest(r)
    ensures ParseFields(Serialize(Record(InsertedFields(r.q, r.policy, r.clock.stamp), r.q.value)))
         == Some(InsertedFields(r.q, r.policy, r.clock.stamp))
  {
    CleanRoundTrip(Record(InsertedFields(r.q, r.policy, r.clock.stamp), r.q.value));
  }

  lemma ParsedHasParts(text: string)
    requires ParseFields(text).Some?
    ensures |Split(text, '|')| > FIELDS
  {
  }

  /** A request keeps the store well-formed, ends the process only as a `getlogs`, and changes metadata as stated. */
  lemma MetaRefines(s: State, r: Request)
    requires WellFormed(s) && CleanRequest(r)
    ensures Step(s, r).1.Crash? <==> EndsProcess(s.logs, r)
    ensures WellFormed(Step(s, r).0) && MetaOf(Step(s, r).0) == MetaStep(MetaOf(s), r)
  {
    hide ParseFields, Serialize, Allowed, Splice, Split, UpdatedText, RemoveMetadata,
         PreserveMetadata, UpdatedFields, InsertedFields, EntryFor, CleanQuery, GetLogsReply;
    var k := r.q.key;
    if k in s.db {
      ParsedHasParts(s.db[k]);
      SpliceKeepsFields(s.db[k], r.q.value);
      UpdateKeepsFormat(s.db[k], r.q, r.clock.stamp);
    } else {
      InsertionParses(r);
    }
  }

  // ---------- the logs ----------

  predicate LogNeeded(m: MetaState, r: Request) {
    if r.q.key in m then r.q.cmd in {"get", "put", "delete", "putm", "getm"} && m[r.q.key].monitor
    else r.q.cmd == "put" && r.q.monitor.GetOr(r.policy.monitor)
  }

  /** A logged request without the value it wrote. */
  datatype Audit = Audit(timestamp: int, user: string, cmd: string, valid: bool)

  function AuditOf(e: LogRecord): Audit {
    Audit(e.timestamp, e.call.user, e.call.cmd, e.call.valid)
  }

  function Audits(es: seq<LogRecord>): (r: seq<Audit>)
    ensures |r| == |es|
    ensures forall i :: 0 <= i < |es| ==> r[i] == AuditOf(es[i])
  {
    seq(|es|, i requires 0 <= i < |es| => AuditOf(es[i]))
  }

  /** What one request must leave in the log of key k. */
  function Due(m: MetaState, r: Request, k: string): seq<Audit> {
    if r.q.key == k && LogNeeded(m, r)
    then [Audit(r.clock.log, EffectiveUser(r.q, r.policy), r.q.cmd, Approved(m, r))] else []
  }

  /** The audit trail of key k that a run must leave, from the metadata alone. */
  function Trail(m: MetaState, rs: seq<Request>, k: string): seq<Audit>
    decreases |rs|
  {
    if rs == [] || rs[0].q.cmd == "exit" then []
    else Due(m, rs[0], k) + Trail(MetaStep(m, rs[0]), rs[1..], k)
  }

  /** The text a request may write under its key. */
  function Written(s: State, r: Request): string {
    if r.q.key !in s.db then Serialize(Record(InsertedFields(r.q, r.policy, r.clock.stamp), r.q.value))
    else if r.q.cmd == "put" then Splice(s.db[r.q.key], r.q.value)
    else UpdatedText(r.q, r.clock.stamp, 0, Split(s.db[r.q.key], '|'))
  }

  /** The verdict on a request that is logged: the first PUT of a key, or one the metadata accepts. */
  predicate Approved(m: MetaState, r: Request) {
    r.q.key !in m || Accepts(m, r)
  }

  /**
   A request logs when the metadata says so, with the verdict on it, and a PUT or PUTM that
   is carried out logs the very text it writes.
   */
  lemma StepLogs(s: State, r: Request)
    requires WellFormed(s)
    ensures Step(s, r).0.logs ==
            Monitored(s.logs, LogNeeded(MetaOf(s), r), r, Approved(MetaOf(s), r),
                      if Approved(MetaOf(s), r) && r.q.cmd in {"put", "putm"} then Written(s, r) else "")
  {
    hide ParseFields, Serialize, Allowed, Splice, Split, UpdatedText, RemoveMetadata,
         PreserveMetadata, InsertedFields, EntryFor;
  }

  /** One request appends its audit to the log of its key, and touches no other log. */
  lemma LogStep(s: State, r: Request, k: string)
    requires WellFormed(s)
    ensures LogOf(s.logs, k) <= LogOf(Step(s, r).0.logs, k)
    ensures Audits(LogOf(Step(s, r).0.logs, k)) == Audits(LogOf(s.logs, k)) + Due(MetaOf(s), r, k)
  {
    hide Step, MetaOf, Written, LogNeeded, Accepts;
    StepLogs(s, r);
  }

  /**
   Over every run, the log of key k grows by exactly the trail that the metadata
   prescribes for the requests that were served: one entry for each request made while the
   stored monitor flag was set, and for each first PUT whose own setting, or else the
   session's, asks for it.
   */
  lemma {:induction false} LogsAreTrail(s: State, rs: seq<Request>, k: string)
    requires WellFormed(s)
    requires forall i :: 0 <= i < |rs| ==> CleanRequest(rs[i])
    ensures LogOf(s.logs, k) <= LogOf(Run(s, rs).0.logs, k)
    ensures |Run(s, rs).1| <= |rs|
    ensures Audits(LogOf(Run(s, rs).0.logs, k)) ==
            Audits(LogOf(s.logs, k)) + Trail(MetaOf(s), rs[..|Run(s, rs).1|], k)
    decreases |rs|
  {
    hide Step, WellFormed, CleanRequest, MetaStep, Due, Audits, MetaOf, LogOf;
    if rs != [] && rs[0].q.cmd != "exit" {
      assert CleanRequest(rs[0]);
      MetaRefines(s, rs[0]);
      LogStep(s, rs[0], k);
      var s', rest := Step(s, rs[0]).0, rs[1..];
      var before, due := Audits(LogOf(s.logs, k)), Due(MetaOf(s), rs[0], k);
      if Step(s, rs[0]).1.Crash? {
        assert rs[..1][1..] == [];
        assert Trail(MetaOf(s'), [], k) == [] && due + [] == due;
      } else {
        forall i | 0 <= i < |rest| ensures CleanRequest(rest[i]) {
          assert rest[i] == rs[i + 1];
        }
        LogsAreTrail(s', rest, k);
        var n := |Run(s', rest).1|;
        assert rs[..n + 1][1..] == rest[..n];
        var trail := Trail(MetaOf(s'), rest[..n], k);
        assert before + due + trail == before + (due + trail);
      }
    } else {
      assert rs[..0] == [] && Audits(LogOf(s.logs, k)) + [] == Audits(LogOf(s.logs, k));
    }
  }

  // ---------- expiry ----------

  /** Key k holds a pair whose expiry has passed at time `now`. */
  predicate Expired(s: State, k: string, now: int) {
    && k in s.db && ParseFields(s.db[k]).Some?
    && ParseFields(s.db[k]).value.expiration != 0
    && Seconds(now) > ParseFields(s.db[k]).value.expiration
  }

  /** The clock readings of a run start at `now` and never go back. */
  predicate ClockFrom(now: int, rs: seq<Request>)
    decreases |rs|
  {
    rs != [] ==> now <= rs[0].clock.check <= rs[0].clock.stamp <= rs[0].clock.log && ClockFrom(rs[0].clock.log, rs[1..])
  }

  /** The fixed reply that refuses a data command. */
  function Refusal(cmd: string): Option<Reply> {
    if cmd == "get" then Some(Text(GET_FAILED))
    else if cmd == "getm" then Some(Text(GETM_FAILED))
    else if cmd == "put" then Some(Text(PUT_FAILED))
    else if cmd == "putm" then Some(Text(PUTM_FAILED))
    else if cmd == "delete" then Some(Text(DELETE_REFUSED))
    else None
  }

  lemma ExpiredStep(s: State, r: Request, k: string, now: int)
    requires Expired(s, k, now) && now <= r.clock.check
    ensures k in Step(s, r).0.db && Step(s, r).0.db[k] == s.db[k]
    ensures r.q.key == k && Refusal(r.q.cmd).Some? ==> Step(s, r).1 == Refusal(r.q.cmd).value
  {
    hide ParseFields, Serialize, Splice, Split, UpdatedText, RemoveMetadata, Seconds, Subset, Disjoint,
         PreserveMetadata, InsertedFields, EntryFor, EffectiveUser, EffectivePurposes;
    SecondsMonotone(now, r.clock.check);
  }

  /**
   Once the expiry of a pair has passed, no run of requests of any kind, by any users,
   changes its stored text, and every data command on its key is refused.
   */
  lemma {:induction false} ExpiredFrozen(s: State, rs: seq<Request>, k: string, now: int)
    requires Expired(s, k, now) && ClockFrom(now, rs)
    ensures k in Run(s, rs).0.db && Run(s, rs).0.db[k] == s.db[k]
    ensures |Run(s, rs).1| <= |rs|
    ensures forall i :: 0 <= i < |Run(s, rs).1| && rs[i].q.key == k && Refusal(rs[i].q.cmd).Some? ==>
              Run(s, rs).1[i] == Refusal(rs[i].q.cmd).value
    decreases |rs|
  {
    hide Step, Refusal, ParseFields;
    if rs != [] && rs[0].q.cmd != "exit" {
      ExpiredStep(s, rs[0], k, now);
      if !Step(s, rs[0]).1.Crash? {
        var s' := Step(s, rs[0]).0;
        SecondsMonotone(now, rs[0].clock.log);
        ExpiredFrozen(s', rs[1..], k, rs[0].clock.log);
        var rest := Run(s', rs[1..]).1;
        forall i | 0 <= i < |Run(s, rs).1| && rs[i].q.key == k && Refusal(rs[i].q.cmd).Some?
          ensures Run(s, rs).1[i] == Refusal(rs[i].q.cmd).value
        {
          if i > 0 {
            assert Run(s, rs).1[i] == rest[i - 1] && rs[i] == rs[1..][i - 1];
          }
        }
      }
    }
  }

  // ---------- the log retells the history ----------

  function Get(db: map<string, string>, k: string): Option<string> {
    if k in db then Some(db[k]) else None
  }

  /** What an entry says about the stored text. */
  function After(text: Option<string>, cmd: string, valid: bool, newValue: string): Option<string> {
    if valid && cmd in {"put", "putm"} then Some(newValue)
    else if valid && cmd == "delete" then None
    else text
  }

  function Replay(es: seq<LogRecord>): Option<string> {
    if es == [] then None
    else
      var e := es[|es| - 1].call;
      After(Replay(es[..|es| - 1]), e.cmd, e.valid, e.newValue)
  }

  lemma ReplayAppend(es: seq<LogRecord>, e: LogRecord)
    ensures Replay(es + [e]) == After(Replay(es), e.call.cmd, e.call.valid, e.call.newValue)
  {
    assert (es + [e])[..|es|] == es;
  }

  /** Replaying the log of key k yields the text the backend holds for it. */
  predicate Retold(s: State, k: string) {
    Replay(LogOf(s.logs, k)) == Get(s.db, k)
  }

  /** The request asks to write or delete key k and is approved. */
  predicate Writes(s: State, r: Request, k: string) {
    && r.q.key == k && (r.q.cmd == "put" || (k in s.db && (r.q.cmd == "putm" || r.q.cmd == "delete")))
    && (k in s.db ==> ParseFields(s.db[k]).Some? && Allowed(ParseFields(s.db[k]).value, r.q, r.policy, r.clock.check))
  }

  /** An approved write of key k is logged: by the stored flag, or for a first PUT by its own setting. */
  predicate WriteLogged(s: State, r: Request, k: string) {
    if k in s.db then ParseFields(s.db[k]).Some? && ParseFields(s.db[k]).value.monitor
    else r.q.monitor.GetOr(r.policy.monitor)
  }

  /**
   What a caller must see to for log and backend to go together: an approved write is logged
   if and only if the backend carries it out, or else it would change nothing. Reads and
   refused requests need nothing.
   */
  predicate KeepsRecord(s: State, r: Request, k: string) {
    Writes(s, r, k) ==>
      (WriteLogged(s, r, k) <==> r.backendOk) || (k in s.db && r.q.cmd != "delete" && Written(s, r) == s.db[k])
  }

  /** What a step does to the text of a key and to what its log tells. */
  lemma StepOnRecord(s: State, r: Request, k: string)
    ensures var s' := Step(s, r).0;
            && Get(s'.db, k) ==
               (if !Writes(s, r, k) || !r.backendOk then Get(s.db, k)
                else if r.q.cmd == "delete" then None else Some(Written(s, r)))
            && Replay(LogOf(s'.logs, k)) ==
               (if !Writes(s, r, k) || !WriteLogged(s, r, k) then Replay(LogOf(s.logs, k))
                else if r.q.cmd == "delete" then None else Some(Written(s, r)))
  {
    hide ParseFields, Serialize, Allowed, Splice, Split, UpdatedText, RemoveMetadata, GetLogsReply,
         PreserveMetadata, CleanQuery, Replay, InsertedFields;
    if r.q.key == k {
      forall valid, text { ReplayAppend(LogOf(s.logs, k), EntryFor(r, valid, text)); }
    }
  }

  /** One request keeps log and backend together exactly when the caller saw to it. */
  lemma RetoldStep(s: State, r: Request, k: string)
    requires Retold(s, k)
    ensures Retold(Step(s, r).0, k) <==> KeepsRecord(s, r, k)
  {
    hide Step, ParseFields, Written, Replay, WriteLogged, Allowed;
    StepOnRecord(s, r, k);
  }

  /** The caller sees to it at every request that is served in a run. */
  predicate RecordKept(s: State, rs: seq<Request>, k: string)
    decreases |rs|
  {
    rs != [] && rs[0].q.cmd != "exit" ==>
      KeepsRecord(s, rs[0], k) && (!Step(s, rs[0]).1.Crash? ==> RecordKept(Step(s, rs[0]).0, rs[1..], k))
  }

  /** The log tells what the backend holds in every state of a run. */
  predicate AlwaysRetold(s: State, rs: seq<Request>, k: string)
    decreases |rs|
  {
    && Retold(s, k)
    && (rs != [] && rs[0].q.cmd != "exit" ==>
          && Retold(Step(s, rs[0]).0, k)
          && (!Step(s, rs[0]).1.Crash? ==> AlwaysRetold(Step(s, rs[0]).0, rs[1..], k)))
  }

  /**
   Replaying the log of a key yields the text the backend holds for it, in every state of a
   run, exactly when every approved write of the key is logged if and only if the backend
   carries it out, or else would change nothing.
   */
  lemma {:induction false} LogRetellsStore(s: State, rs: seq<Request>, k: string)
    requires Retold(s, k)
    ensures AlwaysRetold(s, rs, k) <==> RecordKept(s, rs, k)
    ensures RecordKept(s, rs, k) ==> Retold(Run(s, rs).0, k)
    decreases |rs|
  {
    hide Step, Retold, KeepsRecord;
    if rs != [] && rs[0].q.cmd != "exit" {
      RetoldStep(s, rs[0], k);
      if Retold(Step(s, rs[0]).0, k) && !Step(s, rs[0]).1.Crash? {
        LogRetellsStore(Step(s, rs[0]).0, rs[1..], k);
      }
    }
  }

  /** A monitored first PUT that the backend refuses is logged as done: the log tells of a text nobody stored. */
  lemma RefusedPutMisleads(r: Request)
    requires r.q.cmd == "put" && r.q.monitor.GetOr(r.policy.monitor) && !r.backendOk
    ensures var s, s' := State(map[], map[]), Step(State(map[], map[]), r).0;
            && Retold(s, r.q.key) && Get(s'.db, r.q.key) == None
            && Replay(LogOf(s'.logs, r.q.key)) == Some(Written(s, r))
  {
    hide Serialize;
    StepOnRecord(State(map[], map[]), r, r.q.key);
  }

  /** A PUTM that switches monitoring off is itself logged, so that the log goes on telling the text. */
  lemma SwitchingOffIsTold(s: State, r: Request, k: string)
    requires Retold(s, k) && k in s.db && ParseFields(s.db[k]).Some? && ParseFields(s.db[k]).value.monitor
    requires r.q.cmd == "putm" && r.q.key == k && r.q.monitor == Some(false) && r.backendOk
    ensures Retold(Step(s, r).0, k)
  {
    hide ParseFields;
    RetoldStep(s, r, k);
  }

  /** The history as a reader of the decoded log file sees it. */
  function ReplayViews(vs: seq<Decoded>): Option<string> {
    if vs == [] then None
    else
      var v := vs[|vs| - 1];
      if v.Shown? then After(ReplayViews(vs[..|vs| - 1]), v.operation, v.valid, v.newValue)
      else ReplayViews(vs[..|vs| - 1])
  }

  lemma {:induction false} ReplayOfViews(es: seq<LogRecord>, vs: seq<Decoded>, threshold: int)
    requires |vs| == |es| && forall i :: 0 <= i < |es| ==> vs[i] == View(es[i], threshold)
    requires forall e :: e in es ==> e.timestamp <= threshold
    ensures ReplayViews(vs) == Replay(es)
  {
    if es != [] {
      var n := |es| - 1;
      assert es[n] in es;
      ReplayOfViews(es[..n], vs[..n], threshold);
    }
  }

  /**
   The bytes of the log file suffice: decoding the file of such a key up to now and replaying
   its entries yields the text the backend holds.
   */
  lemma FileRetellsStore(s: State, k: string, threshold: int)
    requires Retold(s, k)
    requires forall e :: e in LogOf(s.logs, k) ==>
               Recordable(e) && ',' !in e.call.user && e.timestamp <= threshold
    ensures ReplayViews(DecodedFrom(Frames(Encoded(LogOf(s.logs, k))), 0, threshold)) == Get(s.db, k)
  {
    hide Recordable, View, ReplayViews, DecodedFrom;
    var es := LogOf(s.logs, k);
    LogRoundTrip(es, threshold);
    ReplayOfViews(es, DecodedFrom(Frames(Encoded(es)), 0, threshold), threshold);
  }
}
