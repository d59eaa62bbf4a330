/**
 The store as its users think of it: a map from keys to records of metadata and value.
 The string store, which scans and splices texts, refines it.
 */
module Records {
  import opened Text
  import opened Metadata
  import opened Query
  import opened Policy
  import opened Filter
  import opened Rewriter
  import opened LogCodec
  import opened Store

  datatype RecordState = RecordState(recs: map<string, Record>, logs: Logs)

  /** The values whose text the store keeps exactly. */
  predicate Plain(value: string) {
    value != "" && '|' !in value
  }

  predicate Permitted(s: RecordState, r: Request) {
    r.q.key in s.recs && Allowed(s.recs[r.q.key].meta, r.q, r.policy, r.clock.check)
  }

  /** Whether the request must be logged: by the stored flag, or for a first PUT by its own. */
  predicate MustLog(s: RecordState, r: Request) {
    if r.q.key in s.recs then s.recs[r.q.key].meta.monitor
    else r.q.cmd == "put" && r.q.monitor.GetOr(r.policy.monitor)
  }

  /** The record a permitted PUT or PUTM leaves. */
  function NewRecord(s: RecordState, r: Request): Record
    requires r.q.cmd == "putm" ==> r.q.key in s.recs
  {
    if r.q.cmd == "putm" then
      s.recs[r.q.key].(meta := UpdatedFields(s.recs[r.q.key].meta, r.q, r.clock.stamp))
    else if r.q.key in s.recs then s.recs[r.q.key].(value := r.q.value)
    else Record(InsertedFields(r.q, r.policy, r.clock.stamp), r.q.value)
  }

  /** One request on the record store. */
  function RecordStep(s: RecordState, r: Request): (RecordState, Reply) {
    var k, ok := r.q.key, Permitted(s, r);
    var noted := Monitored(s.logs, MustLog(s, r), r, ok, "");
    if r.q.cmd == "get" then
      (s.(logs := noted), Text(if ok then s.recs[k].value else GET_FAILED))
    else if r.q.cmd == "getm" then
      (s.(logs := noted), Text(if ok then Prefix(s.recs[k].meta) + "|" else GETM_FAILED))
    else if r.q.cmd == "delete" then
      if !ok then (s.(logs := noted), Text(DELETE_REFUSED))
      else if r.backendOk then (RecordState(s.recs - {k}, noted), Text(DELETE_SUCCESS))
      else (s.(logs := noted), Text(DELETE_FAILED))
    else if r.q.cmd == "put" || r.q.cmd == "putm" then
      if r.q.cmd == "putm" && k !in s.recs then (s, Text(PUTM_MISSING))
      else if k in s.recs && !ok then
        (s.(logs := noted), Text(if r.q.cmd == "put" then PUT_FAILED else PUTM_FAILED))
      else
        var rec := NewRecord(s, r);
        var logs := Monitored(s.logs, MustLog(s, r), r, true, Serialize(rec));
        if r.backendOk then
          (RecordState(s.recs[k := rec], logs), Text(if r.q.cmd == "put" then PUT_SUCCESS else PUTM_SUCCESS))
        else (s.(logs := logs), Text(if r.q.cmd == "put" then PUT_FAILED else PUTM_FAILED))
    else if r.q.cmd == "getlogs" then (s, GetLogsReply(s.logs, r))
    else (s, Text(INVALID_COMMAND))
  }

  function RecordRun(s: RecordState, rs: seq<Request>): (RecordState, seq<Reply>)
    decreases |rs|
  {
    if rs == [] || rs[0].q.cmd == "exit" then (s, [])
    else
      var (s', reply) := RecordStep(s, rs[0]);
      if reply.Crash? then (s', [Crash])
      else
        var (s'', replies) := RecordRun(s', rs[1..]);
        (s'', [reply] + replies)
  }

  // ---------- the refinement ----------

  predicate Good(r: Record) {
    Clean(r.meta) && InRange(r.meta) && Plain(r.value)
  }

  /** Both stores hold the same: each text is that of a well-formed record. */
  predicate Related(s: State, t: RecordState) {
    && s.logs == t.logs
    && s.db.Keys == t.recs.Keys
    && forall k :: k in t.recs ==> Good(t.recs[k]) && s.db[k] == Serialize(t.recs[k])
  }

  /** No delimiter in any text the request may write into the metadata. */
  predicate CleanRequest(r: Request) {
    CleanQuery(r.q) && '|' !in r.policy.user && '|' !in r.policy.origin && '|' !in r.policy.share
  }

  predicate PlainRequest(r: Request) {
    CleanRequest(r) && (r.q.cmd == "put" ==> Plain(r.q.value))
  }

  /** What reading and stripping the text of a good record gives. */
  lemma GoodText(r: Record)
    requires Good(r)
    ensures ParseFields(Serialize(r)) == Some(r.meta)
    ensures RemoveMetadata(Serialize(r)) == r.value
    ensures PreserveMetadata(Serialize(r)) == Prefix(r.meta) + "|"
  {
    hide ParseFields, Serialize, Prefix;
    CleanRoundTrip(r);
    SerializePrefix(r);
    RemoveExact(Prefix(r.meta), r.value);
    PreserveExact(Prefix(r.meta), r.value);
  }

  lemma GoodSplice(r: Record, value: string)
    requires Good(r)
    ensures Splice(Serialize(r), value) == Serialize(r.(value := value))
  {
    hide Serialize;
    SpliceRecord(r, value);
    SpliceExact(r.value, value);
  }

  lemma GoodUpdate(r: Record, q: Query, now: int)
    requires Good(r) && CleanQuery(q)
    ensures UpdatedText(q, now, 0, Split(Serialize(r), '|')) == Serialize(r.(meta := UpdatedFields(r.meta, q, now)))
    ensures Good(r.(meta := UpdatedFields(r.meta, q, now)))
  {
    hide Serialize;
    UpdateRecord(r, q, now);
    UpdateKeepsValue(r.value);
  }

  /** One request: the same reply, a crash only by a `getlogs` that ends the process, and related states again. */
  lemma StepRefines(s: State, t: RecordState, r: Request)
    requires Related(s, t) && PlainRequest(r)
    ensures Step(s, r).1 == RecordStep(t, r).1
    ensures Step(s, r).1.Crash? <==> EndsProcess(s.logs, r)
    ensures Related(Step(s, r).0, RecordStep(t, r).0)
  {
    hide ParseFields, Serialize, Prefix, Allowed, Splice, Split, UpdatedText, RemoveMetadata,
         PreserveMetadata, UpdatedFields, InsertedFields, EntryFor, Good, GetLogsReply;
    var k := r.q.key;
    if k in t.recs {
      var rec := t.recs[k];
      GoodText(rec);
      if r.q.cmd == "put" {
        GoodSplice(rec, r.q.value);
        GoodValue(rec, r.q.value);
      } else if r.q.cmd == "putm" {
        GoodUpdate(rec, r.q, r.clock.stamp);
      }
    } else if r.q.cmd == "put" {
      GoodInsert(r);
    }
  }

  lemma GoodValue(r: Record, value: string)
    requires Good(r) && Plain(value)
    ensures Good(r.(value := value))
  {
  }

  lemma GoodInsert(r: Request)
    requires PlainRequest(r) && r.q.cmd == "put"
    ensures Good(Record(InsertedFields(r.q, r.policy, r.clock.stamp), r.q.value))
  {
  }

  /**
   For every sequence of requests the string store and the record store give the same
   replies, and end in related states; no request but a `getlogs` ever ends the process.
   */
  lemma {:induction false} RunRefines(s: State, t: RecordState, rs: seq<Request>)
    requires Related(s, t)
    requires forall i :: 0 <= i < |rs| ==> PlainRequest(rs[i])
    ensures Run(s, rs).1 == RecordRun(t, rs).1
    ensures Related(Run(s, rs).0, RecordRun(t, rs).0)
    ensures |Run(s, rs).1| <= |rs|
    ensures forall i :: 0 <= i < |Run(s, rs).1| && Run(s, rs).1[i].Crash? ==> rs[i].q.cmd == "getlogs"
    decreases |rs|
  {
    hide Step, RecordStep, Related, PlainRequest;
    if rs != [] && rs[0].q.cmd != "exit" {
      StepRefines(s, t, rs[0]);
      assert PlainRequest(rs[0]);
      forall i | 0 <= i < |rs[1..]| ensures PlainRequest(rs[1..][i]) {
        assert rs[1..][i] == rs[i + 1];
      }
      RunRefines(Step(s, rs[0]).0, RecordStep(t, rs[0]).0, rs[1..]);
      if !Step(s, rs[0]).1.Crash? {
        var rest := Run(Step(s, rs[0]).0, rs[1..]).1;
        forall i | 0 <= i < |rest| + 1 && ([Step(s, rs[0]).1] + rest)[i].Crash? ensures rs[i].q.cmd == "getlogs" {
          if i > 0 { assert rs[1..][i - 1] == rs[i] && rest[i - 1].Crash?; }
        }
      }
    }
  }

  /** In particular from the empty store. */
  lemma FreshRunRefines(rs: seq<Request>)
    requires forall i :: 0 <= i < |rs| ==> PlainRequest(rs[i])
    ensures Run(State(map[], map[]), rs).1 == RecordRun(RecordState(map[], map[]), rs).1
  {
    RunRefines(State(map[], map[]), RecordState(map[], map[]), rs);
  }
}
