/**
 What the handlers of interleaved connections leave behind: the log of a key tells exactly
 the decisions taken on it, no text is written before it is logged, and on a key with whose
 writes no handler overlaps the outcome is that of serving the requests one after the other.
 */
module Serial {
  import opened Text
  import opened Metadata
  import opened Query
  import opened Policy
  import opened Filter
  import opened Rewriter
  import opened LogCodec
  import opened Store
  import opened Records
  import opened Runs
  import opened Interleaving

  // ---------- the trail of the decisions ----------

  /** The metadata a decision was taken on. */
  function MetaRead(d: Served): MetaState {
    if d.res.Some? && ParseFields(d.res.value).Some? then map[d.r.q.key := ParseFields(d.res.value).value] else map[]
  }

  /** The audits that decisions must leave in the log of key k. */
  function Dues(ds: seq<Served>, k: string): seq<Audit> {
    if ds == [] then []
    else Dues(ds[..|ds| - 1], k) + Due(MetaRead(ds[|ds| - 1]), ds[|ds| - 1].r, k)
  }

  /** A decision logs its request when the metadata it read says so, with the verdict on it. */
  lemma DecisionIsDue(logs: Logs, d: Served, dec: Decision, k: string)
    requires DataCommand(d.r.q.cmd) && Decide(d.res, d.r) == Some(dec)
    ensures var logs' := Monitored(logs, dec.needed, d.r, dec.valid, dec.logged);
            && Audits(LogOf(logs', k)) == Audits(LogOf(logs, k)) + Due(MetaRead(d), d.r, k)
            && (dec.needed ==> EntryFor(d.r, dec.valid, dec.logged) in LogOf(logs', d.r.q.key))
  {
    hide ParseFields, Serialize, Allowed, Splice, Split, UpdatedText, InsertedFields, EffectiveUser;
  }

  /** The time of logging plays no part in a decision. */
  lemma DecideStamped(res: Option<string>, r: Request, time: int)
    ensures Decide(res, Stamped(r, time)) == Decide(res, r)
  {
    hide ParseFields, Serialize, Allowed, Splice, Split, UpdatedText, InsertedFields;
  }

  /** The decision of a connection is in the history, and its entry, if it needs one, in the log. */
  predicate Noted(w: World, d: Served) {
    && d in w.served
    && Decide(d.res, d.r).Some?
    && (Decide(d.res, d.r).value.needed ==>
          EntryFor(d.r, Decide(d.res, d.r).value.valid, Decide(d.res, d.r).value.logged) in LogOf(w.logs, d.r.q.key))
  }

  ghost predicate NotedFirst(w: World, conn: Conn) {
    conn.MustWrite? ==> exists time :: Noted(w, Served(Stamped(conn.r, time), conn.res))
  }

  ghost predicate TrailOk(w0: World, w: World) {
    && (forall k :: Audits(LogOf(w.logs, k)) == Audits(LogOf(w0.logs, k)) + Dues(w.served, k))
    && (forall d :: d in w.served ==> DataCommand(d.r.q.cmd) && CleanRequest(d.r))
    && forall c :: c in w.conns ==> NotedFirst(w, w.conns[c])
  }

  /** What is noted stays noted. */
  lemma NotedLater(w: World, w': World, conn: Conn)
    requires NotedFirst(w, conn)
    requires forall d :: d in w.served ==> d in w'.served
    requires forall k, e :: e in LogOf(w.logs, k) ==> e in LogOf(w'.logs, k)
    ensures NotedFirst(w', conn)
  {
    hide Decide, EntryFor, LogOf;
    if conn.MustWrite? {
      var time :| Noted(w, Served(Stamped(conn.r, time), conn.res));
      assert Noted(w', Served(Stamped(conn.r, time), conn.res));
    }
  }

  lemma DecidedTrail(w0: World, w: World, c: nat, time: int)
    requires TrailOk(w0, w) && c in w.conns && w.conns[c].HasRead? && Decide(w.conns[c].res, w.conns[c].r).Some?
    requires DataCommand(w.conns[c].r.q.cmd) && CleanRequest(w.conns[c].r)
    ensures TrailOk(w0, Decided(w, c, time))
  {
    hide Decide, EntryFor, Audits, DataCommand, CleanRequest, Due, MetaRead, NotedFirst;
    var conn, w' := w.conns[c], Decided(w, c, time);
    var d, dec := Served(Stamped(conn.r, time), conn.res), Decide(conn.res, conn.r).value;
    DecideStamped(conn.res, conn.r, time);
    StampedIsClean(conn.r, time);
    forall k ensures Audits(LogOf(w'.logs, k)) == Audits(LogOf(w0.logs, k)) + Dues(w'.served, k) {
      DecisionIsDue(w.logs, d, dec, k);
      assert w'.served[..|w.served|] == w.served;
      var start, dues, due := Audits(LogOf(w0.logs, k)), Dues(w.served, k), Due(MetaRead(d), d.r, k);
      assert start + dues + due == start + (dues + due);
    }
    forall h | h in w'.conns ensures NotedFirst(w', w'.conns[h]) {
      if h == c {
        DecisionIsDue(w.logs, d, dec, d.r.q.key);
        JustNoted(w', w'.conns[c], time);
      } else {
        NotedLater(w, w', w.conns[h]);
      }
    }
  }

  lemma StampedIsClean(r: Request, time: int)
    ensures CleanRequest(Stamped(r, time)) == CleanRequest(r)
  {
  }

  lemma JustNoted(w: World, conn: Conn, time: int)
    requires conn.MustWrite? ==> Noted(w, Served(Stamped(conn.r, time), conn.res))
    ensures NotedFirst(w, conn)
  {
    hide Noted;
  }

  lemma TrailStep(w0: World, ws: seq<World>, i: nat)
    requires i + 1 < |ws| && SafeUpTo(ws, i) && SafeUpTo(ws, i + 1) && Next(ws[i], ws[i + 1]) && TrailOk(w0, ws[i])
    ensures TrailOk(w0, ws[i + 1])
  {
    hide Decide, Audits, DataCommand, CleanRequest, Noted, Dues, LogOf, ParseFields, StoredBy, TrailOk;
    var w, w' := ws[i], ws[i + 1];
    if w' == w {
      return;
    }
    var c :| ConnStep(w, w', c);
    assert PendingOk(ws, i, w.conns[c]);
    if r :| CleanRequest(r) && ReadNext(w, w', c, r) {
      QuietTrail(w0, w, w', c);
    } else if w.conns[c].HasRead? {
      var time :| w' == Decided(w, c, time);
      assert Accepted(w');
      DecidedTrail(w0, w, c, time);
    } else {
      QuietTrail(w0, w, w', c);
    }
  }

  lemma QuietTrail(w0: World, w: World, w': World, c: nat)
    requires TrailOk(w0, w) && w'.logs == w.logs && w'.served == w.served
    requires c in w'.conns && w'.conns == w.conns[c := w'.conns[c]] && !w'.conns[c].MustWrite?
    ensures TrailOk(w0, w')
  {
    hide Decide, Audits, DataCommand, CleanRequest, Noted, Dues, LogOf;
    forall h | h in w'.conns ensures NotedFirst(w', w'.conns[h]) {
      if h != c {
        NotedLater(w, w', w.conns[h]);
      }
    }
  }

  lemma {:induction false} TrailRun(ws: seq<World>, i: nat)
    requires Behaviour(ws) && i < |ws|
    ensures TrailOk(ws[0], ws[i])
  {
    hide Next, SafeUpTo;
    if i == 0 {
      forall k ensures Audits(LogOf(ws[0].logs, k)) == Audits(LogOf(ws[0].logs, k)) + Dues([], k) { }
    } else {
      TrailRun(ws, i - 1);
      InterleavedSafe(ws, i - 1);
      InterleavedSafe(ws, i);
      TrailStep(ws[0], ws, i - 1);
    }
  }

  /**
   However handlers interleave, the log of a key grows by exactly the audits due for the
   decisions taken on the key, in their order, each by the metadata that was read for it.
   */
  lemma LogIsTrailOfDecisions(ws: seq<World>, i: nat, k: string)
    requires Behaviour(ws) && i < |ws|
    ensures Audits(LogOf(ws[i].logs, k)) == Audits(LogOf(ws[0].logs, k)) + Dues(ws[i].served, k)
  {
    hide Behaviour, Audits, Dues, NotedFirst, DataCommand, CleanRequest;
    TrailRun(ws, i);
  }

  /** A text that must be logged is in the log, with its verdict, before it is written to the backend. */
  lemma LoggedBeforeWritten(ws: seq<World>, i: nat, c: nat)
    requires Behaviour(ws) && i < |ws| && c in ws[i].conns && ws[i].conns[c].MustWrite?
    ensures var conn := ws[i].conns[c];
            && Decide(conn.res, conn.r).Some?
            && (Decide(conn.res, conn.r).value.needed ==>
                  exists e :: e in LogOf(ws[i].logs, conn.r.q.key) &&
                    e.call == LogCall(EffectiveUser(conn.r.q, conn.r.policy), conn.r.q.cmd, true,
                                      if conn.w.Put? then conn.w.text else ""))
  {
    hide Behaviour, Audits, Dues, DataCommand, CleanRequest, Decide, StoredBy, Accepted;
    TrailRun(ws, i);
    InterleavedSafe(ws, i);
    var conn := ws[i].conns[c];
    assert NotedFirst(ws[i], conn) && PendingOk(ws, i, conn);
    var time :| Noted(ws[i], Served(Stamped(conn.r, time), conn.res));
    DecideStamped(conn.res, conn.r, time);
    LoggedIsWritten(conn.res, conn.r);
    var d := Decide(conn.res, conn.r).value;
    if d.needed {
      assert EntryFor(Stamped(conn.r, time), d.valid, d.logged) in LogOf(ws[i].logs, conn.r.q.key);
    }
  }

  lemma LoggedIsWritten(res: Option<string>, r: Request)
    requires Decide(res, r).Some? && Decide(res, r).value.write.Some?
    ensures var d := Decide(res, r).value; d.valid && d.logged == if d.write.value.Put? then d.write.value.text else ""
  {
    hide ParseFields, Serialize, Allowed, Splice, Split, UpdatedText, InsertedFields;
  }

  // ---------- writes that do not overlap ----------

  /** The connection is about to write or remove the text of k. */
  predicate Writing(conn: Conn, k: string) {
    conn.MustWrite? && conn.r.q.key == k && conn.r.backendOk
  }

  /** The connection has read the text of k, and has still to decide on it or to write. */
  predicate Handles(conn: Conn, k: string) {
    (conn.HasRead? && conn.r.q.key == k) || Writing(conn, k)
  }

  /** While a connection is about to write the text of k, no other one is at work on k; reads may overlap. */
  predicate WritesAlone(w: World, k: string) {
    forall c, d :: c in w.conns && d in w.conns && Writing(w.conns[c], k) && Handles(w.conns[d], k) ==> c == d
  }

  predicate NoWriting(w: World, k: string) {
    forall c :: c in w.conns ==> !Writing(w.conns[c], k)
  }

  function Requests(ds: seq<Served>): (rs: seq<Request>)
    ensures |rs| == |ds|
    ensures forall i :: 0 <= i < |ds| ==> rs[i] == ds[i].r
  {
    seq(|ds|, i requires 0 <= i < |ds| => ds[i].r)
  }

  /** The text of its key once the connection has written. */
  function Outcome(conn: Conn, now: Option<string>): Option<string> {
    if !conn.MustWrite? || !conn.r.backendOk then now
    else if conn.w.Put? then Some(conn.w.text) else None
  }

  /** What a connection inside a handler on k read is still stored, and what it will write is in the state already. */
  predicate ConnInStep(w: World, s: State, conn: Conn, k: string) {
    Handles(conn, k) ==>
      Get(s.db, k) == Outcome(conn, Get(w.db, k)) && (conn.HasRead? ==> conn.res == Get(w.db, k))
  }

  predicate InStep(w: World, s: State, k: string) {
    && WellFormed(s)
    && LogOf(w.logs, k) == LogOf(s.logs, k)
    && (forall c :: c in w.conns ==> ConnInStep(w, s, w.conns[c], k))
    && (NoWriting(w, k) ==> Get(s.db, k) == Get(w.db, k))
  }

  /** A data command acts on its own key as its decision says, and on no other. */
  lemma StepIsDecision(s: State, r: Request, dec: Decision, k: string)
    requires DataCommand(r.q.cmd) && Decide(Get(s.db, r.q.key), r) == Some(dec)
    ensures var s', now := Step(s, r).0, Get(s.db, r.q.key);
            && !Step(s, r).1.Crash?
            && s'.logs == Monitored(s.logs, dec.needed, r, dec.valid, dec.logged)
            && Get(s'.db, r.q.key) ==
               (if dec.write.None? then now else Outcome(MustWrite(r, now, dec.write.value), now))
            && (k != r.q.key ==> Get(s'.db, k) == Get(s.db, k) && LogOf(s'.logs, k) == LogOf(s.logs, k))
  {
    hide Decide, Step, EntryFor, Monitored, ParseFields, Serialize, Allowed, Splice, Split, UpdatedText;
    UninterruptedIsStep(World(s.db, s.logs, map[0 := Idle], false, []), 0, r);
    if k != r.q.key {
      StepElsewhere(s, r, k);
    }
  }

  /** Serving the request alone logs the same, and leaves the text that the connection is about to write. */
  lemma DecidedLeaves(w: World, s: State, c: nat, time: int, k: string)
    requires c in w.conns && w.conns[c].HasRead? && Decide(w.conns[c].res, w.conns[c].r).Some?
    requires DataCommand(w.conns[c].r.q.cmd) && CleanRequest(w.conns[c].r) && WellFormed(s)
    requires LogOf(w.logs, k) == LogOf(s.logs, k)
    requires w.conns[c].r.q.key == k ==> w.conns[c].res == Get(s.db, k)
    ensures var w', (s', reply) := Decided(w, c, time), Step(s, Stamped(w.conns[c].r, time));
            && !reply.Crash? && WellFormed(s')
            && LogOf(w'.logs, k) == LogOf(s'.logs, k)
            && Get(s'.db, k) == if w.conns[c].r.q.key == k then Outcome(w'.conns[c], Get(s.db, k)) else Get(s.db, k)
  {
    hide Decide, DataCommand, CleanRequest, Step, Monitored, WellFormed, MetaOf, MetaStep, LogOf;
    var conn := w.conns[c];
    var r, dec := Stamped(conn.r, time), Decide(conn.res, conn.r).value;
    StampedIsClean(conn.r, time);
    DataIsNoReading(s, r);
    MetaRefines(s, r);
    if r.q.key == k {
      DecideStamped(conn.res, conn.r, time);
      StepIsDecision(s, r, dec, k);
      LogOfMonitored(w.logs, s.logs, dec, r);
    } else {
      StepElsewhere(s, r, k);
      LogElsewhere(w.logs, dec, r, k);
    }
  }

  lemma DecidedInStep(w: World, s: State, c: nat, time: int, k: string)
    requires c in w.conns && w.conns[c].HasRead? && InStep(w, s, k) && WritesAlone(Decided(w, c, time), k)
    requires Decide(w.conns[c].res, w.conns[c].r).Some?
    requires DataCommand(w.conns[c].r.q.cmd) && CleanRequest(w.conns[c].r)
    ensures InStep(Decided(w, c, time), Step(s, Stamped(w.conns[c].r, time)).0, k)
    ensures !Step(s, Stamped(w.conns[c].r, time)).1.Crash?
  {
    hide Decide, DataCommand, CleanRequest, Step, Monitored, WellFormed, LogOf;
    var conn, w' := w.conns[c], Decided(w, c, time);
    var s' := Step(s, Stamped(conn.r, time)).0;
    assert ConnInStep(w, s, conn, k);
    DecidedLeaves(w, s, c, time, k);
    assert w'.db == w.db;
    if NoWriting(w', k) {
      forall h | h in w.conns ensures !Writing(w.conns[h], k) {
        assert h != c ==> w'.conns[h] == w.conns[h];
      }
      assert !Writing(w'.conns[c], k);
    }
    forall h | h in w'.conns ensures ConnInStep(w', s', w'.conns[h], k) {
      if h != c {
        assert ConnInStep(w, s, w.conns[h], k);
        assert Writing(w'.conns[c], k) ==> !Handles(w'.conns[h], k);
      }
    }
  }

  lemma DataIsNoReading(s: State, r: Request)
    requires DataCommand(r.q.cmd)
    ensures !EndsProcess(s.logs, r)
  {
  }

  lemma LogOfMonitored(logs: Logs, logs': Logs, d: Decision, r: Request)
    requires LogOf(logs, r.q.key) == LogOf(logs', r.q.key)
    ensures LogOf(Monitored(logs, d.needed, r, d.valid, d.logged), r.q.key)
         == LogOf(Monitored(logs', d.needed, r, d.valid, d.logged), r.q.key)
  {
  }

  lemma LogElsewhere(logs: Logs, d: Decision, r: Request, k: string)
    requires k != r.q.key
    ensures LogOf(Monitored(logs, d.needed, r, d.valid, d.logged), k) == LogOf(logs, k)
  {
  }

  lemma StepElsewhere(s: State, r: Request, k: string)
    requires k != r.q.key
    ensures Get(Step(s, r).0.db, k) == Get(s.db, k) && LogOf(Step(s, r).0.logs, k) == LogOf(s.logs, k)
  {
    hide ParseFields, Serialize, Allowed, Splice, Split, UpdatedText, RemoveMetadata, GetLogsReply,
         PreserveMetadata, InsertedFields, EntryFor;
  }

  /** One more request at the end of a run that does not end the process. */
  lemma {:induction false} RunAppend(s: State, rs: seq<Request>, r: Request)
    requires forall i :: 0 <= i < |rs| ==> DataCommand(rs[i].q.cmd) && CleanRequest(rs[i])
    requires WellFormed(s) && DataCommand(r.q.cmd) && CleanRequest(r)
    ensures Run(s, rs + [r]).0 == Step(Run(s, rs).0, r).0
    ensures |Run(s, rs).1| == |rs|
    decreases |rs|
  {
    hide Step, CleanRequest, WellFormed, MetaOf, MetaStep;
    if rs == [] {
      assert [r][1..] == [];
      assert Run(Step(s, r).0, []).0 == Step(s, r).0;
    } else {
      assert DataCommand(rs[0].q.cmd) && CleanRequest(rs[0]);
      DataIsNoReading(s, rs[0]);
      MetaRefines(s, rs[0]);
      forall i | 0 <= i < |rs[1..]| ensures DataCommand(rs[1..][i].q.cmd) && CleanRequest(rs[1..][i]) {
        assert rs[1..][i] == rs[i + 1];
      }
      RunAppend(Step(s, rs[0]).0, rs[1..], r);
      assert (rs + [r])[1..] == rs[1..] + [r];
    }
  }

  /** Serving the requests one after the other, in the order of the decisions on them. */
  function InTurn(ws: seq<World>, i: nat): State
    requires i < |ws|
  {
    Run(State(ws[0].db, ws[0].logs), Requests(ws[i].served)).0
  }

  ghost predicate WritesInTurn(ws: seq<World>, i: nat, k: string)
    requires i < |ws|
  {
    forall j :: 0 <= j <= i ==> WritesAlone(ws[j], k)
  }

  lemma ReadInStep(w: World, w': World, s: State, c: nat, r: Request, k: string)
    requires InStep(w, s, k) && ReadNext(w, w', c, r) && WritesAlone(w', k)
    ensures InStep(w', s, k)
  {
    hide WellFormed;
    if NoWriting(w', k) || r.q.key == k {
      assert r.q.key == k ==> Handles(w'.conns[c], k);
      forall h | h in w.conns ensures !Writing(w.conns[h], k) {
        assert h != c ==> w'.conns[h] == w.conns[h];
      }
    }
    forall h | h in w'.conns ensures ConnInStep(w', s, w'.conns[h], k) {
      assert h != c ==> ConnInStep(w, s, w.conns[h], k);
    }
  }

  lemma FinishedInStep(w: World, s: State, c: nat, k: string)
    requires InStep(w, s, k) && WritesAlone(w, k) && c in w.conns && w.conns[c].MustWrite?
    ensures InStep(Finished(w, c), s, k)
  {
    hide WellFormed;
    var w' := Finished(w, c);
    assert ConnInStep(w, s, w.conns[c], k);
    if Writing(w.conns[c], k) {
      assert Get(w'.db, k) == Outcome(w.conns[c], Get(w.db, k));
    } else {
      assert Get(w'.db, k) == Get(w.db, k);
      if NoWriting(w', k) {
        forall h | h in w.conns ensures !Writing(w.conns[h], k) {
          assert h != c ==> w'.conns[h] == w.conns[h];
        }
      }
    }
    forall h | h in w'.conns ensures ConnInStep(w', s, w'.conns[h], k) {
      if h != c {
        assert ConnInStep(w, s, w.conns[h], k);
        assert Writing(w.conns[c], k) ==> !Handles(w.conns[h], k);
      }
    }
  }

  lemma {:induction false} InTurnRun(ws: seq<World>, i: nat, k: string)
    requires Behaviour(ws) && i < |ws| && WritesInTurn(ws, i, k)
    ensures InStep(ws[i], InTurn(ws, i), k)
    ensures forall j :: 0 <= j < |ws[i].served| ==>
              DataCommand(ws[i].served[j].r.q.cmd) && CleanRequest(ws[i].served[j].r)
    decreases i
  {
    hide Next, SafeUpTo, InStep, TrailOk, DataCommand, CleanRequest, WritesAlone;
    TrailRun(ws, i);
    ServedAreData(ws[0], ws[i]);
    if i == 0 {
      assert Requests(ws[0].served) == [];
      StartInStep(ws[0], k);
    } else {
      InTurnRun(ws, i - 1, k);
      InterleavedSafe(ws, i - 1);
      InterleavedSafe(ws, i);
      InTurnStep(ws, i - 1, k);
    }
  }

  lemma StartInStep(w: World, k: string)
    requires Accepted(w) && forall c :: c in w.conns ==> w.conns[c] == Idle
    ensures InStep(w, State(w.db, w.logs), k)
  {
    hide ParseFields;
  }

  lemma ServedAreData(w0: World, w: World)
    requires TrailOk(w0, w)
    ensures forall j :: 0 <= j < |w.served| ==> DataCommand(w.served[j].r.q.cmd) && CleanRequest(w.served[j].r)
  {
    hide Audits, DataCommand, CleanRequest, NotedFirst, Dues;
    forall j | 0 <= j < |w.served| ensures DataCommand(w.served[j].r.q.cmd) && CleanRequest(w.served[j].r) {
      assert w.served[j] in w.served;
    }
  }

  lemma InTurnStep(ws: seq<World>, i: nat, k: string)
    requires i + 1 < |ws| && SafeUpTo(ws, i) && SafeUpTo(ws, i + 1) && Next(ws[i], ws[i + 1])
    requires WritesAlone(ws[i], k) && WritesAlone(ws[i + 1], k) && InStep(ws[i], InTurn(ws, i), k)
    requires WellFormed(State(ws[0].db, ws[0].logs))
    requires forall j :: 0 <= j < |ws[i].served| ==>
               DataCommand(ws[i].served[j].r.q.cmd) && CleanRequest(ws[i].served[j].r)
    ensures InStep(ws[i + 1], InTurn(ws, i + 1), k)
  {
    hide Decide, DataCommand, CleanRequest, LogOf, ParseFields, StoredBy, InStep, WritesAlone, WellFormed, Run, Step;
    var w, w', s := ws[i], ws[i + 1], InTurn(ws, i);
    if w' == w {
      return;
    }
    var c :| ConnStep(w, w', c);
    assert PendingOk(ws, i, w.conns[c]);
    if r :| CleanRequest(r) && ReadNext(w, w', c, r) {
      ReadInStep(w, w', s, c, r, k);
    } else if w.conns[c].HasRead? {
      var time :| w' == Decided(w, c, time);
      assert Accepted(w');
      var r := Stamped(w.conns[c].r, time);
      DecidedInStep(w, s, c, time, k);
      StampedIsClean(w.conns[c].r, time);
      RunAppend(State(ws[0].db, ws[0].logs), Requests(w.served), r);
      assert Requests(w'.served) == Requests(w.served) + [r];
    } else {
      FinishedInStep(w, s, c, k);
    }
  }

  /**
   Where no handler on a key overlaps with a write of the key, whatever happens on other
   keys, its log is that of serving the requests one after the other in the order of the
   decisions, with exactly the trail that the metadata prescribes; and so is its text while
   no write is due.
   */
  lemma ApartIsSerial(ws: seq<World>, i: nat, k: string)
    requires Behaviour(ws) && i < |ws| && WritesInTurn(ws, i, k)
    ensures WellFormed(State(ws[0].db, ws[0].logs))
    ensures LogOf(ws[i].logs, k) == LogOf(InTurn(ws, i).logs, k)
    ensures NoWriting(ws[i], k) ==> Get(ws[i].db, k) == Get(InTurn(ws, i).db, k)
    ensures Audits(LogOf(ws[i].logs, k)) ==
            Audits(LogOf(ws[0].logs, k)) + Trail(MetaOf(State(ws[0].db, ws[0].logs)), Requests(ws[i].served), k)
  {
    hide Next, ParseFields, DataCommand, CleanRequest, WritesAlone, Audits, Trail, Run, LogOf, NoWriting, ConnInStep;
    InTurnRun(ws, i, k);
    var s, rs := State(ws[0].db, ws[0].logs), Requests(ws[i].served);
    LogsAreTrail(s, rs, k);
    if rs != [] {
      RunAppend(s, rs, rs[0]);
      assert rs[..|rs|] == rs;
    }
    assert |Run(s, rs).1| == |rs|;
    assert rs[..|Run(s, rs).1|] == rs;
  }

  /** What two PUTs of a key leave that are served one after the other. */
  lemma TwoPuts(r1: Request, r2: Request)
    requires r1.q.cmd == "put" && r2.q.cmd == "put" && r1.q.key == r2.q.key && r1.backendOk && r2.backendOk
    requires PlainRequest(r1) && PlainRequest(r2)
    ensures var f := InsertedFields(r1.q, r1.policy, r1.clock.stamp);
            var value := if Allowed(f, r2.q, r2.policy, r2.clock.check) then r2.q.value else r1.q.value;
            && Good(Record(f, r1.q.value)) && Good(Record(f, r2.q.value))
            && Get(Run(State(map[], map[]), [r1, r2]).0.db, r1.q.key) == Some(Serialize(Record(f, value)))
  {
    hide Allowed, InsertedFields, Good, Serialize, Plain, CleanRequest, EntryFor, Step, Run;
    GoodInsert(r1);
    GoodValue(Record(InsertedFields(r1.q, r1.policy, r1.clock.stamp), r1.q.value), r2.q.value);
    var s, t := State(map[], map[]), RecordState(map[], map[]);
    RunRefines(s, t, [r1, r2]);
    assert [r1, r2][1..] == [r2] && [r2][1..] == [];
    var (t1, reply) := RecordStep(t, r1);
    assert RecordRun(t1, [r2]).0 == RecordStep(t1, r2).0;
  }

  lemma Extend(ws: seq<World>, w: World, c: nat) returns (ws': seq<World>)
    requires |ws| > 0 && Behaviour(ws) && !ws[|ws| - 1].crashed && ConnStep(ws[|ws| - 1], w, c)
    ensures Behaviour(ws') && |ws'| == |ws| + 1 && ws'[0] == ws[0] && ws'[|ws|] == w
  {
    ws' := ws + [w];
    hide ConnStep;
  }

  lemma StartBehaves(w: World)
    requires Accepted(w) && w.served == [] && forall c :: c in w.conns ==> w.conns[c] == Idle
    ensures Behaviour([w])
  {
  }

  /** A first PUT decides to write its record. */
  lemma FirstPutDecides(w: World, c: nat, r: Request)
    requires c in w.conns && w.conns[c] == HasRead(r, None) && r.q.cmd == "put"
    ensures var text := Serialize(Record(InsertedFields(r.q, r.policy, r.clock.stamp), r.q.value));
            && Decided(w, c, r.clock.log).db == w.db && Decided(w, c, r.clock.log).crashed == w.crashed
            && Decided(w, c, r.clock.log).conns == w.conns[c := MustWrite(r, None, Put(text))]
            && Decided(w, c, r.clock.log).served == w.served + [Served(r, None)]
            && ConnStep(w, Decided(w, c, r.clock.log), c)
  {
    hide InsertedFields, Serialize, CleanRequest, EntryFor, ParseFields, Monitored;
  }

  /** Both connections read before either decides, and both decide before either writes. */
  lemma OverlapBehaves(r1: Request, r2: Request) returns (ws: seq<World>)
    requires r1.q.cmd == "put" && r2.q.cmd == "put" && r1.q.key == r2.q.key && r1.backendOk && r2.backendOk
    requires CleanRequest(r1) && CleanRequest(r2)
    ensures Behaviour(ws) && ws[0] == World(map[], map[], map[0 := Idle, 1 := Idle], false, [])
    ensures var w := ws[|ws| - 1];
            && w.conns == ws[0].conns && Requests(w.served) == [r1, r2]
            && Get(w.db, r2.q.key) ==
               Some(Serialize(Record(InsertedFields(r2.q, r2.policy, r2.clock.stamp), r2.q.value)))
  {
    hide InsertedFields, Serialize, CleanRequest, EntryFor, ParseFields, Monitored, Behaviour, Decided;
    var w0 := World(map[], map[], map[0 := Idle, 1 := Idle], false, []);
    var w1 := w0.(conns := w0.conns[0 := HasRead(r1, None)]);
    var w2 := w1.(conns := w1.conns[1 := HasRead(r2, None)]);
    var w3 := Decided(w2, 0, r1.clock.log);
    FirstPutDecides(w2, 0, r1);
    var w4 := Decided(w3, 1, r2.clock.log);
    FirstPutDecides(w3, 1, r2);
    var w5 := Finished(w4, 0);
    var w6 := Finished(w5, 1);
    StartBehaves(w0);
    assert ReadNext(w0, w1, 0, r1) && ReadNext(w1, w2, 1, r2);
    ws := Extend([w0], w1, 0);
    ws := Extend(ws, w2, 1);
    ws := Extend(ws, w3, 0);
    ws := Extend(ws, w4, 1);
    ws := Extend(ws, w5, 0);
    ws := Extend(ws, w6, 1);
    assert w6.served == [Served(r1, None), Served(r2, None)];
  }

  /**
   Two first PUTs of a key that both read before either writes leave a text that serving
   them in neither order leaves.
   */
  lemma OverlapIsNoRun(r1: Request, r2: Request) returns (ws: seq<World>)
    requires r1.q.cmd == "put" && r2.q.cmd == "put" && r1.q.key == r2.q.key && r1.backendOk && r2.backendOk
    requires PlainRequest(r1) && PlainRequest(r2) && r1.q.value != r2.q.value
    requires InsertedFields(r1.q, r1.policy, r1.clock.stamp) != InsertedFields(r2.q, r2.policy, r2.clock.stamp)
    requires Allowed(InsertedFields(r2.q, r2.policy, r2.clock.stamp), r1.q, r1.policy, r1.clock.check)
    ensures Behaviour(ws) && ws[0] == World(map[], map[], map[0 := Idle, 1 := Idle], false, [])
    ensures var w := ws[|ws| - 1];
            && w.conns == ws[0].conns && Requests(w.served) == [r1, r2]
            && Get(w.db, r1.q.key) != Get(Run(State(map[], map[]), [r1, r2]).0.db, r1.q.key)
            && Get(w.db, r1.q.key) != Get(Run(State(map[], map[]), [r2, r1]).0.db, r1.q.key)
  {
    hide Allowed, InsertedFields, Good, Serialize, Plain, CleanQuery, Run, ParseFields, RemoveMetadata,
         PreserveMetadata, Behaviour, Requests;
    TwoPuts(r1, r2);
    TwoPuts(r2, r1);
    var f1, f2 := InsertedFields(r1.q, r1.policy, r1.clock.stamp), InsertedFields(r2.q, r2.policy, r2.clock.stamp);
    GoodText(Record(f1, r1.q.value));
    GoodText(Record(f1, r2.q.value));
    GoodText(Record(f2, r1.q.value));
    GoodText(Record(f2, r2.q.value));
    ws := OverlapBehaves(r1, r2);
  }
}
