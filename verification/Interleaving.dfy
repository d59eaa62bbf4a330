/**
 Connections served by concurrent threads. A handler reads the stored text, decides on it
 and logs, and writes back; between these three moments other connections may act.
 */
module Interleaving {
  import opened Text
  import opened Metadata
  import opened Query
  import opened Policy
  import opened Filter
  import opened Rewriter
  import opened LogCodec
  import opened Store
  import opened Records
  import opened Runs

  datatype Write = Put(text: string) | Erase

  /** What a handler concludes from the text it read. */
  datatype Decision = Decision(needed: bool, valid: bool, logged: string, write: Option<Write>)

  /** `None` is the format error of the filter. */
  function Decide(res: Option<string>, r: Request): Option<Decision> {
    if res.None? then
      if r.q.cmd == "put" then
        var text := Serialize(Record(InsertedFields(r.q, r.policy, r.clock.stamp), r.q.value));
        Some(Decision(r.q.monitor.GetOr(r.policy.monitor), true, text, Some(Put(text))))
      else Some(Decision(false, false, "", None))
    else
      match ParseFields(res.value)
      case None => None
      case Some(f) =>
        if !Allowed(f, r.q, r.policy, r.clock.check) then Some(Decision(f.monitor, false, "", None))
        else if r.q.cmd == "put" then
          var text := Splice(res.value, r.q.value);
          Some(Decision(f.monitor, true, text, Some(Put(text))))
        else if r.q.cmd == "putm" then
          var text := UpdatedText(r.q, r.clock.stamp, 0, Split(res.value, '|'));
          Some(Decision(f.monitor, true, text, Some(Put(text))))
        else if r.q.cmd == "delete" then Some(Decision(f.monitor, true, "", Some(Erase)))
        else Some(Decision(f.monitor, true, "", None))
  }

  /** Where a connection stands in its handler. */
  datatype Conn = Idle | HasRead(r: Request, res: Option<string>) | MustWrite(r: Request, res: Option<string>, w: Write)

  /** A decision taken on a request, and the text it was taken on. */
  datatype Served = Served(r: Request, res: Option<string>)

  /** `served` records the decisions taken, in their order. */
  datatype World = World(db: map<string, string>, logs: Logs, conns: map<nat, Conn>, crashed: bool,
      served: seq<Served>)

  /** The request as logged at a time. */
  function Stamped(r: Request, time: int): Request {
    r.(clock := r.clock.(log := time))
  }

  predicate DataCommand(cmd: string) {
    cmd in {"get", "put", "delete", "putm", "getm"}
  }

  predicate ReadNext(w: World, w': World, c: nat, r: Request) {
    && c in w.conns && w.conns[c] == Idle && DataCommand(r.q.cmd)
    && w' == w.(conns := w.conns[c := HasRead(r, Get(w.db, r.q.key))])
  }

  /** The connection decides on what it read, and logs the request at the given time. */
  function Decided(w: World, c: nat, time: int): World
    requires c in w.conns && w.conns[c].HasRead?
  {
    var r, res := w.conns[c].r, w.conns[c].res;
    match Decide(res, r)
    case None => w.(crashed := true)
    case Some(d) =>
      w.(logs := Monitored(w.logs, d.needed, Stamped(r, time), d.valid, d.logged),
         served := w.served + [Served(Stamped(r, time), res)],
         conns := w.conns[c := if d.write.Some? then MustWrite(r, res, d.write.value) else Idle])
  }

  function Finished(w: World, c: nat): World
    requires c in w.conns && w.conns[c].MustWrite?
  {
    var r := w.conns[c].r;
    var db := if !r.backendOk then w.db
              else if w.conns[c].w.Put? then w.db[r.q.key := w.conns[c].w.text]
              else w.db - {r.q.key};
    w.(db := db, conns := w.conns[c := Idle])
  }

  /** The connection takes its next step. */
  ghost predicate ConnStep(w: World, w': World, c: nat) {
    || (exists r :: CleanRequest(r) && ReadNext(w, w', c, r))
    || (c in w.conns && w.conns[c].HasRead? && exists time :: w' == Decided(w, c, time))
    || (c in w.conns && w.conns[c].MustWrite? && w' == Finished(w, c))
  }

  /** Some connection reads, decides or writes, or nothing happens; a crashed process does nothing. */
  ghost predicate Next(w: World, w': World) {
    w' == w || (!w.crashed && exists c :: ConnStep(w, w', c))
  }

  /** The three moments without interruption are one step of the sequential store. */
  lemma UninterruptedIsStep(w: World, c: nat, r: Request)
    requires !w.crashed && c in w.conns && w.conns[c] == Idle && DataCommand(r.q.cmd)
    ensures var w1 := w.(conns := w.conns[c := HasRead(r, Get(w.db, r.q.key))]);
            var w2 := Decided(w1, c, r.clock.log);
            var w3 := if !w2.crashed && w2.conns[c].MustWrite? then Finished(w2, c) else w2;
            var (s, reply) := Step(State(w.db, w.logs), r);
            && w3.crashed == reply.Crash?
            && (!reply.Crash? ==> w3 == World(s.db, s.logs, w.conns, false, w.served + [Served(r, Get(w.db, r.q.key))]))
  {
    hide ParseFields, Serialize, Allowed, Splice, Split, UpdatedText, RemoveMetadata,
         PreserveMetadata, InsertedFields, EntryFor;
    var w1 := w.(conns := w.conns[c := HasRead(r, Get(w.db, r.q.key))]);
    var w2 := Decided(w1, c, r.clock.log);
    var w3 := if !w2.crashed && w2.conns[c].MustWrite? then Finished(w2, c) else w2;
    var d := Decide(Get(w.db, r.q.key), r);
    if d.Some? {
      assert w3.conns == w.conns;
      var (s, reply) := Step(State(w.db, w.logs), r);
      assert w3.logs == s.logs;
      assert w3.db == s.db;
    }
  }

  // ---------- behaviours ----------

  /** The process runs and every stored text is one the filter accepts. */
  ghost predicate Accepted(w: World) {
    !w.crashed && forall k :: k in w.db ==> ParseFields(w.db[k]).Some?
  }

  ghost predicate Behaviour(ws: seq<World>) {
    && |ws| > 0
    && Accepted(ws[0]) && ws[0].served == []
    && (forall c :: c in ws[0].conns ==> ws[0].conns[c] == Idle)
    && forall i :: 0 <= i < |ws| - 1 ==> Next(ws[i], ws[i + 1])
  }

  /** The text was stored under the key at some moment up to i. */
  ghost predicate StoredBy(ws: seq<World>, i: nat, k: string, text: string) {
    exists j :: 0 <= j <= i && j < |ws| && k in ws[j].db && ws[j].db[k] == text
  }

  /** What a connection carries was read from the store, and what it will write follows from it. */
  ghost predicate PendingOk(ws: seq<World>, i: nat, conn: Conn) {
    match conn
    case Idle => true
    case HasRead(r, res) =>
      DataCommand(r.q.cmd) && CleanRequest(r) && (res.Some? ==> StoredBy(ws, i, r.q.key, res.value))
    case MustWrite(r, res, w) =>
      && DataCommand(r.q.cmd) && CleanRequest(r) && (res.Some? ==> StoredBy(ws, i, r.q.key, res.value))
      && Decide(res, r).Some? && Decide(res, r).value.write == Some(w)
  }

  ghost predicate SafeUpTo(ws: seq<World>, i: nat)
    requires i < |ws|
  {
    && (forall j :: 0 <= j <= i ==> Accepted(ws[j]))
    && forall c :: c in ws[i].conns ==> PendingOk(ws, i, ws[i].conns[c])
  }

  lemma StoredParses(ws: seq<World>, i: nat, k: string, text: string)
    requires i < |ws| && SafeUpTo(ws, i) && StoredBy(ws, i, k, text)
    ensures ParseFields(text).Some?
  {
    hide ParseFields;
    var j :| 0 <= j <= i && j < |ws| && k in ws[j].db && ws[j].db[k] == text;
    assert Accepted(ws[j]);
  }

  /** Where the metadata of a text to be written comes from. */
  lemma WriteOrigin(res: Option<string>, r: Request, text: string)
    requires CleanRequest(r) && (res.Some? ==> ParseFields(res.value).Some?)
    requires Decide(res, r).Some? && Decide(res, r).value.write == Some(Put(text))
    ensures ParseFields(text) ==
            if res.None? then Some(InsertedFields(r.q, r.policy, r.clock.stamp))
            else if r.q.cmd == "put" then ParseFields(res.value)
            else Some(UpdatedFields(ParseFields(res.value).value, r.q, r.clock.stamp))
  {
    hide ParseFields, Serialize, Allowed, Splice, Split, UpdatedText, InsertedFields, UpdatedFields, CleanQuery;
    if res.None? {
      InsertionParses(r);
    } else {
      ParsedHasParts(res.value);
      SpliceKeepsFields(res.value, r.q.value);
      UpdateKeepsFormat(res.value, r.q, r.clock.stamp);
    }
  }

  lemma PendingLater(ws: seq<World>, i: nat, conn: Conn)
    requires PendingOk(ws, i, conn)
    ensures PendingOk(ws, i + 1, conn)
  {
    hide Decide, CleanRequest, DataCommand;
    if !conn.Idle? && conn.res.Some? {
      var j :| 0 <= j <= i && j < |ws| && conn.r.q.key in ws[j].db && ws[j].db[conn.r.q.key] == conn.res.value;
    }
  }

  lemma SafeStep(ws: seq<World>, i: nat)
    requires i + 1 < |ws| && SafeUpTo(ws, i) && Next(ws[i], ws[i + 1])
    ensures SafeUpTo(ws, i + 1)
  {
    hide ParseFields, Decide, CleanRequest, DataCommand, StoredBy, Accepted, PendingOk, Monitored;
    var w, w' := ws[i], ws[i + 1];
    forall d | d in w.conns ensures PendingOk(ws, i + 1, w.conns[d]) {
      PendingLater(ws, i, w.conns[d]);
    }
    if w' == w {
      return;
    }
    var c :| ConnStep(w, w', c);
    if r :| CleanRequest(r) && ReadNext(w, w', c, r) {
      ReadSafe(ws, i, c, r);
    } else if w.conns[c].HasRead? {
      var time :| w' == Decided(w, c, time);
      DecideSafe(ws, i, c, time);
    } else {
      WriteSafe(ws, i, c);
    }
  }

  lemma ReadSafe(ws: seq<World>, i: nat, c: nat, r: Request)
    requires i + 1 < |ws| && SafeUpTo(ws, i) && CleanRequest(r) && ReadNext(ws[i], ws[i + 1], c, r)
    ensures Accepted(ws[i + 1]) && PendingOk(ws, i + 1, ws[i + 1].conns[c])
  {
    hide ParseFields, Decide, CleanRequest;
    assert Accepted(ws[i]);
  }

  lemma DecideSafe(ws: seq<World>, i: nat, c: nat, time: int)
    requires i + 1 < |ws| && SafeUpTo(ws, i) && c in ws[i].conns && ws[i].conns[c].HasRead?
    requires ws[i + 1] == Decided(ws[i], c, time)
    requires PendingOk(ws, i + 1, ws[i].conns[c])
    ensures Accepted(ws[i + 1]) && PendingOk(ws, i + 1, ws[i + 1].conns[c])
  {
    hide ParseFields, CleanRequest, DataCommand, Monitored, StoredBy;
    var conn := ws[i].conns[c];
    assert Accepted(ws[i]) && PendingOk(ws, i, conn);
    if conn.res.Some? {
      StoredParses(ws, i, conn.r.q.key, conn.res.value);
    }
    assert Decide(conn.res, conn.r).Some?;
  }

  lemma WriteSafe(ws: seq<World>, i: nat, c: nat)
    requires i + 1 < |ws| && SafeUpTo(ws, i) && c in ws[i].conns && ws[i].conns[c].MustWrite?
    requires ws[i + 1] == Finished(ws[i], c)
    ensures Accepted(ws[i + 1]) && PendingOk(ws, i + 1, ws[i + 1].conns[c])
  {
    hide ParseFields, Decide, CleanRequest, DataCommand, StoredBy;
    var conn := ws[i].conns[c];
    assert Accepted(ws[i]) && PendingOk(ws, i, conn);
    if conn.res.Some? {
      StoredParses(ws, i, conn.r.q.key, conn.res.value);
    }
    if conn.w.Put? {
      WriteOrigin(conn.res, conn.r, conn.w.text);
    }
  }

  /**
   However the moments of concurrent handlers interleave, every stored text is one the
   filter accepts, so that no handler ever meets the format error.
   */
  lemma {:induction false} InterleavedSafe(ws: seq<World>, i: nat)
    requires Behaviour(ws) && i < |ws|
    ensures SafeUpTo(ws, i)
  {
    hide Next, ParseFields;
    if i > 0 {
      InterleavedSafe(ws, i - 1);
      SafeStep(ws, i - 1);
    }
  }

  /**
   The metadata written at any moment of a behaviour is that of a first PUT, or it is the
   metadata some earlier text of the same key had: unchanged by a PUT, and with exactly the
   given fields replaced by a PUTM. What was stored between read and write has no part in it.
   */
  lemma MetadataOrigin(ws: seq<World>, i: nat, c: nat)
    requires Behaviour(ws) && i + 1 < |ws|
    requires c in ws[i].conns && ws[i].conns[c].MustWrite? && ws[i].conns[c].w.Put?
    requires ws[i].conns[c].r.backendOk && ws[i + 1] == Finished(ws[i], c)
    ensures var r, res := ws[i].conns[c].r, ws[i].conns[c].res;
            && r.q.key in ws[i + 1].db
            && (res.Some? ==> StoredBy(ws, i, r.q.key, res.value) && ParseFields(res.value).Some?)
            && ParseFields(ws[i + 1].db[r.q.key]) ==
               (if res.None? then Some(InsertedFields(r.q, r.policy, r.clock.stamp))
                else if r.q.cmd == "put" then ParseFields(res.value)
                else Some(UpdatedFields(ParseFields(res.value).value, r.q, r.clock.stamp)))
  {
    hide ParseFields, Decide, CleanRequest, DataCommand, StoredBy, Next;
    InterleavedSafe(ws, i);
    var conn := ws[i].conns[c];
    assert PendingOk(ws, i, conn);
    if conn.res.Some? {
      StoredParses(ws, i, conn.r.q.key, conn.res.value);
    }
    WriteOrigin(conn.res, conn.r, conn.w.text);
  }
}
