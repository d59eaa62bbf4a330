/**
 Who may do what, and what a client is told, in literal terms: users, purposes, clock
 readings and reply texts as they are, for one request and at every point of a run.
 */
module Access {
  import opened Text
  import Numbers
  import opened Metadata
  import opened Query
  import opened QueryFields
  import opened Policy
  import opened Filter
  import opened Rewriter
  import opened LogCodec
  import opened Store
  import opened Records
  import opened Runs
  import opened Interleaving

  // ---------- the verdict ----------

  /** A pair that expires at this second may still be touched at this nanosecond. */
  predicate InTime(expiration: int, now: int) {
    expiration == 0
    || (if expiration >= 0 then now < (expiration + 1) * 1_000_000_000 else now <= expiration * 1_000_000_000)
  }

  lemma InTimeIs(expiration: int, now: int)
    ensures expiration == 0 || Seconds(now) <= expiration <==> InTime(expiration, now)
  {
  }

  /**
   The verdict is yes exactly when the user that the query names, or else the session's, is
   the owner or listed in the shares, each purpose that the query names, or if it names
   none each of the session's, is allowed and not objected to, and the pair has not expired.
   */
  lemma VerdictIs(f: Fields, q: Query, policy: Policy, now: int)
    ensures Allowed(f, q, policy, now) <==>
              && (var user := if q.user.Some? then q.user.value else policy.user;
                  user == f.user || user in Split(f.share, ','))
              && (if exists j :: 0 <= j < 64 && q.condPurpose[j]
                  then forall i :: 0 <= i < 64 && q.condPurpose[i] ==> f.purpose[i] && !f.objection[i]
                  else forall i :: 0 <= i < 64 && policy.purpose[i] ==> f.purpose[i] && !f.objection[i])
              && InTime(f.expiration, now)
  {
    hide Split, Seconds;
    InTimeIs(f.expiration, now);
    hide InTime;
    assert Any(q.condPurpose) <==> exists j :: 0 <= j < 64 && q.condPurpose[j];
  }

  /** Purposes of the query override those of the session, which then play no part. */
  lemma PurposesOverride(f: Fields, q: Query, policy: Policy, other: Bits, now: int)
    requires exists j :: 0 <= j < 64 && q.condPurpose[j]
    ensures Allowed(f, q, policy, now) == Allowed(f, q, policy.(purpose := other), now)
    ensures forall i :: 0 <= i < 64 && q.condPurpose[i] && (!f.purpose[i] || f.objection[i]) ==>
              !Allowed(f, q, policy, now)
  {
    VerdictIs(f, q, policy, now);
    VerdictIs(f, q, policy.(purpose := other), now);
  }

  /** Without purposes in the query those of the session count. */
  lemma PurposesOfSession(f: Fields, q: Query, policy: Policy, now: int)
    requires forall j :: 0 <= j < 64 ==> !q.condPurpose[j]
    ensures forall i :: 0 <= i < 64 && policy.purpose[i] && (!f.purpose[i] || f.objection[i]) ==>
              !Allowed(f, q, policy, now)
  {
    VerdictIs(f, q, policy, now);
  }

  // ---------- replies ----------

  /** The metadata stored for a key. */
  function MetaAt(s: State, k: string): Option<Fields> {
    if k in s.db then ParseFields(s.db[k]) else None
  }

  /** There is a pair, and the verdict on the request is yes. */
  predicate Granted(s: State, r: Request) {
    MetaAt(s, r.q.key).Some? && Allowed(MetaAt(s, r.q.key).value, r.q, r.policy, r.clock.check)
  }

  /** The metadata of the key, if there is any, can be read. */
  predicate Readable(s: State, k: string) {
    k in s.db ==> MetaAt(s, k).Some?
  }

  /**
   A write is confirmed exactly when it is permitted and the backend carries it out, and only
   then anything is stored or deleted; a first PUT needs no permission.
   */
  lemma WriteIsConfirmed(s: State, r: Request)
    requires Readable(s, r.q.key) && r.q.cmd in {"put", "putm", "delete"}
    ensures var (s', reply), k := Step(s, r), r.q.key;
            && (r.q.cmd == "put" ==>
                  && (reply == Text("1") <==> (k !in s.db || Granted(s, r)) && r.backendOk)
                  && (reply == Text("1") || reply == Text("2")))
            && (r.q.cmd == "putm" ==>
                  && (reply == Text("6") <==> Granted(s, r) && r.backendOk)
                  && (reply != Text("6") ==>
                        reply == if k in s.db then Text("7")
                                 else Text("PUTM_FAILED: The specified key does not exist")))
            && (r.q.cmd == "delete" ==>
                  && (reply == Text("3") <==> Granted(s, r) && r.backendOk)
                  && (reply != Text("3") ==>
                        reply == if Granted(s, r) then Text("4")
                                 else Text("DELETE_FAILED: Invalid key or does not comply with GDPR rules")))
            && (if reply in {Text("1"), Text("6")} then s'.db.Keys == s.db.Keys + {k} && s'.db - {k} == s.db - {k}
                else if reply == Text("3") then s'.db == s.db - {k}
                else s'.db == s.db)
  {
    hide ParseFields, Serialize, Allowed, Splice, Split, UpdatedText, RemoveMetadata, PreserveMetadata,
         InsertedFields, EntryFor, Monitored;
  }

  /** A GET or GETM answers exactly when it is permitted, and changes nothing that is stored. */
  lemma ReadIsAnswered(s: State, r: Request)
    requires Readable(s, r.q.key) && r.q.cmd in {"get", "getm"}
    ensures var (s', reply), k := Step(s, r), r.q.key;
            && s'.db == s.db
            && (r.q.cmd == "get" ==>
                  reply == if Granted(s, r) then Text(RemoveMetadata(s.db[k])) else Text("0"))
            && (r.q.cmd == "getm" ==>
                  reply == if Granted(s, r) then Text(PreserveMetadata(s.db[k])) else Text("5"))
  {
    hide ParseFields, Serialize, Allowed, Splice, Split, UpdatedText, RemoveMetadata, PreserveMetadata,
         InsertedFields, EntryFor, Monitored;
  }

  /** Text with a delimiter is not cut down to text without one by the removal of the value. */
  lemma PreservedHasBar(text: string)
    requires '|' in text
    ensures '|' in PreserveMetadata(text)
  {
    var last := FindLast(text, '|');
    assert last + 1 < |text| ==> text[..last + 1][last] == '|';
  }

  lemma ParsedHasBar(text: string)
    requires ParseFields(text).Some?
    ensures '|' in text
  {
    if '|' !in text {
      SplitSingle(text, '|');
    }
  }

  /** A refusal to a GETM cannot be mistaken for an answer; one to a GET, exactly for the value `0`. */
  lemma RefusalTells(s: State, r: Request)
    requires Readable(s, r.q.key)
    ensures r.q.cmd == "getm" ==> (Step(s, r).1 == Text("5") <==> !Granted(s, r))
    ensures r.q.cmd == "get" ==>
              (Step(s, r).1 == Text("0") <==> !Granted(s, r) || RemoveMetadata(s.db[r.q.key]) == "0")
  {
    hide Step, ParseFields, Allowed, RemoveMetadata, PreserveMetadata;
    if r.q.cmd == "getm" && Granted(s, r) {
      ReadIsAnswered(s, r);
      ParsedHasBar(s.db[r.q.key]);
      PreservedHasBar(s.db[r.q.key]);
    } else if r.q.cmd == "get" || r.q.cmd == "getm" {
      ReadIsAnswered(s, r);
    }
  }

  /** Anything else than the five data commands leaves the store as it is. */
  lemma OthersChangeNothing(s: State, r: Request)
    requires r.q.cmd !in {"get", "put", "delete", "putm", "getm"}
    ensures Step(s, r).0 == s
    ensures r.q.cmd != "getlogs" ==> Step(s, r).1 == Text("9")
  {
    hide GetLogsReply;
  }

  // ---------- the log entry ----------

  /**
   The entry of a data command has the time of logging, the user that the query names or else
   the session's, the command, the verdict, and for a permitted PUT or PUTM the very text that
   the backend then holds. It is written exactly when the stored flag is set, or for a first
   PUT when the query asks for it, or says nothing and the session does.
   */
  lemma EntryIs(s: State, r: Request)
    requires Readable(s, r.q.key) && r.q.cmd in {"get", "put", "delete", "putm", "getm"}
    ensures var k, s', m := r.q.key, Step(s, r).0, MetaAt(s, r.q.key);
            var yes := if k in s.db then Granted(s, r) else r.q.cmd == "put";
            var user := if r.q.user.Some? then r.q.user.value else r.policy.user;
            var flag := if m.Some? then m.value.monitor
                        else r.q.cmd == "put" && if r.q.monitor.Some? then r.q.monitor.value else r.policy.monitor;
            && (!flag ==> s'.logs == s.logs)
            && (flag ==>
                  && |LogOf(s'.logs, k)| == |LogOf(s.logs, k)| + 1
                  && (var e := LogOf(s'.logs, k)[|LogOf(s.logs, k)|];
                      && LogOf(s'.logs, k) == LogOf(s.logs, k) + [e]
                      && e.timestamp == r.clock.log && e.call.user == user && e.call.cmd == r.q.cmd
                      && e.call.valid == yes
                      && (if yes && r.q.cmd in {"put", "putm"}
                          then r.backendOk ==> Get(s'.db, k) == Some(e.call.newValue)
                          else e.call.newValue == "")))
            && forall j :: j != k ==> LogOf(s'.logs, j) == LogOf(s.logs, j)
  {
    hide ParseFields, Serialize, Allowed, Splice, Split, UpdatedText, RemoveMetadata, PreserveMetadata, InsertedFields;
  }

  // ---------- at every point of a run ----------

  /** The state before the n-th request of a run. */
  function Before(s: State, rs: seq<Request>, n: nat): State
    requires n <= |rs|
  {
    Run(s, rs[..n]).0
  }

  /** The n-th reply of a run is that to the n-th request in the state before it. */
  lemma {:induction false} ReplyAt(s: State, rs: seq<Request>, n: nat)
    requires n < |Run(s, rs).1|
    ensures n < |rs| && Run(s, rs).1[n] == Step(Before(s, rs, n), rs[n]).1
    ensures rs[n].q.cmd != "exit" && !(n + 1 < |Run(s, rs).1| && Run(s, rs).1[n].Crash?)
    decreases |rs|
  {
    hide Step;
    if n == 0 {
      assert rs[..0] == [];
    } else {
      var s' := Step(s, rs[0]).0;
      ReplyAt(s', rs[1..], n - 1);
      assert rs[..n][1..] == rs[1..][..n - 1] && rs[..n][0] == rs[0];
      assert Run(s, rs).1 == [Step(s, rs[0]).1] + Run(s', rs[1..]).1;
      assert Before(s, rs, n) == Before(s', rs[1..], n - 1);
    }
  }

  /** One more request. */
  lemma {:induction false} BeforeNext(s: State, rs: seq<Request>, n: nat)
    requires n < |Run(s, rs).1| && !Run(s, rs).1[n].Crash?
    ensures n < |rs| && Before(s, rs, n + 1) == Step(Before(s, rs, n), rs[n]).0
    decreases |rs|
  {
    hide Step;
    var s' := Step(s, rs[0]).0;
    if n == 0 {
      assert rs[..0] == [] && rs[..1] == [rs[0]] && rs[..1][1..] == [];
      assert Run(s', []).0 == s';
    } else {
      assert Run(s, rs).1 == [Step(s, rs[0]).1] + Run(s', rs[1..]).1;
      BeforeNext(s', rs[1..], n - 1);
      assert rs[..n][1..] == rs[1..][..n - 1] && rs[..n][0] == rs[0];
      assert rs[..n + 1][1..] == rs[1..][..n] && rs[..n + 1][0] == rs[0];
    }
  }

  /** Requests are served until the client exits, the process ends, or there are no more. */
  lemma {:induction false} ServedUntil(s: State, rs: seq<Request>)
    ensures var n := |Run(s, rs).1|;
            && n <= |rs|
            && (n == |rs| || rs[n].q.cmd == "exit" || (n > 0 && Run(s, rs).1[n - 1].Crash?))
    ensures Run(s, rs).0 == Run(s, rs[..|Run(s, rs).1|]).0
    decreases |rs|
  {
    hide Step;
    if rs != [] && rs[0].q.cmd != "exit" {
      var s' := Step(s, rs[0]).0;
      var n := |Run(s, rs).1|;
      if !Step(s, rs[0]).1.Crash? {
        ServedUntil(s', rs[1..]);
        assert rs[..n][1..] == rs[1..][..n - 1];
      }
    } else {
      assert rs[..0] == [];
    }
  }

  /** The query was read from the text of these predicates, no two of which disturb each other. */
  predicate ReadFrom(q: Query, ps: seq<Predicate>) {
    && |ps| > 0 && PairwiseExchangeable(ps) && (forall p :: p in ps ==> p.Writable())
    && ReadPredicates(Split(Join(Rendered(ps), '&'), '&'), EMPTY) == Some(q)
  }

  /** The reply that refuses a data command on an existing key. */
  function Refused(cmd: string): Reply {
    if cmd == "get" then Text("0")
    else if cmd == "getm" then Text("5")
    else if cmd == "put" then Text("2")
    else if cmd == "putm" then Text("7")
    else Text("DELETE_FAILED: Invalid key or does not comply with GDPR rules")
  }

  lemma NotGrantedIsRefused(s: State, r: Request)
    requires r.q.cmd in {"get", "put", "delete", "putm", "getm"} && r.q.key in s.db
    requires Readable(s, r.q.key) && !Granted(s, r)
    ensures Step(s, r).1 == Refused(r.q.cmd) && Step(s, r).0.db == s.db
  {
    hide Step, Granted, Readable;
    if r.q.cmd in {"get", "getm"} {
      ReadIsAnswered(s, r);
    } else {
      WriteIsConfirmed(s, r);
    }
  }

  /** A purpose named in the text of the query is one of its purposes. */
  lemma NamedPurpose(q: Query, ps: seq<Predicate>, text: string, i: nat)
    requires ReadFrom(q, ps) && Setting("objPurIs", text) in ps
    requires i < 64 && ("purpose" + Numbers.PrintNat(i)) in Split(text, ',')
    ensures q.condPurpose[i]
  {
    hide Split, ReadPredicates, Join, Rendered, PairwiseExchangeable;
    QueryRecovered(ps, q);
    KnownPurpose(i);
    assert AsksPurpose(Setting("objPurIs", text), i);
  }

  /**
   At every point of every run, whoever asks: a request whose text names a purpose that the
   metadata of its key does not allow or objects to is refused, whatever the session's own
   purposes are.
   */
  lemma ForbiddenPurposeIsRefused(s: State, rs: seq<Request>, n: nat, ps: seq<Predicate>, text: string, i: nat)
    requires n < |Run(s, rs).1| && n < |rs|
    requires ReadFrom(rs[n].q, ps) && Setting("objPurIs", text) in ps
    requires i < 64 && ("purpose" + Numbers.PrintNat(i)) in Split(text, ',')
    requires var m := MetaAt(Before(s, rs, n), rs[n].q.key); m.Some? && (!m.value.purpose[i] || m.value.objection[i])
    requires rs[n].q.cmd in {"get", "put", "delete", "putm", "getm"}
    ensures Run(s, rs).1[n] == Refused(rs[n].q.cmd)
  {
    hide Run, Step, Allowed, ReadFrom, Split, ParseFields, Refused;
    ReplyAt(s, rs, n);
    NamedPurpose(rs[n].q, ps, text, i);
    PurposesOverride(MetaAt(Before(s, rs, n), rs[n].q.key).value, rs[n].q, rs[n].policy, rs[n].policy.purpose,
                     rs[n].clock.check);
    NotGrantedIsRefused(Before(s, rs, n), rs[n]);
  }

  /** So is one without purposes of its own where a purpose of the session is not allowed. */
  lemma ForbiddenSessionIsRefused(s: State, rs: seq<Request>, n: nat, i: nat)
    requires n < |Run(s, rs).1| && n < |rs|
    requires i < 64 && rs[n].policy.purpose[i] && forall j :: 0 <= j < 64 ==> !rs[n].q.condPurpose[j]
    requires var m := MetaAt(Before(s, rs, n), rs[n].q.key); m.Some? && (!m.value.purpose[i] || m.value.objection[i])
    requires rs[n].q.cmd in {"get", "put", "delete", "putm", "getm"}
    ensures Run(s, rs).1[n] == Refused(rs[n].q.cmd)
  {
    hide Run, Step, Allowed, Split, ParseFields, Refused;
    ReplyAt(s, rs, n);
    PurposesOfSession(MetaAt(Before(s, rs, n), rs[n].q.key).value, rs[n].q, rs[n].policy, rs[n].clock.check);
    NotGrantedIsRefused(Before(s, rs, n), rs[n]);
  }

  /** And one by a user who neither owns the pair nor shares it. */
  lemma StrangerIsRefused(s: State, rs: seq<Request>, n: nat)
    requires n < |Run(s, rs).1| && n < |rs|
    requires var m := MetaAt(Before(s, rs, n), rs[n].q.key);
             var user := if rs[n].q.user.Some? then rs[n].q.user.value else rs[n].policy.user;
             m.Some? && user != m.value.user && user !in Split(m.value.share, ',')
    requires rs[n].q.cmd in {"get", "put", "delete", "putm", "getm"}
    ensures Run(s, rs).1[n] == Refused(rs[n].q.cmd)
  {
    hide Run, Step, Allowed, Split, ParseFields, Refused;
    ReplyAt(s, rs, n);
    VerdictIs(MetaAt(Before(s, rs, n), rs[n].q.key).value, rs[n].q, rs[n].policy, rs[n].clock.check);
    NotGrantedIsRefused(Before(s, rs, n), rs[n]);
  }

  // ---------- pairs that do not expire ----------

  predicate Unexpiring(s: State, k: string) {
    MetaAt(s, k).Some? && MetaAt(s, k).value.expiration == 0
  }

  /** The owner asks, for purposes that are allowed and not objected to. */
  predicate OwnerAsks(f: Fields, r: Request) {
    && (if r.q.user.Some? then r.q.user.value else r.policy.user) == f.user
    && (if exists j :: 0 <= j < 64 && r.q.condPurpose[j]
        then forall i :: 0 <= i < 64 && r.q.condPurpose[i] ==> f.purpose[i] && !f.objection[i]
        else forall i :: 0 <= i < 64 && r.policy.purpose[i] ==> f.purpose[i] && !f.objection[i])
  }

  /** The request neither deletes k nor gives it another expiry than none. */
  predicate LeavesUnexpiring(r: Request, k: string) {
    r.q.key == k ==> r.q.cmd != "delete" && (r.q.cmd == "putm" && r.q.expiration.Some? ==> r.q.expiration.value == 0)
  }

  lemma UnexpiringStep(s: State, r: Request, k: string)
    requires WellFormed(s) && CleanRequest(r) && Unexpiring(s, k) && LeavesUnexpiring(r, k)
    ensures Unexpiring(Step(s, r).0, k)
  {
    hide Step, ParseFields, Allowed, InsertedFields, CleanRequest;
    MetaRefines(s, r);
    assert k in MetaOf(s) && MetaOf(s)[k].expiration == 0;
    assert k in MetaStep(MetaOf(s), r) && MetaStep(MetaOf(s), r)[k].expiration == 0;
    assert k in MetaOf(Step(s, r).0) && MetaOf(Step(s, r).0)[k].expiration == 0;
  }

  lemma {:induction false} StaysUnexpiring(s: State, rs: seq<Request>, n: nat, k: string)
    requires WellFormed(s) && Unexpiring(s, k) && n <= |Run(s, rs).1| && n <= |rs|
    requires forall i :: 0 <= i < |rs| ==> CleanRequest(rs[i])
    requires forall i :: 0 <= i < n ==> LeavesUnexpiring(rs[i], k) && !Run(s, rs).1[i].Crash?
    ensures WellFormed(Before(s, rs, n)) && Unexpiring(Before(s, rs, n), k)
  {
    hide Run, Step, WellFormed, Unexpiring, LeavesUnexpiring, CleanRequest, MetaStep, MetaOf;
    if n == 0 {
      StartBefore(s, rs);
    } else {
      StaysUnexpiring(s, rs, n - 1, k);
      BeforeNext(s, rs, n - 1);
      UnexpiringStep(Before(s, rs, n - 1), rs[n - 1], k);
      MetaRefines(Before(s, rs, n - 1), rs[n - 1]);
    }
  }

  lemma StartBefore(s: State, rs: seq<Request>)
    ensures Before(s, rs, 0) == s
  {
    assert rs[..0] == [];
  }

  /**
   A pair stored without expiry never expires: until it is deleted, or given another expiry,
   at every point of every run and at every clock reading a request by its owner for allowed
   purposes is granted.
   */
  lemma NeverExpires(s: State, rs: seq<Request>, n: nat, k: string)
    requires WellFormed(s) && Unexpiring(s, k) && n < |Run(s, rs).1| && n < |rs|
    requires forall i :: 0 <= i < |rs| ==> CleanRequest(rs[i])
    requires forall i :: 0 <= i < n ==> LeavesUnexpiring(rs[i], k)
    requires rs[n].q.key == k
    ensures MetaAt(Before(s, rs, n), k).Some?
    ensures var f := MetaAt(Before(s, rs, n), k).value;
            OwnerAsks(f, rs[n]) ==>
              && Granted(Before(s, rs, n), rs[n])
              && (rs[n].q.cmd == "get" ==> Run(s, rs).1[n] == Text(RemoveMetadata(Before(s, rs, n).db[k])))
              && (rs[n].q.cmd == "getm" ==> Run(s, rs).1[n] == Text(PreserveMetadata(Before(s, rs, n).db[k])))
              && (rs[n].backendOk ==>
                    && (rs[n].q.cmd == "put" ==> Run(s, rs).1[n] == Text("1"))
                    && (rs[n].q.cmd == "putm" ==> Run(s, rs).1[n] == Text("6"))
                    && (rs[n].q.cmd == "delete" ==> Run(s, rs).1[n] == Text("3")))
  {
    hide Run, Step, WellFormed, Allowed, LeavesUnexpiring, CleanRequest, ParseFields, Split, RemoveMetadata,
         PreserveMetadata;
    forall i | 0 <= i < n ensures !Run(s, rs).1[i].Crash? { ReplyAt(s, rs, i); }
    StaysUnexpiring(s, rs, n, k);
    ReplyAt(s, rs, n);
    var b := Before(s, rs, n);
    if OwnerAsks(MetaAt(b, k).value, rs[n]) {
      OwnerIsAllowed(MetaAt(b, k).value, rs[n]);
    }
    hide Before, OwnerAsks;
    if rs[n].q.cmd in {"get", "getm"} {
      ReadIsAnswered(b, rs[n]);
    } else if rs[n].q.cmd in {"put", "putm", "delete"} {
      WriteIsConfirmed(b, rs[n]);
    }
  }

  lemma OwnerIsAllowed(f: Fields, r: Request)
    requires f.expiration == 0 && OwnerAsks(f, r)
    ensures Allowed(f, r.q, r.policy, r.clock.check)
  {
    hide Allowed;
    VerdictIs(f, r.q, r.policy, r.clock.check);
  }
}
