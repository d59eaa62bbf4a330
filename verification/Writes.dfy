/**
 What a PUT or PUTM stores, from the text of the query to the text in the backend: each of
 the eight fields, the value, and the layout of the text.
 */
module Writes {
  import opened Text
  import opened Numbers
  import opened Metadata
  import opened Query
  import opened QueryFields
  import opened Policy
  import opened Filter
  import opened Rewriter
  import opened Store
  import opened Records
  import opened Runs
  import opened Access

  // ---------- what the text of a query asks for ----------

  /** The query text has a predicate of this name with this text. */
  predicate Given(ps: seq<Predicate>, name: string, text: string) {
    Setting(name, text) in ps
  }

  ghost predicate NotGiven(ps: seq<Predicate>, name: string) {
    forall text :: !Given(ps, name, text)
  }

  /** The name of purpose i is in the list, or for purpose 0 an unknown name. */
  predicate Lists(text: string, i: nat) {
    || ("purpose" + PrintNat(i)) in Split(text, ',')
    || (i == 0 && exists n :: n in Split(text, ',') && Unknown(n))
  }

  predicate Unknown(name: string) {
    forall j: nat :: j < 64 ==> name != "purpose" + PrintNat(j)
  }

  lemma IndexIs(name: string, i: nat)
    requires i < 64
    ensures PurposeIndex(name) == i <==> name == "purpose" + PrintNat(i) || (i == 0 && Unknown(name))
  {
    hide PurposeIndex;
    var n := PurposeIndex(name);
    KnownPurpose(i);
    assert PurposeName(i) == "purpose" + PrintNat(i);
    assert n != 0 ==> name == "purpose" + PrintNat(n);
    if !Unknown(name) {
      var j: nat :| j < 64 && name == "purpose" + PrintNat(j);
      KnownPurpose(j);
      assert name == PurposeName(j);
    }
  }

  lemma ListedBits(text: string, i: nat)
    requires i < 64
    ensures SetBits(NoBits(), Split(text, ','))[i] <==> Lists(text, i)
  {
    hide Split, PrintNat, PurposeIndex;
    forall n { IndexIs(n, i); }
    var bits := SetBits(NoBits(), Split(text, ','));
    assert bits[i] <==> exists n :: n in Split(text, ',') && PurposeIndex(n) == i;
  }

  /** A boolean text, in upper or lower case. */
  predicate Says(text: string, b: bool) {
    Lowercase(text) == if b then "true" else "false"
  }

  /** The expiry for a number of seconds from a clock reading: none for zero, and otherwise that much later. */
  predicate ExpiresAfter(expiration: int, now: int, secs: int) {
    && (secs == 0 ==> expiration == 0)
    && (secs != 0 && now >= 0 && 0 <= now + secs * 1_000_000_000 < 0x8000_0000_0000_0000 ==>
          expiration == now / 1_000_000_000 + secs)
  }

  lemma ExpiryIs(now: int, secs: int)
    ensures ExpiresAfter(ExpirationTime(now, secs), now, secs)
  {
    ExpirationTimeExact(now, secs);
  }

  /** What a query carries that was read from the text of the predicates. */
  lemma ReadSettings(q: Query, ps: seq<Predicate>)
    requires ReadFrom(q, ps)
    ensures forall t :: Given(ps, "sessionKey", t) ==> q.user == Some(t)
    ensures forall t :: Given(ps, "objOrig", t) ==> q.origin == Some(t)
    ensures forall t :: Given(ps, "objShare", t) ==> q.share == Some(t)
    ensures forall t :: Given(ps, "objExp", t) ==> q.expiration.Some? && q.expiration == ParseI32(t)
    ensures forall t :: Given(ps, "monitor", t) ==> q.monitor.Some? && q.monitor == StrToBool(t)
    ensures forall t :: Given(ps, "objPur", t) ==> q.purpose == Some(SetBits(NoBits(), Split(t, ',')))
    ensures forall t :: Given(ps, "objObjections", t) ==> q.objection == Some(SetBits(NoBits(), Split(t, ',')))
  {
    hide Split, ReadPredicates, Join, Rendered, PairwiseExchangeable, ParseI32, StrToBool;
    QueryRecovered(ps, q);
    forall name, t | Given(ps, name, t) ensures Shows(q, Setting(name, t)) { }
  }

  lemma AbsentIs(ps: seq<Predicate>, name: string)
    requires NotGiven(ps, name) && name != "query"
    ensures Absent(ps, name)
  {
    forall p | p in ps ensures p.Name() != name {
      assert p.Setting? ==> !Given(ps, name, p.text);
    }
  }

  lemma ReadNothing(q: Query, ps: seq<Predicate>)
    requires ReadFrom(q, ps)
    ensures NotGiven(ps, "sessionKey") ==> q.user == None
    ensures NotGiven(ps, "objOrig") ==> q.origin == None
    ensures NotGiven(ps, "objShare") ==> q.share == None
    ensures NotGiven(ps, "objExp") ==> q.expiration == None
    ensures NotGiven(ps, "monitor") ==> q.monitor == None
    ensures NotGiven(ps, "objPur") ==> q.purpose == None
    ensures NotGiven(ps, "objObjections") ==> q.objection == None
  {
    hide Split, ReadPredicates, Join, Rendered, PairwiseExchangeable, Absent, NotGiven, NoCommand, NoKey;
    QueryRecovered(ps, q);
    forall name | NotGiven(ps, name) && name != "query" ensures Absent(ps, name) { AbsentIs(ps, name); }
  }

  // ---------- the fields that are stored ----------

  /**
   A first PUT stores a text that the filter reads, field by field, as what the predicates of
   the query text say, and where they say nothing as what the session says.
   */
  lemma FirstPutStores(s: State, r: Request, ps: seq<Predicate>)
    requires ReadFrom(r.q, ps) && CleanRequest(r)
    requires r.q.cmd == "put" && r.q.key !in s.db && r.backendOk
    ensures MetaAt(Step(s, r).0, r.q.key).Some?
    ensures var f, p := MetaAt(Step(s, r).0, r.q.key).value, r.policy;
            && (forall t :: Given(ps, "sessionKey", t) ==> f.user == t)
            && (NotGiven(ps, "sessionKey") ==> f.user == p.user)
            && f.encryption == p.encryption
            && (forall t, i :: Given(ps, "objPur", t) && 0 <= i < 64 ==> (f.purpose[i] <==> Lists(t, i)))
            && (NotGiven(ps, "objPur") ==> f.purpose == p.purpose)
            && (forall t, i :: Given(ps, "objObjections", t) && 0 <= i < 64 ==> (f.objection[i] <==> Lists(t, i)))
            && (NotGiven(ps, "objObjections") ==> f.objection == p.objection)
            && (forall t :: Given(ps, "objOrig", t) ==> f.origin == t)
            && (NotGiven(ps, "objOrig") ==> f.origin == p.origin)
            && (forall t :: Given(ps, "objExp", t) ==>
                  ParseI32(t).Some? && ExpiresAfter(f.expiration, r.clock.stamp, ParseI32(t).value))
            && (NotGiven(ps, "objExp") ==> ExpiresAfter(f.expiration, r.clock.stamp, p.expiration))
            && (forall t :: Given(ps, "objShare", t) ==> f.share == t)
            && (NotGiven(ps, "objShare") ==> f.share == p.share)
            && (forall t :: Given(ps, "monitor", t) ==> Says(t, f.monitor))
            && (NotGiven(ps, "monitor") ==> f.monitor == p.monitor)
  {
    hide ReadFrom, Given, NotGiven, Lists, ParseI32, Split, SetBits, ParseFields, Serialize, ExpirationTime,
         ExpiresAfter, CleanQuery, EntryFor;
    ReadSettings(r.q, ps);
    ReadNothing(r.q, ps);
    InsertionParses(r);
    ExpiryIs(r.clock.stamp, r.q.expiration.GetOr(r.policy.expiration));
    forall t, i: nat | i < 64 ensures SetBits(NoBits(), Split(t, ','))[i] <==> Lists(t, i) { ListedBits(t, i); }
  }

  /**
   A PUTM that is confirmed stores a text that the filter reads, field by field, as what the
   predicates of the query text say, and where they say nothing as before; the encryption flag
   stays in any case, and a value without delimiter too.
   */
  lemma UpdateStores(s: State, r: Request, ps: seq<Predicate>)
    requires ReadFrom(r.q, ps) && CleanRequest(r) && Readable(s, r.q.key)
    requires r.q.cmd == "putm" && Step(s, r).1 == Text("6")
    ensures MetaAt(s, r.q.key).Some? && MetaAt(Step(s, r).0, r.q.key).Some?
    ensures var f, g := MetaAt(Step(s, r).0, r.q.key).value, MetaAt(s, r.q.key).value;
            && (forall t :: Given(ps, "sessionKey", t) ==> f.user == t)
            && (NotGiven(ps, "sessionKey") ==> f.user == g.user)
            && f.encryption == g.encryption
            && (forall t, i :: Given(ps, "objPur", t) && 0 <= i < 64 ==> (f.purpose[i] <==> Lists(t, i)))
            && (NotGiven(ps, "objPur") ==> f.purpose == g.purpose)
            && (forall t, i :: Given(ps, "objObjections", t) && 0 <= i < 64 ==> (f.objection[i] <==> Lists(t, i)))
            && (NotGiven(ps, "objObjections") ==> f.objection == g.objection)
            && (forall t :: Given(ps, "objOrig", t) ==> f.origin == t)
            && (NotGiven(ps, "objOrig") ==> f.origin == g.origin)
            && (forall t :: Given(ps, "objExp", t) ==>
                  ParseI32(t).Some? && ExpiresAfter(f.expiration, r.clock.stamp, ParseI32(t).value))
            && (NotGiven(ps, "objExp") ==> f.expiration == g.expiration)
            && (forall t :: Given(ps, "objShare", t) ==> f.share == t)
            && (NotGiven(ps, "objShare") ==> f.share == g.share)
            && (forall t :: Given(ps, "monitor", t) ==> Says(t, f.monitor))
            && (NotGiven(ps, "monitor") ==> f.monitor == g.monitor)
    ensures ValueOf(s.db[r.q.key]).Some? ==> ValueOf(Step(s, r).0.db[r.q.key]) == ValueOf(s.db[r.q.key])
  {
    hide ReadFrom, Given, NotGiven, Lists, ParseI32, Split, SetBits, ParseFields, ExpirationTime, ExpiresAfter,
         CleanQuery, EntryFor, UpdatedText, Allowed, ValueOf;
    ReadSettings(r.q, ps);
    ReadNothing(r.q, ps);
    UpdateKeepsFormat(s.db[r.q.key], r.q, r.clock.stamp);
    UpdateKeepsLast(s.db[r.q.key], r.q, r.clock.stamp);
    ExpiryIs(r.clock.stamp, r.q.expiration.GetOr(0));
    forall t, i: nat | i < 64 ensures SetBits(NoBits(), Split(t, ','))[i] <==> Lists(t, i) { ListedBits(t, i); }
  }

  /**
   A pair has no expiry after a first PUT that names none in a session that gives none, or
   after a first PUT or a confirmed PUTM with the expiry `0`.
   */
  lemma StoredUnexpiring(s: State, r: Request, ps: seq<Predicate>)
    requires ReadFrom(r.q, ps) && CleanRequest(r) && Readable(s, r.q.key)
    requires || (r.q.cmd == "put" && r.q.key !in s.db && r.backendOk
                 && ((NotGiven(ps, "objExp") && r.policy.expiration == 0) || Given(ps, "objExp", "0")))
             || (r.q.cmd == "putm" && Step(s, r).1 == Text("6") && Given(ps, "objExp", "0"))
    ensures Unexpiring(Step(s, r).0, r.q.key)
  {
    hide ReadFrom, Given, NotGiven, Step, ParseFields, CleanRequest;
    ZeroParses();
    if r.q.cmd == "put" {
      FirstPutStores(s, r, ps);
    } else {
      UpdateStores(s, r, ps);
    }
  }

  lemma ZeroParses()
    ensures ParseI32("0") == Some(0)
  {
    ScanPrintedInt(0);
    assert PrintInt(0) == "0";
  }

  // ---------- the value ----------

  /** What follows the eight fields of a text, if it holds no further delimiter. */
  function ValueOf(text: string): Option<string> {
    if |Split(text, '|')| == 9 then Some(Split(text, '|')[8]) else None
  }

  lemma UpdateKeepsLast(res: string, q: Query, now: int)
    requires ParseFields(res).Some? && CleanQuery(q)
    ensures ValueOf(res).Some? ==> ValueOf(UpdatedText(q, now, 0, Split(res, '|'))) == ValueOf(res)
  {
    hide Split, UpdatedText, UpdatedToken, Join;
    var parts := Split(res, '|');
    if |parts| == 9 {
      SplitClean(res, '|');
      var new_ := UpdatedTokens(q, now, parts);
      assert new_[0..] == new_ && parts[0..] == parts;
      UpdateWrites(q, now, 0, parts);
      assert parts[FIELDS..] == [parts[8]];
      OneTokenLeft(q, now, parts[8]);
      forall i | 0 <= i < FIELDS ensures '|' !in new_[i] {
        UpdatedTokenHasNoBar(q, now, i, parts[i]);
      }
      SplitJoin(new_, '|');
      SplitAppend(Join(new_, '|'), '|', parts[8]);
      SplitSingle(parts[8], '|');
    }
  }

  lemma OneTokenLeft(q: Query, now: int, token: string)
    ensures UpdatedText(q, now, FIELDS, [token]) == token
  {
  }

  /** A value that is all of what follows the fields is what a GET returns, unless it is empty. */
  lemma ValueIsReturned(text: string)
    requires ValueOf(text).Some? && ValueOf(text).value != ""
    ensures RemoveMetadata(text) == ValueOf(text).value
    ensures PreserveMetadata(text) + ValueOf(text).value == text
  {
    hide Split, Join;
    var parts := Split(text, '|');
    JoinSplit(text, '|');
    SplitClean(text, '|');
    var kept := parts[..8];
    assert parts == kept + [parts[8]];
    JoinAppend(kept, parts[8]);
    RemoveExact(Join(kept, '|'), parts[8]);
    PreserveExact(Join(kept, '|'), parts[8]);
    assert text == Join(kept, '|') + "|" + parts[8];
  }

  /**
   A PUT that is confirmed stores a value without delimiter as it is, a first one always and a
   later one over a value without delimiter; a later one changes no field.
   */
  lemma PutStoresValue(s: State, r: Request)
    requires CleanRequest(r) && Readable(s, r.q.key) && '|' !in r.q.value
    requires r.q.cmd == "put" && Step(s, r).1 == Text("1")
    ensures r.q.key in Step(s, r).0.db
    ensures r.q.key in s.db ==> MetaAt(Step(s, r).0, r.q.key) == MetaAt(s, r.q.key)
    ensures (r.q.key in s.db ==> ValueOf(s.db[r.q.key]).Some?) ==>
              ValueOf(Step(s, r).0.db[r.q.key]) == Some(r.q.value)
  {
    hide ParseFields, Split, Splice, Serialize, InsertedFields, EntryFor, Allowed, ValueOf;
    if r.q.key in s.db {
      ParsedHasParts(s.db[r.q.key]);
      SpliceKeepsFields(s.db[r.q.key], r.q.value);
      SpliceValue(s.db[r.q.key], r.q.value);
    } else {
      InsertValue(InsertedFields(r.q, r.policy, r.clock.stamp), r.q.value);
      InsertedIsClean(r);
    }
  }

  lemma InsertedIsClean(r: Request)
    requires CleanRequest(r)
    ensures Clean(InsertedFields(r.q, r.policy, r.clock.stamp))
  {
  }

  lemma InsertValue(f: Fields, value: string)
    ensures Clean(f) && '|' !in value ==> ValueOf(Serialize(Record(f, value))) == Some(value)
  {
    hide Split, MetaParts, Serialize;
    if Clean(f) && '|' !in value {
      SerializeParts(Record(f, value));
      SplitSingle(value, '|');
    }
  }

  lemma SpliceValue(res: string, value: string)
    requires '|' !in value
    ensures ValueOf(res).Some? ==> ValueOf(Splice(res, value)) == Some(value)
  {
    hide Split, FindLast, Join;
    if ValueOf(res).Some? {
      var parts := Split(res, '|');
      JoinSplit(res, '|');
      SplitClean(res, '|');
      LastDelimiter(parts);
      var kept := parts[..8];
      SplitJoin(kept, '|');
      SplitAppend(Join(kept, '|'), '|', value);
      SplitSingle(value, '|');
    }
  }

  // ---------- the layout of a stored text ----------

  /** The text of a first PUT: owner, encryption, purposes, objections, origin, expiry, shares, monitoring, value. */
  lemma FirstPutText(s: State, r: Request)
    requires CleanRequest(r) && r.q.cmd == "put" && r.q.key !in s.db && r.backendOk
    ensures MetaAt(Step(s, r).0, r.q.key).Some?
    ensures var f := MetaAt(Step(s, r).0, r.q.key).value;
            Step(s, r).0.db[r.q.key] ==
            Join([f.user, if f.encryption then "1" else "0", PrintNat(ToNumber(f.purpose)),
                  PrintNat(ToNumber(f.objection)), f.origin, PrintInt(f.expiration), f.share,
                  if f.monitor then "1" else "0", r.q.value], '|')
  {
    hide ParseFields, InsertedFields, EntryFor, PrintNat, PrintInt, ToNumber, Join, CleanQuery;
    InsertionParses(r);
    var f := InsertedFields(r.q, r.policy, r.clock.stamp);
    assert MetaParts(f) + [r.q.value] ==
      [f.user, Flag(f.encryption), PrintNat(ToNumber(f.purpose)), PrintNat(ToNumber(f.objection)), f.origin,
       PrintInt(f.expiration), f.share, Flag(f.monitor), r.q.value];
  }
}
