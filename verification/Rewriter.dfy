/**
 The three rewriters of query_rewriter.cpp, which build the text stored for a key: the
 insertion of a first value, the replacement of a value, and the update of metadata.
 */
module Rewriter {
  import opened Text
  import opened Numbers
  import opened Metadata
  import opened Query
  import opened Policy
  import opened Filter

  /** A stored pair: its metadata and its value. */
  datatype Record = Record(meta: Fields, value: string)

  function Flag(b: bool): string {
    if b then "1" else "0"
  }

  /** The eight metadata texts in order. */
  function MetaParts(f: Fields): (parts: seq<string>)
    ensures |parts| == FIELDS
  {
    [f.user, Flag(f.encryption), PrintNat(ToNumber(f.purpose)), PrintNat(ToNumber(f.objection)),
     f.origin, PrintInt(f.expiration), f.share, Flag(f.monitor)]
  }

  /** The stored text of a record. */
  function Serialize(r: Record): string {
    Join(MetaParts(r.meta) + [r.value], '|')
  }

  /** No text field holds the delimiter. */
  predicate Clean(f: Fields) {
    '|' !in f.user && '|' !in f.origin && '|' !in f.share
  }

  /** The expiry fits the 64-bit field, as every stored expiry does. */
  predicate InRange(f: Fields) {
    -I64 <= f.expiration < I64
  }

  // ---------- reading back a serialized record ----------

  lemma PartsHaveNoBar(f: Fields)
    requires Clean(f)
    ensures forall i :: 0 <= i < FIELDS ==> '|' !in MetaParts(f)[i]
  {
    PrintedIntChars(f.expiration, '|');
  }

  lemma {:induction false} JoinAppend(parts: seq<string>, value: string)
    requires |parts| > 0
    ensures Join(parts + [value], '|') == Join(parts, '|') + "|" + value
  {
    if |parts| == 1 {
      assert (parts + [value])[1..] == [value];
    } else {
      assert (parts + [value])[1..] == parts[1..] + [value];
      JoinAppend(parts[1..], value);
    }
  }

  /** The text of a record is its metadata prefix, a delimiter, and the value. */
  function Prefix(f: Fields): string {
    Join(MetaParts(f), '|')
  }

  lemma SerializePrefix(r: Record)
    ensures Serialize(r) == Prefix(r.meta) + "|" + r.value
  {
    JoinAppend(MetaParts(r.meta), r.value);
  }

  /** Cutting the stored text recovers the eight texts, then the pieces of the value. */
  lemma SerializeParts(r: Record)
    requires Clean(r.meta)
    ensures Split(Serialize(r), '|') == MetaParts(r.meta) + Split(r.value, '|')
  {
    hide Split, Join, MetaParts;
    PartsHaveNoBar(r.meta);
    SerializePrefix(r);
    SplitJoin(MetaParts(r.meta), '|');
    SplitAppend(Prefix(r.meta), '|', r.value);
  }

  lemma FieldsOfMetaParts(f: Fields, rest: seq<string>)
    requires InRange(f) && |rest| > 0
    ensures FieldsOf(MetaParts(f) + rest) == Some(f)
  {
    hide ToNumber, BitsOf, ParseU64, ParseI64, PrintNat, PrintInt;
    BitsRoundTrip(f.purpose);
    BitsRoundTrip(f.objection);
    I64RoundTrip(f.expiration);
  }

  lemma CleanRoundTrip(r: Record)
    requires Clean(r.meta) && InRange(r.meta)
    ensures ParseFields(Serialize(r)) == Some(r.meta)
  {
    hide Split, FieldsOf;
    SerializeParts(r);
    FieldsOfMetaParts(r.meta, Split(r.value, '|'));
  }

  /** Whatever the text, the fields read from it hold no delimiter. */
  lemma ParsedIsClean(text: string)
    requires ParseFields(text).Some?
    ensures Clean(ParseFields(text).value) && InRange(ParseFields(text).value)
  {
    SplitClean(text, '|');
  }

  /**
   Serializing a record and parsing the text gives back its metadata, for any value,
   exactly when no text field holds the delimiter.
   */
  lemma SerializeRoundTrip(r: Record)
    requires InRange(r.meta)
    ensures ParseFields(Serialize(r)) == Some(r.meta) <==> Clean(r.meta)
  {
    if Clean(r.meta) {
      CleanRoundTrip(r);
    } else if ParseFields(Serialize(r)).Some? {
      ParsedIsClean(Serialize(r));
    }
  }

  // ---------- insertion ----------

  /** The metadata of a first PUT: the query's settings, or else those of the session. */
  function InsertedFields(q: Query, policy: Policy, now: int): (f: Fields)
    ensures InRange(f)
  {
    Fields(q.user.GetOr(policy.user), policy.encryption,
           q.purpose.GetOr(policy.purpose), q.objection.GetOr(policy.objection),
           q.origin.GetOr(policy.origin),
           ExpirationTime(now, q.expiration.GetOr(policy.expiration)),
           q.share.GetOr(policy.share), q.monitor.GetOr(policy.monitor))
  }

  /** The parts, each followed by the delimiter. */
  function Barred(parts: seq<string>): string {
    if parts == [] then "" else Barred(parts[..|parts| - 1]) + parts[|parts| - 1] + "|"
  }

  lemma BarredNext(parts: seq<string>, k: nat)
    requires k < |parts|
    ensures Barred(parts[..k + 1]) == Barred(parts[..k]) + parts[k] + "|"
  {
    assert parts[..k + 1][..k] == parts[..k];
  }

  lemma {:induction false} BarredIsJoin(parts: seq<string>)
    requires parts != []
    ensures Barred(parts) == Join(parts, '|') + "|"
  {
    var init, last := parts[..|parts| - 1], parts[|parts| - 1];
    if init == [] {
      assert parts == [last];
      assert Barred(init) + last == last;
    } else {
      BarredIsJoin(init);
      JoinAppend(init, last);
      assert parts == init + [last];
    }
  }

  /** The insertion constructor appends the nine parts one after the other. */
  method Insert(q: Query, policy: Policy, newValue: string, now: int) returns (text: string)
    ensures text == Serialize(Record(InsertedFields(q, policy, now), newValue))
  {
    hide PrintNat, PrintInt, ToNumber, Barred, Join;
    ghost var f := InsertedFields(q, policy, now);
    ghost var parts := MetaParts(f);
    var purpose := q.purpose.GetOr(policy.purpose);
    var objection := q.objection.GetOr(policy.objection);
    var expiration := q.expiration.GetOr(policy.expiration);
    text := "";
    BarredEmpty(parts);
    text := text + q.user.GetOr(policy.user) + "|";
    BarredNext(parts, 0);
    text := text + (if policy.encryption then "1" else "0") + "|";
    BarredNext(parts, 1);
    text := text + PrintNat(ToNumber(purpose)) + "|";
    BarredNext(parts, 2);
    text := text + PrintNat(ToNumber(objection)) + "|";
    BarredNext(parts, 3);
    text := text + q.origin.GetOr(policy.origin) + "|";
    BarredNext(parts, 4);
    text := text + PrintInt(ExpirationTime(now, expiration)) + "|";
    BarredNext(parts, 5);
    text := text + q.share.GetOr(policy.share) + "|";
    BarredNext(parts, 6);
    text := text + (if q.monitor.GetOr(policy.monitor) then "1" else "0") + "|";
    BarredNext(parts, 7);
    assert parts[..8] == parts;
    BarredIsJoin(parts);
    SerializePrefix(Record(f, newValue));
    text := text + newValue;
  }

  lemma BarredEmpty(parts: seq<string>)
    ensures Barred(parts[..0]) == ""
  {
  }

  // ---------- replacing the value ----------

  /** The update constructor: all up to the last delimiter, then the new value. */
  function Splice(res: string, newValue: string): string {
    var last := FindLast(res, '|');
    (if last == -1 then res else res[..last]) + "|" + newValue
  }

  /** What a value keeps of itself when it is replaced: all up to its last delimiter. */
  function SplicedValue(old_: string, newValue: string): string {
    old_[..FindLast(old_, '|') + 1] + newValue
  }

  /** On the text of a record, the splice keeps the metadata and replaces the value. */
  lemma SpliceRecord(r: Record, newValue: string)
    ensures Splice(Serialize(r), newValue) == Serialize(r.(value := SplicedValue(r.value, newValue)))
  {
    hide FindLast;
    SerializePrefix(r);
    SerializePrefix(r.(value := SplicedValue(r.value, newValue)));
    FindLastAppend(Prefix(r.meta), r.value);
    var s, p, last := Serialize(r), Prefix(r.meta), FindLast(r.value, '|');
    if '|' in r.value {
      assert s[..|p| + 1 + last] == p + "|" + r.value[..last];
      assert r.value[..last + 1] == r.value[..last] + "|";
      assert Splice(s, newValue) == p + "|" + (r.value[..last] + "|" + newValue);
    } else {
      assert s[..|p|] == p;
      assert r.value[..0] + newValue == newValue;
    }
  }

  /** The old value is replaced completely exactly when it is `|`-free. */
  lemma SpliceExact(old_: string, newValue: string)
    ensures SplicedValue(old_, newValue) == newValue <==> '|' !in old_
  {
    if '|' in old_ {
      assert |SplicedValue(old_, newValue)| > |newValue|;
    }
  }

  /**
   The splice leaves every metadata field as the filter reads it, for every stored text
   with eight complete fields and every new value, with or without delimiters in them.
   */
  lemma SpliceKeepsFields(res: string, newValue: string)
    requires |Split(res, '|')| > FIELDS
    ensures ParseFields(Splice(res, newValue)) == ParseFields(res)
    ensures |Split(Splice(res, newValue), '|')| > FIELDS
    ensures Split(Splice(res, newValue), '|')[..FIELDS] == Split(res, '|')[..FIELDS]
  {
    hide Split, FindLast, FieldsOf;
    var parts := Split(res, '|');
    JoinSplit(res, '|');
    SplitClean(res, '|');
    LastDelimiter(parts);
    var kept, n := parts[..|parts| - 1], |parts| - 1;
    var last := FindLast(res, '|');
    assert last != -1 && res[..last] == Join(kept, '|');
    SplitJoin(kept, '|');
    SplitAppend(Join(kept, '|'), '|', newValue);
    assert Split(Splice(res, newValue), '|') == kept + Split(newValue, '|');
    FieldsOfFirst(parts, kept + Split(newValue, '|'));
  }

  /** `FieldsOf` looks at the first eight parts only. */
  lemma FieldsOfFirst(a: seq<string>, b: seq<string>)
    requires |a| > FIELDS && |b| > FIELDS && a[..FIELDS] == b[..FIELDS]
    ensures FieldsOf(a) == FieldsOf(b)
  {
    assert forall i :: 0 <= i < FIELDS ==> a[i] == a[..FIELDS][i] && b[i] == b[..FIELDS][i];
  }

  /** The last delimiter of a joined text precedes the last part. */
  lemma LastDelimiter(parts: seq<string>)
    requires |parts| > 1 && '|' !in parts[|parts| - 1]
    ensures var s := Join(parts, '|');
            var last := FindLast(s, '|');
            last != -1 && s[..last] == Join(parts[..|parts| - 1], '|')
  {
    var kept, v := parts[..|parts| - 1], parts[|parts| - 1];
    assert parts == kept + [v];
    JoinAppend(kept, v);
    FindLastAppend(Join(kept, '|'), v);
  }

  // ---------- updating the metadata ----------

  /** What PUTM writes for the token in position `count`. */
  function UpdatedToken(q: Query, now: int, count: nat, token: string): string {
    if count == 0 then q.user.GetOr(token)
    else if count == 2 then (if q.purpose.Some? then PrintNat(ToNumber(q.purpose.value)) else token)
    else if count == 3 then (if q.objection.Some? then PrintNat(ToNumber(q.objection.value)) else token)
    else if count == 4 then q.origin.GetOr(token)
    else if count == 5 then
      (if q.expiration.Some? then PrintInt(ExpirationTime(now, q.expiration.value)) else token)
    else if count == 6 then q.share.GetOr(token)
    else if count == 7 then (if q.monitor.Some? then Flag(q.monitor.value) else token)
    else token
  }

  /** The tokens from position `count` on; the ninth loses its delimiter, the rest stays. */
  function UpdatedText(q: Query, now: int, count: nat, parts: seq<string>): string
    requires |parts| > 0
    decreases |parts|
  {
    if count > FIELDS || |parts| == 1 then Join(parts, '|')
    else UpdatedToken(q, now, count, parts[0])
         + (if count < FIELDS then "|" else "")
         + UpdatedText(q, now, count + 1, parts[1..])
  }

  lemma UpdatedTextCons(q: Query, now: int, count: nat, token: string, rest: seq<string>)
    requires |rest| > 0 && count <= FIELDS
    ensures UpdatedText(q, now, count, [token] + rest) ==
            UpdatedToken(q, now, count, token) + (if count < FIELDS then "|" else "")
            + UpdatedText(q, now, count + 1, rest)
  {
    assert ([token] + rest)[1..] == rest;
  }

  lemma UpdatedTextEnd(q: Query, now: int, count: nat, s: string)
    requires count > FIELDS || '|' !in s
    ensures UpdatedText(q, now, count, Split(s, '|')) == s
  {
    hide Split, Join;
    JoinSplit(s, '|');
    if '|' !in s {
      SplitSingle(s, '|');
    }
  }

  /** The metadata-update constructor. */
  method Update(res: string, q: Query, now: int) returns (text: string)
    ensures text == UpdatedText(q, now, 0, Split(res, '|'))
  {
    hide Split, Find, UpdatedToken, UpdatedText;
    text := "";
    var start: nat, count: nat := 0, 0;
    var end := Find(res, '|', 0);
    assert res[0..] == res;
    while count < 9 && end != -1
      invariant count <= 9 && start <= |res| && end == Find(res, '|', start)
      invariant text + UpdatedText(q, now, count, Split(res[start..], '|')) == UpdatedText(q, now, 0, Split(res, '|'))
      decreases 9 - count
    {
      SplitFound(res, '|', start);
      UpdatedTextCons(q, now, count, res[start..end], Split(res[end + 1..], '|'));
      ghost var before, tail := text, UpdatedText(q, now, count + 1, Split(res[end + 1..], '|'));
      var token := UpdatedToken(q, now, count, res[start..end]);
      text := text + token;
      if count != 8 {
        text := text + "|";
      }
      assert text + tail == before + (token + (if count < 8 then "|" else "") + tail);
      start := end + 1;
      count := count + 1;
      end := Find(res, '|', start);
    }
    UpdatedTextEnd(q, now, count, res[start..]);
    if start < |res| {
      text := text + res[start..];
    } else {
      assert text + res[start..] == text;
    }
  }

  /** The metadata with the fields given by the query replaced and the others kept. */
  function UpdatedFields(f: Fields, q: Query, now: int): Fields {
    f.(user := q.user.GetOr(f.user), purpose := q.purpose.GetOr(f.purpose),
       objection := q.objection.GetOr(f.objection), origin := q.origin.GetOr(f.origin),
       expiration := if q.expiration.Some? then ExpirationTime(now, q.expiration.value) else f.expiration,
       share := q.share.GetOr(f.share), monitor := q.monitor.GetOr(f.monitor))
  }

  /** PUTM drops the first delimiter of the value, if there is one. */
  function WithoutFirstBar(value: string): string {
    var p := Find(value, '|', 0);
    if p == -1 then value else value[..p] + value[p + 1..]
  }

  /** The value survives a metadata update exactly when it is `|`-free. */
  lemma UpdateKeepsValue(value: string)
    ensures WithoutFirstBar(value) == value <==> '|' !in value
  {
    assert value[0..] == value;
    if '|' in value {
      assert |WithoutFirstBar(value)| == |value| - 1;
    }
  }

  lemma {:induction false} UpdateValue(q: Query, now: int, value: string)
    ensures UpdatedText(q, now, FIELDS, Split(value, '|')) == WithoutFirstBar(value)
  {
    hide Split, Join;
    var p := Find(value, '|', 0);
    assert value[0..] == value;
    if p == -1 {
      SplitLast(value, '|', 0);
      JoinSplit(value, '|');
    } else {
      SplitAt(value, '|', p);
      var rest := Split(value[p + 1..], '|');
      assert ([value[..p]] + rest)[1..] == rest;
      JoinSplit(value[p + 1..], '|');
    }
  }

  /** Each metadata token is rewritten to the text of the updated field. */
  lemma UpdatedMetaToken(f: Fields, q: Query, now: int, i: nat)
    requires i < FIELDS
    ensures UpdatedToken(q, now, i, MetaParts(f)[i]) == MetaParts(UpdatedFields(f, q, now))[i]
  {
  }

  function UpdatedTokens(q: Query, now: int, parts: seq<string>): (r: seq<string>)
    requires |parts| >= FIELDS
    ensures |r| == FIELDS
    ensures forall i :: 0 <= i < FIELDS ==> r[i] == UpdatedToken(q, now, i, parts[i])
  {
    seq(FIELDS, i requires 0 <= i < FIELDS => UpdatedToken(q, now, i, parts[i]))
  }

  /** The loop writes the eight rewritten tokens and then what it makes of the value. */
  lemma {:induction false} UpdateWrites(q: Query, now: int, i: nat, parts: seq<string>)
    requires i < FIELDS < |parts|
    ensures UpdatedText(q, now, i, parts[i..]) ==
            Join(UpdatedTokens(q, now, parts)[i..], '|') + "|" + UpdatedText(q, now, FIELDS, parts[FIELDS..])
    decreases FIELDS - i
  {
    hide UpdatedToken, UpdatedTokens;
    var new_ := UpdatedTokens(q, now, parts);
    assert parts[i..][1..] == parts[i + 1..];
    if i == FIELDS - 1 {
      assert new_[i..] == [new_[i]];
    } else {
      UpdateWrites(q, now, i + 1, parts);
      var tail := UpdatedText(q, now, FIELDS, parts[FIELDS..]);
      assert new_[i..][1..] == new_[i + 1..];
      assert new_[i] + "|" + Join(new_[i + 1..], '|') + "|" + tail ==
        new_[i] + "|" + (Join(new_[i + 1..], '|') + "|" + tail);
    }
  }

  /** On the text of a record, PUTM updates the record field by field. */
  lemma UpdateRecord(r: Record, q: Query, now: int)
    requires Clean(r.meta)
    ensures UpdatedText(q, now, 0, Split(Serialize(r), '|')) ==
            Serialize(Record(UpdatedFields(r.meta, q, now), WithoutFirstBar(r.value)))
  {
    hide Split, MetaParts, UpdatedText, UpdatedToken, UpdatedFields, Join;
    SerializeParts(r);
    var parts := Split(Serialize(r), '|');
    var s := Record(UpdatedFields(r.meta, q, now), WithoutFirstBar(r.value));
    forall i | 0 <= i < FIELDS ensures UpdatedTokens(q, now, parts)[i] == MetaParts(s.meta)[i] {
      UpdatedMetaToken(r.meta, q, now, i);
    }
    assert UpdatedTokens(q, now, parts)[0..] == MetaParts(s.meta) && parts[0..] == parts;
    assert parts[FIELDS..] == Split(r.value, '|');
    UpdateWrites(q, now, 0, parts);
    UpdateValue(q, now, r.value);
    SerializePrefix(s);
  }

  /** The texts a query sets hold no delimiter. */
  predicate CleanQuery(q: Query) {
    && (q.user.Some? ==> '|' !in q.user.value)
    && (q.origin.Some? ==> '|' !in q.origin.value)
    && (q.share.Some? ==> '|' !in q.share.value)
  }

  lemma UpdatedTokenHasNoBar(q: Query, now: int, i: nat, token: string)
    requires CleanQuery(q) && '|' !in token
    ensures '|' !in UpdatedToken(q, now, i, token)
  {
    if q.expiration.Some? {
      PrintedIntChars(ExpirationTime(now, q.expiration.value), '|');
    }
  }

  lemma UpdatedFieldsOf(parts: seq<string>, new_: seq<string>, q: Query, now: int)
    requires |parts| > FIELDS && |new_| > FIELDS && FieldsOf(parts).Some?
    requires forall i :: 0 <= i < FIELDS ==> new_[i] == UpdatedToken(q, now, i, parts[i])
    ensures FieldsOf(new_) == Some(UpdatedFields(FieldsOf(parts).value, q, now))
  {
    hide ToNumber, BitsOf, ParseU64, ParseI64, PrintNat, PrintInt;
    if q.purpose.Some? { BitsRoundTrip(q.purpose.value); }
    if q.objection.Some? { BitsRoundTrip(q.objection.value); }
    if q.expiration.Some? { I64RoundTrip(ExpirationTime(now, q.expiration.value)); }
    assert new_[0] == UpdatedToken(q, now, 0, parts[0]) && new_[1] == UpdatedToken(q, now, 1, parts[1]);
    assert new_[2] == UpdatedToken(q, now, 2, parts[2]) && new_[3] == UpdatedToken(q, now, 3, parts[3]);
    assert new_[4] == UpdatedToken(q, now, 4, parts[4]) && new_[5] == UpdatedToken(q, now, 5, parts[5]);
    assert new_[6] == UpdatedToken(q, now, 6, parts[6]) && new_[7] == UpdatedToken(q, now, 7, parts[7]);
  }

  /**
   On any text the filter accepts, not only on those written by an insertion, PUTM
   leaves a text the filter reads as the old fields with the given ones replaced.
   */
  lemma UpdateKeepsFormat(res: string, q: Query, now: int)
    requires ParseFields(res).Some? && CleanQuery(q)
    ensures ParseFields(UpdatedText(q, now, 0, Split(res, '|'))) ==
            Some(UpdatedFields(ParseFields(res).value, q, now))
  {
    hide Split, UpdatedText, UpdatedToken, UpdatedFields, Join;
    var parts := Split(res, '|');
    SplitClean(res, '|');
    var new_ := UpdatedTokens(q, now, parts);
    assert new_[0..] == new_ && parts[0..] == parts;
    UpdateWrites(q, now, 0, parts);
    var tail := UpdatedText(q, now, FIELDS, parts[FIELDS..]);
    forall i | 0 <= i < FIELDS ensures '|' !in new_[i] {
      UpdatedTokenHasNoBar(q, now, i, parts[i]);
    }
    SplitJoin(new_, '|');
    SplitAppend(Join(new_, '|'), '|', tail);
    UpdatedFieldsOf(parts, new_ + Split(tail, '|'), q, now);
  }
}
