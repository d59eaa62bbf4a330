/**
 The filter of gdpr_filter.cpp: the eight metadata fields at the head of a stored text,
 and the decision whether a query may touch the pair.
 */
module Filter {
  import opened Text
  import opened Numbers
  import opened Metadata
  import opened Query
  import opened Policy

  const FIELDS: nat := 8

  datatype Fields = Fields(
    user: string, encryption: bool, purpose: Bits, objection: Bits,
    origin: string, expiration: int, share: string, monitor: bool)

  const DEFAULT: Fields := Fields("", false, NoBits(), NoBits(), "", 0, "", false)

  /** Stores one token in the field its position selects; `None` is a thrown error. */
  function SetField(f: Fields, count: nat, token: string): Option<Fields> {
    if count == 0 then Some(f.(user := token))
    else if count == 1 then Some(f.(encryption := token == "1"))
    else if count == 2 then
      (match ParseU64(token) case Some(n) => Some(f.(purpose := BitsOf(n))) case None => None)
    else if count == 3 then
      (match ParseU64(token) case Some(n) => Some(f.(objection := BitsOf(n))) case None => None)
    else if count == 4 then Some(f.(origin := token))
    else if count == 5 then
      (match ParseI64(token) case Some(n) => Some(f.(expiration := n)) case None => None)
    else if count == 6 then Some(f.(share := token))
    else if count == 7 then Some(f.(monitor := token == "1"))
    else Some(f)
  }

  /**
   The fields of a text cut into its `|`-delimited parts: eight complete fields must be
   followed by a delimiter, and the three numeric ones must be numbers.
   */
  function FieldsOf(parts: seq<string>): Option<Fields> {
    if |parts| <= FIELDS then None
    else
      match (ParseU64(parts[2]), ParseU64(parts[3]), ParseI64(parts[5]))
      case (Some(p), Some(o), Some(e)) =>
        Some(Fields(parts[0], parts[1] == "1", BitsOf(p), BitsOf(o), parts[4], e, parts[6], parts[7] == "1"))
      case _ => None
  }

  function ParseFields(value: string): Option<Fields> {
    FieldsOf(Split(value, '|'))
  }

  /** The loop from field `count` on. */
  function SetFields(f: Fields, count: nat, parts: seq<string>): Option<Fields>
    requires |parts| > 0 && count <= FIELDS
    decreases FIELDS - count
  {
    if count == FIELDS then Some(f)
    else if |parts| == 1 then None
    else match SetField(f, count, parts[0])
         case Some(g) => SetFields(g, count + 1, parts[1..])
         case None => None
  }

  /** Field by field, the loop sets exactly the fields of the cut text. */
  lemma SetFieldsIsFieldsOf(parts: seq<string>)
    requires |parts| > 0
    ensures SetFields(DEFAULT, 0, parts) == FieldsOf(parts)
  {
    hide ParseU64, ParseI64, BitsOf;
    SetFieldsShort(DEFAULT, 0, parts);
    if |parts| > FIELDS {
      SetFieldsLong(DEFAULT, 0, parts, parts);
    }
  }

  lemma {:induction false} SetFieldsShort(f: Fields, count: nat, parts: seq<string>)
    requires |parts| > 0 && count <= FIELDS
    ensures |parts| + count <= FIELDS ==> SetFields(f, count, parts) == None
    decreases FIELDS - count
  {
    hide SetField;
    if count < FIELDS && |parts| > 1 && SetField(f, count, parts[0]).Some? {
      SetFieldsShort(SetField(f, count, parts[0]).value, count + 1, parts[1..]);
    }
  }

  /** What is left of `FieldsOf(all)` once the first `count` fields are in `f`. */
  predicate Agrees(f: Fields, count: nat, all: seq<string>)
    requires |all| > FIELDS
  {
    && (count > 0 ==> f.user == all[0])
    && (count > 1 ==> f.encryption == (all[1] == "1"))
    && (count > 2 ==> ParseU64(all[2]).Some? && f.purpose == BitsOf(ParseU64(all[2]).value))
    && (count > 3 ==> ParseU64(all[3]).Some? && f.objection == BitsOf(ParseU64(all[3]).value))
    && (count > 4 ==> f.origin == all[4])
    && (count > 5 ==> ParseI64(all[5]).Some? && f.expiration == ParseI64(all[5]).value)
    && (count > 6 ==> f.share == all[6])
    && (count > 7 ==> f.monitor == (all[7] == "1"))
  }

  lemma {:induction false} SetFieldsLong(f: Fields, count: nat, parts: seq<string>, all: seq<string>)
    requires |all| > FIELDS && count <= FIELDS && parts == all[count..]
    requires Agrees(f, count, all)
    ensures SetFields(f, count, parts) == FieldsOf(all)
    decreases FIELDS - count
  {
    hide ParseU64, ParseI64, BitsOf;
    if count < FIELDS {
      assert parts[0] == all[count];
      var g := SetField(f, count, all[count]);
      if g.Some? {
        assert parts[1..] == all[count + 1..];
        SetFieldsLong(g.value, count + 1, parts[1..], all);
      }
    }
  }

  /** The constructor of the filter on a retrieved text; `None` is a thrown error. */
  method ReadFields(value: string) returns (fields: Option<Fields>)
    ensures fields == ParseFields(value)
  {
    hide Split, Find, FieldsOf, SetField;
    var f := DEFAULT;
    var start: nat, count: nat := 0, 0;
    var end := Find(value, '|', 0);
    assert value[0..] == value;
    SetFieldsIsFieldsOf(Split(value, '|'));
    while count < FIELDS && end != -1
      invariant count <= FIELDS && start <= |value| && end == Find(value, '|', start)
      invariant SetFields(f, count, Split(value[start..], '|')) == ParseFields(value)
      decreases FIELDS - count
    {
      SplitFound(value, '|', start);
      var g := SetField(f, count, value[start..end]);
      if g.None? {
        return None;
      }
      assert ([value[start..end]] + Split(value[end + 1..], '|'))[1..] == Split(value[end + 1..], '|');
      f := g.value;
      start := end + 1;
      count := count + 1;
      end := Find(value, '|', start);
    }
    if count != FIELDS {
      SplitLast(value, '|', start);
      return None;
    }
    fields := Some(f);
  }

  // ---------- the decision ----------

  /** The session user a request acts for. */
  function EffectiveUser(q: Query, policy: Policy): string {
    q.user.GetOr(policy.user)
  }

  /** The purposes a request acts for: those of the query, or else of the session. */
  function EffectivePurposes(q: Query, policy: Policy): Bits {
    if Any(q.condPurpose) then q.condPurpose else policy.purpose
  }

  function ValidatePurpose(f: Fields, query: Bits, default: Bits): bool {
    if Any(query) then And(f.purpose, query) == query else And(f.purpose, default) == default
  }

  function ValidateObjection(f: Fields, query: Bits, default: Bits): bool {
    if Any(query) then !Any(And(f.objection, query)) else !Any(And(f.objection, default))
  }

  function ValidateExpiration(f: Fields, now: int): bool {
    f.expiration == 0 || Seconds(now) <= f.expiration
  }

  /** `validate_session_key`: the owner, or one of the users the pair is shared with. */
  method ValidateSessionKey(f: Fields, user: string) returns (ok: bool)
    ensures ok == (user == f.user || user in Split(f.share, ','))
  {
    hide Split, Find;
    if user == f.user {
      return true;
    }
    var start: nat := 0;
    var end := Find(f.share, ',', 0);
    assert f.share[0..] == f.share;
    while end != -1
      invariant start <= |f.share| && end == Find(f.share, ',', start)
      invariant user in Split(f.share, ',') <==> user in Split(f.share[start..], ',')
      decreases |f.share| - start
    {
      SplitFound(f.share, ',', start);
      if user == f.share[start..end] {
        return true;
      }
      start := end + 1;
      end := Find(f.share, ',', start);
    }
    SplitLast(f.share, ',', start);
    ok := user == f.share[start..];
  }

  /** The policy in plain terms: who may touch the pair, for what, and until when. */
  predicate Allowed(f: Fields, q: Query, policy: Policy, now: int) {
    && (EffectiveUser(q, policy) == f.user || EffectiveUser(q, policy) in Split(f.share, ','))
    && Subset(EffectivePurposes(q, policy), f.purpose)
    && Disjoint(EffectivePurposes(q, policy), f.objection)
    && (f.expiration == 0 || Seconds(now) <= f.expiration)
  }

  /** `validate`: its masks, scans and clock comparison decide exactly the policy. */
  method Validate(f: Option<Fields>, q: Query, policy: Policy, now: int) returns (ok: bool)
    ensures ok == (f.Some? && Allowed(f.value, q, policy, now))
  {
    if f.None? {
      return false;
    }
    var session := ValidateSessionKey(f.value, EffectiveUser(q, policy));
    MaskLaws(f.value.purpose, EffectivePurposes(q, policy));
    MaskLaws(f.value.objection, EffectivePurposes(q, policy));
    ok := session
          && ValidatePurpose(f.value, q.condPurpose, policy.purpose)
          && ValidateObjection(f.value, q.condPurpose, policy.purpose)
          && ValidateExpiration(f.value, now);
  }

  /** The mask tests are set inclusion and disjointness. */
  lemma MaskLaws(a: Bits, b: Bits)
    ensures And(a, b) == b <==> Subset(b, a)
    ensures !Any(And(a, b)) <==> Disjoint(b, a)
  {
    if And(a, b) == b {
      forall i | 0 <= i < NUM_PURPOSES && b[i] ensures a[i] {
        assert And(a, b)[i] == b[i];
      }
    }
    if Disjoint(b, a) {
      assert forall i :: 0 <= i < NUM_PURPOSES ==> And(a, b)[i] == (a[i] && b[i]);
    } else {
      var i :| 0 <= i < NUM_PURPOSES && b[i] && a[i];
      assert And(a, b)[i];
    }
  }

  lemma SecondsMonotone(a: int, b: int)
    requires a <= b
    ensures Seconds(a) <= Seconds(b)
  {
  }
}
