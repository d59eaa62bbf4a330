/**
 What a decoded log entry looks like to the regulator (log_common.hpp). The formatter of a
 logged text expects nine complete tokens, one more than the serializer writes, and throws
 when it does not find them or a number among them is out of range.
 */
module LogFormat {
  import opened Text
  import opened Numbers
  import opened Metadata
  import opened Filter
  import opened Rewriter
  import opened LogCodec

  const TOKENS: nat := 9

  /** The parts of a formatted text; the expiry is shown in seconds, unless there is none. */
  datatype Formatted = Formatted(
    user: string, encryption: bool, purpose: Bits, objection: Bits, origin: string,
    expiry: Option<int>, share: string, monitor: bool, value: string)

  const BLANK_FORM: Formatted := Formatted("", false, NoBits(), NoBits(), "", None, "", false, "")

  /** Formats one token by its position; `None` is a thrown error. */
  function SetToken(f: Formatted, count: nat, token: string): Option<Formatted> {
    if count == 0 then Some(f.(user := token))
    else if count == 1 then Some(f.(encryption := token == "1"))
    else if count == 2 then
      (match ParseU64(token) case Some(n) => Some(f.(purpose := BitsOf(n))) case None => None)
    else if count == 3 then
      (match ParseU64(token) case Some(n) => Some(f.(objection := BitsOf(n))) case None => None)
    else if count == 4 then Some(f.(origin := token))
    else if count == 5 then
      if token == "0" then Some(f.(expiry := None))
      else (match ParseI32(token) case Some(n) => Some(f.(expiry := Some(DivTrunc(n, NANOS)))) case None => None)
    else if count == 6 then Some(f.(share := token))
    else if count == 7 then Some(f.(monitor := token == "1"))
    else Some(f.(value := token))
  }

  /** The texts that can be formatted: nine complete tokens, with numbers where they belong. */
  predicate Formattable(text: string) {
    var parts := Split(text, '|');
    && |parts| > TOKENS && ParseU64(parts[2]).Some? && ParseU64(parts[3]).Some?
    && (parts[5] == "0" || ParseI32(parts[5]).Some?)
  }

  /** How a text is formatted; `None` is the thrown error. */
  function Format(text: string): (m: Option<Formatted>)
    ensures m.Some? <==> Formattable(text)
  {
    if !Formattable(text) then None
    else
      var parts := Split(text, '|');
      var expiry := if parts[5] == "0" then None else Some(DivTrunc(ParseI32(parts[5]).value, NANOS));
      Some(Formatted(parts[0], parts[1] == "1", BitsOf(ParseU64(parts[2]).value), BitsOf(ParseU64(parts[3]).value),
                     parts[4], expiry, parts[6], parts[7] == "1", parts[8]))
  }

  /** What has been formatted after `count` tokens. */
  predicate FormattedUpTo(f: Formatted, count: nat, parts: seq<string>)
    requires count <= |parts|
  {
    && (if count > 0 then f.user == parts[0] else f.user == "")
    && (if count > 1 then f.encryption == (parts[1] == "1") else !f.encryption)
    && (if count > 2 then ParseU64(parts[2]).Some? && f.purpose == BitsOf(ParseU64(parts[2]).value)
        else f.purpose == NoBits())
    && (if count > 3 then ParseU64(parts[3]).Some? && f.objection == BitsOf(ParseU64(parts[3]).value)
        else f.objection == NoBits())
    && (if count > 4 then f.origin == parts[4] else f.origin == "")
    && (if count > 5 && parts[5] != "0"
        then ParseI32(parts[5]).Some? && f.expiry == Some(DivTrunc(ParseI32(parts[5]).value, NANOS))
        else f.expiry == None)
    && (if count > 6 then f.share == parts[6] else f.share == "")
    && (if count > 7 then f.monitor == (parts[7] == "1") else !f.monitor)
    && (if count > 8 then f.value == parts[8] else f.value == "")
  }

  lemma NextToken(f: Formatted, count: nat, parts: seq<string>)
    requires count < TOKENS && count < |parts| && FormattedUpTo(f, count, parts)
    ensures match SetToken(f, count, parts[count])
            case Some(g) => FormattedUpTo(g, count + 1, parts)
            case None => |parts| > TOKENS ==>
                           ParseU64(parts[2]).None? || ParseU64(parts[3]).None? ||
                           (parts[5] != "0" && ParseI32(parts[5]).None?)
  {
    hide ParseU64, ParseI32, BitsOf, DivTrunc;
  }

  lemma AllTokens(text: string, f: Formatted)
    requires |Split(text, '|')| > TOKENS && FormattedUpTo(f, TOKENS, Split(text, '|'))
    ensures Format(text) == Some(f)
  {
    hide ParseU64, ParseI32, BitsOf, DivTrunc, Split;
  }

  /** `gdpr_metadata_fmt`: token after token, until nine are formatted or none is left. */
  method FormatMetadata(text: string) returns (m: Option<Formatted>)
    ensures m == Format(text)
  {
    hide Split, Find, SetToken, FormattedUpTo;
    ghost var parts := Split(text, '|');
    var f := BLANK_FORM;
    var start: nat, count: nat := 0, 0;
    var end := Find(text, '|', 0);
    assert text[0..] == text && parts[0..] == parts;
    NoToken(parts);
    while count < TOKENS && end != -1
      invariant count <= TOKENS && count < |parts| && start <= |text| && end == Find(text, '|', start)
      invariant Split(text[start..], '|') == parts[count..] && FormattedUpTo(f, count, parts)
      decreases TOKENS - count
    {
      SplitFound(text, '|', start);
      assert parts[count..][0] == parts[count] && parts[count..][1..] == parts[count + 1..];
      NextToken(f, count, parts);
      var g := SetToken(f, count, text[start..end]);
      if g.None? {
        return None;
      }
      f := g.value;
      start := end + 1;
      count := count + 1;
      end := Find(text, '|', start);
    }
    if count != TOKENS {
      SplitLast(text, '|', start);
      return None;
    }
    AllTokens(text, f);
    m := Some(f);
  }

  lemma NoToken(parts: seq<string>)
    ensures FormattedUpTo(BLANK_FORM, 0, parts)
  {
  }

  // ---------- lines ----------

  /** A line of the reply to `getlogs`; an entry later than the threshold leaves an empty one. */
  datatype Line =
    | Hidden
    | Line(seconds: int, user: string, operation: string, valid: bool, metadata: Option<Formatted>)

  /** The line of a decoded entry; `None` is a thrown error. */
  function LineOf(d: Decoded): Option<Line> {
    match d
    case Blank => Some(Hidden)
    case Shown(time, user, operation, valid, text) =>
      if text == "" then Some(Line(DivTrunc(time, NANOS), user, operation, valid, None))
      else
        (match Format(text)
         case Some(m) => Some(Line(DivTrunc(time, NANOS), user, operation, valid, Some(m)))
         case None => None)
    case Undefined => None
  }

  function LinesOf(ds: seq<Decoded>): (ls: Option<seq<Line>>)
    ensures ls.Some? ==> |ls.value| == |ds|
  {
    if ds == [] then Some([])
    else
      match (LinesOf(ds[..|ds| - 1]), LineOf(ds[|ds| - 1]))
      case (Some(ls), Some(l)) => Some(ls + [l])
      case _ => None
  }

  lemma LinesAppend(ds: seq<Decoded>, d: Decoded)
    ensures LinesOf(ds + [d]) ==
            match (LinesOf(ds), LineOf(d)) case (Some(ls), Some(l)) => Some(ls + [l]) case _ => None
  {
    assert (ds + [d])[..|ds|] == ds;
  }

  /** Reading throws exactly when some entry does. */
  lemma {:induction false} LinesExactly(ds: seq<Decoded>)
    ensures LinesOf(ds).Some? <==> forall d :: d in ds ==> LineOf(d).Some?
  {
    hide LineOf;
    if ds != [] {
      var n := |ds| - 1;
      LinesExactly(ds[..n]);
      assert ds == ds[..n] + [ds[n]];
      assert forall d :: d in ds <==> d in ds[..n] || d == ds[n];
    }
  }

  /** The loop that formats the decoded entries of a log. */
  method FormatEntries(ds: seq<Decoded>) returns (ls: Option<seq<Line>>)
    ensures ls == LinesOf(ds)
  {
    hide LineOf, LinesOf, Format;
    ls := Some([]);
    assert ds[..0] == [];
    NoLines();
    for i := 0 to |ds|
      invariant ls.Some? && ls == LinesOf(ds[..i])
    {
      assert ds[..i + 1] == ds[..i] + [ds[i]];
      LinesAppend(ds[..i], ds[i]);
      var l := FormatEntry(ds[i]);
      if l.None? {
        LinesPrefix(ds, i + 1);
        return None;
      }
      ls := Some(ls.value + [l.value]);
    }
    assert ds[..|ds|] == ds;
  }

  lemma NoLines()
    ensures LinesOf([]) == Some([])
  {
  }

  lemma LinesPrefix(ds: seq<Decoded>, n: nat)
    requires n <= |ds| && LinesOf(ds[..n]).None?
    ensures LinesOf(ds).None?
  {
    hide LineOf;
    LinesExactly(ds[..n]);
    LinesExactly(ds);
    assert forall d :: d in ds[..n] ==> d in ds;
  }

  method FormatEntry(d: Decoded) returns (l: Option<Line>)
    ensures l == LineOf(d)
  {
    hide Format;
    match d {
      case Blank => l := Some(Hidden);
      case Undefined => l := None;
      case Shown(time, user, operation, valid, text) =>
        if text == "" {
          l := Some(Line(DivTrunc(time, NANOS), user, operation, valid, None));
        } else {
          var m := FormatMetadata(text);
          l := if m.None? then None else Some(Line(DivTrunc(time, NANOS), user, operation, valid, m));
        }
    }
  }

  // ---------- which entries can be shown ----------

  lemma {:induction false} I32Parses(n: int)
    ensures ParseI32(PrintInt(n)) == if -I32 <= n < I32 then Some(n) else None
  {
    ScanPrintedInt(n);
  }

  lemma PrintsZero(n: int)
    ensures PrintInt(n) == "0" <==> n == 0
  {
    ScanPrintedInt(n);
    assert ScanInteger(PrintInt(0)) == Some(0) by { ScanPrintedInt(0); }
  }

  /**
   The text of a record can be formatted exactly when its value holds a delimiter and its
   expiry fits 32 bits; then only the part of the value before its first delimiter is shown.
   */
  lemma RecordFormats(r: Record)
    requires Clean(r.meta) && InRange(r.meta)
    ensures Formattable(Serialize(r)) <==> '|' in r.value && -I32 <= r.meta.expiration < I32
    ensures Formattable(Serialize(r)) ==>
              var f, m := r.meta, Format(Serialize(r)).value;
              && m.user == f.user && m.encryption == f.encryption && m.purpose == f.purpose
              && m.objection == f.objection && m.origin == f.origin && m.share == f.share && m.monitor == f.monitor
              && m.expiry == (if f.expiration == 0 then None else Some(DivTrunc(f.expiration, NANOS)))
              && m.value == r.value[..Find(r.value, '|', 0)]
  {
    hide ToNumber, BitsOf, ParseU64, ParseI32, PrintNat, PrintInt, Split, Serialize, DivTrunc;
    var f := r.meta;
    SerializeParts(r);
    BitsRoundTrip(f.purpose);
    BitsRoundTrip(f.objection);
    I32Parses(f.expiration);
    PrintsZero(f.expiration);
    assert r.value[0..] == r.value;
    if '|' in r.value {
      SplitAt(r.value, '|', Find(r.value, '|', 0));
      SplitNotEmpty(r.value[Find(r.value, '|', 0) + 1..]);
    } else {
      SplitSingle(r.value, '|');
    }
  }

  lemma SplitNotEmpty(s: string)
    ensures |Split(s, '|')| > 0
  {
  }

  /** The text a decoder takes for the logged one: behind a comma in the user it reads on too early. */
  function TextShown(call: LogCall): string {
    if ',' in call.user then AfterComma(call)[Find(AfterComma(call), ',', 0) + 1..] else call.newValue
  }

  /** What follows the first comma of the user in an entry. */
  function AfterComma(call: LogCall): string
    requires ',' in call.user
  {
    call.user[Find(call.user, ',', 0) + 1..] + "," + [Pack(call.cmd, call.valid)] + "," + call.newValue
  }

  lemma CutAt(time: string, head: string, rest: string)
    requires |time| == 8
    ensures var e := time + "," + head + "," + rest;
            && |e| == 10 + |head| + |rest| && e[..8] == time && e[9..9 + |head|] == head && e[9 + |head|] == ','
            && e[10 + |head|..] == rest
  {
    var e := time + "," + head + "," + rest;
    assert e == time + ("," + (head + ("," + rest)));
  }

  lemma Regroup(t: string, a: string, b: string, p: string, v: string)
    ensures t + "," + (a + "," + b) + "," + p + "," + v == t + "," + a + "," + (b + "," + p + "," + v)
  {
    var x, y := t + "," + a + "," + b, "," + p + "," + v;
    assert t + "," + (a + "," + b) == x;
    assert b + "," + p + "," + v == b + y;
    assert x + "," + p + "," + v == x + y;
  }

  /** The entry, cut at the first comma of its user. */
  lemma CommaCuts(e: LogRecord)
    requires ',' in e.call.user
    ensures var c := Find(e.call.user, ',', 0);
            EncodeEntry(e) == TimestampBytes(e.timestamp) + "," + e.call.user[..c] + "," + AfterComma(e.call)
  {
    hide TimestampBytes, Pack;
    var user, c := e.call.user, Find(e.call.user, ',', 0);
    Regroup(TimestampBytes(e.timestamp), user[..c], user[c + 1..], [Pack(e.call.cmd, e.call.valid)], e.call.newValue);
    assert user == user[..c] + "," + user[c + 1..];
  }

  lemma SecondComma(entry: string, user: nat, text: nat, threshold: int)
    requires 9 <= user < text && Find(entry, ',', 9) == user && Find(entry, ',', user + 1) == text
    requires TimestampValue(entry[..8]) <= threshold
    ensures DecodeEntry(entry, threshold).Shown? && DecodeEntry(entry, threshold).newValue == entry[text + 1..]
  {
    hide TimestampValue, Find;
  }

  /** Where the second comma of the rest is. */
  lemma CommaFound(entry: string, head: string, rest: string)
    requires |entry| == 10 + |head| + |rest| && entry[9..9 + |head|] == head && entry[9 + |head|] == ','
    requires entry[10 + |head|..] == rest && ',' !in head && ',' in rest
    ensures Find(rest, ',', 0) >= 0 && Find(entry, ',', 9) == 9 + |head|
    ensures Find(entry, ',', 10 + |head|) == 10 + |head| + Find(rest, ',', 0)
    ensures entry[10 + |head| + Find(rest, ',', 0) + 1..] == rest[Find(rest, ',', 0) + 1..]
  {
    FindIs(entry, ',', 9, 9 + |head|);
    assert rest[0..] == rest;
    FindRest(entry, ',', 10 + |head|);
  }

  /** Behind a user with a comma the decoder still finds two commas, and shows a text. */
  lemma CommaShows(e: LogRecord, threshold: int)
    requires -I64 <= e.timestamp < I64 && e.timestamp <= threshold && ',' in e.call.user
    ensures DecodeEntry(EncodeEntry(e), threshold).Shown?
    ensures DecodeEntry(EncodeEntry(e), threshold).newValue == TextShown(e.call)
  {
    hide TimestampBytes, TimestampValue, DecodeEntry, EncodeEntry, AfterComma;
    TimestampRoundTrip(e.timestamp);
    var entry, c, rest := EncodeEntry(e), Find(e.call.user, ',', 0), AfterComma(e.call);
    CommaCuts(e);
    CutAt(TimestampBytes(e.timestamp), e.call.user[..c], rest);
    CommaAfter(e.call);
    CommaFound(entry, e.call.user[..c], rest);
    SecondComma(entry, 9 + c, 10 + c + Find(rest, ',', 0), threshold);
  }

  lemma CommaAfter(call: LogCall)
    requires ',' in call.user
    ensures ',' in AfterComma(call)
  {
  }

  /** An entry throws exactly when it is shown, with a text that cannot be formatted. */
  lemma EntryThrows(e: LogRecord, threshold: int)
    requires -I64 <= e.timestamp < I64
    ensures LineOf(DecodeEntry(EncodeEntry(e), threshold)).None? <==>
              e.timestamp <= threshold && TextShown(e.call) != "" && !Formattable(TextShown(e.call))
  {
    hide DecodeEntry, EncodeEntry, Formattable;
    if e.timestamp > threshold {
      BlankExactly(e, threshold);
    } else if ',' in e.call.user {
      CommaShows(e, threshold);
    } else {
      EntryRoundTrip(e, threshold);
    }
  }

  lemma FirstBefore(s: string, p: nat)
    requires p < |s| && s[p] == ','
    ensures 0 <= Find(s, ',', 0) <= p
  {
    assert s[0..] == s;
  }

  lemma CommaText(call: LogCall)
    requires ',' in call.user && '|' !in call.user && call.newValue == ""
    ensures TextShown(call) != "" && '|' !in TextShown(call)
  {
    hide Find;
    var rest := AfterComma(call);
    assert rest[|rest| - 3] == ',' && '|' !in rest;
    FirstBefore(rest, |rest| - 3);
  }

  /** Even an entry without text throws, if its user holds a comma. */
  lemma CommaUserThrows(e: LogRecord, threshold: int)
    requires -I64 <= e.timestamp < I64 && e.timestamp <= threshold
    requires ',' in e.call.user && '|' !in e.call.user && e.call.newValue == ""
    ensures LineOf(DecodeEntry(EncodeEntry(e), threshold)).None?
  {
    hide DecodeEntry, EncodeEntry, LineOf, TextShown, Split;
    EntryThrows(e, threshold);
    CommaText(e.call);
    SplitSingle(TextShown(e.call), '|');
  }

  /** An entry without user and text never throws. */
  lemma EmptyEntryShows(e: LogRecord, threshold: int)
    requires e.call.user == "" && e.call.newValue == ""
    ensures LineOf(DecodeEntry(EncodeEntry(e), threshold)).Some?
  {
    hide TimestampBytes, TimestampValue, EncodeEntry, UnpackName, UnpackValid, Pack;
    EntryShape(e);
    PackRoundTrip(e.call.cmd, e.call.valid);
    var entry := EncodeEntry(e);
    assert entry[9..9] == [];
    FindIs(entry, ',', 9, 9);
    assert ',' !in entry[10..11] by { assert entry[10..11] == [entry[10]]; }
    FindIs(entry, ',', 10, 11);
  }
}
