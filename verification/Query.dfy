/**
 The client query of query.cpp: predicates joined by `&`, one of which names the command,
 its key and its value, while the others set or constrain metadata.
 */
module Query {
  import opened Text
  import opened Numbers
  import opened Metadata

  /** The fields a query carries once its text has been read. */
  datatype Query = Query(
    cmd: string, key: string, value: string,
    user: Option<string>, purpose: Option<Bits>, objection: Option<Bits>, origin: Option<string>,
    expiration: Option<int>, share: Option<string>, monitor: Option<bool>,
    condPurpose: Bits, condObjection: Bits, condOrigin: string, condExpiration: int,
    condShare: string, condMonitor: bool,
    logKey: string)

  const EMPTY: Query :=
    Query("", "", "", None, None, None, None, None, None, None,
          NoBits(), NoBits(), "", 0, "", false, "")

  // ---------- the meaning of one predicate ----------

  datatype OptionName =
    | SessionKey | ObjOrig | ObjShare | ObjExp | ObjPur | ObjObjections | Monitor
    | ObjOrigIs | ObjShareIs | ObjExpIs | ObjPurIs | ObjObjectionsIs | MonitorIs

  function NameOf(option: string): Option<OptionName> {
    if option == "sessionKey" then Some(SessionKey)
    else if option == "objOrig" then Some(ObjOrig)
    else if option == "objShare" then Some(ObjShare)
    else if option == "objExp" then Some(ObjExp)
    else if option == "objPur" then Some(ObjPur)
    else if option == "objObjections" then Some(ObjObjections)
    else if option == "monitor" then Some(Monitor)
    else if option == "objOrigIs" then Some(ObjOrigIs)
    else if option == "objShareIs" then Some(ObjShareIs)
    else if option == "objExpIs" then Some(ObjExpIs)
    else if option == "objPurIs" then Some(ObjPurIs)
    else if option == "objObjectionsIs" then Some(ObjObjectionsIs)
    else if option == "monitorIs" then Some(MonitorIs)
    else None
  }

  /** What an option does to a query; `None` is the thrown error of a bad value. */
  function SetOption(q: Query, name: OptionName, text: string): Option<Query> {
    match name
    case SessionKey => Some(q.(user := Some(text)))
    case ObjOrig => Some(q.(origin := Some(text)))
    case ObjShare => Some(q.(share := Some(text)))
    case ObjExp =>
      (match ParseI32(text) case Some(n) => Some(q.(expiration := Some(n))) case None => None)
    case ObjPur => Some(q.(purpose := Some(SetBits(NoBits(), Split(text, ',')))))
    case ObjObjections => Some(q.(objection := Some(SetBits(NoBits(), Split(text, ',')))))
    case Monitor =>
      (match StrToBool(text) case Some(b) => Some(q.(monitor := Some(b))) case None => None)
    case ObjOrigIs => Some(q.(condOrigin := text))
    case ObjShareIs => Some(q.(condShare := text))
    case ObjExpIs =>
      (match ParseI32(text) case Some(n) => Some(q.(condExpiration := n)) case None => None)
    case ObjPurIs => Some(q.(condPurpose := SetBits(q.condPurpose, Split(text, ','))))
    case ObjObjectionsIs => Some(q.(condObjection := SetBits(q.condObjection, Split(text, ','))))
    case MonitorIs =>
      (match StrToBool(text) case Some(b) => Some(q.(condMonitor := b)) case None => None)
  }

  /** A predicate as the client means it. */
  datatype Predicate =
    | Command(cmd: string, key: string, value: Option<string>)
    | Setting(option: string, text: string)
  {
    function Name(): string {
      if Command? then "query" else option
    }

    /** The text of the predicate, as the documentation writes it. */
    function Render(): string {
      match this
      case Command(cmd, key, value) =>
        "query(" + cmd + "(\"" + key + "\"" +
        (if value.Some? then ",\"" + value.value + "\"" else "") + "))"
      case Setting(option, text) => option + "(\"" + text + "\")"
    }

    /** The predicate can be written down: no delimiter occurs inside its parts. */
    predicate Writable() {
      match this
      case Command(cmd, key, value) =>
        && '(' !in cmd && '"' !in cmd && '&' !in cmd
        && '"' !in key && '&' !in key
        && (value.Some? ==> '"' !in value.value && '&' !in value.value)
      case Setting(option, text) =>
        option != "query" && '(' !in option && '&' !in option && '&' !in text
    }

    /** What the predicate does to a query. */
    function Effect(q: Query): Option<Query> {
      match this
      case Command(cmd, key, value) =>
        var c := Lowercase(cmd);
        if c == "exit" then Some(q.(cmd := c))
        else if c == "getlogs" then Some(q.(cmd := c, logKey := key))
        else if c == "put" then Some(q.(cmd := c, key := key, value := value.GetOr("")))
        else Some(q.(cmd := c, key := key))
      case Setting(option, text) =>
        match NameOf(option) case Some(n) => SetOption(q, n, text) case None => None
    }
  }

  function Effects(ps: seq<Predicate>, q: Query): Option<Query> {
    if ps == [] then Some(q)
    else match ps[0].Effect(q) case Some(q') => Effects(ps[1..], q') case None => None
  }

  // ---------- reading the text ----------

  function NextQuote(text: string, start: nat): (r: int)
    ensures r == -1 || start <= r < |text|
  {
    Find(text, '"', start)
  }

  function ExtractKey(text: string): string {
    var open := NextQuote(text, 0);
    var close := NextQuote(text, open + 1);
    if open == -1 || close == -1 || close <= open then "" else text[open + 1..close]
  }

  function ExtractValue(text: string): string {
    var first := NextQuote(text, 0);
    var second := NextQuote(text, first + 1);
    var third := NextQuote(text, second + 1);
    var fourth := NextQuote(text, third + 1);
    if first == -1 || second == -1 || third == -1 || fourth == -1 || fourth <= third then ""
    else text[third + 1..fourth]
  }

  /** The n-th text between quotes, or nothing. */
  function Quoted(text: string, n: nat): string
    requires n > 0
  {
    var parts := Split(text, '"');
    if |parts| > 2 * n then parts[2 * n - 1] else ""
  }

  function ReadArguments(q: Query, text: string): Query {
    if q.cmd == "getlogs" then q.(logKey := ExtractKey(text))
    else if q.cmd == "put" then q.(value := ExtractValue(text), key := ExtractKey(text))
    else q.(key := ExtractKey(text))
  }

  function Attribute(predicate_: string): string {
    var end := Find(predicate_, '(', 0);
    if end == -1 then predicate_ else predicate_[..end]
  }

  /** From after the first `(` to the last `)`; a missing or earlier `)` keeps the rest. */
  function Argument(predicate_: string): string {
    var start := Find(predicate_, '(', 0) + 1;
    var end := FindLast(predicate_, ')');
    if end < start then predicate_[start..] else predicate_[start..end]
  }

  function CommandOf(argument: string): string {
    var end := Find(argument, '(', 0);
    Lowercase(if end == -1 then argument else argument[..end])
  }

  /** `process_predicate`; an option argument loses its first and last character. */
  function ReadPredicate(q: Query, predicate_: string): Option<Query> {
    var argument := Argument(predicate_);
    if Attribute(predicate_) == "query" then
      var q' := q.(cmd := CommandOf(argument));
      Some(if q'.cmd == "exit" then q' else ReadArguments(q', argument))
    else if argument == "" then None
    else
      match NameOf(Attribute(predicate_))
      case None => None
      case Some(n) => SetOption(q, n, if |argument| == 1 then "" else argument[1..|argument| - 1])
  }

  function ReadPredicates(parts: seq<string>, q: Query): Option<Query> {
    if parts == [] then Some(q)
    else match ReadPredicate(q, parts[0]) case Some(q') => ReadPredicates(parts[1..], q') case None => None
  }

  lemma ReadPredicatesCons(part: string, parts: seq<string>, q: Query)
    ensures ReadPredicates([part] + parts, q) ==
            match ReadPredicate(q, part) case Some(q') => ReadPredicates(parts, q') case None => None
  {
    assert ([part] + parts)[1..] == parts;
  }

  /** The query object; its methods set the fields step by step. */
  class QueryReader {
    var fields: Query

    constructor ()
      ensures fields == EMPTY
    {
      fields := EMPTY;
    }

    /** The constructor from a text; the result tells whether no error was thrown. */
    method Read(input: string) returns (ok: bool)
      modifies this
      ensures ok == ReadPredicates(Split(input, '&'), old(fields)).Some?
      ensures ok ==> Some(fields) == ReadPredicates(Split(input, '&'), old(fields))
    {
      hide ReadPredicate, Split, Find;
      ghost var result := ReadPredicates(Split(input, '&'), fields);
      ok := true;
      var start: nat := 0;
      var pos := Find(input, '&', 0);
      assert input[0..] == input;
      while pos != -1 && ok
        invariant start <= |input| && pos == Find(input, '&', start)
        invariant result == if ok then ReadPredicates(Split(input[start..], '&'), fields) else None
        decreases |input| - start, ok
      {
        SplitStep(input, '&', start);
        ReadPredicatesCons(input[start..pos], Split(input[pos + 1..], '&'), fields);
        ok := ProcessPredicate(input[start..pos]);
        start := pos + 1;
        pos := Find(input, '&', start);
      }
      if ok {
        SplitStep(input, '&', start);
        ReadPredicatesCons(input[start..], [], fields);
        assert [input[start..]] + [] == [input[start..]];
        ok := ProcessPredicate(input[start..]);
      }
    }

    method ProcessPredicate(predicate_: string) returns (ok: bool)
      modifies this
      ensures ok == ReadPredicate(old(fields), predicate_).Some?
      ensures ok ==> Some(fields) == ReadPredicate(old(fields), predicate_)
    {
      hide NameOf, SetOption, Split, SetBits, Find, FindLast, CommandOf, ReadArguments, Lowercase;
      var attrEnd := Find(predicate_, '(', 0);
      var attribute := if attrEnd == -1 then predicate_ else predicate_[..attrEnd];
      var start := attrEnd + 1;
      var end := FindLast(predicate_, ')');
      var argument := if end < start then predicate_[start..] else predicate_[start..end];
      assert attribute == Attribute(predicate_) && argument == Argument(predicate_);
      hide Attribute, Argument;
      ok := true;
      if attribute == "query" {
        var cmd := ReadCommandName(argument);
        fields := fields.(cmd := cmd);
        if fields.cmd != "exit" {
          ParseQuery(argument);
        }
      } else if argument == "" {
        ok := false;
      } else {
        ok := ParseOption(attribute, if |argument| == 1 then "" else argument[1..|argument| - 1]);
      }
    }

    /** The command of a `query` predicate, in lower case. */
    method ReadCommandName(argument: string) returns (cmd: string)
      ensures cmd == CommandOf(argument)
    {
      hide Lowercase;
      var cmdEnd := Find(argument, '(', 0);
      cmd := Lowercase(if cmdEnd == -1 then argument else argument[..cmdEnd]);
    }

    /** The quoted texts of a command go to the log key, to key and value, or to the key. */
    method ParseQuery(arguments: string)
      modifies this
      ensures fields == ReadArguments(old(fields), arguments)
      ensures fields ==
              if old(fields).cmd == "getlogs" then old(fields).(logKey := Quoted(arguments, 1))
              else if old(fields).cmd == "put"
              then old(fields).(key := Quoted(arguments, 1), value := Quoted(arguments, 2))
              else old(fields).(key := Quoted(arguments, 1))
    {
      hide Split, ExtractKey, ExtractValue;
      KeyPiece(arguments);
      ValuePiece(arguments);
      if fields.cmd == "getlogs" {
        fields := fields.(logKey := ExtractKey(arguments));
        return;
      } else if fields.cmd == "put" {
        fields := fields.(value := ExtractValue(arguments));
      }
      fields := fields.(key := ExtractKey(arguments));
    }

    method ParseOption(option: string, value: string) returns (ok: bool)
      modifies this
      ensures ok == (NameOf(option).Some? && SetOption(old(fields), NameOf(option).value, value).Some?)
      ensures ok ==> Some(fields) == SetOption(old(fields), NameOf(option).value, value)
    {
      ok := true;
      match NameOf(option) {
        case Some(SessionKey) => fields := fields.(user := Some(value));
        case Some(ObjOrig) => fields := fields.(origin := Some(value));
        case Some(ObjShare) => fields := fields.(share := Some(value));
        case Some(ObjExp) =>
          var n := ParseI32(value);
          if n == None { ok := false; } else { fields := fields.(expiration := n); }
        case Some(ObjPur) =>
          var names := SplitComma(value);
          var bits := SetBitmap(NoBits(), names);
          fields := fields.(purpose := Some(bits));
        case Some(ObjObjections) =>
          var names := SplitComma(value);
          var bits := SetBitmap(NoBits(), names);
          fields := fields.(objection := Some(bits));
        case Some(Monitor) =>
          var b := StrToBool(value);
          if b == None { ok := false; } else { fields := fields.(monitor := b); }
        case Some(ObjOrigIs) => fields := fields.(condOrigin := value);
        case Some(ObjShareIs) => fields := fields.(condShare := value);
        case Some(ObjExpIs) =>
          var n := ParseI32(value);
          if n == None { ok := false; } else { fields := fields.(condExpiration := n.value); }
        case Some(ObjPurIs) =>
          var names := SplitComma(value);
          var bits := SetBitmap(fields.condPurpose, names);
          fields := fields.(condPurpose := bits);
        case Some(ObjObjectionsIs) =>
          var names := SplitComma(value);
          var bits := SetBitmap(fields.condObjection, names);
          fields := fields.(condObjection := bits);
        case Some(MonitorIs) =>
          var b := StrToBool(value);
          if b == None { ok := false; } else { fields := fields.(condMonitor := b.value); }
        case None => ok := false;
      }
    }
  }

  // ---------- reading back what was written ----------

  /** The text between the next two quotes is the second quote-delimited piece. */
  lemma QuotedPiece(text: string, start: nat, a: nat, b: nat)
    requires NextQuote(text, start) == a && NextQuote(text, a + 1) == b
    ensures Split(text[start..], '"') == [text[start..a], text[a + 1..b]] + Split(text[b + 1..], '"')
  {
    hide Split, Find;
    SplitFound(text, '"', start);
    SplitFound(text, '"', a + 1);
  }

  lemma NoQuotedPiece(text: string, start: nat)
    requires start <= |text|
    requires NextQuote(text, start) == -1 || NextQuote(text, NextQuote(text, start) + 1) == -1
    ensures |Split(text[start..], '"')| < 3
  {
    hide Split, Find;
    var a := Find(text, '"', start);
    if a < 0 {
      SplitLast(text, '"', start);
    } else {
      SplitFound(text, '"', start);
      SplitLast(text, '"', a + 1);
    }
  }

  lemma QuotedPieces(text: string)
    ensures Quoted(text, 1) == if |Split(text, '"')| < 3 then "" else Split(text, '"')[1]
    ensures Quoted(text, 2) == if |Split(text, '"')| < 5 then "" else Split(text, '"')[3]
  {
    hide Split;
  }

  /** The key is the second quote-delimited piece. */
  lemma KeyPiece(text: string)
    ensures ExtractKey(text) == Quoted(text, 1)
  {
    hide Split, NextQuote, Quoted;
    QuotedPieces(text);
    assert text[0..] == text;
    var a := NextQuote(text, 0);
    if a == -1 || NextQuote(text, a + 1) == -1 {
      NoQuotedPiece(text, 0);
    } else {
      QuotedPiece(text, 0, a, NextQuote(text, a + 1));
    }
  }

  lemma FourQuotes(text: string, a: nat, b: nat, c: nat, d: nat)
    requires NextQuote(text, 0) == a && NextQuote(text, a + 1) == b
    requires NextQuote(text, b + 1) == c && NextQuote(text, c + 1) == d
    ensures |Split(text, '"')| >= 5 && Split(text, '"')[3] == text[c + 1..d]
  {
    hide Split, NextQuote;
    assert text[0..] == text;
    QuotedPiece(text, 0, a, b);
    QuotedPiece(text, b + 1, c, d);
  }

  lemma TwoQuotes(text: string, a: nat, b: nat)
    requires NextQuote(text, 0) == a && NextQuote(text, a + 1) == b
    requires NextQuote(text, b + 1) == -1 || NextQuote(text, NextQuote(text, b + 1) + 1) == -1
    ensures |Split(text, '"')| < 5
  {
    hide Split, NextQuote;
    assert text[0..] == text;
    QuotedPiece(text, 0, a, b);
    NoQuotedPiece(text, b + 1);
  }

  /** The value is the fourth quote-delimited piece. */
  lemma ValuePiece(text: string)
    ensures ExtractValue(text) == Quoted(text, 2)
  {
    hide Split, NextQuote, Quoted;
    QuotedPieces(text);
    var a := NextQuote(text, 0);
    if a == -1 || NextQuote(text, a + 1) == -1 {
      assert text[0..] == text;
      NoQuotedPiece(text, 0);
    } else {
      var b := NextQuote(text, a + 1);
      var c := NextQuote(text, b + 1);
      if c == -1 || NextQuote(text, c + 1) == -1 {
        TwoQuotes(text, a, b);
      } else {
        FourQuotes(text, a, b, c, NextQuote(text, c + 1));
      }
    }
  }

  /** The quote-delimited pieces of a command's argument. */
  lemma ArgumentPieces(head: string, key: string, value: Option<string>)
    requires '"' !in head && '"' !in key && (value.Some? ==> '"' !in value.value)
    ensures var tail := if value.Some? then ",\"" + value.value + "\"" else "";
            Split(head + "\"" + key + "\"" + (tail + ")"), '"') ==
            [head, key] + (if value.Some? then [",", value.value] else []) + [")"]
  {
    hide Split, Find;
    var tail := if value.Some? then ",\"" + value.value + "\"" else "";
    SplitSingle(")", '"');
    if value.Some? {
      SplitCons(value.value, '"', ")");
      SplitCons(",", '"', value.value + "\"" + ")");
      assert tail + ")" == "," + "\"" + (value.value + "\"" + ")");
    } else {
      assert tail + ")" == ")";
    }
    SplitCons(key, '"', tail + ")");
    SplitCons(head, '"', key + "\"" + (tail + ")"));
    assert head + "\"" + key + "\"" + (tail + ")") == head + "\"" + (key + "\"" + (tail + ")"));
  }

  /** Attribute and argument of a predicate written `name(argument)`. */
  lemma Shape(name: string, argument: string)
    requires '(' !in name
    ensures Attribute(name + "(" + argument + ")") == name
    ensures Argument(name + "(" + argument + ")") == argument
  {
    var s := name + "(" + argument + ")";
    assert s[0..|name|] == name;
    FindIs(s, '(', 0, |name|);
    assert s[|s| - 1 + 1..] == [];
    FindLastIs(s, ')', |s| - 1);
    assert s[..|name|] == name && s[|name| + 1..|s| - 1] == argument;
  }

  lemma CommandPiece(cmd: string, rest: string)
    requires '(' !in cmd
    ensures CommandOf(cmd + "(" + rest) == Lowercase(cmd)
  {
    hide Lowercase;
    var s := cmd + "(" + rest;
    assert s[0..|cmd|] == cmd && s[..|cmd|] == cmd;
    FindIs(s, '(', 0, |cmd|);
  }

  lemma CommandRead(p: Predicate)
    requires p.Command? && p.Writable()
    ensures var argument := Argument(p.Render());
            && Attribute(p.Render()) == "query" && CommandOf(argument) == Lowercase(p.cmd)
            && ExtractKey(argument) == p.key && ExtractValue(argument) == p.value.GetOr("")
  {
    hide Find, FindLast, Split, Lowercase, Attribute, Argument, ExtractKey, ExtractValue, CommandOf;
    var tail := if p.value.Some? then ",\"" + p.value.value + "\"" else "";
    var head := p.cmd + "(";
    var argument := head + "\"" + p.key + "\"" + (tail + ")");
    assert p.Render() == "query" + "(" + argument + ")";
    Shape("query", argument);
    assert argument == p.cmd + "(" + ("\"" + p.key + "\"" + (tail + ")"));
    CommandPiece(p.cmd, "\"" + p.key + "\"" + (tail + ")"));
    ArgumentPieces(head, p.key, p.value);
    KeyPiece(argument);
    ValuePiece(argument);
  }

  lemma ReadCommand(p: Predicate, q: Query)
    requires p.Command? && p.Writable()
    ensures ReadPredicate(q, p.Render()) == p.Effect(q)
  {
    hide NameOf, SetOption, Lowercase, Attribute, Argument, ExtractKey, ExtractValue, CommandOf;
    CommandRead(p);
  }

  lemma ReadSetting(p: Predicate, q: Query)
    requires p.Setting? && p.Writable()
    ensures ReadPredicate(q, p.Render()) == p.Effect(q)
  {
    var argument := "\"" + p.text + "\"";
    assert p.Render() == p.option + "(" + argument + ")";
    Shape(p.option, argument);
    assert argument[1..|argument| - 1] == p.text;
  }

  lemma RenderHasNoAmpersand(p: Predicate)
    requires p.Writable()
    ensures '&' !in p.Render()
  {
  }

  function Rendered(ps: seq<Predicate>): (r: seq<string>)
    ensures |r| == |ps|
    ensures forall i :: 0 <= i < |ps| ==> r[i] == ps[i].Render()
  {
    if ps == [] then [] else [ps[0].Render()] + Rendered(ps[1..])
  }

  lemma {:induction false} ReadRendered(ps: seq<Predicate>, q: Query)
    requires forall p :: p in ps ==> p.Writable()
    ensures ReadPredicates(Rendered(ps), q) == Effects(ps, q)
  {
    if ps != [] {
      if ps[0].Command? { ReadCommand(ps[0], q); } else { ReadSetting(ps[0], q); }
      if ps[0].Effect(q).Some? {
        ReadRendered(ps[1..], ps[0].Effect(q).value);
      }
    }
  }

  /** Reading the joined text of any predicates performs exactly their effects, errors included. */
  lemma QueryRoundTrip(ps: seq<Predicate>, q: Query)
    requires |ps| > 0
    requires forall p :: p in ps ==> p.Writable()
    ensures ReadPredicates(Split(Join(Rendered(ps), '&'), '&'), q) == Effects(ps, q)
  {
    forall i | 0 <= i < |ps| ensures '&' !in Rendered(ps)[i] {
      assert ps[i] in ps;
      RenderHasNoAmpersand(ps[i]);
    }
    SplitJoin(Rendered(ps), '&');
    ReadRendered(ps, q);
  }

  // ---------- the order of predicates ----------

  /** Both predicates may be exchanged: their names differ, or both only add bits. */
  predicate Exchangeable(a: Predicate, b: Predicate) {
    || a.Name() != b.Name()
    || (a.Setting? && b.Setting? && NameOf(a.option) in [Some(ObjPurIs), Some(ObjObjectionsIs)])
  }

  lemma NameOfInjective(a: string, b: string)
    requires NameOf(a).Some? && NameOf(a) == NameOf(b)
    ensures a == b
  {
  }

  function Then(p: Option<Query>, b: Predicate): Option<Query> {
    match p case Some(q) => b.Effect(q) case None => None
  }

  function ThenSet(p: Option<Query>, name: OptionName, text: string): Option<Query> {
    match p case Some(q) => SetOption(q, name, text) case None => None
  }

  lemma TextCommutes(q: Query, m: OptionName, s: string, n: OptionName, t: string)
    requires m == SessionKey || m == ObjOrig || m == ObjShare || m == ObjOrigIs || m == ObjShareIs
    requires m != n
    ensures ThenSet(SetOption(q, m, s), n, t) == ThenSet(SetOption(q, n, t), m, s)
  {
    hide SetBits, Split, ParseI32, StrToBool, ScanInteger;
  }

  lemma BitsOptionCommutes(q: Query, m: OptionName, s: string, n: OptionName, t: string)
    requires m == ObjPur || m == ObjObjections || m == ObjPurIs || m == ObjObjectionsIs
    requires m != n
    ensures ThenSet(SetOption(q, m, s), n, t) == ThenSet(SetOption(q, n, t), m, s)
  {
    hide SetBits, Split, ParseI32, StrToBool, ScanInteger;
  }

  lemma ParsedCommutes(q: Query, m: OptionName, s: string, n: OptionName, t: string)
    requires m == ObjExp || m == Monitor || m == ObjExpIs || m == MonitorIs
    requires m != n
    ensures ThenSet(SetOption(q, m, s), n, t) == ThenSet(SetOption(q, n, t), m, s)
  {
    hide SetBits, Split, ParseI32, StrToBool, ScanInteger;
  }

  /** `SetOption` changes the one field its name selects, and reads no other. */
  lemma SettingsCommute(q: Query, m: OptionName, s: string, n: OptionName, t: string)
    requires m != n || m == ObjPurIs || m == ObjObjectionsIs
    ensures ThenSet(SetOption(q, m, s), n, t) == ThenSet(SetOption(q, n, t), m, s)
  {
    hide SetBits, Split, ParseI32, StrToBool;
    if m == n {
      BitsCommute(if m == ObjPurIs then q.condPurpose else q.condObjection, Split(s, ','), Split(t, ','));
    } else {
      hide SetOption;
      match m {
        case SessionKey | ObjOrig | ObjShare | ObjOrigIs | ObjShareIs => TextCommutes(q, m, s, n, t);
        case ObjPur | ObjObjections | ObjPurIs | ObjObjectionsIs => BitsOptionCommutes(q, m, s, n, t);
        case ObjExp | Monitor | ObjExpIs | MonitorIs => ParsedCommutes(q, m, s, n, t);
      }
    }
  }

  lemma BitsCommute(b: Bits, s: seq<string>, t: seq<string>)
    ensures SetBits(SetBits(b, s), t) == SetBits(SetBits(b, t), s)
  {
  }

  lemma CommandCommutes(q: Query, c: Predicate, n: OptionName, t: string)
    requires c.Command?
    ensures (match SetOption(q, n, t) case Some(r) => c.Effect(r) case None => None)
         == SetOption(c.Effect(q).value, n, t)
  {
    hide SetBits, Split, ParseI32, StrToBool, Lowercase;
  }

  lemma EffectsCommute(q: Query, a: Predicate, b: Predicate)
    requires Exchangeable(a, b)
    ensures Then(a.Effect(q), b) == Then(b.Effect(q), a)
  {
    hide NameOf, SetOption, Lowercase;
    if a.Setting? && b.Setting? {
      if NameOf(a.option).Some? && NameOf(b.option).Some? {
        if NameOf(a.option) == NameOf(b.option) {
          NameOfInjective(a.option, b.option);
        }
        SettingsCommute(q, NameOf(a.option).value, a.text, NameOf(b.option).value, b.text);
      }
    } else if a.Setting? {
      if NameOf(a.option).Some? {
        CommandCommutes(q, b, NameOf(a.option).value, a.text);
      }
    } else if NameOf(b.option).Some? {
      CommandCommutes(q, a, NameOf(b.option).value, b.text);
    }
  }

  lemma {:induction false} EffectsAppend(ps: seq<Predicate>, rs: seq<Predicate>, q: Query)
    ensures Effects(ps + rs, q) ==
            match Effects(ps, q) case Some(q') => Effects(rs, q') case None => None
  {
    hide Predicate.Effect;
    if ps == [] {
      assert ps + rs == rs;
    } else {
      assert (ps + rs)[1..] == ps[1..] + rs;
      if ps[0].Effect(q).Some? {
        EffectsAppend(ps[1..], rs, ps[0].Effect(q).value);
      }
    }
  }

  lemma {:induction false} MoveToFront(pre: seq<Predicate>, a: Predicate, q: Query)
    requires forall p :: p in pre ==> Exchangeable(p, a)
    ensures Effects(pre + [a], q) == Effects([a] + pre, q)
  {
    hide Predicate.Effect, Exchangeable;
    if pre == [] {
      assert pre + [a] == [a] + pre;
    } else {
      var b, rest := pre[0], pre[1..];
      EffectsCommute(q, b, a);
      assert pre + [a] == [b] + (rest + [a]) && [a] + pre == [a] + ([b] + rest);
      assert ([b] + (rest + [a]))[1..] == rest + [a];
      assert ([a] + rest)[1..] == rest && ([b] + rest)[1..] == rest;
      assert ([a] + ([b] + rest))[1..] == [b] + rest;
      if b.Effect(q).Some? {
        MoveToFront(rest, a, b.Effect(q).value);
      }
    }
  }

  function FirstIndex(rs: seq<Predicate>, a: Predicate): (j: nat)
    requires a in rs
    ensures j < |rs| && rs[j] == a && a !in rs[..j]
  {
    if rs[0] == a then 0
    else
      var j := FirstIndex(rs[1..], a);
      assert rs[..j + 1] == [rs[0]] + rs[1..][..j];
      j + 1
  }

  lemma PullOut(pre: seq<Predicate>, a: Predicate, post: seq<Predicate>, q: Query)
    requires forall p :: p in pre ==> Exchangeable(p, a)
    ensures Effects(pre + [a] + post, q) ==
            match a.Effect(q) case Some(q') => Effects(pre + post, q') case None => None
  {
    hide Predicate.Effect, Exchangeable;
    MoveToFront(pre, a, q);
    EffectsAppend(pre + [a], post, q);
    EffectsAppend([a] + pre, post, q);
    assert [a] + pre + post == [a] + (pre + post);
    assert ([a] + (pre + post))[1..] == pre + post;
  }

  predicate PairwiseExchangeable(ps: seq<Predicate>) {
    forall i, j :: 0 <= i < |ps| && 0 <= j < |ps| && i != j ==> Exchangeable(ps[i], ps[j])
  }

  lemma {:induction false} WithoutFirst(ps: seq<Predicate>, rs: seq<Predicate>, j: nat)
    requires ps != [] && multiset(ps) == multiset(rs)
    requires j < |rs| && rs[j] == ps[0]
    ensures multiset(ps[1..]) == multiset(rs[..j] + rs[j + 1..])
  {
    var a, pre, post := ps[0], rs[..j], rs[j + 1..];
    assert multiset(ps) == multiset{a} + multiset(ps[1..]) by { assert ps == [a] + ps[1..]; }
    assert multiset(rs) == multiset(pre) + multiset{a} + multiset(post) by { assert rs == pre + [a] + post; }
    assert multiset(pre + post) == multiset(pre) + multiset(post);
    assert multiset(ps[1..]) == multiset(ps) - multiset{a};
  }

  lemma {:induction false} ExchangeableWithPrefix(ps: seq<Predicate>, rs: seq<Predicate>, j: nat)
    requires ps != [] && multiset(ps) == multiset(rs) && PairwiseExchangeable(ps)
    requires j < |rs| && ps[0] !in rs[..j]
    ensures forall p :: p in rs[..j] ==> Exchangeable(p, ps[0])
  {
    hide Exchangeable;
    forall p | p in rs[..j] ensures Exchangeable(p, ps[0]) {
      assert p in multiset(rs) && p in ps;
      var m :| 0 <= m < |ps| && ps[m] == p;
    }
  }

  /** Predicates that may be exchanged pairwise have the same effect in every order. */
  lemma {:induction false} OrderIrrelevant(ps: seq<Predicate>, rs: seq<Predicate>, q: Query)
    requires multiset(ps) == multiset(rs) && PairwiseExchangeable(ps)
    ensures Effects(ps, q) == Effects(rs, q)
  {
    hide Predicate.Effect, Exchangeable;
    if ps == [] {
      assert |multiset(rs)| == |rs|;
    } else {
      assert ps[0] in multiset(ps) && ps[0] in rs;
      var j := FirstIndex(rs, ps[0]);
      var pre, post := rs[..j], rs[j + 1..];
      assert rs == pre + [ps[0]] + post;
      ExchangeableWithPrefix(ps, rs, j);
      PullOut(pre, ps[0], post, q);
      WithoutFirst(ps, rs, j);
      if ps[0].Effect(q).Some? {
        OrderIrrelevant(ps[1..], pre + post, ps[0].Effect(q).value);
      }
    }
  }

  /**
   The text of a query means the same in every order of its predicates, as long as a
   repeated predicate is one of the two that only add purposes.
   */
  lemma QueryOrderIrrelevant(ps: seq<Predicate>, rs: seq<Predicate>, q: Query)
    requires |ps| > 0 && multiset(ps) == multiset(rs)
    requires forall p :: p in ps ==> p.Writable()
    requires PairwiseExchangeable(ps)
    ensures |rs| > 0
    ensures ReadPredicates(Split(Join(Rendered(ps), '&'), '&'), q)
         == ReadPredicates(Split(Join(Rendered(rs), '&'), '&'), q)
  {
    hide Predicate.Effect, PairwiseExchangeable, ReadPredicates, Split, Join, Rendered;
    assert ps[0] in multiset(ps) && ps[0] in rs;
    forall p | p in rs ensures p.Writable() {
      assert p in multiset(rs) && p in ps;
    }
    QueryRoundTrip(ps, q);
    QueryRoundTrip(rs, q);
    OrderIrrelevant(ps, rs, q);
  }

  /** `p` is an `objPurIs` predicate that lists a name of purpose i. */
  predicate AsksPurpose(p: Predicate, i: nat) {
    p.Setting? && p.option == "objPurIs" && exists n :: n in Split(p.text, ',') && PurposeIndex(n) == i
  }

  lemma PurposeOptionName(option: string)
    ensures option == "objPurIs" <==> NameOf(option) == Some(ObjPurIs)
  {
  }

  lemma ConditionAfter(p: Predicate, q: Query, i: nat)
    requires i < NUM_PURPOSES && p.Effect(q).Some?
    ensures p.Effect(q).value.condPurpose[i] <==> q.condPurpose[i] || AsksPurpose(p, i)
  {
    hide Split, Lowercase, ParseI32, StrToBool, NameOf;
    if p.Setting? {
      PurposeOptionName(p.option);
    }
  }

  /** Repeated `objPurIs` predicates accumulate to the union of the purposes they list. */
  lemma {:induction false} PurposesAccumulate(ps: seq<Predicate>, q: Query, i: nat)
    requires i < NUM_PURPOSES && Effects(ps, q).Some?
    ensures Effects(ps, q).value.condPurpose[i] <==>
              q.condPurpose[i] || exists p :: p in ps && AsksPurpose(p, i)
  {
    hide Predicate.Effect, AsksPurpose;
    if ps != [] {
      var q' := ps[0].Effect(q).value;
      ConditionAfter(ps[0], q, i);
      PurposesAccumulate(ps[1..], q', i);
      assert ps == [ps[0]] + ps[1..];
      assert forall p :: p in ps <==> p == ps[0] || p in ps[1..];
    }
  }

  /** `p` is an `objObjectionsIs` predicate that lists a name of purpose i. */
  predicate AsksObjection(p: Predicate, i: nat) {
    p.Setting? && p.option == "objObjectionsIs" && exists n :: n in Split(p.text, ',') && PurposeIndex(n) == i
  }

  lemma ObjectionOptionName(option: string)
    ensures option == "objObjectionsIs" <==> NameOf(option) == Some(ObjObjectionsIs)
  {
  }

  lemma ObjectionAfter(p: Predicate, q: Query, i: nat)
    requires i < NUM_PURPOSES && p.Effect(q).Some?
    ensures p.Effect(q).value.condObjection[i] <==> q.condObjection[i] || AsksObjection(p, i)
  {
    hide Split, Lowercase, ParseI32, StrToBool, NameOf;
    if p.Setting? {
      ObjectionOptionName(p.option);
    }
  }

  /** Repeated `objObjectionsIs` predicates accumulate likewise. */
  lemma {:induction false} ObjectionsAccumulate(ps: seq<Predicate>, q: Query, i: nat)
    requires i < NUM_PURPOSES && Effects(ps, q).Some?
    ensures Effects(ps, q).value.condObjection[i] <==>
              q.condObjection[i] || exists p :: p in ps && AsksObjection(p, i)
  {
    hide Predicate.Effect, AsksObjection;
    if ps != [] {
      var q' := ps[0].Effect(q).value;
      ObjectionAfter(ps[0], q, i);
      ObjectionsAccumulate(ps[1..], q', i);
      assert ps == [ps[0]] + ps[1..];
      assert forall p :: p in ps <==> p == ps[0] || p in ps[1..];
    }
  }
}
