/**
 The default policy of a client session: the text that policy_config.py prints from a
 configuration, and the reading of that text by default_policy.cpp.
 */
module Policy {
  import opened Text
  import opened Numbers
  import opened Metadata

  datatype Policy = Policy(
    user: string, encryption: bool, purpose: Bits, objection: Bits,
    origin: string, expiration: int, share: string, monitor: bool)

  // ---------- printing ----------

  /** A configuration file, in its own order: scalar settings and groups of list settings. */
  datatype Setting = Scalar(name: string, text: string) | Group(lists: seq<(string, seq<string>)>)

  type Config = seq<Setting>

  type Pair = (string, string)

  /** `','.join`, which is empty on the empty list. */
  function CommaJoin(items: seq<string>): string {
    if items == [] then "" else Join(items, ',')
  }

  function FormatArgs(attr: string, value: string): string {
    " -" + attr + " " + value
  }

  function GroupPairs(lists: seq<(string, seq<string>)>): seq<Pair> {
    if lists == [] then [] else [(lists[0].0, CommaJoin(lists[0].1))] + GroupPairs(lists[1..])
  }

  /** The settings as (name, text) pairs in the order they are printed. */
  function Pairs(config: Config): seq<Pair> {
    if config == [] then []
    else (match config[0] case Scalar(n, t) => [(n, t)] case Group(ls) => GroupPairs(ls)) + Pairs(config[1..])
  }

  function Printed(pairs: seq<Pair>): string {
    if pairs == [] then "" else FormatArgs(pairs[0].0, pairs[0].1) + Printed(pairs[1..])
  }

  lemma {:induction false} PrintedAppend(a: seq<Pair>, b: seq<Pair>)
    ensures Printed(a + b) == Printed(a) + Printed(b)
  {
    if a == [] {
      assert a + b == b;
    } else {
      assert (a + b)[1..] == a[1..] + b;
      PrintedAppend(a[1..], b);
    }
  }

  /** The inner loop of `setup_user`. */
  method AppendGroup(args: string, lists: seq<(string, seq<string>)>) returns (r: string)
    ensures r == args + Printed(GroupPairs(lists))
  {
    r := args;
    for j := 0 to |lists|
      invariant r + Printed(GroupPairs(lists[j..])) == args + Printed(GroupPairs(lists))
    {
      assert lists[j..][1..] == lists[j + 1..];
      ghost var before, rest := r, Printed(GroupPairs(lists[j + 1..]));
      var arg := FormatArgs(lists[j].0, CommaJoin(lists[j].1));
      r := r + arg;
      assert r + rest == before + (arg + rest);
    }
    assert lists[|lists|..] == [];
  }

  /** `setup_user`: one argument after the other is appended. */
  method SetupUser(config: Config) returns (args: string)
    ensures args == "user_policy" + Printed(Pairs(config))
  {
    hide Printed, FormatArgs;
    args := "user_policy";
    for i := 0 to |config|
      invariant args + Printed(Pairs(config[i..])) == "user_policy" + Printed(Pairs(config))
    {
      assert config[i..][1..] == config[i + 1..];
      ghost var before, rest := args, Pairs(config[i + 1..]);
      match config[i] {
        case Scalar(name, text) =>
          PrintedAppend([(name, text)], rest);
          PrintedOne(name, text);
          args := args + FormatArgs(name, text);
          assert args + Printed(rest) == before + (FormatArgs(name, text) + Printed(rest));
        case Group(lists) =>
          PrintedAppend(GroupPairs(lists), rest);
          args := AppendGroup(args, lists);
          assert args + Printed(rest) == before + (Printed(GroupPairs(lists)) + Printed(rest));
      }
    }
    assert config[|config|..] == [];
    PrintedNone();
  }

  lemma PrintedNone()
    ensures Printed(Pairs([])) == ""
  {
  }

  lemma PrintedOne(name: string, text: string)
    ensures Printed([(name, text)]) == FormatArgs(name, text)
  {
  }

  // ---------- reading ----------

  /** Length of the word at the head of the text. */
  function WordLength(s: string): (n: nat)
    ensures n <= |s|
    ensures forall i :: 0 <= i < n ==> !IsSpace(s[i])
    ensures n < |s| ==> IsSpace(s[n])
  {
    if s == [] || IsSpace(s[0]) then 0 else 1 + WordLength(s[1..])
  }

  lemma SkipSpaceShrinks(s: string)
    ensures |SkipSpace(s)| <= |s|
  {
  }

  /** Repeated `stream >> word`. */
  function Words(s: string): (ws: seq<string>)
    decreases |s|
  {
    SkipSpaceShrinks(s);
    var t := SkipSpace(s);
    if t == [] then [] else [t[..WordLength(t)]] + Words(t[WordLength(t)..])
  }

  /** A word starting with `-` names an option whose value is the next word. */
  function Options(ws: seq<string>, m: map<string, string>): map<string, string>
    decreases |ws|
  {
    if ws == [] then m
    else if ws[0] == [] || ws[0][0] != '-' then Options(ws[1..], m)
    else if |ws| == 1 then m[ws[0] := ""]
    else Options(ws[2..], m[ws[0] := ws[1]])
  }

  const OPTIONS: seq<string> :=
    ["-sessionKey", "-encryption", "-purpose", "-objection", "-origin", "-expTime", "-objShare", "-monitor"]

  /** `check_policy` and the assignments after it; `None` is a thrown error. */
  function FromOptions(m: map<string, string>): Option<Policy> {
    if !(forall o :: o in OPTIONS ==> o in m) then None
    else
      match (ParseI64(m["-expTime"]), StrToBool(m["-encryption"]), StrToBool(m["-monitor"]))
      case (Some(e), Some(enc), Some(mon)) =>
        Some(Policy(m["-sessionKey"], enc,
                    SetBits(NoBits(), Split(m["-purpose"], ',')),
                    SetBits(NoBits(), Split(m["-objection"], ',')),
                    m["-origin"], e, m["-objShare"], mon))
      case _ => None
  }

  /** `stream >> word` on the rest of a text. */
  method NextWord(s: string) returns (word: Option<string>, rest: string)
    ensures Words(s) == if word.Some? then [word.value] + Words(rest) else []
    ensures word.None? ==> rest == "" && Words(rest) == []
    ensures word.Some? ==> word.value != "" && |rest| < |s|
  {
    SkipSpaceShrinks(s);
    var t := SkipSpace(s);
    if t == [] {
      return None, "";
    }
    word, rest := Some(t[..WordLength(t)]), t[WordLength(t)..];
  }

  /** The constructor of the default policy from a text. */
  method ReadPolicy(input: string) returns (policy: Option<Policy>)
    ensures policy == FromOptions(Options(Words(input), map[]))
  {
    hide Words;
    var m: map<string, string> := map[];
    var option, rest := NextWord(input);
    while option.Some?
      invariant option.Some? ==> option.value != ""
      invariant option.None? ==> Words(rest) == []
      invariant Options((if option.Some? then [option.value] else []) + Words(rest), m) == Options(Words(input), map[])
      decreases option.Some?, |rest|
    {
      ghost var all := [option.value] + Words(rest);
      if option.value[0] == '-' {
        var value, rest' := NextWord(rest);
        if value.Some? {
          assert all[2..] == Words(rest');
          m := m[option.value := value.value];
        } else {
          assert all == [option.value];
          m := m[option.value := ""];
        }
        rest := rest';
      } else {
        assert all[1..] == Words(rest);
      }
      option, rest := NextWord(rest);
    }
    policy := FromOptions(m);
  }

  // ---------- reading back what was printed ----------

  /** A non-empty text without white space. */
  predicate IsWord(s: string) {
    s != "" && forall i :: 0 <= i < |s| ==> !IsSpace(s[i])
  }

  lemma {:induction false} FirstWord(w: string, rest: string)
    requires IsWord(w) && (rest == "" || IsSpace(rest[0]))
    ensures Words(w + rest) == [w] + Words(rest)
  {
    var s := w + rest;
    assert SkipSpace(s) == s;
    var n := WordLength(s);
    assert forall i :: 0 <= i < |w| ==> s[i] == w[i];
    assert rest != "" ==> s[|w|] == rest[0];
    assert s[..n] == w && s[n..] == rest;
  }

  lemma {:induction false} LeadingSpace(rest: string)
    ensures Words(" " + rest) == Words(rest)
  {
    assert (" " + rest)[1..] == rest;
    assert SkipSpace(" " + rest) == SkipSpace(rest);
    SkipSpaceShrinks(rest);
  }

  function Dashed(pairs: seq<Pair>): seq<string> {
    if pairs == [] then [] else ["-" + pairs[0].0, pairs[0].1] + Dashed(pairs[1..])
  }

  predicate Printable(pairs: seq<Pair>) {
    forall p :: p in pairs ==> IsWord("-" + p.0) && IsWord(p.1)
  }

  lemma NoWords()
    ensures Words("") == []
  {
  }

  lemma {:induction false} WordsOfPrinted(pairs: seq<Pair>)
    requires Printable(pairs)
    ensures Words(Printed(pairs)) == Dashed(pairs)
    ensures Printed(pairs) == "" || IsSpace(Printed(pairs)[0])
  {
    hide Words;
    if pairs == [] {
      NoWords();
    } else {
      WordsOfPrinted(pairs[1..]);
      WordsOfArgument(pairs[0].0, pairs[0].1, Printed(pairs[1..]));
    }
  }

  lemma {:induction false} WordsOfArgument(name: string, text: string, rest: string)
    requires IsWord("-" + name) && IsWord(text) && (rest == "" || IsSpace(rest[0]))
    ensures Words(FormatArgs(name, text) + rest) == ["-" + name, text] + Words(rest)
  {
    hide Words, IsWord;
    FirstWord(text, rest);
    LeadingSpace(text + rest);
    FirstWord("-" + name, " " + (text + rest));
    LeadingSpace("-" + name + (" " + (text + rest)));
    assert FormatArgs(name, text) + rest == " " + ("-" + name + (" " + (text + rest)));
  }

  /** The options as a map; of a repeated name the last one counts. */
  function AsMap(pairs: seq<Pair>, m: map<string, string>): map<string, string> {
    if pairs == [] then m else AsMap(pairs[1..], m["-" + pairs[0].0 := pairs[0].1])
  }

  lemma {:induction false} OptionsOfDashed(pairs: seq<Pair>, m: map<string, string>)
    ensures Options(Dashed(pairs), m) == AsMap(pairs, m)
  {
    if pairs != [] {
      assert Dashed(pairs)[2..] == Dashed(pairs[1..]);
      OptionsOfDashed(pairs[1..], m["-" + pairs[0].0 := pairs[0].1]);
    }
  }

  /** Reading a printed configuration yields its settings as a map. */
  lemma PrintedOptions(pairs: seq<Pair>)
    requires Printable(pairs)
    ensures Options(Words("user_policy" + Printed(pairs)), map[]) == AsMap(pairs, map[])
  {
    hide Words;
    WordsOfPrinted(pairs);
    FirstWord("user_policy", Printed(pairs));
    var ws := ["user_policy"] + Dashed(pairs);
    assert ws[1..] == Dashed(pairs);
    OptionsOfDashed(pairs, map[]);
  }

  predicate DistinctNames(pairs: seq<Pair>) {
    forall i, j :: 0 <= i < j < |pairs| ==> pairs[i].0 != pairs[j].0
  }

  lemma {:induction false} AsMapLookup(pairs: seq<Pair>, m: map<string, string>, name: string)
    requires DistinctNames(pairs)
    ensures ("-" + name) in AsMap(pairs, m) <==> ("-" + name) in m || exists p :: p in pairs && p.0 == name
    ensures forall t :: (name, t) in pairs ==> ("-" + name) in AsMap(pairs, m) && AsMap(pairs, m)["-" + name] == t
    ensures (forall t :: (name, t) !in pairs) && ("-" + name) in m ==>
              ("-" + name) in AsMap(pairs, m) && AsMap(pairs, m)["-" + name] == m["-" + name]
  {
    if pairs != [] {
      var p, rest := pairs[0], pairs[1..];
      var m' := m["-" + p.0 := p.1];
      assert DistinctNames(rest);
      AsMapLookup(rest, m', name);
      assert pairs == [p] + rest;
      assert forall x: Pair :: x in pairs <==> x == p || x in rest;
      assert ("-" + name)[1..] == name && ("-" + p.0)[1..] == p.0;
      if p.0 == name {
        assert forall k :: 0 <= k < |rest| ==> rest[k] == pairs[k + 1];
      }
    }
  }

  ghost predicate HasText(pairs: seq<Pair>, name: string, text: string) {
    (name, text) in pairs
  }

  /** `policy` has exactly the settings of the pairs, all eight of which are present. */
  ghost predicate Describes(pairs: seq<Pair>, policy: Policy) {
    && HasText(pairs, "sessionKey", policy.user)
    && HasText(pairs, "origin", policy.origin)
    && HasText(pairs, "objShare", policy.share)
    && (exists t :: HasText(pairs, "expTime", t) && ParseI64(t) == Some(policy.expiration))
    && (exists t :: HasText(pairs, "encryption", t) && StrToBool(t) == Some(policy.encryption))
    && (exists t :: HasText(pairs, "monitor", t) && StrToBool(t) == Some(policy.monitor))
    && (exists t :: HasText(pairs, "purpose", t) && policy.purpose == SetBits(NoBits(), Split(t, ',')))
    && (exists t :: HasText(pairs, "objection", t) && policy.objection == SetBits(NoBits(), Split(t, ',')))
  }

  /** What the controller reads from the text printed for a configuration. */
  function ReadBack(config: Config): Option<Policy> {
    FromOptions(Options(Words("user_policy" + Printed(Pairs(config))), map[]))
  }

  lemma LookupSetting(pairs: seq<Pair>, name: string, option: string)
    requires DistinctNames(pairs) && option == "-" + name
    ensures var m := AsMap(pairs, map[]);
            && (option in m ==> HasText(pairs, name, m[option]))
            && (forall t :: HasText(pairs, name, t) ==> option in m && m[option] == t)
  {
    AsMapLookup(pairs, map[], name);
    var m := AsMap(pairs, map[]);
    if ("-" + name) in m {
      var p :| p in pairs && p.0 == name;
      assert (name, p.1) in pairs;
    }
  }

  /**
   The text printed from a configuration is read back as a policy exactly when the
   configuration describes that policy; otherwise reading fails.
   */
  lemma PolicyRoundTrip(config: Config, policy: Policy)
    requires Printable(Pairs(config)) && DistinctNames(Pairs(config))
    ensures ReadBack(config) == Some(policy) <==> Describes(Pairs(config), policy)
  {
    hide Words, Split, ParseI64, StrToBool, SetBits, Printed, Options, HasText, AsMap, Pairs;
    var pairs := Pairs(config);
    PrintedOptions(pairs);
    LookupSetting(pairs, "sessionKey", "-sessionKey");
    LookupSetting(pairs, "encryption", "-encryption");
    LookupSetting(pairs, "purpose", "-purpose");
    LookupSetting(pairs, "objection", "-objection");
    LookupSetting(pairs, "origin", "-origin");
    LookupSetting(pairs, "expTime", "-expTime");
    LookupSetting(pairs, "objShare", "-objShare");
    LookupSetting(pairs, "monitor", "-monitor");
  }

  /** The order in which settings and groups are written does not matter. */
  lemma PolicyOrderIrrelevant(config: Config, other: Config)
    requires Printable(Pairs(config)) && DistinctNames(Pairs(config))
    requires Printable(Pairs(other)) && DistinctNames(Pairs(other))
    requires forall p :: p in Pairs(config) <==> p in Pairs(other)
    ensures ReadBack(config) == ReadBack(other)
  {
    hide ReadBack, Pairs, Printable, DistinctNames;
    forall policy ensures ReadBack(config) == Some(policy) <==> ReadBack(other) == Some(policy) {
      PolicyRoundTrip(config, policy);
      PolicyRoundTrip(other, policy);
    }
    if ReadBack(config).Some? {
      assert ReadBack(config) == Some(ReadBack(config).value);
    } else if ReadBack(other).Some? {
      assert ReadBack(other) == Some(ReadBack(other).value);
    }
  }

  /** Bit i of the purposes read back is set exactly when `purpose<i>` is listed. */
  lemma ListedPurposes(config: Config, policy: Policy, items: seq<string>, i: nat)
    requires Printable(Pairs(config)) && DistinctNames(Pairs(config))
    requires ReadBack(config) == Some(policy)
    requires items != [] && ("purpose", CommaJoin(items)) in Pairs(config)
    requires i < NUM_PURPOSES
    requires forall n :: n in items ==> ',' !in n && exists j: nat :: j < NUM_PURPOSES && n == PurposeName(j)
    ensures policy.purpose[i] <==> PurposeName(i) in items
  {
    hide ReadBack, Pairs, Split;
    var pairs := Pairs(config);
    PolicyRoundTrip(config, policy);
    var t :| HasText(pairs, "purpose", t) && policy.purpose == SetBits(NoBits(), Split(t, ','));
    assert t == CommaJoin(items) by {
      LookupSetting(pairs, "purpose", "-purpose");
      assert HasText(pairs, "purpose", CommaJoin(items));
    }
    forall k | 0 <= k < |items| ensures ',' !in items[k] {
      assert items[k] in items;
    }
    SplitJoin(items, ',');
    KnownPurposeBits(items, i);
  }
}
