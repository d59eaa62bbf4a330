/**
 The formats that files, messages and queries share with other programs, in literal terms:
 digits, bytes, names and delimiters as they are, malformed texts included.
 */
module Layout {
  import opened Text
  import opened Numbers
  import opened Metadata
  import opened Query
  import opened Policy
  import opened Filter
  import opened Rewriter
  import opened LogCodec
  import LogPaths
  import Message

  // ---------- numbers ----------

  /** A number is printed digit by digit, the last one at the end, without leading zeros. */
  lemma DecimalDigits(n: nat, d: nat)
    requires d < 10
    ensures PrintNat(d) == ["0123456789"[d]]
    ensures n > 0 ==> PrintNat(10 * n + d) == PrintNat(n) + ["0123456789"[d]]
    ensures PrintInt(n) == PrintNat(n)
    ensures n > 0 ==> PrintInt(0 - (n as int)) == "-" + PrintNat(n)
  {
    assert DigitChar(d) == "0123456789"[d];
    assert (10 * n + d) / 10 == n && (10 * n + d) % 10 == d;
  }

  /** The value of a digit string, from its last digit. */
  lemma DecimalRead(s: string, d: nat)
    requires AllDigits(s) && d < 10
    ensures AllDigits(s + ["0123456789"[d]])
    ensures DecimalValue(s + ["0123456789"[d]]) == 10 * DecimalValue(s) + d
  {
    var t := s + ["0123456789"[d]];
    assert "0123456789"[d] as int == '0' as int + d;
    assert t[..|s|] == s;
  }

  lemma {:induction false} SkipsSpace(w: string, t: string)
    requires (forall i :: 0 <= i < |w| ==> IsSpace(w[i])) && (t == "" || !IsSpace(t[0]))
    ensures SkipSpace(w + t) == t
  {
    if w == "" {
      assert w + t == t;
    } else {
      assert (w + t)[1..] == w[1..] + t;
      SkipsSpace(w[1..], t);
    }
  }

  lemma {:induction false} DigitsThen(d: string, tail: string)
    requires AllDigits(d) && (tail == "" || !IsDigit(tail[0]))
    ensures DigitRun(d + tail) == |d|
  {
    if d == "" {
      assert d + tail == tail;
    } else {
      assert (d + tail)[1..] == d[1..] + tail;
      DigitsThen(d[1..], tail);
    }
  }

  /** Digits at the head of a text are a number, whatever follows them. */
  lemma DigitsRead(d: string, tail: string)
    requires AllDigits(d) && d != "" && (tail == "" || !IsDigit(tail[0]))
    ensures ScanInteger(d + tail) == Some(DecimalValue(d))
    ensures ScanInteger("+" + (d + tail)) == Some(DecimalValue(d))
    ensures ScanInteger("-" + (d + tail)) == Some(0 - DecimalValue(d))
  {
    hide DigitRun, DecimalValue;
    DigitsThen(d, tail);
    assert ("+" + (d + tail))[1..] == d + tail && ("-" + (d + tail))[1..] == d + tail;
    assert (d + tail)[..|d|] == d && (d + tail)[0] == d[0];
  }

  lemma NoDigitsRead(tail: string)
    requires tail == "" || !IsDigit(tail[0])
    ensures ScanInteger("-" + tail) == None && ScanInteger("+" + tail) == None && ScanInteger("") == None
  {
    assert ("+" + tail)[1..] == tail && ("-" + tail)[1..] == tail;
  }

  /** White space before a number is skipped. */
  lemma SpaceSkipped(w: string, t: string)
    requires (forall i :: 0 <= i < |w| ==> IsSpace(w[i])) && (t == "" || !IsSpace(t[0]))
    ensures ScanInteger(w + t) == ScanInteger(t)
  {
    SkipsSpace(w, t);
    SkipsSpace("", t);
    assert "" + t == t;
  }

  /** What each parser makes of a printed number: in range it, and otherwise nothing; `stoull` wraps negatives. */
  lemma ParsedInRange(n: int)
    ensures ParseU64(PrintInt(n)) ==
            if 0 <= n < 0x1_0000_0000_0000_0000 then Some(n)
            else if -0x1_0000_0000_0000_0000 < n < 0 then Some(0x1_0000_0000_0000_0000 + n) else None
    ensures ParseI64(PrintInt(n)) == if -0x8000_0000_0000_0000 <= n < 0x8000_0000_0000_0000 then Some(n) else None
    ensures ParseI32(PrintInt(n)) == if -0x8000_0000 <= n < 0x8000_0000 then Some(n) else None
  {
    hide ScanInteger, PrintInt;
    ScanPrintedInt(n);
  }

  /** Binary digit i of a number, the lowest being digit 0. */
  function Bit(n: nat, i: nat): nat {
    if i == 0 then n % 2 else Bit(n / 2, i - 1)
  }

  /** Byte i of a number, the lowest being byte 0. */
  function Byte(n: nat, i: nat): nat {
    if i == 0 then n % 256 else Byte(n / 256, i - 1)
  }

  /** Bit i of a bitmap is binary digit i of its number. */
  lemma {:induction false} NumberBit(n: nat, len: nat, i: nat)
    requires i < len
    ensures FromNumber(n, len)[i] <==> Bit(n, i) == 1
  {
    if i > 0 {
      NumberBit(n / 2, len - 1, i - 1);
    }
  }

  // ---------- names and booleans ----------

  lemma LowerIs(c: char)
    ensures ToLower(c) as int == if 65 <= c as int <= 90 then c as int + 32 else c as int
  {
  }

  lemma BooleanTexts(s: string)
    ensures StrToBool("true") == Some(true) && StrToBool("TRUE") == Some(true) && StrToBool("True") == Some(true)
    ensures StrToBool("false") == Some(false) && StrToBool("FALSE") == Some(false)
    ensures StrToBool(s).Some? ==> |s| == 4 || |s| == 5
    ensures StrToBool("1") == None && StrToBool("0") == None && StrToBool("") == None
  {
    assert Lowercase("true") == "true" && Lowercase("TRUE") == "true" && Lowercase("True") == "true";
    assert Lowercase("false") == "false" && Lowercase("FALSE") == "false";
    assert |Lowercase(s)| == |s|;
    hide Lowercase;
  }

  /** The 64 purpose names are `purpose` and a number; any other name stands for purpose 0. */
  lemma PurposeNames(name: string, i: nat)
    requires i < 64
    ensures PurposeIndex("purpose" + PrintNat(i)) == i
    ensures (forall j: nat :: j < 64 ==> name != "purpose" + PrintNat(j)) ==> PurposeIndex(name) == 0
  {
    KnownPurpose(i);
    assert PurposeName(i) == "purpose" + PrintNat(i);
    var n := PurposeIndex(name);
    assert n != 0 ==> name == "purpose" + PrintNat(n);
  }

  // ---------- the stored text ----------

  /** The fields of a stored text by position, for any eight texts without delimiter and any rest. */
  lemma FieldsByPosition(t: seq<string>, rest: string)
    requires |t| == 8 && forall i :: 0 <= i < 8 ==> '|' !in t[i]
    ensures var f := ParseFields(Join(t, '|') + "|" + rest);
            && (f.None? <==> ParseU64(t[2]).None? || ParseU64(t[3]).None? || ParseI64(t[5]).None?)
            && (f.Some? ==>
                  && f.value.user == t[0] && (f.value.encryption <==> t[1] == "1")
                  && (forall i :: 0 <= i < 64 ==>
                        && (f.value.purpose[i] <==> Bit(ParseU64(t[2]).value, i) == 1)
                        && (f.value.objection[i] <==> Bit(ParseU64(t[3]).value, i) == 1))
                  && f.value.origin == t[4] && Some(f.value.expiration) == ParseI64(t[5])
                  && f.value.share == t[6] && (f.value.monitor <==> t[7] == "1"))
  {
    hide Split, Join, ParseU64, ParseI64, Bit, FromNumber;
    SplitJoin(t, '|');
    SplitAppend(Join(t, '|'), '|', rest);
    var parts := t + Split(rest, '|');
    assert forall i :: 0 <= i < 8 ==> parts[i] == t[i];
    forall n: nat, i: nat | i < 64 ensures BitsOf(n)[i] <==> Bit(n, i) == 1 { NumberBit(n, 64, i); }
  }

  /** A text with fewer than eight delimiters is malformed. */
  lemma TooFewFields(t: seq<string>)
    requires 0 < |t| <= 8 && forall i :: 0 <= i < |t| ==> '|' !in t[i]
    ensures ParseFields(Join(t, '|')) == None
  {
    SplitJoin(t, '|');
  }

  /** What is cut off a text: all up to its last delimiter, unless nothing follows it, or there is none. */
  lemma RemoveGives(prefix: string, value: string)
    requires '|' !in value
    ensures RemoveMetadata(prefix + "|" + value) == if value == "" then prefix + "|" else value
    ensures PreserveMetadata(prefix + "|" + value) == prefix + "|"
    ensures RemoveMetadata(value) == value && PreserveMetadata(value) == value
  {
    FindLastAppend(prefix, value);
    var s := prefix + "|" + value;
    assert s[..|prefix| + 1] == prefix + "|" && s[|prefix| + 1..] == value;
    assert value == "" ==> s == prefix + "|";
  }

  /** A new value takes the place of what follows the last delimiter; without one it goes behind the text. */
  lemma SpliceGives(prefix: string, old_: string, value: string)
    requires '|' !in old_
    ensures Splice(prefix + "|" + old_, value) == prefix + "|" + value
    ensures Splice(old_, value) == old_ + "|" + value
  {
    FindLastAppend(prefix, old_);
    assert (prefix + "|" + old_)[..|prefix|] == prefix;
  }

  // ---------- the log file ----------

  /** The bytes of a little-endian number, from the lowest one on. */
  lemma {:induction false} ByteAt(n: nat, len: nat, i: nat)
    requires i < len
    ensures LittleEndian(n, len)[i] as int == Byte(n, i)
  {
    if i > 0 {
      ByteAt(n / 256, len - 1, i - 1);
    }
  }

  /** The code of an operation in the log. */
  function Code(cmd: string): nat {
    if cmd == "get" then 1 else if cmd == "put" then 2 else if cmd == "delete" then 3 else if cmd == "getm" then 4
    else if cmd == "putm" then 5 else if cmd == "getLogs" then 6 else 0
  }

  /**
   An entry in a log file is its size in eight bytes, its time in eight bytes, and, after a
   comma each, the user, one byte of operation and verdict, and the text.
   */
  lemma EntryBytes(r: LogRecord)
    requires Recordable(r)
    ensures var b, n := Frame(EncodeEntry(r)), |r.call.user|;
            && |b| == 20 + n + |r.call.newValue|
            && (forall i :: 0 <= i < 8 ==> b[i] as int == Byte(|b| - 8, i))
            && (forall i :: 0 <= i < 8 ==> b[8 + i] as int == Byte(r.timestamp % 0x1_0000_0000_0000_0000, i))
            && b[16] == ',' && b[17..17 + n] == r.call.user && b[17 + n] == ','
            && b[18 + n] as int == 2 * Code(r.call.cmd) + (if r.call.valid then 1 else 0)
            && b[19 + n] == ',' && b[20 + n..] == r.call.newValue
  {
    hide LittleEndian, Byte;
    var e, n := EncodeEntry(r), |r.call.user|;
    EntryShape(r);
    var b := Frame(e);
    assert b[8..] == e && b[..8] == LittleEndian(|e|, 8);
    assert e[..8] == LittleEndian(r.timestamp % U64, 8) && e[8] == ',';
    forall i | 0 <= i < 8
      ensures b[i] as int == Byte(|e|, i)
      ensures b[8 + i] as int == Byte(r.timestamp % U64, i)
    {
      ByteAt(|e|, 8, i);
      ByteAt(r.timestamp % U64, 8, i);
      assert b[i] == b[..8][i] && b[8 + i] == e[i] && e[i] == e[..8][i];
    }
    assert b[17..17 + n] == e[9..9 + n] && b[20 + n..] == e[12 + n..];
    assert b[16] == e[8] && b[17 + n] == e[9 + n] && b[18 + n] == e[10 + n] && b[19 + n] == e[11 + n];
  }

  lemma FilePath(dir: string, key: string)
    ensures LogPaths.LogFilePath(dir, key) == dir + "/" + key + ".log"
    ensures '/' !in key && !LogPaths.Occurs(key, ".log") ==> LogPaths.ExtractKey(dir + "/" + key + ".log") == key
  {
    LogPaths.ExtractsOwnKey(dir, key);
  }

  // ---------- the text of a query ----------

  /** The name of a predicate ends at the first `(`, and its argument reaches from there to the last `)`. */
  lemma WholePredicate(name: string, argument: string, tail: string)
    requires '(' !in name && ')' !in tail
    ensures Attribute(name + "(" + argument + ")" + tail) == name
    ensures Argument(name + "(" + argument + ")" + tail) == argument
  {
    hide Find, FindLast;
    var rest := argument + ")" + tail;
    var s := name + "(" + rest;
    FirstAt(name, "(", rest);
    LastAt(name + "(" + argument, tail);
    assert name + "(" + argument + ")" + tail == s;
    assert s[..|name|] == name && s[|name| + 1..] == rest && rest[..|argument|] == argument;
    assert s[|name| + 1..|name| + 1 + |argument|] == rest[..|argument|];
  }

  /** A missing `)`, or one before the `(`, lets the argument reach to the end. */
  lemma OpenPredicate(name: string, tail: string)
    requires '(' !in name && ')' !in tail
    ensures Attribute(name + "(" + tail) == name && Argument(name + "(" + tail) == tail
  {
    hide Find, FindLast;
    var s := name + "(" + tail;
    FirstAt(name, "(", tail);
    NoLater(name, tail);
    assert s[..|name|] == name && s[|name| + 1..] == tail;
  }

  /** A missing `(` leaves all to the name, and lets the argument begin at the start. */
  lemma BarePredicate(name: string, tail: string)
    requires '(' !in name && '(' !in tail && ')' !in tail
    ensures Attribute(name + ")" + tail) == name + ")" + tail && Argument(name + ")" + tail) == name
  {
    hide Find, FindLast;
    var s := name + ")" + tail;
    NotFound(s);
    LastAt(name, tail);
    assert s[0..|name|] == name;
  }

  lemma BareName(name: string)
    requires '(' !in name && ')' !in name
    ensures Attribute(name) == name && Argument(name) == name
  {
    hide Find, FindLast;
    NotFound(name);
    assert name[0..] == name;
  }

  lemma FirstAt(head: string, c: string, tail: string)
    requires c == "(" && '(' !in head
    ensures Find(head + c + tail, '(', 0) == |head|
  {
    var s := head + c + tail;
    assert s[0..|head|] == head;
    FindIs(s, '(', 0, |head|);
  }

  lemma LastAt(head: string, tail: string)
    requires ')' !in tail
    ensures FindLast(head + ")" + tail, ')') == |head|
  {
    var s := head + ")" + tail;
    assert s[|head| + 1..] == tail;
    FindLastIs(s, ')', |head|);
  }

  lemma NotFound(s: string)
    requires '(' !in s
    ensures Find(s, '(', 0) == -1
    ensures ')' !in s ==> FindLast(s, ')') == -1
  {
    assert s[0..] == s;
  }

  /** A `)` before the `(` does not end the argument. */
  lemma NoLater(name: string, tail: string)
    requires '(' !in name && ')' !in tail
    ensures FindLast(name + "(" + tail, ')') < |name| + 1
  {
    var s := name + "(" + tail;
    assert s[|name| + 1..|s|] == tail;
    AbsentAt(s, ')', |name| + 1, |s|);
  }

  /** An option loses the first and the last character of its argument, whatever they are. */
  lemma OptionText(q: Query, name: string, a: char, text: string, b: char)
    requires '(' !in name && name != "query"
    ensures ReadPredicate(q, name + "(" + ([a] + text + [b]) + ")") ==
            match NameOf(name) case Some(n) => SetOption(q, n, text) case None => None
    ensures ReadPredicate(q, name + "(" + [a] + ")") ==
            match NameOf(name) case Some(n) => SetOption(q, n, "") case None => None
    ensures ReadPredicate(q, name + "(" + "" + ")") == None
  {
    hide NameOf, SetOption, Attribute, Argument;
    Shape(name, [a] + text + [b]);
    Shape(name, [a]);
    Shape(name, "");
    var argument := [a] + text + [b];
    assert argument[1..|argument| - 1] == text;
  }

  /** A command with two quoted texts, and anything without quotes between them. */
  lemma PutText(q: Query, cmd: string, key: string, sep: string, value: string)
    requires '(' !in cmd && '"' !in cmd && '"' !in key && '"' !in sep && '"' !in value && Lowercase(cmd) == "put"
    ensures ReadPredicate(q, "query" + "(" + (cmd + "(" + ("\"" + key + "\"" + sep + "\"" + value + "\")")) + ")") ==
            Some(q.(cmd := "put", key := key, value := value))
  {
    hide Attribute, Argument, ExtractKey, ExtractValue, CommandOf, Split, Join, Lowercase;
    var rest := "\"" + key + "\"" + sep + "\"" + value + "\")";
    var argument := cmd + "(" + rest;
    Shape("query", argument);
    CommandPiece(cmd, rest);
    FiveParts(cmd + "(", key, sep, value, argument);
    KeyPiece(argument);
    ValuePiece(argument);
  }

  lemma FiveParts(a: string, b: string, c: string, d: string, argument: string)
    requires '"' !in a && '"' !in b && '"' !in c && '"' !in d
    requires argument == a + ("\"" + b + "\"" + c + "\"" + d + "\")")
    ensures Split(argument, '"') == [a, b, c, d, ")"]
  {
    hide Split;
    var quote := "\"";
    SplitSingle(")", '"');
    SplitCons(d, '"', ")");
    SplitCons(c, '"', d + quote + ")");
    SplitCons(b, '"', c + quote + (d + quote + ")"));
    SplitCons(a, '"', b + quote + (c + quote + (d + quote + ")")));
    assert argument == a + quote + (b + quote + (c + quote + (d + quote + ")")));
  }

  /** The first sample query, as it is written. */
  lemma SamplePut(q: Query)
    ensures ReadPredicate(q, "query(PUT(\"1\", \"VALUE_1\"))") == Some(q.(cmd := "put", key := "1", value := "VALUE_1"))
  {
    hide ReadPredicate;
    assert Lowercase("PUT") == "put";
    PutText(q, "PUT", "1", ", ", "VALUE_1");
    assert "query" + "(" + ("PUT" + "(" + ("\"" + "1" + "\"" + ", " + "\"" + "VALUE_1" + "\")")) + ")"
        == "query(PUT(\"1\", \"VALUE_1\"))";
  }

  // ---------- the text of a policy ----------

  lemma {:induction false} PrintedText(pairs: seq<Pair>, name: string, text: string)
    ensures Printed(pairs + [(name, text)]) == Printed(pairs) + " -" + name + " " + text
  {
    PrintedAppend(pairs, [(name, text)]);
    PrintedOne(name, text);
  }

  lemma SpaceIs(c: char)
    ensures IsSpace(c) <==> c as int == 32 || 9 <= c as int <= 13
  {
  }

  /** Words are separated by any run of white space. */
  lemma WordRead(w: string, word: string, rest: string)
    requires forall i :: 0 <= i < |w| ==> IsSpace(w[i])
    requires IsWord(word) && (rest == "" || IsSpace(rest[0]))
    ensures Words(w + (word + rest)) == [word] + Words(rest)
    ensures Words(w) == []
  {
    hide Words, IsWord;
    SpacedWords(w, word + rest, word);
    FirstWord(word, rest);
    SkipsSpace(w, "");
    assert w + "" == w;
    NoMoreWords(w);
  }

  lemma NoMoreWords(w: string)
    requires SkipSpace(w) == ""
    ensures Words(w) == []
  {
  }

  lemma SpacedWords(w: string, t: string, word: string)
    requires forall i :: 0 <= i < |w| ==> IsSpace(w[i])
    requires IsWord(word) && word <= t
    ensures Words(w + t) == Words(t)
  {
    SkipsSpace(w, t);
    SkipsSpace("", t);
    assert "" + t == t;
  }

  /** Of a repeated option the last text counts; one at the end has an empty text; other words are ignored. */
  lemma {:induction false} LastOption(pairs: seq<Pair>, m: map<string, string>, name: string, text: string)
    ensures Options(Dashed(pairs + [(name, text)]), m) == Options(Dashed(pairs), m)["-" + name := text]
    ensures Options(Dashed(pairs) + ["-" + name], m) == Options(Dashed(pairs), m)["-" + name := ""]
    ensures text == "" || text[0] != '-' ==> Options(Dashed(pairs) + [text], m) == Options(Dashed(pairs), m)
  {
    if pairs == [] {
      assert pairs + [(name, text)] == [(name, text)];
      assert Dashed([(name, text)]) == ["-" + name, text] + Dashed([]);
      assert Dashed([(name, text)])[2..] == [];
      assert Dashed(pairs) + ["-" + name] == ["-" + name] && Dashed(pairs) + [text] == [text];
    } else {
      var rest := pairs[1..];
      assert (pairs + [(name, text)])[1..] == rest + [(name, text)];
      assert Dashed(pairs + [(name, text)])[2..] == Dashed(rest + [(name, text)]);
      assert (Dashed(pairs) + ["-" + name])[2..] == Dashed(rest) + ["-" + name];
      assert (Dashed(pairs) + [text])[2..] == Dashed(rest) + [text];
      assert Dashed(pairs)[2..] == Dashed(rest);
      LastOption(rest, m["-" + pairs[0].0 := pairs[0].1], name, text);
    }
  }
}
