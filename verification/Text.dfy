/**
 Text scanning in the style of `std::string_view`: the searches every parser of the
 controller is built on, and the split/join reading of a delimited text that the
 scanning loops are proved against.

 A C++ `char` is modelled by `char`, `npos` by -1.
 */
module Text {

  datatype Option<+T> = None | Some(value: T) {
    function GetOr(default: T): T {
      if Some? then value else default
    }
  }

  /** `find(c, start)`: the first position of `c` at or after `start`. */
  function Find(s: string, c: char, start: nat): (r: int)
    ensures r == -1 || (start <= r < |s| && s[r] == c && c !in s[start..r])
    ensures r == -1 <==> (start >= |s| || c !in s[start..])
    decreases |s| - start
  {
    if start >= |s| then -1
    else if s[start] == c then start
    else
      var r := Find(s, c, start + 1);
      assert s[start..] == [s[start]] + s[start + 1..];
      assert r >= 0 ==> s[start..r] == [s[start]] + s[start + 1..r];
      r
  }

  /** `find_last_of(c)` and `rfind(c)`: the last position of `c`. */
  function FindLast(s: string, c: char): (r: int)
    ensures r == -1 || (0 <= r < |s| && s[r] == c && c !in s[r + 1..])
    ensures r == -1 <==> c !in s
  {
    if s == [] then -1
    else if s[|s| - 1] == c then |s| - 1
    else
      var init := s[..|s| - 1];
      var r := FindLast(init, c);
      assert s == init + [s[|s| - 1]];
      assert r >= 0 ==> s[r + 1..] == init[r + 1..] + [s[|s| - 1]];
      r
  }

  /** The pieces between the delimiters; a text without delimiter is one piece. */
  function Split(s: string, c: char): (parts: seq<string>)
    ensures |parts| > 0
    decreases |s|
  {
    var p := Find(s, c, 0);
    if p < 0 then [s] else [s[..p]] + Split(s[p + 1..], c)
  }

  lemma {:induction false} SplitClean(s: string, c: char)
    ensures forall i :: 0 <= i < |Split(s, c)| ==> c !in Split(s, c)[i]
    decreases |s|
  {
    var p := Find(s, c, 0);
    if p < 0 {
      assert s[0..] == s;
    } else {
      assert s[0..p] == s[..p];
      SplitClean(s[p + 1..], c);
    }
  }

  function Join(parts: seq<string>, c: char): string
    requires |parts| > 0
  {
    if |parts| == 1 then parts[0] else parts[0] + [c] + Join(parts[1..], c)
  }

  lemma AbsentAt(s: string, c: char, lo: nat, hi: nat)
    requires lo <= hi <= |s| && c !in s[lo..hi]
    ensures forall i :: lo <= i < hi ==> s[i] != c
  {
    forall i | lo <= i < hi ensures s[i] != c {
      assert s[lo..hi][i - lo] == s[i];
    }
  }

  lemma FindIs(s: string, c: char, start: nat, p: nat)
    requires start <= p < |s| && s[p] == c && c !in s[start..p]
    ensures Find(s, c, start) == p
  {
    var r := Find(s, c, start);
    assert s[start..][p - start] == c;
    AbsentAt(s, c, start, p);
    AbsentAt(s, c, start, r);
  }

  lemma FindLastIs(s: string, c: char, p: nat)
    requires p < |s| && s[p] == c && c !in s[p + 1..]
    ensures FindLast(s, c) == p
  {
    var r := FindLast(s, c);
    AbsentAt(s, c, p + 1, |s|);
    AbsentAt(s, c, r + 1, |s|);
  }

  /** Searching from `start` is searching the rest of the text. */
  lemma {:induction false} FindRest(s: string, c: char, start: nat)
    requires start <= |s|
    ensures Find(s[start..], c, 0) ==
            if Find(s, c, start) < 0 then -1 else Find(s, c, start) - start
  {
    var p := Find(s, c, start);
    if p < 0 {
      assert s[start..][0..] == s[start..];
    } else {
      assert s[start..][0..p - start] == s[start..p];
      FindIs(s[start..], c, 0, p - start);
    }
  }

  lemma {:induction false} SplitAt(s: string, c: char, p: nat)
    requires Find(s, c, 0) == p
    ensures p < |s| && Split(s, c) == [s[..p]] + Split(s[p + 1..], c)
  {
  }

  /** One turn of a scanning loop peels one piece off the rest of the text. */
  lemma {:induction false} SplitStep(s: string, c: char, start: nat)
    requires start <= |s|
    ensures var p := Find(s, c, start);
            Split(s[start..], c) ==
            if p < 0 then [s[start..]] else [s[start..p]] + Split(s[p + 1..], c)
  {
    FindRest(s, c, start);
    var p, rest := Find(s, c, start), s[start..];
    if p >= 0 {
      SplitAt(rest, c, p - start);
      assert rest[..p - start] == s[start..p];
      assert rest[p - start + 1..] == s[p + 1..];
    }
  }

  lemma {:induction false} SplitFound(s: string, c: char, start: nat)
    requires Find(s, c, start) >= 0
    ensures Split(s[start..], c) == [s[start..Find(s, c, start)]] + Split(s[Find(s, c, start) + 1..], c)
  {
    SplitStep(s, c, start);
  }

  lemma {:induction false} SplitLast(s: string, c: char, start: nat)
    requires start <= |s| && Find(s, c, start) == -1
    ensures Split(s[start..], c) == [s[start..]]
  {
    SplitStep(s, c, start);
  }

  lemma {:induction false} SplitCons(a: string, c: char, b: string)
    requires c !in a
    ensures Split(a + [c] + b, c) == [a] + Split(b, c)
  {
    var s := a + [c] + b;
    assert s[0..|a|] == a;
    FindIs(s, c, 0, |a|);
    assert s[..|a|] == a && s[|a| + 1..] == b;
  }

  lemma SplitSingle(a: string, c: char)
    requires c !in a
    ensures Split(a, c) == [a]
  {
    assert a[0..] == a;
  }

  lemma {:induction false} JoinSplit(s: string, c: char)
    ensures Join(Split(s, c), c) == s
    decreases |s|
  {
    var p := Find(s, c, 0);
    if p >= 0 {
      JoinSplit(s[p + 1..], c);
      var rest := Split(s[p + 1..], c);
      assert ([s[..p]] + rest)[1..] == rest;
      assert s == s[..p] + [c] + s[p + 1..];
    }
  }

  lemma {:induction false} SplitJoin(parts: seq<string>, c: char)
    requires |parts| > 0
    requires forall i :: 0 <= i < |parts| ==> c !in parts[i]
    ensures Split(Join(parts, c), c) == parts
  {
    if |parts| == 1 {
      SplitSingle(parts[0], c);
    } else {
      SplitJoin(parts[1..], c);
      SplitCons(parts[0], c, Join(parts[1..], c));
      assert parts == [parts[0]] + parts[1..];
    }
  }

  /** The pieces of a concatenation at a delimiter are the pieces of both halves. */
  lemma {:induction false} SplitAppend(a: string, c: char, b: string)
    ensures Split(a + [c] + b, c) == Split(a, c) + Split(b, c)
    decreases |a|
  {
    var p := Find(a, c, 0);
    if p < 0 {
      assert a[0..] == a;
      SplitCons(a, c, b);
    } else {
      var head, tail := a[..p], a[p + 1..];
      assert c !in head by { assert a[0..p] == head; }
      calc {
        Split(a + [c] + b, c);
        { assert a + [c] + b == head + [c] + (tail + [c] + b); }
        Split(head + [c] + (tail + [c] + b), c);
        { SplitCons(head, c, tail + [c] + b); }
        [head] + Split(tail + [c] + b, c);
        { SplitAppend(tail, c, b); }
        [head] + (Split(tail, c) + Split(b, c));
        ([head] + Split(tail, c)) + Split(b, c);
        { SplitAt(a, c, p); }
        Split(a, c) + Split(b, c);
      }
    }
  }

  /** ASCII `std::tolower`, applied to one character. */
  function ToLower(c: char): char {
    if 'A' <= c <= 'Z' then c - 'A' + 'a' else c
  }

  function Lowercase(s: string): (r: string)
    ensures |r| == |s|
    ensures forall i :: 0 <= i < |s| ==> r[i] == ToLower(s[i])
  {
    if s == [] then [] else [ToLower(s[0])] + Lowercase(s[1..])
  }

  /** `isspace` of the C locale, as used by stream extraction and the number parsers. */
  predicate IsSpace(c: char) {
    c == ' ' || c == '\t' || c == '\n' || c == '\r' || c == 11 as char || c == 12 as char
  }
}
