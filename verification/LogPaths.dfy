/**
 The names of log files. A decoder is given a file name and must find the key in it, to
 lock the mutex and fetch the stream of that key.
 */
module LogPaths {
  import opened Text

  const EXTENSION := ".log"

  function LogFilePath(dir: string, key: string): string {
    dir + "/" + key + EXTENSION
  }

  predicate OccursAt(s: string, part: string, i: nat) {
    i + |part| <= |s| && s[i..i + |part|] == part
  }

  predicate Occurs(s: string, part: string) {
    exists i :: 0 <= i <= |s| && OccursAt(s, part, i)
  }

  /** `find(part, start)`: the first occurrence at or after `start`. */
  function FindText(s: string, part: string, start: nat): (r: int)
    requires start <= |s|
    ensures r == -1 || (start <= r <= |s| && OccursAt(s, part, r))
    ensures forall i :: start <= i <= |s| && (r == -1 || i < r) ==> !OccursAt(s, part, i)
    decreases |s| - start
  {
    if OccursAt(s, part, start) then start
    else if start == |s| then -1
    else FindText(s, part, start + 1)
  }

  /** `extract_key_from_filename`. */
  function ExtractKey(filename: string): string {
    var start := FindLast(filename, '/') + 1;
    var end := FindText(filename, EXTENSION, start);
    if end != -1 then filename[start..end] else filename[start..]
  }

  /** The extension cannot begin inside the key and end behind it. */
  lemma NoOverlap(dir: string, key: string, i: nat)
    requires |dir| + 1 <= i < |dir| + 1 + |key|
    ensures OccursAt(LogFilePath(dir, key), EXTENSION, i) <==> OccursAt(key, EXTENSION, i - |dir| - 1)
  {
    var path, k := LogFilePath(dir, key), i - |dir| - 1;
    assert path[|dir| + 1..|dir| + 1 + |key|] == key;
    if k + 4 <= |key| {
      assert path[i..i + 4] == key[k..k + 4];
    } else {
      var e := |dir| + 1 + |key|;
      assert path[e] == EXTENSION[0] && path[i..i + 4][e - i] == path[e];
      assert EXTENSION[1] != '.' && EXTENSION[2] != '.' && EXTENSION[3] != '.';
      assert path[i..i + 4] != EXTENSION;
    }
  }

  /**
   The key is found in the name of its log file exactly when it holds no slash and does
   not hold the extension itself; otherwise the decoder locks the mutex of another key.
   */
  lemma ExtractsOwnKey(dir: string, key: string)
    ensures ExtractKey(LogFilePath(dir, key)) == key <==> '/' !in key && !Occurs(key, EXTENSION)
  {
    hide FindLast, FindText;
    var path, n := LogFilePath(dir, key), |dir| + 1;
    assert path[n..n + |key|] == key;
    LastSlash(dir, key);
    var start := FindLast(path, '/') + 1;
    var end := FindText(path, EXTENSION, start);
    assert OccursAt(path, EXTENSION, n + |key|) by { assert path[n + |key|..] == EXTENSION; }
    if '/' in key {
      assert |ExtractKey(path)| < |key|;
    } else if Occurs(key, EXTENSION) {
      var k :| 0 <= k <= |key| && OccursAt(key, EXTENSION, k);
      NoOverlap(dir, key, n + k);
      assert |ExtractKey(path)| < |key|;
    } else if end < n + |key| {
      NoOverlap(dir, key, end);
    }
  }

  /** The last slash of the path is the one before the file name, or a later one inside the key. */
  lemma LastSlash(dir: string, key: string)
    ensures var last := FindLast(LogFilePath(dir, key), '/');
            if '/' in key then |dir| < last < |dir| + 1 + |key| else last == |dir|
  {
    var path, n := LogFilePath(dir, key), |dir| + 1;
    forall i | n <= i < |path| ensures path[i] == if i < n + |key| then key[i - n] else EXTENSION[i - n - |key|] { }
    var last := FindLast(path, '/');
    AbsentAt(path, '/', last + 1, |path|);
    if '/' in key {
      var j :| 0 <= j < |key| && key[j] == '/';
      assert path[n + j] == '/';
    } else {
      assert path[|dir|] == '/';
    }
  }
}
