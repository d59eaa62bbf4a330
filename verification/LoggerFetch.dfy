/**
 `get_or_open_log_stream` and `close_older_fd` as methods of one object, run by a thread
 that has the management mutex while no other thread moves. What they compute is what the
 statements of the protocol compute, one after the other.
 */
module LoggerFetch {
  import opened Text
  import opened LogCodec
  import opened LoggerProtocol
  import opened LoggerLocks
  import opened LoggerCache
  import opened LoggerFiles

  /** The log streams and files, as the fetch sees them. */
  datatype FileTable = FileTable(streams: map<Key, Sid>, used: seq<Key>, open: map<Sid, Stream>, next: Sid,
      disk: map<Key, string>)

  function TableOf(s: State): FileTable {
    FileTable(s.streams, s.used, s.open, s.next, s.disk)
  }

  /** The first listed key from i on whose mutex is free, or the length of the list. */
  function FirstFree(used: seq<Key>, locked: set<Key>, i: nat): (n: nat)
    requires i <= |used|
    ensures i <= n <= |used|
    decreases |used| - i
  {
    if i < |used| && used[i] in locked then FirstFree(used, locked, i + 1) else i
  }

  lemma {:induction false} FirstFreeIs(used: seq<Key>, locked: set<Key>, i: nat)
    requires i <= |used|
    ensures var n := FirstFree(used, locked, i);
            && (forall j :: i <= j < n ==> used[j] in locked)
            && (n < |used| ==> used[n] !in locked)
    decreases |used| - i
  {
    if i < |used| && used[i] in locked {
      FirstFreeIs(used, locked, i + 1);
    }
  }

  /** The tables alone, as a state in which no thread exists. */
  function Tables(f: FileTable): State {
    State(map[], None, map[], f.streams, f.used, f.open, f.next, f.disk, 0, map[], map[], map[])
  }

  function CloseFile(f: FileTable, sid: Sid): FileTable {
    TableOf(Closed(Tables(f), sid))
  }

  function Evicted(f: FileTable, locked: set<Key>): FileTable {
    var n := FirstFree(f.used, locked, 0);
    if n < |f.used| && f.used[n] in f.streams then
      CloseFile(f, f.streams[f.used[n]]).(used := f.used[..n] + f.used[n + 1..], streams := f.streams - {f.used[n]})
    else f
  }

  function Opened(f: FileTable, k: Key): FileTable {
    f.(used := f.used + [k], streams := f.streams[k := f.next], open := f.open[f.next := Stream(k, "")],
       next := f.next + 1)
  }

  function Fetched(f: FileTable, maxOpen: nat, locked: set<Key>, k: Key): FileTable {
    if k in f.streams && f.streams[k] in f.open then f
    else Opened(if |f.streams| >= maxOpen then Evicted(f, locked) else f, k)
  }

  function CacheIn(f: FileTable): Cache {
    Cache(f.streams, f.used, f.open, f.next)
  }

  /** List and map agree, in order of opening, and every mapped stream is open. */
  ghost predicate Tidy(f: FileTable) {
    Fits(CacheIn(f), Idle, Key(""))
  }

  lemma {:induction false} LongerName(ks: set<Key>) returns (n: nat)
    ensures forall k :: k in ks ==> |k.name| < n
    decreases ks
  {
    n := 0;
    if ks != {} {
      var k :| k in ks;
      var m := LongerName(ks - {k});
      n := if m <= |k.name| then |k.name| + 1 else m;
    }
  }

  lemma EvictedTidy(f: FileTable, locked: set<Key>)
    requires Tidy(f)
    ensures Tidy(Evicted(f, locked))
    ensures forall k :: k !in f.streams ==> k !in Evicted(f, locked).streams
  {
    hide Fits, Settled;
    var n := FirstFree(f.used, locked, 0);
    if n < |f.used| {
      var m := LongerName(f.streams.Keys);
      var own := Key(seq(m, _ => 'k'));
      assert own !in f.streams;
      var c := CacheIn(f);
      TidyFits(c, own, CloseStream(n));
      FitsClose(c, n, own);
      var c1 := c.(open := c.open - {c.streams[c.used[n]]});
      assert CacheIn(CloseFile(f, c.streams[c.used[n]])) == c1;
      FitsUnlist(c1, n, own);
      var c2 := c1.(used := c.used[..n] + c.used[n + 1..]);
      FitsUnmap(c2, c.used[n], own);
      FitsTidy(c2.(streams := c.streams - {c.used[n]}), own, UnlockVictim(c.used[n]));
    }
  }

  lemma TidyFits(c: Cache, own: Key, pc: PC)
    requires Fits(c, Idle, Key("")) && own !in c.streams
    requires match pc case CloseStream(i) => i < |c.used| case _ => pc.PushKey?
    ensures Fits(c, pc, own)
  {
    hide Listed, Mapped, InOrder;
    FitsSettled(c, Idle, Key(""), pc, own);
  }

  lemma FitsTidy(c: Cache, own: Key, pc: PC)
    requires Fits(c, pc, own) && (pc.UnlockVictim? || pc.ReturnStream?)
    ensures Fits(c, Idle, Key(""))
  {
    hide Listed, Mapped, InOrder;
    FitsSettled(c, pc, own, Idle, Key(""));
  }

  lemma OpenedTidy(f: FileTable, k: Key)
    requires Tidy(f) && k !in f.streams
    ensures Tidy(Opened(f, k)) && k in Opened(f, k).streams
  {
    hide Fits;
    var c := CacheIn(f);
    TidyFits(c, k, PushKey);
    FitsList(c, k);
    FitsOpen(c.(used := c.used + [k]), k);
    FitsTidy(CacheIn(Opened(f, k)), k, ReturnStream);
  }

  lemma TidyMapped(f: FileTable, k: Key)
    requires Tidy(f)
    ensures k in f.used || k in f.streams ==> k in f.streams && f.streams[k] in f.open
  {
  }

  class Logger {
    const maxOpenLogFiles: nat
    var keysToLogFiles: map<Key, Sid>
    var usedKeys: seq<Key>
    var open: map<Sid, Stream>
    var next: Sid
    var disk: map<Key, string>

    constructor (maxOpenLogFiles: nat)
      ensures Valid() && this.maxOpenLogFiles == maxOpenLogFiles && Table() == FileTable(map[], [], map[], 0, map[])
    {
      this.maxOpenLogFiles := maxOpenLogFiles;
      keysToLogFiles, usedKeys, open, next, disk := map[], [], map[], 0, map[];
    }

    ghost function Table(): FileTable
      reads this
    {
      FileTable(keysToLogFiles, usedKeys, open, next, disk)
    }

    ghost predicate Valid()
      reads this
    {
      Tidy(Table())
    }

    /** `close`: what is buffered reaches the file. */
    method Close(sid: Sid)
      modifies this`open, this`disk
      ensures Table() == CloseFile(old(Table()), sid)
    {
      if sid in open {
        var st := open[sid];
        assert st.buffer[..|st.buffer|] == st.buffer;
        disk := disk[st.key := (if st.key in disk then disk[st.key] else "") + st.buffer];
        open := open - {sid};
      }
    }

    /** `locked`: the keys whose mutex another thread holds, so that trying it fails. */
    method CloseOlderFd(locked: set<Key>)
      requires Valid()
      modifies this
      ensures Valid() && Table() == Evicted(old(Table()), locked)
    {
      hide Tidy, CloseFile;
      EvictedTidy(Table(), locked);
      var i := 0;
      while i < |usedKeys|
        invariant 0 <= i <= |usedKeys| && Table() == old(Table())
        invariant FirstFree(usedKeys, locked, 0) == FirstFree(usedKeys, locked, i)
      {
        var keyToRemove := usedKeys[i];
        TidyMapped(Table(), keyToRemove);
        if keyToRemove !in locked {
          Close(keysToLogFiles[keyToRemove]);
          usedKeys := usedKeys[..i] + usedKeys[i + 1..];
          keysToLogFiles := keysToLogFiles - {keyToRemove};
          return;
        }
        i := i + 1;
      }
    }

    method GetOrOpenLogStream(key: Key, locked: set<Key>) returns (sid: Sid)
      requires Valid()
      modifies this
      ensures Table() == Fetched(old(Table()), maxOpenLogFiles, locked, key)
      ensures Valid() && key in keysToLogFiles && sid == keysToLogFiles[key] && sid in open
    {
      hide Tidy, Evicted;
      EvictedTidy(Table(), locked);
      TidyMapped(Table(), key);
      if key !in keysToLogFiles || keysToLogFiles[key] !in open {
        if |keysToLogFiles| >= maxOpenLogFiles {
          CloseOlderFd(locked);
        }
        OpenedTidy(Table(), key);
        usedKeys := usedKeys + [key];
        keysToLogFiles := keysToLogFiles[key := next];
        open := open[next := Stream(key, "")];
        next := next + 1;
      }
      sid := keysToLogFiles[key];
    }
  }

  // ---------- the same by the statements of the protocol ----------

  /** The thread runs alone for n statements, none of which blocks or fails. */
  ghost predicate Alone(cfg: Config, s: State, t: Tid, n: nat, s': State)
    decreases n
  {
    if n == 0 then s' == s else CanAdvance(s, t) && Alone(cfg, Advance(cfg, s, t), t, n - 1, s')
  }

  /** The thread with the management mutex can always go on. */
  lemma HolderAdvances(cfg: Config, s: State, t: Tid)
    requires LocksOk(s) && CacheOk(s) && t in s.threads && s.mgmt == Some(t)
    ensures CanAdvance(s, t) && LocksOk(Advance(cfg, s, t)) && CacheOk(Advance(cfg, s, t))
  {
    hide LocksOk, CacheOk, Faulty, Advance, OwnKeyUnlisted;
    ThreadLocksOf(s, t);
    NeverFaulty(s, t);
    LocksStep(cfg, s, t);
    CacheStep(cfg, s, t);
  }

  /** The thread is at a statement of the fetch for a key. */
  ghost predicate Fetches(s: State, t: Tid, pc: PC, k: Key) {
    && LocksOk(s) && CacheOk(s) && t in s.threads && s.mgmt == Some(t)
    && s.threads[t].pc == pc && s.threads[t].job.key == k
  }

  /** The mutexes and the other threads are as before. */
  predicate OnlyMoved(s: State, s': State, t: Tid) {
    && s'.mutex == s.mutex && s'.threads.Keys == s.threads.Keys
    && forall h :: h in s.threads && h != t ==> s'.threads[h] == s.threads[h]
  }

  lemma EvictAlone(cfg: Config, s: State, t: Tid, i: nat, k: Key) returns (s': State)
    requires Fetches(s, t, Scan(i), k) && i < |s.used| && s.used[i] !in s.mutex
    ensures Alone(cfg, s, t, 5, s') && Fetches(s', t, PushKey, k) && OnlyMoved(s, s', t)
    ensures i < |s.used| && s.used[i] in s.streams
    ensures TableOf(s') == CloseFile(TableOf(s), s.streams[s.used[i]]).(used := s.used[..i] + s.used[i + 1..],
                                                                       streams := s.streams - {s.used[i]})
  {
    hide LocksOk, CacheOk, CanAdvance, Advance, CloseFile;
    var v := s.used[i];
    HolderAdvances(cfg, s, t);
    TriedAlone(cfg, s, t, i, k);
    var s1 := Advance(cfg, s, t);
    HolderAdvances(cfg, s1, t);
    ClosedAlone(cfg, s1, t, i, k);
    var s2 := Advance(cfg, s1, t);
    HolderAdvances(cfg, s2, t);
    ErasedAlone(cfg, s2, t, k);
    var s3 := Advance(cfg, s2, t);
    HolderAdvances(cfg, s3, t);
    ErasedAlone(cfg, s3, t, k);
    var s4 := Advance(cfg, s3, t);
    HolderAdvances(cfg, s4, t);
    ErasedAlone(cfg, s4, t, k);
    s' := Advance(cfg, s4, t);
    assert s.mutex[v := t] - {v} == s.mutex;
    FiveAlone(cfg, s, s1, s2, s3, s4, s', t);
  }

  lemma FiveAlone(cfg: Config, s: State, s1: State, s2: State, s3: State, s4: State, s5: State, t: Tid)
    requires CanAdvance(s, t) && CanAdvance(s1, t) && CanAdvance(s2, t) && CanAdvance(s3, t) && CanAdvance(s4, t)
    requires s1 == Advance(cfg, s, t) && s2 == Advance(cfg, s1, t) && s3 == Advance(cfg, s2, t)
    requires s4 == Advance(cfg, s3, t)
    requires s5 == Advance(cfg, s4, t)
    ensures Alone(cfg, s, t, 5, s5)
  {
    hide CanAdvance, Advance;
    assert Alone(cfg, s4, t, 1, s5);
    assert Alone(cfg, s3, t, 2, s5);
    assert Alone(cfg, s2, t, 3, s5);
    assert Alone(cfg, s1, t, 4, s5);
  }

  lemma TriedAlone(cfg: Config, s: State, t: Tid, i: nat, k: Key)
    requires Fetches(s, t, Scan(i), k) && i < |s.used| && s.used[i] !in s.mutex
    ensures var s' := Advance(cfg, s, t);
            && s'.mgmt == Some(t) && t in s'.threads && s'.threads[t].pc == CloseStream(i) && s'.threads[t].job.key == k
            && s'.mutex == s.mutex[s.used[i] := t] && s'.threads == s.threads[t := s'.threads[t]]
            && TableOf(s') == TableOf(s)
  {
    hide LocksOk, CacheOk;
  }

  lemma ClosedAlone(cfg: Config, s: State, t: Tid, i: nat, k: Key)
    requires Fetches(s, t, CloseStream(i), k) && CanAdvance(s, t)
    ensures i < |s.used| && s.used[i] in s.streams
    ensures var s' := Advance(cfg, s, t);
            && s'.mgmt == Some(t) && t in s'.threads && s'.threads[t].pc == EraseList(i) && s'.threads[t].job.key == k
            && s'.mutex == s.mutex && s'.threads == s.threads[t := s'.threads[t]]
            && TableOf(s') == CloseFile(TableOf(s), s.streams[s.used[i]]) && s'.streams == s.streams
            && s'.used == s.used
  {
    hide LocksOk, CacheOk, Closed, CloseFile;
    ClosesFile(s, s.streams[s.used[i]]);
  }

  lemma ClosesFile(s: State, sid: Sid)
    ensures var r := Closed(s, sid);
            TableOf(r) == CloseFile(TableOf(s), sid) && r.threads == s.threads && r.mgmt == s.mgmt && r.mutex == s.mutex
            && r.streams == s.streams && r.used == s.used
  {
    if sid in s.open {
      assert Disk(s, s.open[sid].key) == Disk(Tables(TableOf(s)), s.open[sid].key);
    }
  }

  lemma ErasedAlone(cfg: Config, s: State, t: Tid, k: Key)
    requires CanAdvance(s, t) && s.mgmt == Some(t) && s.threads[t].job.key == k
    requires s.threads[t].pc.EraseList? || s.threads[t].pc.EraseMap? || s.threads[t].pc.UnlockVictim?
    ensures var s', pc := Advance(cfg, s, t), s.threads[t].pc;
            && s'.mgmt == Some(t) && t in s'.threads && s'.threads[t].job.key == k
            && s'.threads == s.threads[t := s'.threads[t]]
            && match pc
               case EraseList(i) => && i < |s.used| && s'.threads[t].pc == EraseMap(s.used[i]) && s'.mutex == s.mutex
                                    && TableOf(s') == TableOf(s).(used := s.used[..i] + s.used[i + 1..])
               case EraseMap(v) => && s'.threads[t].pc == UnlockVictim(v) && s'.mutex == s.mutex
                                   && TableOf(s') == TableOf(s).(streams := s.streams - {v})
               case UnlockVictim(v) =>
                 s'.threads[t].pc.PushKey? && s'.mutex == s.mutex - {v} && TableOf(s') == TableOf(s)
               case _ => true
  {
  }

  lemma PassedAlone(cfg: Config, s: State, t: Tid, i: nat, k: Key)
    requires Fetches(s, t, Scan(i), k) && (i < |s.used| ==> s.used[i] in s.mutex)
    ensures CanAdvance(s, t)
    ensures var s' := Advance(cfg, s, t);
            && Fetches(s', t, if i < |s.used| then Scan(i + 1) else PushKey, k) && OnlyMoved(s, s', t)
            && TableOf(s') == TableOf(s)
  {
    hide LocksOk, CacheOk, CanAdvance, Seen;
    HolderAdvances(cfg, s, t);
  }

  /** Scanning alone is `close_older_fd` where the taken mutexes are those of the state. */
  lemma {:induction false} ScanAlone(cfg: Config, s: State, t: Tid, i: nat, k: Key) returns (n: nat, s': State)
    requires Fetches(s, t, Scan(i), k) && i <= |s.used|
    requires FirstFree(s.used, s.mutex.Keys, 0) == FirstFree(s.used, s.mutex.Keys, i)
    ensures Alone(cfg, s, t, n, s') && Fetches(s', t, PushKey, k) && OnlyMoved(s, s', t)
    ensures TableOf(s') == Evicted(TableOf(s), s.mutex.Keys)
    decreases |s.used| - i
  {
    hide LocksOk, CacheOk, CanAdvance, Advance, CloseFile;
    if i < |s.used| && s.used[i] !in s.mutex {
      s' := EvictAlone(cfg, s, t, i, k);
      n := 5;
    } else {
      PassedAlone(cfg, s, t, i, k);
      s' := Advance(cfg, s, t);
      n := 1;
      assert Alone(cfg, s', t, 0, s');
      if i < |s.used| {
        var r := s';
        n, s' := ScanAlone(cfg, r, t, i + 1, k);
        n := n + 1;
      }
    }
  }

  lemma PlacedAlone(s: State, r: State, t: Tid, pc: PC)
    requires t in s.threads && r.threads == s.threads && r.mutex == s.mutex
    ensures var s' := At(r, t, s.threads[t], pc);
            && OnlyMoved(s, s', t) && TableOf(s') == TableOf(r) && s'.mgmt == r.mgmt
            && t in s'.threads && s'.threads[t].pc == pc && s'.threads[t].job == s.threads[t].job
  {
  }

  lemma LookedAlone(cfg: Config, s: State, t: Tid, k: Key)
    requires Fetches(s, t, Lookup, k)
    ensures CanAdvance(s, t)
    ensures var s' := Advance(cfg, s, t);
            && OnlyMoved(s, s', t) && TableOf(s') == TableOf(s)
            && Fetches(s', t, if k in s.streams && s.streams[k] in s.open then ReturnStream
                              else if |s.streams| >= cfg.maxOpen then Scan(0) else PushKey, k)
  {
    hide LocksOk, CacheOk, CanAdvance, At, OnlyMoved;
    HolderAdvances(cfg, s, t);
    PlacedAlone(s, s, t, ReturnStream);
    PlacedAlone(s, s.(seen := map[]), t, Scan(0));
    PlacedAlone(s, s, t, PushKey);
  }

  lemma OpenedAlone(cfg: Config, s: State, t: Tid, k: Key) returns (s': State)
    requires Fetches(s, t, PushKey, k)
    ensures Alone(cfg, s, t, 2, s') && Fetches(s', t, ReturnStream, k) && OnlyMoved(s, s', t)
    ensures TableOf(s') == Opened(TableOf(s), k)
  {
    hide LocksOk, CacheOk, CanAdvance;
    HolderAdvances(cfg, s, t);
    var r := Advance(cfg, s, t);
    HolderAdvances(cfg, r, t);
    s' := Advance(cfg, r, t);
    assert Alone(cfg, s', t, 0, s') && Alone(cfg, r, t, 1, s');
  }

  /** The part of a fetch that opens a stream, with or without an eviction first. */
  lemma OpenAlone(cfg: Config, s: State, t: Tid, k: Key, evict: bool) returns (n: nat, s': State)
    requires Fetches(s, t, if evict then Scan(0) else PushKey, k)
    ensures Alone(cfg, s, t, n, s') && Fetches(s', t, ReturnStream, k) && OnlyMoved(s, s', t)
    ensures TableOf(s') == Opened(if evict then Evicted(TableOf(s), s.mutex.Keys) else TableOf(s), k)
  {
    hide LocksOk, CacheOk, CanAdvance, Advance, Evicted, Opened, Alone;
    if evict {
      var q: State;
      n, q := ScanAlone(cfg, s, t, 0, k);
      s' := OpenedAlone(cfg, q, t, k);
      AloneThen(cfg, s, t, n, q, 2, s');
      n := n + 2;
    } else {
      s' := OpenedAlone(cfg, s, t, k);
      n := 2;
    }
  }

  /** Fetching alone is `get_or_open_log_stream`, and leaves every mutex as it was. */
  lemma FetchAlone(cfg: Config, s: State, t: Tid, k: Key) returns (n: nat, s': State)
    requires Fetches(s, t, Lookup, k)
    ensures Alone(cfg, s, t, n, s') && Fetches(s', t, ReturnStream, k) && OnlyMoved(s, s', t)
    ensures TableOf(s') == Fetched(TableOf(s), cfg.maxOpen, s.mutex.Keys, k)
  {
    hide LocksOk, CacheOk, CanAdvance, Advance, Evicted, Opened;
    LookedAlone(cfg, s, t, k);
    var r := Advance(cfg, s, t);
    if k in s.streams && s.streams[k] in s.open {
      n, s' := 0, r;
    } else {
      n, s' := OpenAlone(cfg, r, t, k, |s.streams| >= cfg.maxOpen);
    }
    n := n + 1;
  }

  lemma {:induction false} AloneThen(cfg: Config, s: State, t: Tid, m: nat, q: State, n: nat, s': State)
    requires Alone(cfg, s, t, m, q) && Alone(cfg, q, t, n, s')
    ensures Alone(cfg, s, t, m + n, s')
    decreases m
  {
    hide CanAdvance, Advance;
    if m > 0 {
      Inside(s, t);
      AloneThen(cfg, Advance(cfg, s, t), t, m - 1, q, n, s');
    }
  }
}
