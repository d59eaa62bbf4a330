/**
 The map of open streams and the list of opened keys: outside the management mutex they
 agree, hold one open stream per key, and the list is in order of opening.
 */
module LoggerCache {
  import opened Text
  import opened LogCodec
  import opened LoggerProtocol
  import opened LoggerLocks

  /** The shared structures that the management mutex protects. */
  datatype Cache = Cache(streams: map<Key, Sid>, used: seq<Key>, open: map<Sid, Stream>, next: Sid)

  function CacheOf(s: State): Cache {
    Cache(s.streams, s.used, s.open, s.next)
  }

  /** The statement the holder of the management mutex is at; `Idle` when it is free. */
  function MgmtPC(s: State): PC {
    if s.mgmt.Some? && s.mgmt.value in s.threads then s.threads[s.mgmt.value].pc else Idle
  }

  function MgmtKey(s: State): Key {
    if s.mgmt.Some? && s.mgmt.value in s.threads then s.threads[s.mgmt.value].job.key else Key("")
  }

  /** The key that is mapped but no longer listed. */
  function Unlisted(pc: PC): Option<Key> {
    match pc case EraseMap(v) => Some(v) case _ => None
  }

  /** The key that is listed but not yet mapped. */
  function Unmapped(pc: PC, own: Key): Option<Key> {
    if pc.OpenFile? then Some(own) else None
  }

  /** The key whose stream is closed but still mapped. */
  function Closing(used: seq<Key>, pc: PC): Option<Key> {
    match pc
    case EraseList(i) => if i < |used| then Some(used[i]) else None
    case EraseMap(v) => Some(v)
    case _ => None
  }

  ghost predicate NoDuplicates(ks: seq<Key>) {
    forall i, j :: 0 <= i < j < |ks| ==> ks[i] != ks[j]
  }

  /** The list holds the mapped keys, up to the one an eviction or an opening is busy with. */
  ghost predicate Listed(c: Cache, pc: PC, own: Key) {
    && NoDuplicates(c.used)
    && forall k :: k in c.used <==> (k in c.streams && Unlisted(pc) != Some(k)) || Unmapped(pc, own) == Some(k)
  }

  /** Mapped streams are open, except the one being evicted, and belong to their keys. */
  ghost predicate Mapped(c: Cache, pc: PC) {
    && (forall k :: k in c.streams ==> c.streams[k] < c.next)
    && (forall k :: k in c.streams && Closing(c.used, pc) != Some(k) ==>
          c.streams[k] in c.open && c.open[c.streams[k]].key == k)
    && (forall k :: k in c.streams && Closing(c.used, pc) == Some(k) ==> c.streams[k] !in c.open)
    && (forall i :: i in c.open ==> i < c.next && c.open[i].key in c.streams && c.streams[c.open[i].key] == i)
  }

  /** The list is in order of opening. */
  ghost predicate InOrder(c: Cache) {
    forall i, j :: 0 <= i < j < |c.used| && c.used[i] in c.streams && c.used[j] in c.streams ==>
      c.streams[c.used[i]] < c.streams[c.used[j]]
  }

  /** What the holder of the management mutex may rely on. */
  ghost predicate HolderOk(c: Cache, pc: PC, own: Key) {
    match pc
    case Scan(i) => i <= |c.used| && own !in c.streams
    case CloseStream(i) => i < |c.used| && own !in c.streams
    case EraseList(i) => i < |c.used| && own !in c.streams
    case EraseMap(v) => v in c.streams && own !in c.streams
    case UnlockVictim(_) => own !in c.streams
    case PushKey => own !in c.streams
    case OpenFile => own !in c.streams && |c.used| > 0 && c.used[|c.used| - 1] == own
    case ReturnStream => own in c.streams
    case _ => true
  }

  ghost predicate Fits(c: Cache, pc: PC, own: Key) {
    Listed(c, pc, own) && Mapped(c, pc) && InOrder(c) && HolderOk(c, pc, own)
  }

  ghost predicate CacheOk(s: State) {
    Fits(CacheOf(s), MgmtPC(s), MgmtKey(s))
  }

  /** No eviction or opening is going on at these statements. */
  predicate Settled(pc: PC) {
    !pc.EraseList? && !pc.EraseMap? && !pc.OpenFile?
  }

  // ---------- the statements on the shared structures ----------

  lemma FitsSettled(c: Cache, pc: PC, own: Key, pc': PC, own': Key)
    requires Fits(c, pc, own) && Settled(pc) && Settled(pc')
    requires HolderOk(c, pc', own')
    ensures Fits(c, pc', own')
  {
    SettledPending(c.used, pc, own);
    SettledPending(c.used, pc', own');
    hide Settled, Unlisted, Unmapped, Closing, HolderOk;
  }

  lemma SettledPending(used: seq<Key>, pc: PC, own: Key)
    requires Settled(pc)
    ensures Unlisted(pc).None? && Unmapped(pc, own).None? && Closing(used, pc).None?
  {
  }

  lemma FitsClose(c: Cache, i: nat, own: Key)
    requires Fits(c, CloseStream(i), own)
    ensures i < |c.used| && c.used[i] in c.streams && c.streams[c.used[i]] in c.open
    ensures Fits(c.(open := c.open - {c.streams[c.used[i]]}), EraseList(i), own)
  {
    assert c.used[i] in c.used;
  }

  lemma Without(ks: seq<Key>, i: nat)
    requires NoDuplicates(ks) && i < |ks|
    ensures var r := ks[..i] + ks[i + 1..];
            NoDuplicates(r) && forall k :: k in r <==> k in ks && k != ks[i]
  {
    var r := ks[..i] + ks[i + 1..];
    assert forall j :: 0 <= j < |r| ==> r[j] == ks[if j < i then j else j + 1];
    forall k | k in ks && k != ks[i] ensures k in r {
      var j :| 0 <= j < |ks| && ks[j] == k;
      assert r[if j < i then j else j - 1] == k;
    }
  }

  lemma FitsUnlist(c: Cache, i: nat, own: Key)
    requires Fits(c, EraseList(i), own)
    ensures Fits(c.(used := c.used[..i] + c.used[i + 1..]), EraseMap(c.used[i]), own)
  {
    var c' := c.(used := c.used[..i] + c.used[i + 1..]);
    assert c.used[i] in c.used;
    Without(c.used, i);
    OrderWithout(c, i);
    hide InOrder;
  }

  lemma OrderWithout(c: Cache, i: nat)
    requires InOrder(c) && i < |c.used|
    ensures InOrder(c.(used := c.used[..i] + c.used[i + 1..]))
  {
    var c' := c.(used := c.used[..i] + c.used[i + 1..]);
    assert forall j :: 0 <= j < |c'.used| ==> c'.used[j] == c.used[if j < i then j else j + 1];
  }

  lemma FitsUnmap(c: Cache, v: Key, own: Key)
    requires Fits(c, EraseMap(v), own)
    ensures Fits(c.(streams := c.streams - {v}), UnlockVictim(v), own)
  {
  }

  lemma FitsList(c: Cache, own: Key)
    requires Fits(c, PushKey, own)
    ensures Fits(c.(used := c.used + [own]), OpenFile, own)
  {
    var c' := c.(used := c.used + [own]);
    assert own !in c.used;
    assert forall k :: k in c'.used <==> k in c.used || k == own;
  }

  lemma FitsOpen(c: Cache, own: Key)
    requires Fits(c, OpenFile, own)
    ensures Fits(Cache(c.streams[own := c.next], c.used, c.open[c.next := Stream(own, "")], c.next + 1),
                 ReturnStream, own)
  {
    var n := |c.used| - 1;
    assert forall i :: 0 <= i < n ==> c.used[i] != own;
  }

  /** The buffers play no part. */
  lemma FitsBuffers(c: Cache, c': Cache, pc: PC, own: Key)
    requires Fits(c, pc, own)
    requires c'.streams == c.streams && c'.used == c.used && c'.next == c.next
    requires c'.open.Keys == c.open.Keys && forall i :: i in c.open ==> c'.open[i].key == c.open[i].key
    ensures Fits(c', pc, own)
  {
  }

  // ---------- the statements on the state ----------

  lemma CacheInit(s: State)
    requires Init(s)
    ensures CacheOk(s)
  {
  }

  /** Under the management mutex only the holder's statement counts. */
  lemma HolderMoves(s: State, r: State, t: Tid, th: Thread, pc: PC)
    requires t in s.threads && s.mgmt == Some(t)
    requires r.threads == s.threads && r.mgmt == s.mgmt && th.job == s.threads[t].job
    ensures CacheOf(At(r, t, th, pc)) == CacheOf(r)
    ensures MgmtPC(s) == s.threads[t].pc && MgmtKey(s) == th.job.key
    ensures MgmtPC(At(r, t, th, pc)) == pc && MgmtKey(At(r, t, th, pc)) == th.job.key
  {
  }

  /** Outside the management mutex a thread does not touch the cache, but for the buffers. */
  lemma OthersMove(s: State, r: State, t: Tid, th: Thread, pc: PC)
    requires CacheOk(s) && t in s.threads && s.mgmt != Some(t)
    requires r.threads == s.threads && r.mgmt == s.mgmt
    requires r.streams == s.streams && r.used == s.used && r.next == s.next
    requires r.open.Keys == s.open.Keys && forall i :: i in s.open ==> r.open[i].key == s.open[i].key
    ensures CacheOk(At(r, t, th, pc))
  {
    FitsBuffers(CacheOf(s), CacheOf(r), MgmtPC(s), MgmtKey(s));
    assert MgmtPC(At(r, t, th, pc)) == MgmtPC(s) && MgmtKey(At(r, t, th, pc)) == MgmtKey(s);
  }

  lemma EnterCache(s: State, t: Tid)
    requires CacheOk(s) && t in s.threads && s.mgmt.None?
    ensures CacheOk(At(s.(mgmt := Some(t)), t, s.threads[t], Lookup))
  {
    FitsSettled(CacheOf(s), Idle, MgmtKey(s), Lookup, s.threads[t].job.key);
  }

  lemma LookupCache(cfg: Config, s: State, t: Tid)
    requires CacheOk(s) && t in s.threads && s.mgmt == Some(t) && s.threads[t].pc.Lookup?
    ensures CacheOk(LookupKey(cfg, s, t, s.threads[t]))
  {
    hide Fits, Settled, HolderOk;
    var th, c := s.threads[t], CacheOf(s);
    var k := th.job.key;
    FitsLookup(c, k);
    HolderMoves(s, s, t, th, ReturnStream);
    HolderMoves(s, s.(seen := map[]), t, th, Scan(0));
    HolderMoves(s, s, t, th, PushKey);
    hide At;
  }

  lemma FitsLookup(c: Cache, own: Key)
    requires Fits(c, Lookup, own)
    ensures if own in c.streams && c.streams[own] in c.open then Fits(c, ReturnStream, own)
            else Fits(c, Scan(0), own) && Fits(c, PushKey, own)
  {
    if own in c.streams && c.streams[own] in c.open {
      FitsSettled(c, Lookup, own, ReturnStream, own);
    } else {
      FitsSettled(c, Lookup, own, Scan(0), own);
      FitsSettled(c, Lookup, own, PushKey, own);
    }
  }

  lemma TryCache(s: State, t: Tid)
    requires CacheOk(s) && t in s.threads && s.mgmt == Some(t) && s.threads[t].pc.Scan?
    ensures CacheOk(TryVictim(s, t, s.threads[t], s.threads[t].pc.i))
  {
    hide Listed, Mapped, InOrder;
    var th, c := s.threads[t], CacheOf(s);
    var i, k := th.pc.i, th.job.key;
    if i >= |s.used| {
      HolderMoves(s, s, t, th, PushKey);
      FitsSettled(c, th.pc, k, PushKey, k);
    } else if s.used[i] in s.mutex {
      var h := s.mutex[s.used[i]];
      HolderMoves(s, s.(seen := s.seen[h := Seen(s, h) + {s.used[i]}]), t, th, Scan(i + 1));
      FitsSettled(c, th.pc, k, Scan(i + 1), k);
    } else {
      HolderMoves(s, s.(mutex := s.mutex[s.used[i] := t]), t, th, CloseStream(i));
      FitsSettled(c, th.pc, k, CloseStream(i), k);
    }
  }

  lemma CloseCache(s: State, t: Tid)
    requires CacheOk(s) && t in s.threads && s.mgmt == Some(t) && s.threads[t].pc.CloseStream?
    ensures CacheOk(CloseVictim(s, t, s.threads[t], s.threads[t].pc.i))
  {
    hide Fits;
    var th, c := s.threads[t], CacheOf(s);
    FitsClose(c, th.pc.i, th.job.key);
    HolderMoves(s, Closed(s, s.streams[s.used[th.pc.i]]), t, th, EraseList(th.pc.i));
    ClosedCache(s, s.streams[s.used[th.pc.i]]);
  }

  lemma ClosedCache(s: State, sid: Sid)
    requires sid in s.open
    ensures var r := Closed(s, sid);
            CacheOf(r) == CacheOf(s).(open := s.open - {sid}) && r.threads == s.threads && r.mgmt == s.mgmt
  {
    assert Closed(s, sid).open == s.open - {sid};
  }

  lemma UnlistCache(s: State, t: Tid)
    requires CacheOk(s) && t in s.threads && s.mgmt == Some(t) && s.threads[t].pc.EraseList?
    ensures CacheOk(UnlistVictim(s, t, s.threads[t], s.threads[t].pc.i))
  {
    hide Listed, Mapped, InOrder;
    var th, i := s.threads[t], s.threads[t].pc.i;
    FitsUnlist(CacheOf(s), i, th.job.key);
    HolderMoves(s, s.(used := s.used[..i] + s.used[i + 1..]), t, th, EraseMap(s.used[i]));
  }

  lemma UnmapCache(s: State, t: Tid)
    requires CacheOk(s) && t in s.threads && s.mgmt == Some(t) && s.threads[t].pc.EraseMap?
    ensures CacheOk(UnmapVictim(s, t, s.threads[t], s.threads[t].pc.victim))
  {
    hide Fits;
    var th, v := s.threads[t], s.threads[t].pc.victim;
    FitsUnmap(CacheOf(s), v, th.job.key);
    HolderMoves(s, s.(streams := s.streams - {v}), t, th, UnlockVictim(v));
  }

  lemma ReleaseCache(s: State, t: Tid)
    requires CacheOk(s) && t in s.threads && s.mgmt == Some(t) && s.threads[t].pc.UnlockVictim?
    ensures CacheOk(ReleaseVictim(s, t, s.threads[t], s.threads[t].pc.victim))
  {
    hide Listed, Mapped, InOrder;
    var th, v := s.threads[t], s.threads[t].pc.victim;
    HolderMoves(s, s.(mutex := s.mutex - {v}), t, th, PushKey);
    FitsSettled(CacheOf(s), th.pc, th.job.key, PushKey, th.job.key);
  }

  lemma ListCache(s: State, t: Tid)
    requires CacheOk(s) && t in s.threads && s.mgmt == Some(t) && s.threads[t].pc.PushKey?
    ensures CacheOk(ListKey(s, t, s.threads[t]))
  {
    hide Fits;
    var th := s.threads[t];
    FitsList(CacheOf(s), th.job.key);
    HolderMoves(s, s.(used := s.used + [th.job.key]), t, th, OpenFile);
  }

  lemma OpenCache(s: State, t: Tid)
    requires CacheOk(s) && t in s.threads && s.mgmt == Some(t) && s.threads[t].pc.OpenFile?
    ensures CacheOk(OpenStream(s, t, s.threads[t]))
  {
    hide Fits;
    var th := s.threads[t];
    FitsOpen(CacheOf(s), th.job.key);
    HolderMoves(s, OpenStream(s, t, th).(threads := s.threads), t, th, ReturnStream);
  }

  lemma TakeCache(s: State, t: Tid)
    requires CacheOk(s) && t in s.threads && s.mgmt == Some(t) && s.threads[t].pc.ReturnStream?
    ensures CacheOk(TakeStream(s, t, s.threads[t]))
  {
    hide Listed, Mapped, InOrder;
    var th := s.threads[t];
    FitsSettled(CacheOf(s), ReturnStream, th.job.key, Idle, Key(""));
  }

  /** Every statement keeps the cache in order. */
  lemma CacheStep(cfg: Config, s: State, t: Tid)
    requires LocksOk(s) && CacheOk(s) && CanAdvance(s, t)
    ensures CacheOk(Advance(cfg, s, t))
  {
    hide LocksOk, CacheOk, LookupKey, TryVictim, CloseVictim, UnlistVictim, UnmapVictim, CanAdvance,
         ReleaseVictim, ListKey, OpenStream, TakeStream, LockKey, EncodeNow, WriteHeader, WriteEntry,
         FlushStream, ReadEntry, Leave;
    Inside(s, t);
    ThreadLocksOf(s, t);
    match s.threads[t].pc {
      case WantMgmt => EnterFree(s, t); EnterCache(s, t);
      case Lookup => LookupCache(cfg, s, t);
      case Scan(_) => TryCache(s, t);
      case CloseStream(_) => CloseCache(s, t);
      case EraseList(_) => UnlistCache(s, t);
      case EraseMap(_) => UnmapCache(s, t);
      case UnlockVictim(_) => ReleaseCache(s, t);
      case PushKey => ListCache(s, t);
      case OpenFile => OpenCache(s, t);
      case ReturnStream => TakeCache(s, t);
      case _ => OtherCache(cfg, s, t);
    }
  }

  lemma EnterFree(s: State, t: Tid)
    requires CanAdvance(s, t) && s.threads[t].pc.WantMgmt?
    ensures s.mgmt.None?
  {
  }

  lemma OtherCache(cfg: Config, s: State, t: Tid)
    requires CacheOk(s) && CanAdvance(s, t) && s.mgmt != Some(t)
    requires (WithKey(s.threads[t].pc) || s.threads[t].pc.WantKey?)
    ensures CacheOk(Advance(cfg, s, t))
  {
    hide CacheOk, LockKey, EncodeNow, WriteHeader, WriteEntry, FlushStream, ReadEntry, Leave;
    var th := s.threads[t];
    match th.pc {
      case WantKey => LockCache(s, t);
      case Recheck => OthersMove(s, s, t, th, if th.stream in s.open then Stamp else WantMgmt);
      case Stamp => EncodeCache(s, t);
      case WriteSize | WriteBody => WriteCache(s, t);
      case Flush => FlushCache(s, t);
      case ReadFrame(pos) => ReadCache(s, t, pos);
      case UnlockKey => LeaveCache(s, t);
    }
  }

  lemma LockCache(s: State, t: Tid)
    requires CacheOk(s) && t in s.threads && s.mgmt != Some(t)
    ensures CacheOk(LockKey(s, t, s.threads[t]))
  {
    hide CacheOk, Acquired;
    var th, r := s.threads[t], LockKey(s, t, s.threads[t]);
    OthersMove(s, r.(threads := s.threads), t, th.(holding := true), r.threads[t].pc);
    assert r == At(r.(threads := s.threads), t, th.(holding := true), r.threads[t].pc);
  }

  lemma EncodeCache(s: State, t: Tid)
    requires CacheOk(s) && t in s.threads && s.mgmt != Some(t)
    ensures CacheOk(EncodeNow(s, t, s.threads[t]))
  {
    hide CacheOk;
    var th := s.threads[t];
    if th.job.LogJob? {
      OthersMove(s, s, t, th.(record := LogRecord(s.clock, th.job.call)), WriteSize);
    }
  }

  lemma WriteCache(s: State, t: Tid)
    requires CacheOk(s) && t in s.threads && s.mgmt != Some(t)
    ensures CacheOk(WriteHeader(s, t, s.threads[t])) && CacheOk(WriteEntry(s, t, s.threads[t]))
  {
    hide CacheOk, LittleEndian, EncodeEntry, At, WrittenTo;
    var th := s.threads[t];
    BytesCache(s, t, LittleEndian(|EncodeEntry(th.record)|, 8), WriteBody);
    BytesCache(s, t, EncodeEntry(th.record), UnlockKey);
  }

  lemma BytesCache(s: State, t: Tid, bytes: string, pc: PC)
    requires CacheOk(s) && t in s.threads && s.mgmt != Some(t)
    ensures CacheOk(At(WrittenTo(s, s.threads[t].stream, bytes), t, s.threads[t], pc))
  {
    hide CacheOk, WrittenTo;
    WrittenCache(s, s.threads[t].stream, bytes);
    OthersMove(s, WrittenTo(s, s.threads[t].stream, bytes), t, s.threads[t], pc);
  }

  lemma WrittenCache(s: State, sid: Sid, bytes: string)
    ensures var r := WrittenTo(s, sid, bytes);
            && r.threads == s.threads && r.mgmt == s.mgmt && r.streams == s.streams && r.used == s.used
            && r.next == s.next
            && r.open.Keys == s.open.Keys && forall i :: i in s.open ==> r.open[i].key == s.open[i].key
  {
    if sid in s.open {
      var st := s.open[sid];
      var r := s.open[sid := st.(buffer := st.buffer + bytes)];
      assert WrittenTo(s, sid, bytes) == s.(open := r);
      hide WrittenTo;
      assert r.Keys == s.open.Keys;
    }
  }

  lemma FlushCache(s: State, t: Tid)
    requires CacheOk(s) && t in s.threads && s.mgmt != Some(t)
    ensures CacheOk(FlushStream(s, t, s.threads[t]))
  {
    hide CacheOk, Disk;
    var th := s.threads[t];
    if th.stream in s.open {
      OthersMove(s, Drained(s, th.stream, |s.open[th.stream].buffer|), t, th, ReadFrame(0));
    } else {
      OthersMove(s, s, t, th, UnlockKey);
    }
  }

  lemma ReadCache(s: State, t: Tid, pos: nat)
    requires CacheOk(s) && t in s.threads && s.mgmt != Some(t)
    ensures CacheOk(ReadEntry(s, t, s.threads[t], pos))
  {
    hide CacheOk, LittleEndianValue, EntryAt, Disk;
    var th, file := s.threads[t], Disk(s, s.threads[t].job.key);
    if pos + 8 > |file| {
      OthersMove(s, s, t, th, UnlockKey);
    } else {
      var size := LittleEndianValue(file[pos..pos + 8]);
      OthersMove(s, s, t, th.(got := th.got + [EntryAt(file, pos + 8, size)]), ReadFrame(pos + 8 + size));
    }
  }

  lemma LeaveCache(s: State, t: Tid)
    requires CacheOk(s) && t in s.threads && s.mgmt != Some(t)
    ensures CacheOk(Leave(s, t, s.threads[t]))
  {
    hide CacheOk, Finished;
    var th, r := s.threads[t], Leave(s, t, s.threads[t]);
    OthersMove(s, r.(threads := s.threads), t, th.(holding := false), Idle);
    assert r == At(r.(threads := s.threads), t, th.(holding := false), Idle);
  }

  lemma CacheBegin(cfg: Config, s: State, t: Tid, job: Job)
    requires LocksOk(s) && CacheOk(s) && MayBegin(cfg, s, t, job)
    ensures CacheOk(Begin(s, t, job))
  {
    assert ThreadLocks(s, t);
    OthersMove(s, s, t, s.threads[t].(job := job, got := []), if job.LogJob? then WantMgmt else WantKey);
  }

  /** Together, locks and cache leave no statement without a defined behaviour. */
  lemma NeverFaulty(s: State, t: Tid)
    requires LocksOk(s) && CacheOk(s) && t in s.threads
    ensures !Faulty(s, t) && OwnKeyUnlisted(s, t)
  {
    var th := s.threads[t];
    assert ThreadLocks(s, t);
    if InMgmt(th.pc) {
      assert MgmtPC(s) == th.pc && MgmtKey(s) == th.job.key;
      if th.pc.CloseStream? {
        FitsClose(CacheOf(s), th.pc.i, th.job.key);
      }
    }
    LocksNoFault(s, t);
  }
}
