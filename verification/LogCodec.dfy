/**
 The binary log of logger.hpp: one entry per logged query, each preceded by its size.

 A byte is a `char`; the machine is little-endian, with 64-bit `size_t` and timestamps.
 */
module LogCodec {
  import opened Text
  import opened Numbers

  /** What a caller asks to be logged, and the record with the time it was written. */
  datatype LogCall = LogCall(user: string, cmd: string, valid: bool, newValue: string)
  datatype LogRecord = LogRecord(timestamp: int, call: LogCall)

  // ---------- operation codes ----------

  function OperationCode(cmd: string): (c: nat)
    ensures c < 8
  {
    if cmd == "get" then 1 else if cmd == "put" then 2 else if cmd == "delete" then 3
    else if cmd == "getm" then 4 else if cmd == "putm" then 5 else if cmd == "getLogs" then 6
    else 0
  }

  function OperationName(code: nat): string {
    if code == 1 then "get" else if code == 2 then "put" else if code == 3 then "delete"
    else if code == 4 then "getm" else if code == 5 then "putm" else if code == 6 then "getLogs"
    else "invalid_op"
  }

  const COMMANDS: set<string> := {"get", "put", "delete", "getm", "putm", "getLogs"}

  /** The three code bits and the verdict bit in one byte. */
  function Pack(cmd: string, valid: bool): (c: char)
    ensures c as int < 16
  {
    (2 * OperationCode(cmd) + (if valid then 1 else 0)) as char
  }

  function UnpackName(c: char): string {
    OperationName(c as int / 2 % 8)
  }

  function UnpackValid(c: char): bool {
    c as int % 2 == 1
  }

  /** Exactly the six commands of the table survive packing; any other reads as invalid. */
  lemma PackRoundTrip(cmd: string, valid: bool)
    ensures UnpackValid(Pack(cmd, valid)) == valid
    ensures UnpackName(Pack(cmd, valid)) == if cmd in COMMANDS then cmd else "invalid_op"
  {
  }

  // ---------- fixed-width integers ----------

  function Pow256(n: nat): (p: nat)
    ensures p > 0
  {
    if n == 0 then 1 else 256 * Pow256(n - 1)
  }

  function LittleEndian(n: nat, len: nat): (s: string)
    ensures |s| == len
  {
    if len == 0 then "" else [(n % 256) as char] + LittleEndian(n / 256, len - 1)
  }

  function LittleEndianValue(s: string): nat {
    if s == "" then 0 else s[0] as int + 256 * LittleEndianValue(s[1..])
  }

  lemma {:induction false} LittleEndianRoundTrip(n: nat, len: nat)
    requires n < Pow256(len)
    ensures LittleEndianValue(LittleEndian(n, len)) == n
  {
    if len > 0 {
      LittleEndianRoundTrip(n / 256, len - 1);
      assert LittleEndian(n, len)[1..] == LittleEndian(n / 256, len - 1);
    }
  }

  lemma Pow256Is64()
    ensures Pow256(8) == U64
  {
    assert Pow256(2) == 65536;
    assert Pow256(4) == 4294967296;
    assert Pow256(6) == 65536 * Pow256(4);
  }

  function TimestampBytes(t: int): (s: string)
    ensures |s| == 8
  {
    LittleEndian(t % U64, 8)
  }

  function TimestampValue(s: string): int {
    Wrap64(LittleEndianValue(s))
  }

  lemma TimestampRoundTrip(t: int)
    requires -I64 <= t < I64
    ensures TimestampValue(TimestampBytes(t)) == t
  {
    hide LittleEndian, LittleEndianValue, Pow256;
    Pow256Is64();
    LittleEndianRoundTrip(t % U64, 8);
  }

  lemma SizeRoundTrip(n: nat)
    requires n < U64
    ensures LittleEndianValue(LittleEndian(n, 8)) == n
  {
    hide LittleEndian, LittleEndianValue, Pow256;
    Pow256Is64();
    LittleEndianRoundTrip(n, 8);
  }

  // ---------- one entry ----------

  function EncodeEntry(r: LogRecord): (e: string)
    ensures |e| == 8 + |r.call.user| + 1 + |r.call.newValue| + 3
  {
    TimestampBytes(r.timestamp) + "," + r.call.user + "," + [Pack(r.call.cmd, r.call.valid)] + "," + r.call.newValue
  }

  /** `memcpy` at the offset, which then moves past the copied bytes. */
  method Append(buffer: array<char>, offset: nat, s: string) returns (next: nat)
    requires offset + |s| <= buffer.Length
    modifies buffer
    ensures next == offset + |s|
    ensures buffer[..next] == old(buffer[..offset]) + s
  {
    for k := 0 to |s|
      invariant forall i :: 0 <= i < offset ==> buffer[i] == old(buffer[i])
      invariant forall i :: 0 <= i < k ==> buffer[offset + i] == s[i]
    {
      buffer[offset + k] := s[k];
    }
    next := offset + |s|;
  }

  /** The encoder fills a buffer of the computed size by moving an offset. */
  method FillEntry(timestamp: int, call: LogCall) returns (buffer: array<char>)
    ensures fresh(buffer)
    ensures buffer[..] == EncodeEntry(LogRecord(timestamp, call))
  {
    hide TimestampBytes, Pack;
    ghost var time := TimestampBytes(timestamp);
    var size := 8 + |call.user| + 1 + |call.newValue| + 3;
    buffer := new char[size](_ => 0 as char);
    var offset := Append(buffer, 0, TimestampBytes(timestamp));
    assert buffer[..offset] == time;
    offset := Append(buffer, offset, ",");
    offset := Append(buffer, offset, call.user);
    assert buffer[..offset] == time + "," + call.user;
    offset := Append(buffer, offset, ",");
    offset := Append(buffer, offset, [Pack(call.cmd, call.valid)]);
    offset := Append(buffer, offset, ",");
    assert buffer[..offset] == time + "," + call.user + "," + [Pack(call.cmd, call.valid)] + ",";
    if call.newValue != "" {
      offset := Append(buffer, offset, call.newValue);
    }
    assert buffer[..] == buffer[..offset];
  }

  /** What a reader is shown; `Undefined` is an entry the decoder has no meaning for. */
  datatype Decoded =
    | Blank
    | Shown(timestamp: int, user: string, operation: string, valid: bool, newValue: string)
    | Undefined

  /** The fields of one entry, blanked when it is later than the threshold. */
  function DecodeEntry(entry: string, threshold: int): Decoded {
    if |entry| < 8 then Undefined
    else if TimestampValue(entry[..8]) > threshold then Blank
    else
      var userEnd := Find(entry, ',', 9);
      if userEnd == -1 || userEnd + 1 == |entry| then Undefined
      else
        var end := Find(entry, ',', userEnd + 1);
        if end == -1 then Undefined
        else
          var packed := entry[userEnd + 1];
          Shown(TimestampValue(entry[..8]), entry[9..userEnd], UnpackName(packed), UnpackValid(packed),
                entry[end + 1..])
  }

  /** What a reader is meant to see of a record. */
  function View(r: LogRecord, threshold: int): Decoded {
    if r.timestamp > threshold then Blank
    else Shown(r.timestamp, r.call.user,
               if r.call.cmd in COMMANDS then r.call.cmd else "invalid_op",
               r.call.valid, r.call.newValue)
  }

  lemma EntryShape(r: LogRecord)
    ensures var e, n := EncodeEntry(r), |r.call.user|;
            && |e| >= 12 + n && e[..8] == TimestampBytes(r.timestamp) && e[9..9 + n] == r.call.user
            && e[9 + n] == ',' && e[10 + n] == Pack(r.call.cmd, r.call.valid) && e[11 + n] == ','
            && e[12 + n..] == r.call.newValue
  {
  }

  /** The timestamp always survives, so that the threshold blanks exactly the later entries. */
  lemma BlankExactly(r: LogRecord, threshold: int)
    requires -I64 <= r.timestamp < I64
    ensures DecodeEntry(EncodeEntry(r), threshold) == Blank <==> r.timestamp > threshold
  {
    EntryShape(r);
    TimestampRoundTrip(r.timestamp);
  }

  /**
   An entry that is not blanked reads back as written exactly when its user key is
   comma-free; its timestamp bytes and its value may hold any characters.
   */
  lemma EntryRoundTrip(r: LogRecord, threshold: int)
    requires -I64 <= r.timestamp < I64 && r.timestamp <= threshold
    ensures DecodeEntry(EncodeEntry(r), threshold) == View(r, threshold) <==> ',' !in r.call.user
  {
    hide TimestampBytes, TimestampValue, EncodeEntry, UnpackName, UnpackValid;
    EntryShape(r);
    TimestampRoundTrip(r.timestamp);
    PackRoundTrip(r.call.cmd, r.call.valid);
    var e, n := EncodeEntry(r), |r.call.user|;
    if ',' !in r.call.user {
      FindIs(e, ',', 9, 9 + n);
      assert ',' !in e[10 + n..11 + n] by { assert e[10 + n..11 + n] == [e[10 + n]]; }
      FindIs(e, ',', 10 + n, 11 + n);
    } else {
      CommaInUser(e, 9, 9 + n);
    }
  }

  lemma CommaInUser(e: string, from: nat, to: nat)
    requires from <= to <= |e| && ',' in e[from..to]
    ensures from <= Find(e, ',', from) < to
  {
    var i :| 0 <= i < to - from && e[from..to][i] == ',';
    assert e[from + i] == ',' && e[from..][i] == ',';
    AbsentAt(e, ',', from, if Find(e, ',', from) < 0 then |e| else Find(e, ',', from));
  }

  // ---------- the file ----------

  function Frame(entry: string): string {
    LittleEndian(|entry|, 8) + entry
  }

  function Frames(entries: seq<string>): string {
    if entries == [] then "" else Frame(entries[0]) + Frames(entries[1..])
  }

  lemma {:induction false} FramesAppend(a: seq<string>, b: seq<string>)
    ensures Frames(a + b) == Frames(a) + Frames(b)
  {
    if a == [] {
      assert a + b == b;
    } else {
      assert (a + b)[1..] == a[1..] + b;
      FramesAppend(a[1..], b);
    }
  }

  predicate Sized(entries: seq<string>) {
    forall i :: 0 <= i < |entries| ==> |entries[i]| < U64
  }

  /** `read_log_entry`: a buffer of the announced size, however much the file still holds. */
  function EntryAt(file: string, pos: nat, size: nat): (e: string)
    requires pos <= |file|
    ensures |e| == size
  {
    if pos + size <= |file| then file[pos..pos + size]
    else file[pos..] + seq(size - (|file| - pos), _ => 0 as char)
  }

  /** The entries read from a position on. */
  function EntriesFrom(file: string, pos: nat): seq<string>
    requires pos <= |file|
    decreases |file| - pos
  {
    if pos + 8 > |file| then []
    else
      var size := LittleEndianValue(file[pos..pos + 8]);
      var next := pos + 8 + size;
      [EntryAt(file, pos + 8, size)] + (if next <= |file| then EntriesFrom(file, next) else [])
  }

  function DecodeAll(entries: seq<string>, threshold: int): (r: seq<Decoded>)
    ensures |r| == |entries|
    ensures forall i :: 0 <= i < |entries| ==> r[i] == DecodeEntry(entries[i], threshold)
  {
    if entries == [] then [] else [DecodeEntry(entries[0], threshold)] + DecodeAll(entries[1..], threshold)
  }

  /** The entries decoded from a position on. */
  function DecodedFrom(file: string, pos: nat, threshold: int): seq<Decoded>
    requires pos <= |file|
  {
    DecodeAll(EntriesFrom(file, pos), threshold)
  }

  lemma DecodedStep(file: string, pos: nat, threshold: int)
    requires pos + 8 <= |file|
    ensures var size := LittleEndianValue(file[pos..pos + 8]);
            var next := pos + 8 + size;
            DecodedFrom(file, pos, threshold) ==
            [DecodeEntry(EntryAt(file, pos + 8, size), threshold)]
            + DecodedFrom(file, if next <= |file| then next else |file|, threshold)
  {
    hide LittleEndianValue, DecodeEntry, EntryAt;
    var size := LittleEndianValue(file[pos..pos + 8]);
    var next := pos + 8 + size;
    var rest := if next <= |file| then EntriesFrom(file, next) else [];
    assert EntriesFrom(file, pos)[1..] == rest;
  }

  /** `read_and_decode_log_entries`: frame after frame until no size can be read. */
  method ReadAndDecode(file: string, threshold: int) returns (shown: seq<Decoded>)
    ensures shown == DecodedFrom(file, 0, threshold)
  {
    hide LittleEndianValue, DecodeEntry, EntryAt, DecodedFrom;
    shown := [];
    var pos: nat := 0;
    while pos + 8 <= |file|
      invariant pos <= |file|
      invariant shown + DecodedFrom(file, pos, threshold) == DecodedFrom(file, 0, threshold)
      decreases |file| - pos
    {
      DecodedStep(file, pos, threshold);
      var size := LittleEndianValue(file[pos..pos + 8]);
      var entry := DecodeEntry(EntryAt(file, pos + 8, size), threshold);
      ghost var before := shown;
      shown := shown + [entry];
      pos := if pos + 8 + size <= |file| then pos + 8 + size else |file|;
      assert shown + DecodedFrom(file, pos, threshold) == before + ([entry] + DecodedFrom(file, pos, threshold));
    }
    DecodedEnd(file, pos, threshold);
  }

  lemma DecodedEnd(file: string, pos: nat, threshold: int)
    requires pos <= |file| < pos + 8
    ensures DecodedFrom(file, pos, threshold) == []
  {
  }

  /** The frame at a position where the file continues with whole frames. */
  lemma FrameAt(file: string, pos: nat, entry: string, rest: string)
    requires |entry| < U64
    requires pos <= |file| && file[pos..] == Frame(entry) + rest
    ensures pos + 8 <= |file| && LittleEndianValue(file[pos..pos + 8]) == |entry|
    ensures pos + 8 + |entry| <= |file| && EntryAt(file, pos + 8, |entry|) == entry
    ensures file[pos + 8 + |entry|..] == rest
  {
    SizeRoundTrip(|entry|);
    var tail := file[pos..];
    assert tail[..8] == file[pos..pos + 8] && tail[..8] == LittleEndian(|entry|, 8);
    assert tail[8..8 + |entry|] == file[pos + 8..pos + 8 + |entry|] && tail[8..8 + |entry|] == entry;
    assert tail[8 + |entry|..] == file[pos + 8 + |entry|..] && tail[8 + |entry|..] == rest;
  }

  lemma {:induction false} FramesRoundTripFrom(file: string, pos: nat, entries: seq<string>)
    requires Sized(entries) && pos <= |file| && file[pos..] == Frames(entries)
    ensures EntriesFrom(file, pos) == entries
    decreases |entries|
  {
    hide LittleEndianValue, EntryAt, Frame;
    if entries != [] {
      FrameAt(file, pos, entries[0], Frames(entries[1..]));
      FramesRoundTripFrom(file, pos + 8 + |entries[0]|, entries[1..]);
    }
  }

  function Encoded(rs: seq<LogRecord>): (es: seq<string>)
    ensures |es| == |rs|
    ensures forall i :: 0 <= i < |rs| ==> es[i] == EncodeEntry(rs[i])
  {
    if rs == [] then [] else [EncodeEntry(rs[0])] + Encoded(rs[1..])
  }

  /** A record the file format can hold: 64-bit timestamp and entry size. */
  predicate Recordable(r: LogRecord) {
    -I64 <= r.timestamp < I64 && |EncodeEntry(r)| < U64
  }

  /** Reading a log file back shows every record as it was written, in order. */
  lemma LogRoundTrip(rs: seq<LogRecord>, threshold: int)
    requires forall r :: r in rs ==> Recordable(r) && ',' !in r.call.user
    ensures var shown := DecodedFrom(Frames(Encoded(rs)), 0, threshold);
            |shown| == |rs| && forall i :: 0 <= i < |rs| ==> shown[i] == View(rs[i], threshold)
  {
    hide DecodeEntry, EncodeEntry, View, Frames, EntriesFrom;
    var file := Frames(Encoded(rs));
    forall i | 0 <= i < |rs| ensures |Encoded(rs)[i]| < U64 {
      assert Recordable(rs[i]);
    }
    assert file[0..] == file;
    FramesRoundTripFrom(file, 0, Encoded(rs));
    forall i | 0 <= i < |rs| ensures DecodeEntry(Encoded(rs)[i], threshold) == View(rs[i], threshold) {
      assert Recordable(rs[i]);
      ReadsAsView(rs[i], threshold);
    }
  }

  lemma ReadsAsView(r: LogRecord, threshold: int)
    requires Recordable(r) && ',' !in r.call.user
    ensures DecodeEntry(EncodeEntry(r), threshold) == View(r, threshold)
  {
    if r.timestamp <= threshold {
      EntryRoundTrip(r, threshold);
    } else {
      BlankExactly(r, threshold);
    }
  }

  predicate SortedByTime(rs: seq<LogRecord>) {
    forall i, j :: 0 <= i <= j < |rs| ==> rs[i].timestamp <= rs[j].timestamp
  }

  /** In a log in time order a threshold blanks exactly a suffix. */
  lemma {:induction false} ThresholdBlanksSuffix(rs: seq<LogRecord>, threshold: int) returns (n: nat)
    requires SortedByTime(rs)
    requires forall r :: r in rs ==> Recordable(r)
    ensures n <= |rs|
    ensures var shown := DecodedFrom(Frames(Encoded(rs)), 0, threshold);
            |shown| == |rs| && forall i :: 0 <= i < |rs| ==> (shown[i] == Blank <==> n <= i)
  {
    hide DecodeEntry, EncodeEntry, Frames, EntriesFrom;
    var file := Frames(Encoded(rs));
    forall i | 0 <= i < |rs| ensures |Encoded(rs)[i]| < U64 {
      assert Recordable(rs[i]);
    }
    assert file[0..] == file;
    FramesRoundTripFrom(file, 0, Encoded(rs));
    n := 0;
    while n < |rs| && rs[n].timestamp <= threshold
      invariant n <= |rs| && forall i :: 0 <= i < n ==> rs[i].timestamp <= threshold
    {
      n := n + 1;
    }
    forall i | 0 <= i < |rs| ensures DecodeEntry(Encoded(rs)[i], threshold) == Blank <==> n <= i {
      assert Recordable(rs[i]);
      BlankExactly(rs[i], threshold);
    }
  }
}
