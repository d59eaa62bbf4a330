/** The request messages between the controller and the RocksDB server (message.hpp). */
module Message {
  import opened Text

  datatype Message = Message(command: string, key: string, value: string, isValid: bool)

  predicate ValidCommand(c: string) {
    c == "get" || c == "put" || c == "del" || c == "getm" || c == "putm"
  }

  function Serialized(m: Message): string {
    m.command + " " + m.key + (if m.value == "" then "" else " " + m.value)
  }

  /** Where the key ends; without another space, at the end of the text. */
  function KeyEnd(raw: string, keyStart: nat): nat
    requires keyStart <= |raw|
  {
    if Find(raw, ' ', keyStart) < 0 then |raw| else Find(raw, ' ', keyStart)
  }

  /**
   What the server makes of a request. Without a space after the key the key's end is
   `npos`, and the value of a `put` starts at `npos + 1`, which wraps around to 0.
   */
  function Parsed(raw: string): Message {
    var space := Find(raw, ' ', 0);
    if space < 0 then Message("", "", "", false)
    else
      var command := raw[..space];
      if !ValidCommand(command) || space + 1 >= |raw| then Message(command, "", "", false)
      else
        var key := raw[space + 1..KeyEnd(raw, space + 1)];
        if command != "put" then Message(command, key, "", true)
        else
          var keyEnd := Find(raw, ' ', space + 1);
          var valueStart := if keyEnd < 0 then 0 else keyEnd + 1;
          if valueStart >= |raw| then Message(command, key, "", false)
          else Message(command, key, raw[valueStart..], true)
  }

  class QueryMessage {
    var command: string
    var key: string
    var value: string
    var isValid: bool

    constructor ()
      ensures Contents() == Message("", "", "", false)
    {
      command, key, value, isValid := "", "", "", false;
    }

    ghost function Contents(): Message
      reads this
    {
      Message(command, key, value, isValid)
    }

    method Serialize() returns (result: string)
      ensures result == Serialized(Contents())
      ensures Parsed(result) == Contents().(isValid := true) <==> Carried(Contents())
    {
      MessageRoundTrip(Contents());
      result := command + " " + key;
      if value != "" {
        result := result + " " + value;
      }
    }

    static method Deserialize(raw: string) returns (request: QueryMessage)
      ensures fresh(request) && request.Contents() == Parsed(raw)
    {
      hide ValidCommand, Find;
      request := new QueryMessage();
      var firstSpace := Find(raw, ' ', 0);
      if firstSpace < 0 {
        return;
      }
      request.command := raw[..firstSpace];
      if !ValidCommand(request.command) {
        return;
      }
      var keyStart := firstSpace + 1;
      if keyStart >= |raw| {
        return;
      }
      var keyEnd := Find(raw, ' ', keyStart);
      request.key := if keyEnd < 0 then raw[keyStart..] else raw[keyStart..keyEnd];
      if request.command == "put" {
        var valueStart := if keyEnd < 0 then 0 else keyEnd + 1;
        if valueStart >= |raw| {
          return;
        }
        request.value := raw[valueStart..];
      }
      request.isValid := true;
    }
  }

  /** Up to the first space a rendered request is its command, if that has no space itself. */
  lemma CommandPiece(m: Message)
    ensures Find(Serialized(m), ' ', 0) >= 0
    ensures ' ' !in m.command <==> Serialized(m)[..Find(Serialized(m), ' ', 0)] == m.command
    ensures ' ' !in m.command ==> Find(Serialized(m), ' ', 0) == |m.command|
  {
    var raw := Serialized(m);
    assert raw[|m.command|] == ' ' && raw[..|m.command|] == m.command;
    assert raw[0..] == raw && ' ' in raw;
    var p := Find(raw, ' ', 0);
    assert raw[0..p] == raw[..p];
    if ' ' !in m.command {
      assert raw[0..|m.command|] == m.command;
      FindIs(raw, ' ', 0, |m.command|);
    }
  }

  lemma ValidCommandClean(c: string)
    ensures ValidCommand(c) ==> ' ' !in c
  {
  }

  /** The key is read back whole exactly when it has no space. */
  lemma KeyPiece(m: Message)
    requires ' ' !in m.command
    ensures var raw, start := Serialized(m), |m.command| + 1;
            && start <= |raw| && (raw[start..KeyEnd(raw, start)] == m.key <==> ' ' !in m.key)
            && (' ' !in m.key ==> Find(raw, ' ', start) == if m.value == "" then -1 else start + |m.key|)
            && (' ' !in m.key && m.value != "" ==> raw[start + |m.key| + 1..] == m.value)
  {
    var raw, start := Serialized(m), |m.command| + 1;
    var end := start + |m.key|;
    assert raw[start..end] == m.key;
    if ' ' !in m.key {
      if m.value == "" {
        assert raw[start..] == m.key;
      } else {
        assert raw[end] == ' ';
        FindIs(raw, ' ', start, end);
      }
    } else {
      var i :| 0 <= i < |m.key| && m.key[i] == ' ';
      assert raw[start + i] == ' ' && raw[start..][i] == ' ';
      var p := Find(raw, ' ', start);
      AbsentAt(raw, ' ', start, p);
      assert |raw[start..p]| < |m.key|;
    }
  }

  /** The requests that survive the way to the server. */
  predicate Carried(m: Message) {
    && m.command in {"get", "put", "del", "getm", "putm"} && ' ' !in m.key
    && (if m.command == "put" then m.value != "" else m.value == "" && m.key != "")
  }

  /**
   A request is read back as it was sent exactly when its command is known, its key has no
   space, and it has a value if it is a `put` and otherwise no value but a key.
   */
  lemma MessageRoundTrip(m: Message)
    ensures Parsed(Serialized(m)) == m.(isValid := true) <==> Carried(m)
  {
    CommandPiece(m);
    ValidCommandClean(m.command);
    if ValidCommand(m.command) {
      KeyPiece(m);
      var raw := Serialized(m);
      if m.command == "put" && ' ' !in m.key && m.value == "" && m.key != "" {
        assert raw[0..] == raw && |raw| > 0;
      }
      hide KeyEnd;
    }
  }

  /** A `putm` loses its value on the way: the server reads values of `put` only. */
  lemma PutmLosesValue(m: Message)
    requires m.command == "putm" && ' ' !in m.key && m.value != ""
    ensures Parsed(Serialized(m)) == Message("putm", m.key, "", true)
  {
    CommandPiece(m);
    KeyPiece(m);
  }

  /** A `put` without a value is accepted, with the whole request as its value. */
  lemma PutWithoutValue(m: Message)
    requires m.command == "put" && ' ' !in m.key && m.key != "" && m.value == ""
    ensures Parsed(Serialized(m)) == Message("put", m.key, Serialized(m), true)
  {
    CommandPiece(m);
    KeyPiece(m);
    assert Serialized(m)[0..] == Serialized(m);
  }

  /** A request without a space, with an unknown command, or without a key has no meaning. */
  lemma InvalidRequests(c: string, rest: string)
    requires ' ' !in c
    ensures Parsed(c) == Message("", "", "", false)
    ensures rest == "" || c !in {"get", "put", "del", "getm", "putm"} ==>
              Parsed(c + " " + rest) == Message(c, "", "", false)
  {
    CommandEnds(c, rest);
    assert c[0..] == c;
  }

  lemma CommandEnds(c: string, rest: string)
    requires ' ' !in c
    ensures var raw := c + " " + rest; Find(raw, ' ', 0) == |c| && raw[..|c|] == c && raw[|c| + 1..] == rest
  {
    var raw := c + " " + rest;
    assert raw[0..|c|] == c;
    FindIs(raw, ' ', 0, |c|);
  }

  lemma KeyEnds(c: string, key: string, rest: string)
    requires ' ' !in key
    ensures var raw, start := c + " " + (key + " " + rest), |c| + 1;
            && Find(raw, ' ', start) == start + |key| && raw[start..start + |key|] == key
            && raw[start + |key| + 1..] == rest && |raw| == start + |key| + 1 + |rest|
  {
    var raw, start := c + " " + (key + " " + rest), |c| + 1;
    assert raw[start..start + |key|] == key && raw[start + |key|] == ' ' && raw[start + |key| + 1..] == rest;
    FindIs(raw, ' ', start, start + |key|);
  }

  /**
   The server reads up to a second space as the key, and what follows as the value of a `put`
   only. A `put` with an empty value is invalid.
   */
  lemma RawRequests(c: string, key: string, rest: string)
    requires ' ' !in c && c in {"get", "put", "del", "getm", "putm"} && ' ' !in key
    ensures Parsed(c + " " + (key + " " + rest)) ==
            if c != "put" then Message(c, key, "", true)
            else if rest == "" then Message(c, key, "", false) else Message(c, key, rest, true)
  {
    hide Find;
    CommandEnds(c, key + " " + rest);
    KeyEnds(c, key, rest);
  }

  /** Without the second space the rest is the key, and the value of a `put` is the whole request. */
  lemma ShortRequests(c: string, key: string)
    requires ' ' !in c && c in {"get", "put", "del", "getm", "putm"} && ' ' !in key && key != ""
    ensures Parsed(c + " " + key) == Message(c, key, if c == "put" then c + " " + key else "", true)
  {
    hide Find;
    CommandEnds(c, key);
    var raw := c + " " + key;
    assert raw[0..] == raw;
  }
}
