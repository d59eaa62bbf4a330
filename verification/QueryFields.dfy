/** What a client gets for the text of a query: each predicate sets its field, the rest stays empty. */
module QueryFields {
  import opened Text
  import opened Numbers
  import opened Metadata
  import opened Query

  /** The query carries what the predicate asks for. */
  predicate Shows(q: Query, p: Predicate) {
    match p
    case Command(cmd, key, value) =>
      var c := Lowercase(cmd);
      && q.cmd == c
      && (c == "getlogs" ==> q.logKey == key)
      && (c != "getlogs" && c != "exit" ==> q.key == key)
      && (c == "put" ==> q.value == value.GetOr(""))
    case Setting(option, text) =>
      && (option == "sessionKey" ==> q.user == Some(text))
      && (option == "objOrig" ==> q.origin == Some(text))
      && (option == "objShare" ==> q.share == Some(text))
      && (option == "objExp" ==> q.expiration.Some? && q.expiration == ParseI32(text))
      && (option == "objPur" ==> q.purpose == Some(SetBits(NoBits(), Split(text, ','))))
      && (option == "objObjections" ==> q.objection == Some(SetBits(NoBits(), Split(text, ','))))
      && (option == "monitor" ==> q.monitor.Some? && q.monitor == StrToBool(text))
      && (option == "objOrigIs" ==> q.condOrigin == text)
      && (option == "objShareIs" ==> q.condShare == text)
      && (option == "objExpIs" ==> ParseI32(text) == Some(q.condExpiration))
      && (option == "objPurIs" ==> Subset(SetBits(NoBits(), Split(text, ',')), q.condPurpose))
      && (option == "objObjectionsIs" ==> Subset(SetBits(NoBits(), Split(text, ',')), q.condObjection))
      && (option == "monitorIs" ==> StrToBool(text) == Some(q.condMonitor))
  }

  /** The same by the name of the option. */
  predicate ShowsOption(q: Query, name: OptionName, text: string) {
    match name
    case SessionKey => q.user == Some(text)
    case ObjOrig => q.origin == Some(text)
    case ObjShare => q.share == Some(text)
    case ObjExp => q.expiration.Some? && q.expiration == ParseI32(text)
    case ObjPur => q.purpose == Some(SetBits(NoBits(), Split(text, ',')))
    case ObjObjections => q.objection == Some(SetBits(NoBits(), Split(text, ',')))
    case Monitor => q.monitor.Some? && q.monitor == StrToBool(text)
    case ObjOrigIs => q.condOrigin == text
    case ObjShareIs => q.condShare == text
    case ObjExpIs => ParseI32(text) == Some(q.condExpiration)
    case ObjPurIs => Subset(SetBits(NoBits(), Split(text, ',')), q.condPurpose)
    case ObjObjectionsIs => Subset(SetBits(NoBits(), Split(text, ',')), q.condObjection)
    case MonitorIs => StrToBool(text) == Some(q.condMonitor)
  }

  lemma ShowsByName(q: Query, p: Predicate)
    requires p.Setting?
    ensures NameOf(p.option).Some? ==> (Shows(q, p) <==> ShowsOption(q, NameOf(p.option).value, p.text))
    ensures NameOf(p.option).None? ==> Shows(q, p)
  {
    hide ParseI32, StrToBool, Split, SetBits, Subset;
  }

  lemma OptionShows(q: Query, name: OptionName, text: string)
    requires SetOption(q, name, text).Some?
    ensures ShowsOption(SetOption(q, name, text).value, name, text)
  {
    hide ParseI32, StrToBool, Split;
  }

  lemma OptionKeeps(q: Query, m: OptionName, s: string, n: OptionName, t: string)
    requires ShowsOption(q, m, s) && SetOption(q, n, t).Some?
    requires m != n || m == ObjPurIs || m == ObjObjectionsIs
    ensures ShowsOption(SetOption(q, n, t).value, m, s)
  {
    hide ParseI32, StrToBool, Split;
  }

  lemma EffectShows(q: Query, p: Predicate)
    requires p.Effect(q).Some?
    ensures Shows(p.Effect(q).value, p)
  {
    if p.Setting? {
      hide SetOption, ShowsOption, Shows, NameOf;
      OptionShows(q, NameOf(p.option).value, p.text);
      ShowsByName(p.Effect(q).value, p);
    } else {
      hide Lowercase;
    }
  }

  lemma CommandKeepsOption(q: Query, name: OptionName, text: string, c: Predicate)
    requires c.Command? && ShowsOption(q, name, text)
    ensures ShowsOption(c.Effect(q).value, name, text)
  {
    hide Lowercase, ParseI32, StrToBool, Split, SetBits, Subset;
  }

  lemma OptionKeepsCommand(q: Query, c: Predicate, name: OptionName, text: string)
    requires c.Command? && Shows(q, c) && SetOption(q, name, text).Some?
    ensures Shows(SetOption(q, name, text).value, c)
  {
    hide Lowercase, ParseI32, StrToBool, Split, SetBits;
  }

  /** Another predicate leaves alone what one has set. */
  lemma EffectKeeps(q: Query, a: Predicate, b: Predicate)
    requires Shows(q, a) && b.Effect(q).Some? && Exchangeable(a, b)
    ensures Shows(b.Effect(q).value, a)
  {
    hide SetOption, ShowsOption, Shows, NameOf, Lowercase;
    if a.Setting? {
      ShowsByName(q, a);
      ShowsByName(b.Effect(q).value, a);
      if NameOf(a.option).Some? {
        if b.Setting? {
          if NameOf(a.option) == NameOf(b.option) { NameOfInjective(a.option, b.option); }
          OptionKeeps(q, NameOf(a.option).value, a.text, NameOf(b.option).value, b.text);
        } else {
          CommandKeepsOption(q, NameOf(a.option).value, a.text, b);
        }
      }
    } else {
      OptionKeepsCommand(q, a, NameOf(b.option).value, b.text);
    }
  }

  lemma {:induction false} EffectsKeep(ps: seq<Predicate>, q: Query, a: Predicate)
    requires Shows(q, a) && Effects(ps, q).Some? && forall b :: b in ps ==> Exchangeable(a, b)
    ensures Shows(Effects(ps, q).value, a)
  {
    hide Shows, Exchangeable, Predicate.Effect;
    if ps != [] {
      assert ps[0] in ps;
      EffectKeeps(q, a, ps[0]);
      EffectsKeep(ps[1..], ps[0].Effect(q).value, a);
    }
  }

  lemma {:induction false} EffectsShow(ps: seq<Predicate>, q: Query, n: nat)
    requires PairwiseExchangeable(ps) && Effects(ps, q).Some? && n < |ps|
    ensures Shows(Effects(ps, q).value, ps[n])
  {
    hide Shows, Exchangeable, Predicate.Effect;
    var q' := ps[0].Effect(q).value;
    if n == 0 {
      EffectShows(q, ps[0]);
      forall b | b in ps[1..] ensures Exchangeable(ps[0], b) {
        var j :| 0 <= j < |ps| - 1 && ps[1..][j] == b;
        assert ps[j + 1] == b;
      }
      EffectsKeep(ps[1..], q', ps[0]);
    } else {
      forall i, j | 0 <= i < |ps| - 1 && 0 <= j < |ps| - 1 && i != j ensures Exchangeable(ps[1..][i], ps[1..][j]) {
        assert Exchangeable(ps[i + 1], ps[j + 1]);
      }
      EffectsShow(ps[1..], q', n - 1);
      assert ps[1..][n - 1] == ps[n];
    }
  }

  /** No predicate of the list has the name. */
  predicate Absent(ps: seq<Predicate>, name: string) {
    forall p :: p in ps ==> p.Name() != name
  }

  /** No command of the list, in lower case, is this one. */
  predicate NoCommand(ps: seq<Predicate>, cmd: string) {
    forall p :: p in ps ==> p.Command? ==> Lowercase(p.cmd) != cmd
  }

  /** No command of the list names a key to work on. */
  predicate NoKey(ps: seq<Predicate>) {
    forall p :: p in ps ==> p.Command? ==> Lowercase(p.cmd) == "getlogs" || Lowercase(p.cmd) == "exit"
  }

  /** What no predicate names stays as it was. */
  ghost predicate RestKept(ps: seq<Predicate>, q: Query, r: Query) {
    && (Absent(ps, "query") ==> r.cmd == q.cmd)
    && (NoKey(ps) ==> r.key == q.key)
    && (NoCommand(ps, "put") ==> r.value == q.value)
    && (NoCommand(ps, "getlogs") ==> r.logKey == q.logKey)
    && (Absent(ps, "sessionKey") ==> r.user == q.user)
    && (Absent(ps, "objOrig") ==> r.origin == q.origin)
    && (Absent(ps, "objShare") ==> r.share == q.share)
    && (Absent(ps, "objExp") ==> r.expiration == q.expiration)
    && (Absent(ps, "objPur") ==> r.purpose == q.purpose)
    && (Absent(ps, "objObjections") ==> r.objection == q.objection)
    && (Absent(ps, "monitor") ==> r.monitor == q.monitor)
    && (Absent(ps, "objOrigIs") ==> r.condOrigin == q.condOrigin)
    && (Absent(ps, "objShareIs") ==> r.condShare == q.condShare)
    && (Absent(ps, "objExpIs") ==> r.condExpiration == q.condExpiration)
    && (Absent(ps, "objPurIs") ==> r.condPurpose == q.condPurpose)
    && (Absent(ps, "objObjectionsIs") ==> r.condObjection == q.condObjection)
    && (Absent(ps, "monitorIs") ==> r.condMonitor == q.condMonitor)
  }

  lemma OptionRest(q: Query, name: OptionName, text: string)
    requires SetOption(q, name, text).Some?
    ensures var r := SetOption(q, name, text).value;
            && r.cmd == q.cmd && r.key == q.key && r.value == q.value && r.logKey == q.logKey
            && (name != SessionKey ==> r.user == q.user) && (name != ObjOrig ==> r.origin == q.origin)
            && (name != ObjShare ==> r.share == q.share) && (name != ObjExp ==> r.expiration == q.expiration)
            && (name != ObjPur ==> r.purpose == q.purpose) && (name != ObjObjections ==> r.objection == q.objection)
            && (name != Monitor ==> r.monitor == q.monitor) && (name != ObjOrigIs ==> r.condOrigin == q.condOrigin)
            && (name != ObjShareIs ==> r.condShare == q.condShare)
            && (name != ObjExpIs ==> r.condExpiration == q.condExpiration)
            && (name != ObjPurIs ==> r.condPurpose == q.condPurpose)
            && (name != ObjObjectionsIs ==> r.condObjection == q.condObjection)
            && (name != MonitorIs ==> r.condMonitor == q.condMonitor)
  {
    hide ParseI32, StrToBool, Split, SetBits;
  }

  lemma EffectRest(p: Predicate, q: Query)
    requires p.Effect(q).Some?
    ensures RestKept([p], q, p.Effect(q).value)
  {
    hide Lowercase, SetOption;
    assert forall name :: Absent([p], name) ==> p.Name() != name by { assert p in [p]; }
    assert p.Command? && NoKey([p]) ==> Lowercase(p.cmd) == "getlogs" || Lowercase(p.cmd) == "exit" by {
      assert p in [p];
    }
    assert forall c :: p.Command? && NoCommand([p], c) ==> Lowercase(p.cmd) != c by { assert p in [p]; }
    hide Absent, NoCommand, NoKey;
    if p.Setting? {
      OptionRest(q, NameOf(p.option).value, p.text);
    }
  }

  lemma AbsentSplit(ps: seq<Predicate>, name: string)
    requires ps != []
    ensures Absent(ps, name) <==> Absent([ps[0]], name) && Absent(ps[1..], name)
    ensures NoCommand(ps, name) <==> NoCommand([ps[0]], name) && NoCommand(ps[1..], name)
    ensures NoKey(ps) <==> NoKey([ps[0]]) && NoKey(ps[1..])
  {
    hide Lowercase;
    assert ps == [ps[0]] + ps[1..];
    assert forall p :: p in ps <==> p == ps[0] || p in ps[1..];
  }

  lemma RestThen(ps: seq<Predicate>, q: Query, r: Query, s: Query)
    requires ps != [] && RestKept([ps[0]], q, r) && RestKept(ps[1..], r, s)
    ensures RestKept(ps, q, s)
  {
    hide Absent, NoCommand, NoKey;
    forall name { AbsentSplit(ps, name); }
  }

  lemma {:induction false} EffectsRest(ps: seq<Predicate>, q: Query)
    requires Effects(ps, q).Some?
    ensures RestKept(ps, q, Effects(ps, q).value)
  {
    hide RestKept, Predicate.Effect;
    if ps == [] {
      NothingChanged(q);
    } else {
      EffectRest(ps[0], q);
      EffectsRest(ps[1..], ps[0].Effect(q).value);
      RestThen(ps, q, ps[0].Effect(q).value, Effects(ps, q).value);
    }
  }

  lemma NothingChanged(q: Query)
    ensures RestKept([], q, q)
  {
  }

  /** Of what a command can set, the query carries no more than this one sets. */
  predicate OnlyOf(q: Query, p: Predicate) {
    p.Command? ==>
      var c := Lowercase(p.cmd);
      && (c != "put" ==> q.value == "")
      && (c != "getlogs" ==> q.logKey == "")
      && (c == "getlogs" || c == "exit" ==> q.key == "")
  }

  /** Only one predicate of the list is a command. */
  lemma OneCommand(ps: seq<Predicate>, p: Predicate, q: Query)
    requires PairwiseExchangeable(ps) && p in ps && RestKept(ps, EMPTY, q)
    ensures OnlyOf(q, p)
  {
    hide Lowercase, NameOf, Absent;
    if p.Command? {
      var i :| 0 <= i < |ps| && ps[i] == p;
      forall b | b in ps && b.Command? ensures b == p {
        var j :| 0 <= j < |ps| && ps[j] == b;
        assert i != j ==> Exchangeable(ps[i], ps[j]);
      }
    }
  }

  /**
   The text of predicates that may be exchanged pairwise is read as a query that carries
   what every one of them asks for, in the field of its name, and nothing else: fields of
   other names, and parts of other commands, stay empty, and the two conditions on purposes
   hold exactly the purposes listed for them.
   */
  lemma QueryRecovered(ps: seq<Predicate>, q: Query)
    requires |ps| > 0 && PairwiseExchangeable(ps) && forall p :: p in ps ==> p.Writable()
    requires ReadPredicates(Split(Join(Rendered(ps), '&'), '&'), EMPTY) == Some(q)
    ensures forall p :: p in ps ==> Shows(q, p) && OnlyOf(q, p)
    ensures RestKept(ps, EMPTY, q)
    ensures forall i :: 0 <= i < NUM_PURPOSES ==>
              && (q.condPurpose[i] <==> exists p :: p in ps && AsksPurpose(p, i))
              && (q.condObjection[i] <==> exists p :: p in ps && AsksObjection(p, i))
  {
    hide Shows, OnlyOf, RestKept, PairwiseExchangeable, Split, Join, Rendered, ReadPredicates, Predicate.Effect,
         AsksPurpose, AsksObjection;
    QueryRoundTrip(ps, EMPTY);
    EffectsRest(ps, EMPTY);
    forall p | p in ps ensures Shows(q, p) && OnlyOf(q, p) {
      var n :| 0 <= n < |ps| && ps[n] == p;
      EffectsShow(ps, EMPTY, n);
      OneCommand(ps, p, q);
    }
    forall i | 0 <= i < NUM_PURPOSES
      ensures q.condPurpose[i] <==> exists p :: p in ps && AsksPurpose(p, i)
      ensures q.condObjection[i] <==> exists p :: p in ps && AsksObjection(p, i)
    {
      PurposesAccumulate(ps, EMPTY, i);
      ObjectionsAccumulate(ps, EMPTY, i);
    }
  }
}
