/** What a session gets for its configuration file: each setting, scalar or listed, sets its field of the policy. */
module PolicyFields {
  import opened Text
  import opened Numbers
  import opened Metadata
  import opened Policy
  import opened Writes

  /** The configuration gives the name this text: as a scalar, or as a list whose items are joined by commas. */
  ghost predicate Configured(config: Config, name: string, text: string) {
    || Scalar(name, text) in config
    || exists lists, items :: Group(lists) in config && (name, items) in lists && text == Commas(items)
  }

  /** The items, with a comma between any two. */
  function Commas(items: seq<string>): string {
    if items == [] then "" else if |items| == 1 then items[0] else items[0] + "," + Commas(items[1..])
  }

  lemma {:induction false} CommasAre(items: seq<string>)
    ensures CommaJoin(items) == Commas(items)
  {
    if |items| > 1 {
      CommasAre(items[1..]);
    }
  }

  ghost predicate InLists(lists: seq<(string, seq<string>)>, name: string, text: string) {
    exists items :: (name, items) in lists && text == Commas(items)
  }

  lemma {:induction false} GroupsAre(lists: seq<(string, seq<string>)>, name: string, text: string)
    ensures (name, text) in GroupPairs(lists) <==> InLists(lists, name, text)
  {
    if lists != [] {
      var rest := lists[1..];
      GroupsAre(rest, name, text);
      CommasAre(lists[0].1);
      assert lists == [lists[0]] + rest;
      assert forall l :: l in lists <==> l == lists[0] || l in rest;
      if InLists(rest, name, text) {
        var items :| (name, items) in rest && text == Commas(items);
        assert (name, items) in lists;
      }
      if name == lists[0].0 && text == Commas(lists[0].1) {
        assert (name, lists[0].1) in lists;
      }
    }
  }

  ghost predicate InSetting(setting: Setting, name: string, text: string) {
    match setting
    case Scalar(n, t) => n == name && t == text
    case Group(lists) => InLists(lists, name, text)
  }

  /** The printed pairs are exactly the configured ones. */
  lemma {:induction false} PairsAre(config: Config, name: string, text: string)
    ensures (name, text) in Pairs(config) <==> exists setting :: setting in config && InSetting(setting, name, text)
  {
    hide InLists;
    if config != [] {
      PairsAre(config[1..], name, text);
      match config[0] {
        case Scalar(_, _) =>
        case Group(lists) => GroupsAre(lists, name, text);
      }
      assert config == [config[0]] + config[1..];
      assert forall c :: c in config <==> c == config[0] || c in config[1..];
      assert InSetting(config[0], name, text) ==> config[0] in config;
    }
  }

  lemma ConfiguredIs(config: Config, name: string, text: string)
    ensures (name, text) in Pairs(config) <==> Configured(config, name, text)
  {
    PairsAre(config, name, text);
    if Configured(config, name, text) {
      if Scalar(name, text) in config {
        assert InSetting(Scalar(name, text), name, text);
      } else {
        var lists, items :| Group(lists) in config && (name, items) in lists && text == Commas(items);
        assert InSetting(Group(lists), name, text);
      }
    }
    if (name, text) in Pairs(config) {
      var setting :| setting in config && InSetting(setting, name, text);
      assert setting == Scalar(name, text) || setting.Group?;
    }
  }

  /** A configuration that is read back as a policy gives it, setting by setting, what it says. */
  lemma PolicyHolds(config: Config, policy: Policy)
    requires Printable(Pairs(config)) && DistinctNames(Pairs(config)) && ReadBack(config) == Some(policy)
    ensures Configured(config, "sessionKey", policy.user)
    ensures Configured(config, "origin", policy.origin)
    ensures Configured(config, "objShare", policy.share)
    ensures forall t :: Configured(config, "expTime", t) ==> ParseI64(t) == Some(policy.expiration)
    ensures forall t :: Configured(config, "encryption", t) ==> Says(t, policy.encryption)
    ensures forall t :: Configured(config, "monitor", t) ==> Says(t, policy.monitor)
    ensures forall t, i :: Configured(config, "purpose", t) && 0 <= i < 64 ==> (policy.purpose[i] <==> Lists(t, i))
    ensures forall t, i :: Configured(config, "objection", t) && 0 <= i < 64 ==> (policy.objection[i] <==> Lists(t, i))
  {
    hide Configured, Pairs, ReadBack, ParseI64, Split, SetBits, Lists, Printable;
    var pairs := Pairs(config);
    PolicyRoundTrip(config, policy);
    forall name, t ensures HasText(pairs, name, t) <==> Configured(config, name, t) { ConfiguredIs(config, name, t); }
    forall t, i: nat | i < 64 ensures SetBits(NoBits(), Split(t, ','))[i] <==> Lists(t, i) { ListedBits(t, i); }
    OneText(pairs, "expTime");
    OneText(pairs, "encryption");
    OneText(pairs, "monitor");
    OneText(pairs, "purpose");
    OneText(pairs, "objection");
  }

  lemma OneText(pairs: seq<Pair>, name: string)
    requires DistinctNames(pairs)
    ensures forall t, u :: HasText(pairs, name, t) && HasText(pairs, name, u) ==> t == u
  {
    LookupSetting(pairs, name, "-" + name);
  }
}
