/** Matching of filter and topic strings: what section 4.7.1 of MQTT 3.1.1 says of the strings that
    clients send, against what the broker decides after splitting them. */
module TopicStrings {
  import opened TopicFilter
  import opened TopicHistory
  import opened TopicNames

  /** The levels of a string as the standard has them: what stands between its slashes. */
  function Levels(s: string): (r: seq<string>)
    ensures r != []
  {
    if s == "" then [""]
    else
      var rest := Levels(s[1..]);
      if s[0] == '/' then [""] + rest else [[s[0]] + rest[0]] + rest[1..]
  }

  ghost predicate StandardMatch(f: string, t: string)
  {
    Matches(Levels(f), Levels(t))
  }

  ghost predicate BrokerMatch(f: string, t: string)
  {
    Matches(SplitTopic(f), SplitTopic(t))
  }

  /** The strings that `split` treats as the standard does. */
  predicate Proper(s: string)
  {
    s != "" && s[0] == '/' && s[|s| - 1] != '/'
  }

  // ---------------------------------------------------------------- splitting against the standard's levels

  /** Without one final empty level. */
  function Trimmed(levels: seq<string>): seq<string>
  {
    if levels != [] && levels[|levels| - 1] == "" then levels[..|levels| - 1] else levels
  }

  lemma TrimmedTail(first: string, rest: seq<string>)
    requires rest != []
    ensures Trimmed([first] + rest) == [first] + Trimmed(rest)
  {
    assert ([first] + rest)[|rest|] == rest[|rest| - 1];
    assert ([first] + rest)[..|rest|] == [first] + rest[..|rest| - 1];
  }

  lemma {:induction false} LevelsFromAre(temp: string, u: string)
    requires u != "" || temp == ""
    ensures LevelsFrom(temp, u) == Trimmed([temp + Levels(u)[0]] + Levels(u)[1..])
    decreases |u|
  {
    if u != "" {
      var rest := Levels(u[1..]);
      if u[0] == '/' {
        LevelsFromAre("", u[1..]);
        assert temp + "" == temp && "" + rest[0] == rest[0];
        assert [rest[0]] + rest[1..] == rest;
        TrimmedTail(temp, rest);
      } else if |u| == 1 {
        assert u == [u[0]] && rest == [""] && [u[0]] + "" == u;
      } else {
        LevelsFromAre(temp + [u[0]], u[1..]);
        assert (temp + [u[0]]) + rest[0] == temp + ([u[0]] + rest[0]);
      }
    }
  }

  lemma SplitIs(s: string)
    requires s != ""
    ensures SplitTopic(s) == ["/"] + Trimmed(Levels(s[1..]))
  {
    LevelsFromAre("", s[1..]);
    var l := Levels(s[1..]);
    assert "" + l[0] == l[0] && [l[0]] + l[1..] == l;
  }

  lemma {:induction false} LastLevel(s: string)
    ensures var l := Levels(s); l[|l| - 1] == "" <==> s == "" || s[|s| - 1] == '/'
  {
    if s != "" {
      LastLevel(s[1..]);
      var rest := Levels(s[1..]);
      if |s| > 1 { assert s[1..][|s| - 2] == s[|s| - 1]; }
      if s[0] != '/' && |rest| == 1 { OneLevel(s[1..]); }
    }
  }

  lemma {:induction false} OneLevel(s: string)
    ensures |Levels(s)| == 1 <==> '/' !in s
    ensures '/' !in s ==> Levels(s) == [s]
  {
    if s != "" {
      OneLevel(s[1..]);
      assert s == [s[0]] + s[1..];
    }
  }

  lemma ProperSplit(s: string)
    requires Proper(s)
    ensures Levels(s) == [""] + Levels(s[1..]) && SplitTopic(s) == ["/"] + Levels(s[1..])
  {
    SplitIs(s);
    assert s[1..] != "" && s[1..][|s| - 2] == s[|s| - 1];
    LastLevel(s[1..]);
  }

  /** On strings that begin with a slash and do not end with one, the broker's matching is the
      standard's. */
  lemma MatchesAsStandard(f: string, t: string)
    requires Proper(f) && Proper(t)
    ensures BrokerMatch(f, t) <==> StandardMatch(f, t)
  {
    ProperSplit(f);
    ProperSplit(t);
    assert SplitTopic(f)[1..] == Levels(f)[1..] && SplitTopic(t)[1..] == Levels(t)[1..];
  }

  // ---------------------------------------------------------------- no other topics are safe

  /** The filter of `k` levels "+", each after a slash. */
  function Pluses(k: nat): string
  {
    if k == 0 then "" else "/+" + Pluses(k - 1)
  }

  function Plus(k: nat): (p: Path)
    ensures |p| == k
  {
    if k == 0 then [] else ["+"] + Plus(k - 1)
  }

  /** A level "+" before a slash. */
  lemma PlusThenSlash(rest: string)
    requires rest == "" || rest[0] == '/'
    ensures Levels("+" + rest) == ["+"] + Levels(rest)[1..]
  {
    var u := "+" + rest;
    assert u[0] == '+' && u[1..] == rest && ['+'] + "" == "+";
    assert Levels(rest)[0] == "";
  }

  lemma {:induction false} PlusLevels(k: nat)
    requires k > 0
    ensures Proper(Pluses(k)) && Levels(Pluses(k)[1..]) == Plus(k)
  {
    var s, rest := Pluses(k), Pluses(k - 1);
    assert s[1..] == "+" + rest;
    PlusThenSlash(rest);
    if k > 1 {
      PlusLevels(k - 1);
      assert Levels(rest)[1..] == Plus(k - 1);
      assert s[|s| - 1] == rest[|rest| - 1];
    } else {
      assert Levels(rest)[1..] == Plus(0);
    }
  }

  lemma {:induction false} PlusMatches(k: nat, l: Path)
    ensures Matches(Plus(k), l) <==> |l| == k
  {
    if k > 0 && l != [] { PlusMatches(k - 1, l[1..]); }
  }

  lemma PlusesMatch(k: nat, t: string)
    requires k > 0 && t != ""
    ensures BrokerMatch(Pluses(k), t) <==> |SplitTopic(t)| == k + 1
    ensures StandardMatch(Pluses(k), t) <==> Levels(t)[0] == "" && |Levels(t)| == k + 1
  {
    PlusLevels(k);
    ProperSplit(Pluses(k));
    SplitIs(t);
    PlusMatches(k, SplitTopic(t)[1..]);
    PlusMatches(k, Levels(t)[1..]);
    assert (["/"] + Plus(k))[1..] == Plus(k) && ([""] + Plus(k))[1..] == Plus(k);
  }

  lemma HashMatches(t: string)
    requires t != ""
    ensures Proper("/#") && BrokerMatch("/#", t) && (StandardMatch("/#", t) <==> t[0] == '/')
  {
    assert "/#"[1..] == "#";
    ProperSplit("/#");
    OneLevel("#");
    SplitIs(t);
    assert SplitTopic("/#")[1..] == ["#"] && Levels("/#")[1..] == ["#"];
    assert Matches(["#"], SplitTopic(t)[1..]) && Matches(["#"], Levels(t)[1..]);
    assert t[0] != '/' ==> |Levels(t)[0]| > 0;
  }

  lemma SlashAtTheEnd(t: string)
    requires t != "" && t[0] == '/' && t[|t| - 1] == '/'
    ensures |Levels(t)| == |SplitTopic(t)| + 1 >= 2 && Levels(t)[0] == ""
  {
    SplitIs(t);
    LastLevel(t[1..]);
    if |t| > 1 { assert t[1..][|t| - 2] == t[|t| - 1]; }
  }

  /** A topic is matched as the standard says by every proper filter exactly when it is proper itself. */
  lemma MatchesAsStandardIff(t: string)
    requires t != ""
    ensures (forall f: string | Proper(f) :: BrokerMatch(f, t) <==> StandardMatch(f, t)) <==> Proper(t)
  {
    if Proper(t) {
      forall f: string | Proper(f) ensures BrokerMatch(f, t) <==> StandardMatch(f, t) { MatchesAsStandard(f, t); }
    } else if t[0] != '/' {
      HashMatches(t);
      assert Proper("/#") && BrokerMatch("/#", t) != StandardMatch("/#", t);
    } else {
      SlashAtTheEnd(t);
      var k := |Levels(t)| - 1;
      PlusLevels(k);
      PlusesMatch(k, t);
      assert Proper(Pluses(k)) && BrokerMatch(Pluses(k), t) != StandardMatch(Pluses(k), t);
    }
  }

  /** Strings the broker confuses: "zport/x" goes to whoever subscribed to "sport/x"; and "#" is read as
      the level "/", so that it misses "/a". */
  lemma FirstCharacterIsLost()
    ensures BrokerMatch("sport/x", "zport/x") && !StandardMatch("sport/x", "zport/x")
    ensures !BrokerMatch("#", "/a") && StandardMatch("#", "/a")
  {
    assert "sport/x"[1..] == "zport/x"[1..];
    assert SplitTopic("sport/x") == SplitTopic("zport/x");
    MatchesItself(SplitTopic("zport/x"));
    assert Levels("sport/x")[0][0] == 's' && Levels("zport/x")[0][0] == 'z';
    SplitIs("#");
    SplitIs("/a");
    assert "#"[1..] == "" && "/a"[1..] == "a";
    OneLevel("a");
    OneLevel("#");
    assert SplitTopic("#") == ["/"] && SplitTopic("/a") == ["/", "a"];
  }

  lemma {:induction false} MatchesItself(t: Path)
    ensures Matches(t, t)
  {
    if t != [] { MatchesItself(t[1..]); }
  }

  // ---------------------------------------------------------------- over runs

  /** These operations come from these filter strings, and every subscribe from a proper one. */
  ghost predicate FromStrings<V>(ops: seq<Op<V>>, fs: seq<string>)
  {
    && |fs| == |ops|
    && forall i {:trigger ops[i]} | 0 <= i < |ops| ::
         ops[i].filter == SplitTopic(fs[i]) && (ops[i].Subscribe? ==> Proper(fs[i]))
  }

  /** The client subscribed with that subscription and a filter string that matches the topic string
      under section 4.7.1. */
  ghost predicate Entitled<V>(ops: seq<Op<V>>, fs: seq<string>, t: string, client: string, sub: V)
    requires |fs| == |ops|
  {
    exists i {:trigger ops[i]} :: 0 <= i < |ops| && ops[i].Subscribe? && ops[i].client == client && ops[i].sub == sub
                                  && StandardMatch(fs[i], t)
  }

  /** A topic on which the broker's answers can be trusted, if all filters are proper. */
  predicate Safe(t: string)
  {
    t == "" || (t[0] == '/' && (t == "/" || t[|t| - 1] != '/'))
  }

  lemma SafeMatch(f: string, t: string)
    requires Proper(f) && Safe(t) && BrokerMatch(f, t)
    ensures StandardMatch(f, t)
  {
    if Proper(t) {
      MatchesAsStandard(f, t);
    } else {
      ProperSplit(f);
      SlashAlone(f);
    }
  }

  lemma SlashAlone(f: string)
    requires Proper(f)
    ensures BrokerMatch(f, "/") ==> StandardMatch(f, "/")
  {
    ProperSplit(f);
    assert SplitTopic(f)[1..] == Levels(f)[1..] == Levels(f[1..]);
    SplitIs("/");
    assert "/"[1..] == "";
    var t := Levels("/");
    assert t == [""] + Levels("/"[1..]);
    if BrokerMatch(f, "/") {
      assert SplitTopic("/")[1..] == [];
      assert Matches(Levels(f)[1..], SplitTopic("/")[1..]);
      assert Levels(f)[1..][0] == "#";
      assert Matches(Levels(f)[1..], t[1..]);
    }
  }

  /** String-level soundness over every run with proper filters: whoever is found at a safe topic has
      subscribed to it under section 4.7.1. */
  lemma SafeTopicsAreSound<V>(ops: seq<Op<V>>, fs: seq<string>, t: string, client: string)
    requires FromStrings(ops, fs) && Safe(t) && client in SubscribersAt(Run(ops), SplitTopic(t))
    ensures Entitled(ops, fs, t, client, SubscribersAt(Run(ops), SplitTopic(t))[client])
  {
    MatchingIsSound(ops, SplitTopic(t), client);
    var i :| 0 <= i < |ops| && ops[i].Subscribe? && ops[i].client == client && Matches(ops[i].filter, SplitTopic(t))
             && ops[i].sub == Run(ops)[SplitTopic(t)][client];
    SafeMatch(fs[i], t);
  }

  /** And on no other: for every unsafe topic without wildcard levels there is a run with proper filters
      in which a client hears of it that never subscribed to it. */
  lemma UnsafeTopicsAreNot<V>(t: string, client: string, sub: V) returns (ops: seq<Op<V>>, fs: seq<string>)
    requires !Safe(t) && NoWild(SplitTopic(t))
    ensures FromStrings(ops, fs) && client in SubscribersAt(Run(ops), SplitTopic(t))
    ensures forall x: V :: !Entitled(ops, fs, t, client, x)
  {
    var f := if t[0] == '/' then Pluses(|SplitTopic(t)| - 1) else "/#";
    fs := ["/b", t, f];
    ops := [Lookup(SplitTopic("/b")), Lookup(SplitTopic(t)), Subscribe(SplitTopic(f), client, sub)];
    WrongFilter(t, f);
    ReachedByLast(ops, t, f, client, sub);
    LastIsNotEntitled(ops, fs, t, client);
  }

  lemma LastIsNotEntitled<V>(ops: seq<Op<V>>, fs: seq<string>, t: string, client: string)
    requires |ops| == |fs| == 3 && ops[0].Lookup? && ops[1].Lookup? && !StandardMatch(fs[2], t)
    ensures forall x: V :: !Entitled(ops, fs, t, client, x)
  {
  }

  lemma WrongFilter(t: string, f: string)
    requires !Safe(t) && f == if t[0] == '/' then Pluses(|SplitTopic(t)| - 1) else "/#"
    ensures Proper(f) && BrokerMatch(f, t) && !StandardMatch(f, t)
    ensures AtHash(SplitTopic(f), SplitTopic(t)) ==> SplitTopic(t) == ["/"]
  {
    if t[0] == '/' {
      PlusesAreWrong(t);
    } else {
      HashMatches(t);
      HashAtSlash(t);
    }
  }

  lemma PlusesAreWrong(t: string)
    requires !Safe(t) && t[0] == '/'
    ensures var f := Pluses(|SplitTopic(t)| - 1);
            Proper(f) && BrokerMatch(f, t) && !StandardMatch(f, t) && !AtHash(SplitTopic(f), SplitTopic(t))
  {
    var k := |SplitTopic(t)| - 1;
    LongerThanSlash(t);
    PlusesMatch(k, t);
    assert |Levels(t)| == k + 2 by { SlashAtTheEnd(t); }
    assert Proper(Pluses(k)) && |SplitTopic(Pluses(k))| == k + 1 by {
      PlusLevels(k);
      ProperSplit(Pluses(k));
    }
  }

  lemma LongerThanSlash(t: string)
    requires |t| > 1
    ensures |SplitTopic(t)| > 1
  {
  }

  lemma HashAtSlash(t: string)
    requires t != ""
    ensures AtHash(SplitTopic("/#"), SplitTopic(t)) ==> SplitTopic(t) == ["/"]
  {
    HashMatches(t);
    ProperSplit("/#");
    assert "/#"[1..] == "#";
    OneLevel("#");
    SplitIs(t);
  }

  lemma ReachedByLast<V>(ops: seq<Op<V>>, t: string, f: string, client: string, sub: V)
    requires t != "" && NoWild(SplitTopic(t)) && BrokerMatch(f, t)
    requires AtHash(SplitTopic(f), SplitTopic(t)) ==> SplitTopic(t) == ["/"]
    requires ops == [Lookup(SplitTopic("/b")), Lookup(SplitTopic(t)), Subscribe(SplitTopic(f), client, sub)]
    ensures client in SubscribersAt(Run(ops), SplitTopic(t))
  {
    var p, P := SplitTopic(t), Run(ops[..2]).Keys;
    assert ops[..2] == [ops[0], ops[1]] && ops[..2][..1] == ops[..1] == [ops[0]];
    SplitIs("/b");
    assert "/b"[1..] == "b";
    OneLevel("b");
    assert SplitTopic("/b") == ["/"] + ["b"];
    LookupCreates(ops[..1], ["/"] + ["b"]);
    LookupCreates(ops[..2], p);
    RunGrows(ops[..2], 1);
    assert p == ["/"] ==> HasChild(P, p);
    SubscribeReaches(ops, 2, p);
    assert LatestIsSubscribe(ops, 2, p, client);
    LatestDecides(ops, p, client);
  }
}
