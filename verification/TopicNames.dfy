/** Cutting a topic string into levels. */
module TopicNames {

  /** The levels of `s`, given that `temp` precedes it in the level being read. A final '/' ends
      the last level but opens no new one. */
  function LevelsFrom(temp: string, s: string): (r: seq<string>)
    ensures s != "" ==> r != []
    decreases |s|
  {
    if s == "" then []
    else if s[0] == '/' then [temp] + LevelsFrom("", s[1..])
    else if |s| == 1 then [temp + s]
    else LevelsFrom(temp + [s[0]], s[1..])
  }

  /** `split`: the first character, whatever it is, becomes the level "/". */
  function SplitTopic(str: string): seq<string>
  {
    if str == "" then [] else ["/"] + LevelsFrom("", str[1..])
  }

  method Split(str: string) returns (words: seq<string>)
    ensures words == SplitTopic(str)
  {
    words := [];
    var temp, length := "", |str|;
    for i := 0 to length
      invariant i == 0 ==> words == [] && temp == ""
      invariant i > 0 ==> words + LevelsFrom(temp, str[i..]) == SplitTopic(str)
      invariant 0 < i == length ==> temp == ""
    {
      ghost var before, temp0, s := words, temp, str[i..];
      assert s[0] == str[i] && s[1..] == str[i + 1..];
      if i == 0 {
        words := words + ["/"];
      } else if str[i] == '/' {
        words, temp := words + [temp], "";
        assert before + LevelsFrom(temp0, s) == words + LevelsFrom("", s[1..]);
      } else if i == length - 1 {
        temp := temp + [str[i]];
        words, temp := words + [temp], "";
        assert s == [str[i]] && str[i + 1..] == "";
        assert before + LevelsFrom(temp0, s) == words + LevelsFrom("", "");
      } else {
        temp := temp + [str[i]];
      }
    }
    assert str[length..] == "";
  }

  // ---------------------------------------------------------------- joining levels

  function Join(levels: seq<string>): string
  {
    if levels == [] then ""
    else if |levels| == 1 then levels[0]
    else levels[0] + "/" + Join(levels[1..])
  }

  /** Levels as the standard allows them, except that the last may not be empty. */
  predicate ProperLevels(levels: seq<string>)
  {
    && (forall l | l in levels :: '/' !in l)
    && (levels != [] ==> levels[|levels| - 1] != "")
  }

  /** `s` without one final '/'. */
  function Trim(s: string): string
  {
    if s != "" && s[|s| - 1] == '/' then s[..|s| - 1] else s
  }

  lemma {:induction false} LevelThenRest(temp: string, u: string, r: string)
    requires '/' !in u && (r != "" ==> r[0] == '/')
    ensures LevelsFrom(temp, u + r)
         == if r != "" then [temp + u] + LevelsFrom("", r[1..]) else if u != "" then [temp + u] else []
    decreases |u|
  {
    if u == "" {
      assert u + r == r && temp + u == temp;
    } else {
      assert (u + r)[1..] == u[1..] + r;
      assert (temp + [u[0]]) + u[1..] == temp + u;
      assert '/' !in u[1..];
      if |u + r| == 1 {
        assert u + r == u;
      } else {
        LevelThenRest(temp + [u[0]], u[1..], r);
      }
    }
  }

  /** Splitting inverts joining, inner empty levels included. */
  lemma {:induction false} SplitInvertsJoin(levels: seq<string>)
    requires ProperLevels(levels)
    ensures SplitTopic("/" + Join(levels)) == ["/"] + levels
    decreases |levels|
  {
    if |levels| <= 1 {
      if levels != [] {
        LevelThenRest("", levels[0], "");
        assert levels[0] + "" == levels[0] == "" + levels[0];
      }
    } else {
      var rest := levels[1..];
      assert ProperLevels(rest);
      SplitInvertsJoin(rest);
      assert LevelsFrom("", Join(rest)) == (["/"] + rest)[1..] == rest by {
        assert ("/" + Join(rest))[1..] == Join(rest);
        assert SplitTopic("/" + Join(rest))[1..] == LevelsFrom("", Join(rest));
      }
      var r := "/" + Join(rest);
      LevelThenRest("", levels[0], r);
      assert levels[0] + "/" + Join(rest) == levels[0] + r;
      assert r[1..] == Join(rest) && "" + levels[0] == levels[0];
      assert levels == [levels[0]] + rest;
    }
    assert ("/" + Join(levels))[1..] == Join(levels);
  }

  lemma JoinCons(first: string, rest: seq<string>)
    requires rest != []
    ensures Join([first] + rest) == first + "/" + Join(rest)
  {
    assert ([first] + rest)[1..] == rest;
  }

  lemma {:induction false} JoinOfLevels(temp: string, s: string)
    requires s != ""
    ensures Join(LevelsFrom(temp, s)) == temp + Trim(s)
    decreases |s|
  {
    if |s| == 1 {
      assert s[1..] == "";
      assert temp + "" == temp;
    } else if s[0] == '/' {
      JoinOfLevels("", s[1..]);
      JoinCons(temp, LevelsFrom("", s[1..]));
      TrimNext(temp, s);
    } else {
      JoinOfLevels(temp + [s[0]], s[1..]);
      TrimNext(temp, s);
    }
  }

  lemma TrimNext(temp: string, s: string)
    requires |s| > 1
    ensures (temp + [s[0]]) + Trim(s[1..]) == temp + Trim(s)
    ensures s[0] == '/' ==> temp + "/" + ("" + Trim(s[1..])) == temp + Trim(s)
  {
    assert Trim(s) == [s[0]] + Trim(s[1..]);
  }

  lemma {:induction false} FinalSlashIsLost(temp: string, s: string)
    requires s != "" && s[|s| - 1] != '/'
    ensures LevelsFrom(temp, s + "/") == LevelsFrom(temp, s)
    decreases |s|
  {
    assert (s + "/")[1..] == s[1..] + "/";
    if |s| == 1 {
      assert LevelsFrom(temp + s, "/") == [temp + s] + LevelsFrom("", "");
      assert s == [s[0]];
    } else if s[0] == '/' {
      FinalSlashIsLost("", s[1..]);
    } else {
      FinalSlashIsLost(temp + [s[0]], s[1..]);
    }
  }

  /** Exactly which topics collide: `split` forgets the first character and one final '/' (except
      that of a topic which is nothing else after its first character). */
  lemma SplitCollides(a: string, b: string)
    ensures SplitTopic(a) == SplitTopic(b)
       <==> if a == "" || b == "" then a == b
            else (|a| == 1 <==> |b| == 1) && Trim(a[1..]) == Trim(b[1..])
  {
    if a != "" && b != "" {
      var x, y := a[1..], b[1..];
      assert SplitTopic(a)[1..] == LevelsFrom("", x) && SplitTopic(b)[1..] == LevelsFrom("", y);
      if x != "" && y != "" {
        JoinOfLevels("", x);
        JoinOfLevels("", y);
        assert "" + Trim(x) == Trim(x) && "" + Trim(y) == Trim(y);
        if Trim(x) == Trim(y) {
          TrimDecidesLevels(x, y);
        }
      }
    }
  }

  lemma TrimDecidesLevels(x: string, y: string)
    requires x != "" && y != "" && Trim(x) == Trim(y)
    ensures LevelsFrom("", x) == LevelsFrom("", y)
  {
    var xs, ys := x[|x| - 1] == '/', y[|y| - 1] == '/';
    if xs && !ys {
      assert x == y + "/";
      FinalSlashIsLost("", y);
    } else if ys && !xs {
      assert y == x + "/";
      FinalSlashIsLost("", x);
    } else if xs && ys {
      assert x == Trim(x) + "/" && y == Trim(y) + "/";
    }
  }
}
