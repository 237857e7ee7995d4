/** Which nodes of a topic tree a filter reaches, and which nodes looking it up creates.

    A node is named by its path, the sequence of level names from the root; a tree's shape is the
    set of its paths.
 */
module TopicFilter {

  type Path = seq<string>

  predicate IsWild(level: string)
  {
    level == "+" || level == "#"
  }

  predicate NoWild(f: Path)
  {
    forall i | 0 <= i < |f| :: !IsWild(f[i])
  }

  /** The matching relation of section 4.7.1 of MQTT 3.1.1, level by level: "+" matches one level,
      "#" matches the parent and everything below it. Anything after a "#" is ignored. */
  predicate Matches(f: Path, t: Path)
  {
    if f == [] then t == []
    else if f[0] == "#" then true
    else t != [] && (f[0] == "+" || f[0] == t[0]) && Matches(f[1..], t[1..])
  }

  ghost predicate PrefixClosed(P: set<Path>)
  {
    [] in P && forall p | p in P && p != [] :: p[..|p| - 1] in P
  }

  ghost predicate HasChild(P: set<Path>, p: Path)
  {
    exists k :: p + [k] in P
  }

  /** `q` fits the first `|q|` levels of `f`, none of which is "#". */
  predicate Fits(f: Path, q: Path)
  {
    |q| <= |f| && forall i | 0 <= i < |q| :: f[i] != "#" && (f[i] == "+" || f[i] == q[i])
  }

  /** A lookup that stands at path `p` creates `q` (or finds it): `q` fits the filter, and below `p`
      its "+" levels were there already. */
  ghost predicate Created(P: set<Path>, p: Path, f: Path, q: Path)
  {
    p <= q && Fits(f, q) && forall j | |p| <= j < |q| && f[j] == "+" :: q[..j + 1] in P
  }

  /** The filter has its "#" at level `h` and `q` lies at or below the node it is read at. */
  ghost predicate HashAt(f: Path, q: Path, h: nat)
  {
    h < |f| && h <= |q| && f[h] == "#" && Fits(f, q[..h])
  }

  /** The nodes a lookup of `f` returns, in a tree of shape `P`. */
  ghost predicate Selected(P: set<Path>, f: Path, q: Path)
  {
    && q in P
    && ((|q| == |f| && Fits(f, q)) || exists h: nat :: HashAt(f, q, h) && (|q| > h || HasChild(P, q)))
  }

  /** The shape of the tree after a lookup of `f`. */
  ghost function Grow(P: set<Path>, f: Path): set<Path>
  {
    P + set a: Path, k: nat | a in P && |a| <= k <= |f| && Created(P, [], f, a + f[|a|..k]) :: a + f[|a|..k]
  }

  // ---------------------------------------------------------------- shape

  lemma {:induction false} PrefixIn(P: set<Path>, p: Path, k: nat)
    requires PrefixClosed(P) && p in P && k <= |p|
    ensures p[..k] in P
    decreases |p|
  {
    if k < |p| {
      var up := p[..|p| - 1];
      PrefixIn(P, up, k);
      assert up[..k] == p[..k];
    } else {
      assert p[..k] == p;
    }
  }

  /** One past the last "+" among the first `n` levels of `f`. */
  ghost function PastLastPlus(f: Path, n: nat): (j: nat)
    requires n <= |f|
    ensures j <= n && (j > 0 ==> f[j - 1] == "+") && forall i | j <= i < n :: f[i] != "+"
  {
    if n == 0 then 0 else if f[n - 1] == "+" then n else PastLastPlus(f, n - 1)
  }

  lemma GrowMember(P: set<Path>, f: Path, q: Path)
    requires [] in P
    ensures q in Grow(P, f) <==> q in P || Created(P, [], f, q)
  {
    if Created(P, [], f, q) {
      var j := PastLastPlus(f, |q|);
      var a := q[..j];
      assert a in P;
      assert q == a + f[j..|q|];
    }
  }

  lemma GrowKeepsShape(P: set<Path>, f: Path)
    requires PrefixClosed(P)
    ensures PrefixClosed(Grow(P, f))
    ensures P <= Grow(P, f)
  {
    forall q | q in Grow(P, f) && q != [] ensures q[..|q| - 1] in Grow(P, f) {
      GrowMember(P, f, q);
      var up := q[..|q| - 1];
      GrowMember(P, f, up);
      if q !in P {
        forall j | 0 <= j < |up| && f[j] == "+" ensures up[..j + 1] in P {
          assert up[..j + 1] == q[..j + 1];
        }
      }
    }
  }

  /** A lookup creates a node exactly where the filter, up to that level and without a "#", matches its path,
      and for each "+" the node that the path has there was in the tree before. */
  lemma GrowCreates(P: set<Path>, f: Path, q: Path)
    requires [] in P
    ensures q in Grow(P, f)
       <==> q in P || (&& |q| <= |f| && "#" !in f[..|q|] && Matches(f[..|q|], q)
                       && forall j | 0 <= j < |q| && f[j] == "+" :: q[..j + 1] in P)
  {
    GrowMember(P, f, q);
    if |q| <= |f| && "#" !in f[..|q|] { MatchesLevelwise(f[..|q|], q); }
    if Fits(f, q) {
      forall i | 0 <= i < |q| ensures f[..|q|][i] != "#" { assert f[..|q|][i] == f[i]; }
    }
  }

  ghost predicate NoWildNames(P: set<Path>)
  {
    forall p | p in P :: NoWild(p)
  }

  /** No node is ever named "+" or "#". */
  lemma GrowKeepsNames(P: set<Path>, f: Path)
    requires [] in P && NoWildNames(P)
    ensures NoWildNames(Grow(P, f))
  {
    forall q | q in Grow(P, f) ensures NoWild(q) {
      GrowMember(P, f, q);
      if q !in P {
        forall i | 0 <= i < |q| ensures !IsWild(q[i]) {
          if f[i] == "+" { assert q[..i + 1][i] == q[i]; }
        }
      }
    }
  }

  // ---------------------------------------------------------------- expansion is monotone

  lemma SelectedIsMonotone(P1: set<Path>, P2: set<Path>, f: Path, q: Path)
    requires P1 <= P2 && Selected(P1, f, q)
    ensures Selected(P2, f, q)
  {
    if !(|q| == |f| && Fits(f, q)) {
      var h: nat :| HashAt(f, q, h) && (|q| > h || HasChild(P1, q));
      if |q| == h {
        var k :| q + [k] in P1;
        assert q + [k] in P2;
      }
    }
  }

  // ---------------------------------------------------------------- what expansion means

  lemma {:induction false} MatchesLevelwise(f: Path, t: Path)
    ensures Matches(f, t) <==> (|t| == |f| && Fits(f, t)) || exists h: nat :: HashAt(f, t, h)
    decreases |f|
  {
    if f == [] {
      assert !exists h: nat :: HashAt(f, t, h);
    } else if f[0] == "#" {
      assert HashAt(f, t, 0);
    } else if t != [] && (f[0] == "+" || f[0] == t[0]) {
      var f1, t1 := f[1..], t[1..];
      MatchesLevelwise(f1, t1);
      assert Fits(f, t) <==> Fits(f1, t1) by { FitsStep(f, t); }
      forall h: nat | HashAt(f1, t1, h) ensures HashAt(f, t, h + 1) {
        FitsStep(f, t[..h + 1]);
        assert t[..h + 1][1..] == t1[..h];
      }
      forall h: nat | HashAt(f, t, h) ensures h > 0 && HashAt(f1, t1, h - 1) {
        FitsStep(f, t[..h]);
        assert t[..h][1..] == t1[..h - 1];
      }
    } else {
      if t != [] {
        assert forall h: nat | 0 < h <= |t| :: t[..h][0] == t[0];
      }
    }
  }

  lemma FitsStep(f: Path, t: Path)
    requires f != [] && t != []
    ensures Fits(f, t) <==> f[0] != "#" && (f[0] == "+" || f[0] == t[0]) && Fits(f[1..], t[1..])
  {
    if f[0] != "#" && (f[0] == "+" || f[0] == t[0]) && Fits(f[1..], t[1..]) {
      forall i | 0 <= i < |t| ensures f[i] != "#" && (f[i] == "+" || f[i] == t[i]) {
        if i > 0 { assert f[1..][i - 1] == f[i] && t[1..][i - 1] == t[i]; }
      }
    }
    if Fits(f, t) {
      forall i | 0 <= i < |t[1..]| ensures f[1..][i] != "#" && (f[1..][i] == "+" || f[1..][i] == t[1..][i]) {
        assert f[1..][i] == f[i + 1] && t[1..][i] == t[i + 1];
      }
    }
  }

  /** `q` sits exactly where `f` has its "#". */
  predicate AtHash(f: Path, q: Path)
  {
    |q| < |f| && f[|q|] == "#" && Fits(f, q)
  }

  /** A lookup returns precisely the nodes whose path the filter matches under section 4.7.1,
      except a childless node sitting exactly at the "#". */
  lemma SelectedMeaning(P: set<Path>, f: Path, q: Path)
    ensures Selected(P, f, q) <==> q in P && Matches(f, q) && (AtHash(f, q) ==> HasChild(P, q))
  {
    MatchesLevelwise(f, q);
    if q in P && exists h: nat :: HashAt(f, q, h) {
      var h: nat :| HashAt(f, q, h);
      if h == |q| {
        assert q[..h] == q;
        if HasChild(P, q) { assert Selected(P, f, q); }
      } else {
        assert Selected(P, f, q);
      }
    }
  }

  /** A literal filter always reaches its own node, and only that one. */
  lemma LiteralReachesItself(P: set<Path>, f: Path, q: Path)
    requires [] in P && NoWild(f)
    ensures Selected(Grow(P, f), f, q) <==> q == f
  {
    GrowMember(P, f, f);
    assert Created(P, [], f, f);
    assert Fits(f, q) && |q| == |f| ==> q == f;
  }

  // ---------------------------------------------------------------- steps of a lookup

  /** `p` is reached from `path` along literal levels of `f`. */
  ghost predicate Straight(path: Path, p: Path, f: Path)
  {
    && |path| <= |p| <= |f| && Fits(f, path) && p == path + f[|path|..|p|]
    && forall j | |path| <= j < |p| :: !IsWild(f[j])
  }

  lemma StraightFits(path: Path, p: Path, f: Path, q: Path)
    requires Straight(path, p, f) && path <= q
    ensures Fits(f, p)
    ensures |q| <= |p| ==> (Fits(f, q) <==> q <= p)
    ensures |q| > |p| && Fits(f, q[..|p|]) ==> p <= q
    ensures |q| > |p| && Fits(f, q) ==> p <= q
  {
    if |q| <= |p| && Fits(f, q) {
      assert forall i | |path| <= i < |q| :: q[i] == f[i] == p[i];
    }
    if |q| > |p| && (Fits(f, q[..|p|]) || Fits(f, q)) {
      assert forall i | |path| <= i < |p| :: q[..|p|][i] == q[i] == f[i] == p[i];
    }
  }

  /** The shape after the straight part of a lookup. */
  ghost predicate StraightShape(P: set<Path>, path: Path, p: Path, P1: set<Path>)
  {
    forall x :: x in P1 <==> x in P || (path <= x && x <= p)
  }

  lemma StraightStart(P: set<Path>, path: Path, f: Path)
    requires path in P && Fits(f, path)
    ensures Straight(path, path, f) && StraightShape(P, path, path, P)
  {
    assert path + f[|path|..|path|] == path;
    forall x ensures x in P <==> x in P || (path <= x && x <= path) {
      if path <= x && x <= path { assert x == path[..|x|] == path; }
    }
  }

  lemma PrefixStep(p: Path, k: string, x: Path)
    ensures x <= p + [k] <==> x <= p || x == p + [k]
  {
    var next := p + [k];
    if x <= next && |x| <= |p| { assert x == next[..|x|] == p[..|x|]; }
    if x <= p { assert x == p[..|x|] == next[..|x|]; }
  }

  lemma StraightStep(P: set<Path>, path: Path, p: Path, f: Path, P1: set<Path>)
    requires Straight(path, p, f) && |p| < |f| && !IsWild(f[|p|]) && StraightShape(P, path, p, P1)
    ensures Straight(path, p + [f[|p|]], f) && StraightShape(P, path, p + [f[|p|]], P1 + {p + [f[|p|]]})
  {
    var next := p + [f[|p|]];
    assert next == path + f[|path|..|p| + 1];
    forall x ensures x in P1 + {next} <==> x in P || (path <= x && x <= next) {
      PrefixStep(p, f[|p|], x);
    }
  }

  /** A lookup that is literal to the end creates the nodes on the way, and returns the last. */
  lemma StraightLookup(P: set<Path>, path: Path, p: Path, f: Path, P1: set<Path>, q: Path)
    requires Straight(path, p, f) && |p| == |f| && StraightShape(P, path, p, P1)
    ensures q in P1 <==> q in P || Created(P, path, f, q)
    ensures path <= q && q in P1 ==> (Selected(P1, f, q) <==> q == p)
  {
    assert forall h | 0 <= h < |f| :: f[h] != "#";
    if path <= q { StraightFits(path, p, f, q); }
  }

  /** Below a "+" at `p`, and nowhere else, a lookup goes on into the children that were there. */
  lemma PlusLookup(P: set<Path>, path: Path, p: Path, f: Path, P1: set<Path>, q: Path)
    requires PrefixClosed(P) && Straight(path, p, f) && StraightShape(P, path, p, P1)
    requires path in P && |p| < |f| && f[|p|] == "+"
    ensures Created(P, path, f, q)
       <==> path <= q && (q <= p || (p < q && q[..|p| + 1] in P1 && Created(P1, q[..|p| + 1], f, q)))
  {
    if path <= q {
      StraightFits(path, p, f, q);
      if |q| > |p| && p <= q {
        forall j | |p| <= j < |q| && j < |f| && f[j] == "+" ensures q[..j + 1] in P1 <==> q[..j + 1] in P {}
      }
    }
  }

  lemma SelectedBelowPlus(path: Path, p: Path, f: Path, K: set<Path>, q: Path)
    requires Straight(path, p, f) && |p| < |f| && f[|p|] == "+"
    requires path <= q && Selected(K, f, q)
    ensures p < q
  {
    StraightFits(path, p, f, q);
    forall h: nat | HashAt(f, q, h) ensures h > |p| && p <= q {
      if path <= q[..h] { StraightFits(path, p, f, q[..h]); }
    }
  }

  /** At a "#" at `p` a lookup creates nothing more and returns the whole subtree, unless `p` has
      no child. */
  lemma HashLookup(P: set<Path>, path: Path, p: Path, f: Path, P1: set<Path>, q: Path)
    requires Straight(path, p, f) && StraightShape(P, path, p, P1)
    requires |p| < |f| && f[|p|] == "#"
    ensures q in P1 <==> q in P || Created(P, path, f, q)
    ensures path <= q && Selected(P1, f, q) <==> q in P1 && p <= q && (q != p || HasChild(P1, p))
  {
    if path <= q {
      StraightFits(path, p, f, q);
      if p <= q {
        assert q[..|p|] == p;
        assert HashAt(f, q, |p|);
      }
      forall h: nat | HashAt(f, q, h) ensures h == |p| && q[..h] == p {
        StraightFits(path, p, f, q[..h]);
      }
    }
  }

  /** Two shapes agree on everything at and below `b`. */
  ghost predicate SameBelow(P: set<Path>, P2: set<Path>, b: Path)
  {
    forall x | b <= x :: x in P <==> x in P2
  }

  lemma SameBelowSameLookup(P: set<Path>, P2: set<Path>, b: Path, f: Path, q: Path)
    requires SameBelow(P, P2, b) && b <= q
    ensures Created(P, b, f, q) <==> Created(P2, b, f, q)
    ensures Selected(P, f, q) <==> Selected(P2, f, q)
  {
    forall j | |b| <= j < |q| && j < |f| && f[j] == "+" ensures q[..j + 1] in P <==> q[..j + 1] in P2 {}
    assert HasChild(P, q) <==> HasChild(P2, q) by {
      forall k ensures q + [k] in P <==> q + [k] in P2 { assert b <= q + [k]; }
    }
  }

  /** `q` is created below one of these children of `p`. */
  ghost predicate InFan(P1: set<Path>, p: Path, topics: seq<string>, f: Path, q: Path)
  {
    p < q && q[|p|] in topics && Created(P1, q[..|p| + 1], f, q)
  }

  /** The shape after the lookup has gone on into these children. */
  ghost predicate FanShape(P1: set<Path>, p: Path, topics: seq<string>, f: Path, K: set<Path>)
  {
    forall q :: q in K <==> q in P1 || InFan(P1, p, topics, f, q)
  }

  ghost predicate FanSelected(K: set<Path>, p: Path, topics: seq<string>, f: Path, q: Path)
  {
    p < q && q[|p|] in topics && Selected(K, f, q)
  }

  /** One more child, which nothing done for the earlier children has touched. */
  lemma FanStep(P1: set<Path>, p: Path, topics: seq<string>, k: nat, f: Path, K: set<Path>, K2: set<Path>)
    requires k < |topics| && topics[k] !in topics[..k] && FanShape(P1, p, topics[..k], f, K)
    requires forall q :: q in K2 <==> q in K || Created(K, p + [topics[k]], f, q)
    ensures FanShape(P1, p, topics[..k + 1], f, K2)
    ensures forall q | p < q && q[|p|] in topics[..k] :: Selected(K, f, q) <==> Selected(K2, f, q)
  {
    var b := p + [topics[k]];
    assert topics[..k + 1] == topics[..k] + [topics[k]];
    assert SameBelow(P1, K, b) by {
      forall x | b <= x ensures x in P1 <==> x in K { assert x[|p|] == b[|p|]; }
    }
    forall q ensures q in K2 <==> q in P1 || InFan(P1, p, topics[..k + 1], f, q) {
      if b <= q {
        assert q[|p|] == b[|p|] && q[..|p| + 1] == b;
        SameBelowSameLookup(P1, K, b, f, q);
      } else if p < q {
        assert q[..|p| + 1] == p + [q[|p|]];
      }
    }
    forall q | p < q && q[|p|] in topics[..k] ensures Selected(K, f, q) <==> Selected(K2, f, q) {
      var c := q[..|p| + 1];
      assert SameBelow(K, K2, c) by {
        forall x | c <= x ensures x in K <==> x in K2 {
          assert x[|p|] == c[|p|] == q[|p|];
          assert b[|p|] == topics[k] != x[|p|];
        }
      }
      SameBelowSameLookup(K, K2, c, f, q);
    }
  }
}
