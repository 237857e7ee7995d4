/** The topic tree as a value, and what a whole run of operations on it means.

    A tree value maps each node's path to its subscribers, client id -> subscription.
 */
module TopicHistory {
  import opened TopicFilter

  type Tree<V> = map<Path, map<string, V>>

  datatype Op<V> =
    | Subscribe(filter: Path, client: string, sub: V)
    | Unsubscribe(filter: Path, client: string)
    | Lookup(filter: Path)

  ghost function SubscribersAt<V>(t: Tree<V>, p: Path): map<string, V>
  {
    if p in t then t[p] else map[]
  }

  /** The subscribers of node `p` after the operation, in a tree that has grown to shape `P`. */
  ghost function Updated<V>(P: set<Path>, op: Op<V>, p: Path, subs: map<string, V>): map<string, V>
  {
    if !Selected(P, op.filter, p) then subs
    else match op
         case Subscribe(_, c, s) => subs[c := s]
         case Unsubscribe(_, c) => subs - {c}
         case Lookup(_) => subs
  }

  /** Every operation first grows the tree by its filter and then works on the nodes reached there. */
  ghost function Apply<V>(t: Tree<V>, op: Op<V>): Tree<V>
  {
    var P := Grow(t.Keys, op.filter);
    map p | p in P :: Updated(P, op, p, SubscribersAt(t, p))
  }

  ghost function Run<V>(ops: seq<Op<V>>): Tree<V>
  {
    if ops == [] then map[[] := map[]] else Apply(Run(ops[..|ops| - 1]), ops[|ops| - 1])
  }

  // ---------------------------------------------------------------- shape over a run

  lemma {:induction false} RunShape<V>(ops: seq<Op<V>>)
    ensures PrefixClosed(Run(ops).Keys) && NoWildNames(Run(ops).Keys)
    decreases |ops|
  {
    if ops != [] {
      var init := ops[..|ops| - 1];
      RunShape(init);
      GrowKeepsShape(Run(init).Keys, ops[|ops| - 1].filter);
      GrowKeepsNames(Run(init).Keys, ops[|ops| - 1].filter);
    }
  }

  /** Nodes only get added. */
  lemma {:induction false} RunGrows<V>(ops: seq<Op<V>>, i: nat)
    requires i <= |ops|
    ensures Run(ops[..i]).Keys <= Run(ops).Keys
    decreases |ops|
  {
    if i == |ops| {
      assert ops[..i] == ops;
    } else {
      var init := ops[..|ops| - 1];
      RunGrows(init, i);
      assert init[..i] == ops[..i];
      RunShape(init);
      GrowKeepsShape(Run(init).Keys, ops[|ops| - 1].filter);
    }
  }

  // ---------------------------------------------------------------- the latest operation decides

  /** Operation `i` of the run changes what node `p` knows of the client: its expansion, on the
      tree as it then stood, contained the node. */
  ghost predicate Touches<V>(ops: seq<Op<V>>, i: nat, p: Path, client: string)
    requires i < |ops|
  {
    && !ops[i].Lookup? && ops[i].client == client
    && Selected(Run(ops[..i + 1]).Keys, ops[i].filter, p)
  }

  /** The latest operation that touched `p` for the client was the subscribe at `i`. */
  ghost predicate LatestIsSubscribe<V>(ops: seq<Op<V>>, i: nat, p: Path, client: string)
  {
    && i < |ops| && Touches(ops, i, p, client) && ops[i].Subscribe?
    && forall j | i < j < |ops| :: !Touches(ops, j, p, client)
  }

  lemma TouchesInPrefix<V>(ops: seq<Op<V>>, n: nat, i: nat, p: Path, client: string)
    requires i < n <= |ops|
    ensures Touches(ops[..n], i, p, client) <==> Touches(ops, i, p, client)
  {
    assert ops[..n][..i + 1] == ops[..i + 1];
  }

  lemma ApplyAt<V>(t: Tree<V>, op: Op<V>, p: Path)
    requires PrefixClosed(t.Keys)
    ensures var P := Apply(t, op).Keys;
            SubscribersAt(Apply(t, op), p) == Updated(P, op, p, SubscribersAt(t, p))
  {
    GrowKeepsShape(t.Keys, op.filter);
  }

  /** One operation changes what a node knows of a client only by touching it. */
  lemma LastOperation<V>(ops: seq<Op<V>>, p: Path, client: string)
    requires ops != []
    ensures var n := |ops| - 1;
            var now, was := SubscribersAt(Run(ops), p), SubscribersAt(Run(ops[..n]), p);
            if Touches(ops, n, p, client)
            then (client in now <==> ops[n].Subscribe?) && (client in now ==> now[client] == ops[n].sub)
            else (client in now <==> client in was) && (client in now ==> now[client] == was[client])
  {
    var n := |ops| - 1;
    var t, op := Run(ops[..n]), ops[n];
    assert ops[..n + 1] == ops;
    assert Run(ops) == Apply(t, op);
    RunShape(ops[..n]);
    ApplyAt(t, op, p);
  }

  /** The tree refines the flat (path, client) -> subscription map given by the latest operations:
      node `p` has the client with subscription `s` exactly when the client's latest operation that
      reached `p` was a subscribe with `s`. */
  lemma {:induction false} LatestDecides<V>(ops: seq<Op<V>>, p: Path, client: string)
    ensures client in SubscribersAt(Run(ops), p) <==> exists i: nat :: LatestIsSubscribe(ops, i, p, client)
    ensures forall i: nat | LatestIsSubscribe(ops, i, p, client) ::
              client in SubscribersAt(Run(ops), p) && SubscribersAt(Run(ops), p)[client] == ops[i].sub
    decreases |ops|
  {
    if ops != [] {
      var n := |ops| - 1;
      LastOperation(ops, p, client);
      if Touches(ops, n, p, client) {
        if ops[n].Subscribe? { assert LatestIsSubscribe(ops, n, p, client); }
      } else {
        var init := ops[..n];
        LatestDecides(init, p, client);
        LatestUntouched(ops, p, client);
        if client in SubscribersAt(Run(init), p) {
          var i: nat :| LatestIsSubscribe(init, i, p, client);
          assert LatestIsSubscribe(ops, i, p, client);
        }
      }
    }
  }

  lemma LatestUntouched<V>(ops: seq<Op<V>>, p: Path, client: string)
    requires ops != [] && !Touches(ops, |ops| - 1, p, client)
    ensures forall i: nat :: LatestIsSubscribe(ops, i, p, client)
                   <==> LatestIsSubscribe(ops[..|ops| - 1], i, p, client)
  {
    var n := |ops| - 1;
    forall i: nat | i < n ensures Touches(ops[..n], i, p, client) <==> Touches(ops, i, p, client) {
      TouchesInPrefix(ops, n, i, p, client);
    }
  }

  // ---------------------------------------------------------------- consequences

  /** Soundness over every run: a client found at a node subscribed earlier, with that very
      subscription, using a filter that matches the node's path under section 4.7.1. */
  lemma MatchingIsSound<V>(ops: seq<Op<V>>, p: Path, client: string)
    requires client in SubscribersAt(Run(ops), p)
    ensures exists i | 0 <= i < |ops| ::
              ops[i].Subscribe? && ops[i].client == client && Matches(ops[i].filter, p)
              && ops[i].sub == Run(ops)[p][client]
  {
    LatestDecides(ops, p, client);
    var i: nat :| LatestIsSubscribe(ops, i, p, client);
    SelectedMeaning(Run(ops[..i + 1]).Keys, ops[i].filter, p);
  }

  /** The exact condition under which an operation reaches a topic that its filter matches, read off
      the tree before it: exactly at the filter's "#" the topic's node must be there with a child;
      anywhere else it must be there, or be one that the operation creates. */
  lemma SubscribeReaches<V>(ops: seq<Op<V>>, i: nat, p: Path)
    requires i < |ops| && !ops[i].Lookup? && Matches(ops[i].filter, p)
    ensures Touches(ops, i, p, ops[i].client)
       <==> (var P, f := Run(ops[..i]).Keys, ops[i].filter;
             if AtHash(f, p) then p in P && HasChild(P, p) else p in P || Created(P, [], f, p))
  {
    var P, f := Run(ops[..i]).Keys, ops[i].filter;
    assert ops[..i + 1][..i] == ops[..i];
    RunShape(ops[..i]);
    SelectedMeaning(Grow(P, f), f, p);
    GrowMember(P, f, p);
    if AtHash(f, p) { GrowAtHash(P, f, p); }
  }

  /** Growing by a filter gives the node at its "#" no child that it did not have. */
  lemma GrowAtHash(P: set<Path>, f: Path, p: Path)
    requires PrefixClosed(P) && AtHash(f, p)
    ensures HasChild(Grow(P, f), p) <==> HasChild(P, p)
    ensures HasChild(P, p) ==> p in P
  {
    forall k ensures p + [k] in Grow(P, f) <==> p + [k] in P {
      GrowMember(P, f, p + [k]);
      assert f[|p|] == "#" ==> !Fits(f, p + [k]);
    }
    if HasChild(P, p) {
      var k :| p + [k] in P;
      assert (p + [k])[..|p|] == p;
    }
  }

  /** A filter without wildcards reaches its own topic and no other, in every tree. */
  lemma LiteralSubscribeReaches<V>(ops: seq<Op<V>>, i: nat, p: Path)
    requires i < |ops| && !ops[i].Lookup? && NoWild(ops[i].filter)
    ensures Touches(ops, i, p, ops[i].client) <==> p == ops[i].filter
  {
    assert ops[..i + 1][..i] == ops[..i];
    RunShape(ops[..i]);
    LiteralReachesItself(Run(ops[..i]).Keys, ops[i].filter, p);
  }

  /** The flat (path, client) -> subscription map at `p`: every operation works on its own topic only. */
  ghost function Flat<V>(ops: seq<Op<V>>, p: Path): map<string, V>
  {
    if ops == [] then map[]
    else
      var n := |ops| - 1;
      var subs := Flat(ops[..n], p);
      if ops[n].filter != p then subs
      else match ops[n]
           case Subscribe(_, c, s) => subs[c := s]
           case Unsubscribe(_, c) => subs - {c}
           case Lookup(_) => subs
  }

  lemma FlatNext<V>(ops: seq<Op<V>>, op: Op<V>, p: Path)
    ensures Flat(ops + [op], p)
         == if op.filter != p || op.Lookup? then Flat(ops, p)
            else if op.Subscribe? then Flat(ops, p)[op.client := op.sub] else Flat(ops, p) - {op.client}
  {
    assert (ops + [op])[..|ops|] == ops;
  }

  ghost predicate LiteralOnly<V>(ops: seq<Op<V>>)
  {
    forall i | 0 <= i < |ops| :: NoWild(ops[i].filter)
  }

  /** Over every run without wildcards the tree is that flat map. */
  lemma {:induction false} LiteralRunIsFlat<V>(ops: seq<Op<V>>, p: Path)
    requires LiteralOnly(ops)
    ensures SubscribersAt(Run(ops), p) == Flat(ops, p)
    decreases |ops|
  {
    if ops != [] {
      var n := |ops| - 1;
      LiteralRunIsFlat(ops[..n], p);
      RunShape(ops[..n]);
      ApplyAt(Run(ops[..n]), ops[n], p);
      LiteralReachesItself(Run(ops[..n]).Keys, ops[n].filter, p);
    }
  }

  /** Completeness fails, in every run: an operation whose filter has a "+" misses every topic that
      had no node yet at that level, although the filter may match it. */
  lemma LateTopicIsMissed<V>(ops: seq<Op<V>>, i: nat, t: Path, j: nat, client: string)
    requires i < |ops| && j < |t| && j < |ops[i].filter| && ops[i].filter[j] == "+"
    requires t[..j + 1] !in Run(ops[..i]).Keys
    ensures !Touches(ops, i, t, client)
  {
    var P := Run(ops[..i]).Keys;
    assert ops[..i + 1][..i] == ops[..i];
    RunShape(ops[..i]);
    GrowMember(P, ops[i].filter, t);
    if t in P { PrefixIn(P, t, j + 1); }
  }

  /** The client's subscribe at `i` came too early for the topic. */
  ghost predicate TooEarly<V>(ops: seq<Op<V>>, i: nat, t: Path)
    requires i < |ops|
  {
    exists j: nat :: j < |t| && j < |ops[i].filter| && ops[i].filter[j] == "+" && t[..j + 1] !in Run(ops[..i]).Keys
  }

  /** So a client all of whose matching subscribes came too early does not hear of the topic. */
  lemma LateTopicIsUnheard<V>(ops: seq<Op<V>>, t: Path, client: string)
    requires forall i | 0 <= i < |ops| && ops[i].Subscribe? && ops[i].client == client && Matches(ops[i].filter, t) ::
               TooEarly(ops, i, t)
    ensures client !in SubscribersAt(Run(ops), t)
  {
    LatestDecides(ops, t, client);
    if client in SubscribersAt(Run(ops), t) {
      var i: nat :| LatestIsSubscribe(ops, i, t, client);
      SelectedMeaning(Run(ops[..i + 1]).Keys, ops[i].filter, t);
      var j: nat :| j < |t| && j < |ops[i].filter| && ops[i].filter[j] == "+" && t[..j + 1] !in Run(ops[..i]).Keys;
      LateTopicIsMissed(ops, i, t, j, client);
    }
  }

  lemma LookupCreates<V>(ops: seq<Op<V>>, t: Path)
    requires ops != [] && NoWild(t) && ops[|ops| - 1] == Lookup(t)
    ensures t in Run(ops)
  {
    var before := Run(ops[..|ops| - 1]);
    RunShape(ops[..|ops| - 1]);
    GrowMember(before.Keys, t, t);
    assert Created(before.Keys, [], t, t);
  }

  /** From the empty tree every subscribe with a "+" is too early. */
  lemma FirstSubscribeIsTooEarly<V>(f: Path, t: Path, j: nat, client: string, sub: V)
    requires NoWild(t) && j < |t| && j < |f| && f[j] == "+"
    ensures var ops := [Subscribe(f, client, sub), Lookup(t)]; t in Run(ops) && client !in Run(ops)[t]
  {
    var ops := [Subscribe(f, client, sub), Lookup(t)];
    LookupCreates(ops, t);
    assert TooEarly(ops, 0, t) by {
      assert ops[..0] == [] && t[..j + 1] !in Run(ops[..0]).Keys;
    }
    LateTopicIsUnheard(ops, t, client);
  }

  /** A concrete case: "/a/+" and "/a/b". */
  lemma LateTopicExample<V>(sub: V)
    ensures var f, t: Path := ["/", "a", "+"], ["/", "a", "b"];
            var ops := [Subscribe(f, "c", sub), Lookup(t)];
            Matches(f, t) && t in Run(ops) && "c" !in Run(ops)[t]
  {
    var f, t: Path := ["/", "a", "+"], ["/", "a", "b"];
    MatchesLevelwise(f, t);
    FirstSubscribeIsTooEarly(f, t, 2, "c", sub);
  }

  /** Unsubscribe cancels subscribe despite growth: after a subscribe of `f`, any other operations
      and an unsubscribe of `f`, no node that the subscribe reached, and no node in `f`'s current
      expansion, holds the client. */
  lemma UnsubscribeCancels<V>(before: seq<Op<V>>, between: seq<Op<V>>, f: Path, client: string, sub: V, p: Path)
    requires var started := before + [Subscribe(f, client, sub)];
             var ops := started + between + [Unsubscribe(f, client)];
             Selected(Run(started).Keys, f, p) || Selected(Run(ops).Keys, f, p)
    ensures client !in SubscribersAt(Run(before + [Subscribe(f, client, sub)] + between
                                         + [Unsubscribe(f, client)]), p)
  {
    var started := before + [Subscribe(f, client, sub)];
    var ops := started + between + [Unsubscribe(f, client)];
    assert ops[..|started|] == started;
    RunGrows(ops, |started|);
    if Selected(Run(started).Keys, f, p) {
      SelectedIsMonotone(Run(started).Keys, Run(ops).Keys, f, p);
    }
    assert ops[|ops| - 1] == Unsubscribe(f, client);
  }

  // ---------------------------------------------------------------- what a match finds

  /** A subscription found by a match: that of the client `client` at the node `at`. */
  datatype Entry<V> = Entry(at: Path, client: string, sub: V)

  ghost predicate Distinct<T>(s: seq<T>)
  {
    forall i, j | 0 <= i < j < |s| :: s[i] != s[j]
  }

  ghost function Among(paths: seq<Path>): set<Path>
  {
    set p | p in paths
  }

  ghost function SelectedIn(P: set<Path>, words: Path): set<Path>
  {
    set p | p in P && Selected(P, words, p)
  }

  /** The entries are exactly the (node, client) pairs at these nodes, each once. */
  ghost predicate EntriesAt<V>(t: Tree<V>, ps: set<Path>, entries: seq<Entry<V>>)
  {
    && ps <= t.Keys && Distinct(entries)
    && (forall e | e in entries :: e.at in ps && e.client in t[e.at] && e.sub == t[e.at][e.client])
    && (forall p, c | p in ps && c in t[p] :: Entry(p, c, t[p][c]) in entries)
  }

  /** What a match finds in the tree that the earlier operations and its own lookup have built. */
  ghost predicate FoundBy<V>(before: seq<Op<V>>, words: Path, entries: seq<Entry<V>>)
  {
    var t := Run(before + [Lookup(words)]);
    EntriesAt(t, SelectedIn(t.Keys, words), entries)
  }

  lemma EntriesOfOneMore<V>(t: Tree<V>, paths: seq<Path>, i: nat, entries: seq<Entry<V>>, more: seq<Entry<V>>)
    requires i < |paths| && Distinct(paths) && paths[i] in t
    requires EntriesAt(t, Among(paths[..i]), entries) && Distinct(more)
    requires forall e | e in more :: e.at == paths[i] && e.client in t[e.at] && e.sub == t[e.at][e.client]
    requires forall c | c in t[paths[i]] :: Entry(paths[i], c, t[paths[i]][c]) in more
    ensures EntriesAt(t, Among(paths[..i + 1]), entries + more)
  {
    assert paths[..i + 1] == paths[..i] + [paths[i]];
    forall x, y | 0 <= x < |entries| && 0 <= y < |more| ensures entries[x] != more[y] {
      assert entries[x] in entries && more[y] in more;
    }
  }

  /** On a topic without wildcards, over every run: a match returns each client at most once, and
      returns it with subscription `s` exactly when the client's latest operation whose expansion
      contained the topic's node was a subscribe with `s`. */
  lemma LiteralMatchIsLatest<V>(before: seq<Op<V>>, words: Path, entries: seq<Entry<V>>)
    requires NoWild(words) && FoundBy(before, words, entries)
    ensures forall i, j | 0 <= i < j < |entries| :: entries[i].client != entries[j].client
    ensures forall e | e in entries ::
              e.at == words && exists j: nat :: LatestIsSubscribe(before + [Lookup(words)], j, words, e.client)
    ensures forall c, j: nat | LatestIsSubscribe(before + [Lookup(words)], j, words, c) ::
              Entry(words, c, (before + [Lookup(words)])[j].sub) in entries
  {
    var ops := before + [Lookup(words)];
    LiteralSelectsItself(before, words);
    forall e | e in entries ensures e.at == words && exists j: nat :: LatestIsSubscribe(ops, j, words, e.client) {
      LatestDecides(ops, words, e.client);
    }
    forall c, j: nat | LatestIsSubscribe(ops, j, words, c) ensures Entry(words, c, ops[j].sub) in entries {
      LatestDecides(ops, words, c);
    }
    forall i, j | 0 <= i < j < |entries| ensures entries[i].client != entries[j].client {
      assert entries[i] in entries && entries[j] in entries;
    }
  }

  /** Over a run without wildcards a match of a topic finds exactly what the flat map holds there. */
  lemma FoundInFlat<V>(before: seq<Op<V>>, words: Path, entries: seq<Entry<V>>)
    requires LiteralOnly(before) && NoWild(words) && Distinct(entries)
    requires forall e | e in entries ::
               e.at == words && e.client in Flat(before, words) && e.sub == Flat(before, words)[e.client]
    requires forall c | c in Flat(before, words) :: Entry(words, c, Flat(before, words)[c]) in entries
    ensures FoundBy(before, words, entries)
  {
    var ops := before + [Lookup(words)];
    assert ops[..|before|] == before;
    LiteralRunIsFlat(ops, words);
    LiteralSelectsItself(before, words);
    LookupCreates(ops, words);
    assert Flat(ops, words) == Flat(before, words);
  }

  lemma LiteralSelectsItself<V>(before: seq<Op<V>>, words: Path)
    requires NoWild(words)
    ensures SelectedIn(Run(before + [Lookup(words)]).Keys, words) == {words}
  {
    var ops := before + [Lookup(words)];
    assert ops[..|before|] == before;
    RunShape(before);
    forall q ensures q in SelectedIn(Run(ops).Keys, words) <==> q == words {
      LiteralReachesItself(Run(before).Keys, words, q);
    }
  }
}
