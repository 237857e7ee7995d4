/** The mutable topic tree. */
module TopicTrees {
  import opened Packets
  import opened Sessions
  import BrokerModel
  import opened TopicFilter
  import opened TopicHistory
  import TopicNames

  ghost function Child(p: Path, k: string): (c: Path)
    ensures |c| == |p| + 1
  {
    p + [k]
  }

  type Subscription = BrokerModel.Match<ClientSession>

  ghost predicate Lists(subs: seq<Subscription>, entries: seq<Entry<Subscription>>)
  {
    |subs| == |entries| && forall i | 0 <= i < |subs| :: subs[i] == entries[i].sub
  }

  lemma ListsOfTwo(a: seq<Subscription>, ea: seq<Entry<Subscription>>, b: seq<Subscription>, eb: seq<Entry<Subscription>>)
    requires Lists(a, ea) && Lists(b, eb)
    ensures Lists(a + b, ea + eb)
  {
  }

  class Node {
    const level: string
    ghost const path: Path // where the node stands in its tree
    var links: map<string, Node>
    var subscribers: map<string, Subscription>

    constructor (level: string, ghost path: Path)
      ensures this.level == level && this.path == path && links == map[] && subscribers == map[]
    {
      this.level, this.path := level, path;
      links, subscribers := map[], map[];
    }

    predicate IsPresent(str: string)
      reads this
    {
      str in links
    }

    method AddLink(str: string)
      modifies this`links
      ensures str in links && fresh(links[str]) && links == old(links)[str := links[str]]
      ensures links[str].level == str && links[str].path == Child(path, str)
      ensures links[str].links == map[] && links[str].subscribers == map[]
    {
      var node := new Node(str, Child(path, str));
      links := links[str := node];
    }

    function GetLink(str: string): Node
      requires str in links
      reads this
    {
      links[str]
    }

    /** The keys of `links`, in the arbitrary order of an unordered map. */
    method GetLinkTopics() returns (topics: seq<string>)
      ensures forall k :: k in topics <==> k in links
      ensures forall i, j | 0 <= i < j < |topics| :: topics[i] != topics[j]
    {
      topics := [];
      var rest := links.Keys;
      while rest != {}
        invariant rest <= links.Keys
        invariant forall k :: k in topics <==> k in links && k !in rest
        invariant forall i, j | 0 <= i < j < |topics| :: topics[i] != topics[j]
      {
        var k :| k in rest;
        topics := topics + [k];
        rest := rest - {k};
      }
    }

    /** The values of `subscribers`, in the arbitrary order of an unordered map. */
    method ListSubscribers() returns (subs: seq<Subscription>, ghost entries: seq<Entry<Subscription>>)
      ensures Lists(subs, entries) && Distinct(entries)
      ensures forall e | e in entries :: e.at == path && e.client in subscribers && e.sub == subscribers[e.client]
      ensures forall c | c in subscribers :: Entry(path, c, subscribers[c]) in entries
    {
      subs, entries := [], [];
      var rest := subscribers.Keys;
      while rest != {}
        invariant rest <= subscribers.Keys && Lists(subs, entries) && Distinct(entries)
        invariant forall e | e in entries :: e.at == path && e.client in subscribers - rest && e.sub == subscribers[e.client]
        invariant forall c | c in subscribers && c !in rest :: Entry(path, c, subscribers[c]) in entries
      {
        var c :| c in rest;
        subs, entries := subs + [subscribers[c]], entries + [Entry(path, c, subscribers[c])];
        rest := rest - {c};
      }
    }

    method Subscribe(cs: ClientSession, qos: byte)
      modifies this`subscribers
      ensures subscribers == old(subscribers)[cs.clientId := BrokerModel.Match(cs, qos)]
    {
      subscribers := subscribers[cs.clientId := BrokerModel.Match(cs, qos)];
    }

    method Unsubscribe(cs: ClientSession)
      modifies this`subscribers
      ensures subscribers == old(subscribers) - {cs.clientId}
    {
      if cs.clientId in subscribers {
        subscribers := subscribers - {cs.clientId};
      } else {
        assert subscribers - {cs.clientId} == subscribers;
      }
    }
  }

  class TopicTree {
    const root: Node
    ghost var nodes: map<Path, Node>            // every node, by its path
    ghost var ops: seq<Op<Subscription>>        // every operation so far
    ghost var repr: set<Node>                   // the node objects

    /** The node objects form a tree: links are exactly the one-level extensions of paths, no node
        has two paths, and each node's level is its key. */
    ghost predicate Linked()
      reads this, nodes.Values
    {
      && [] in nodes && nodes[[]] == root
      && (forall p | p in nodes :: nodes[p].path == p)
      && (forall p, k {:trigger Child(p, k)} | p in nodes ::
            && (k in nodes[p].links <==> Child(p, k) in nodes)
            && (k in nodes[p].links ==>
                  nodes[p].links[k] == nodes[Child(p, k)] && nodes[p].links[k].level == k))
      && (forall p, k {:trigger Child(p, k)} | Child(p, k) in nodes :: p in nodes)
    }

    /** The objects hold this tree value. */
    ghost predicate Shows(t: Tree<Subscription>)
      reads this, nodes.Values
    {
      nodes.Keys == t.Keys && forall p | p in nodes :: nodes[p].subscribers == t[p]
    }

    ghost predicate Valid()
      reads this, repr
    {
      Owned() && Linked() && Shows(Run(ops))
    }

    ghost predicate Owned()
      reads this
    {
      forall p | p in nodes :: nodes[p] in repr
    }

    twostate predicate NodesGrow()
      reads this
    {
      forall n | n in nodes.Values && n !in old(nodes.Values) :: fresh(n)
    }

    /** Every node that has joined the tree since then is a new object. */
    twostate predicate Grows()
      reads this
    {
      forall n | n in repr && n !in old(repr) :: fresh(n)
    }

    constructor ()
      ensures Valid() && ops == [] && fresh(repr)
    {
      root := new Node("*", []);
      new;
      nodes, repr := map[[] := root], {root};
      ops := [];
    }

    lemma ShapeIsPrefixClosed()
      requires Linked()
      ensures PrefixClosed(nodes.Keys)
    {
      forall p | p in nodes && p != [] ensures p[..|p| - 1] in nodes {
        assert p == Child(p[..|p| - 1], p[|p| - 1]);
      }
    }

    // -------------------------------------------------------------- looking nodes up

    /** A list of nodes with their paths: the `new` part of `vec` is what lies at `paths`. */
    ghost predicate Collected(before: seq<Node>, vec: seq<Node>, paths: seq<Path>)
      reads this
    {
      && |vec| == |before| + |paths| && before == vec[..|before|]
      && (forall i | 0 <= i < |paths| :: paths[i] in nodes && nodes[paths[i]] == vec[|before| + i])
    }

    /** `handleWildCard`: collects every node of the subtree at `path`, each exactly once. */
    method HandleWildCard(node: Node, subTopics: seq<string>, vec: seq<Node>, ghost path: Path)
      returns (out: seq<Node>, ghost paths: seq<Path>)
      requires Linked() && path in nodes && nodes[path] == node
      requires Distinct(subTopics) && forall k :: k in subTopics <==> k in node.links
      ensures Collected(vec, out, paths) && Distinct(paths)
      ensures forall p :: p in paths <==> p in nodes && path <= p
      decreases Below(path)
    {
      var pushed := false;
      out, paths := vec, [];
      if subTopics == [] {
        out, paths := out + [node], paths + [path];
      }
      for i := 0 to |subTopics|
        invariant (pushed <==> i > 0) && (i == 0 && subTopics != [] ==> paths == [])
        invariant Collected(vec, out, paths) && Distinct(paths)
        invariant forall p :: p in paths <==> InPart(path, subTopics[..i], i > 0 || subTopics == [], p)
      {
        var subTopic := subTopics[i];
        var nextLink := node.GetLink(subTopic);
        var linkTopics := nextLink.GetLinkTopics();
        if !pushed {
          out, paths := out + [node], paths + [path];
          pushed := true;
        }
        ghost var done, mid := paths, out;
        ChildLink(path, subTopic);
        BelowShrinks(path, subTopic);
        ghost var more: seq<Path>;
        out, more := HandleWildCard(nextLink, linkTopics, out, path + [subTopic]);
        NextPart(path, subTopics, i, done, more);
        CollectedTwice(vec, mid, out, done, more);
        paths := done + more;
      }
      assert subTopics[..|subTopics|] == subTopics;
      PartsCover(path, subTopics);
    }

    ghost function Below(path: Path): set<Path>
      reads this
    {
      set p | p in nodes && path <= p
    }

    lemma BelowShrinks(path: Path, k: string)
      requires path in nodes
      ensures Below(path + [k]) < Below(path)
    {
      assert path in Below(path) && path !in Below(path + [k]);
      forall p | p in Below(path + [k]) ensures p in Below(path) {
        assert path == (path + [k])[..|path|] == p[..|path|];
      }
    }

    lemma PartsCover(path: Path, topics: seq<string>)
      requires Linked() && path in nodes && forall k :: k in topics <==> k in nodes[path].links
      ensures forall p :: InPart(path, topics, true, p) <==> p in nodes && path <= p
    {
      forall p | p in nodes && path <= p ensures InPart(path, topics, true, p) {
        if p != path { ChildOnTheWay(path, p); }
      }
    }

    /** `p` is the node at `path` itself or lies below one of these children. */
    ghost predicate InPart(path: Path, topics: seq<string>, self: bool, p: Path)
      reads this
    {
      p in nodes && ((self && p == path) || exists k :: k in topics && path + [k] <= p)
    }

    lemma NextPart(path: Path, topics: seq<string>, i: nat, done: seq<Path>, more: seq<Path>)
      requires path in nodes && i < |topics| && Distinct(topics) && Distinct(done) && Distinct(more)
      requires forall p :: p in done <==> InPart(path, topics[..i], true, p)
      requires forall p :: p in more <==> p in nodes && path + [topics[i]] <= p
      ensures Distinct(done + more)
      ensures forall p :: p in done + more <==> InPart(path, topics[..i + 1], true, p)
    {
      assert topics[..i + 1] == topics[..i] + [topics[i]];
      forall a, b | 0 <= a < |done| && 0 <= b < |more| ensures done[a] != more[b] {
        var p := more[b];
        assert p in more;
        forall k | k in topics[..i] ensures !(path + [k] <= p) {
          DifferentChildren(path, topics[i], k, p);
        }
        assert !InPart(path, topics[..i], true, p);
        assert done[a] in done;
      }
    }

    lemma DifferentChildren(path: Path, a: string, b: string, p: Path)
      requires a != b && path + [a] <= p
      ensures !(path + [b] <= p) && p != path
    {
      assert p[|path|] == (path + [a])[|path|] == a;
      assert (path + [b])[|path|] == b;
    }

    lemma CollectedTwice(before: seq<Node>, mid: seq<Node>, out: seq<Node>, done: seq<Path>, more: seq<Path>)
      requires Collected(before, mid, done) && Collected(mid, out, more)
      ensures Collected(before, out, done + more)
    {
      assert mid == out[..|mid|];
      assert before == out[..|before|];
    }

    lemma ChildLink(path: Path, k: string)
      requires Linked() && path in nodes
      ensures path + [k] in nodes <==> k in nodes[path].links
      ensures k in nodes[path].links ==> nodes[path + [k]] == nodes[path].links[k]
    {
      assert path + [k] == Child(path, k);
    }

    /** The way from a node down to a node below it starts with one of its links. */
    lemma ChildOnTheWay(path: Path, p: Path)
      requires Linked() && p in nodes && path <= p && path != p
      ensures var k := p[|path|]; path + [k] <= p && path + [k] in nodes && path in nodes && k in nodes[path].links
    {
      ShapeIsPrefixClosed();
      var k := p[|path|];
      assert Child(path, k) == p[..|path| + 1];
      PrefixIn(nodes.Keys, p, |path| + 1);
    }

    /** `getNode`: walks the filter from the node at `path`, creating missing literal levels as it
        goes, and collects the nodes the filter selects, each exactly once. The two shape clauses
        say exactly which nodes exist afterwards; no existing node's subscribers change. */
    method GetNode(vec: seq<Node>, start: Node, subTopics: Path, idx: nat, ghost path: Path)
      returns (out: seq<Node>, ghost paths: seq<Path>)
      requires Linked() && path in nodes && nodes[path] == start
      requires |path| == idx <= |subTopics| && Fits(subTopics, path)
      modifies this`nodes, nodes.Values`links
      ensures LookedUp(old(nodes), path, subTopics, vec, out, paths)
      ensures NodesGrow()
      decreases |subTopics| - idx, 3
    {
      var node := start;
      ghost var p, first := path, nodes;
      ShapeIsPrefixClosed();
      StraightStart(first.Keys, path, subTopics);
      for i := idx to |subTopics|
        invariant |p| == i && p in nodes && nodes[p] == node && Straight(path, p, subTopics)
        invariant Linked() && Extends(first) && StraightShape(first.Keys, path, p, nodes.Keys)
        invariant NodesGrow()
      {
        if IsWild(subTopics[i]) {
          out, paths := AtWildcard(vec, node, subTopics, i, first, path, p);
          return;
        }
        node, p := DescendStraight(node, subTopics, i, first, path, p);
      }
      StraightLookedUp(first, path, p, subTopics, vec);
      out, paths := vec + [node], [p];
    }

    /** The outcome of a lookup of `f` from the node at `path`: exactly the created nodes have been
        added, and the collected nodes are exactly the selected ones below `path`, each once. */
    ghost predicate LookedUp(first: map<Path, Node>, path: Path, f: Path,
                             vec: seq<Node>, out: seq<Node>, paths: seq<Path>)
      reads this, nodes.Values
    {
      && Linked() && Extends(first)
      && (forall q :: q in nodes <==> q in first || Created(first.Keys, path, f, q))
      && Collected(vec, out, paths) && Distinct(paths)
      && (forall q :: q in paths <==> path <= q && Selected(nodes.Keys, f, q))
    }

    /** One literal level: the child of that name, created if it is missing. */
    method Descend(node: Node, str: string, ghost p: Path) returns (next: Node)
      requires Linked() && p in nodes && nodes[p] == node
      modifies this`nodes, node`links
      ensures Linked() && p + [str] in nodes && nodes[p + [str]] == next
      ensures nodes == old(nodes)[p + [str] := next]
      ensures if p + [str] in old(nodes) then next == old(nodes)[p + [str]]
              else fresh(next) && next.subscribers == map[]
    {
      ghost var child := Child(p, str);
      if !node.IsPresent(str) {
        node.AddLink(str);
        nodes := nodes[child := node.links[str]];
        forall q: Path, k | Child(q, k) == child ensures q == p && k == str {
          assert Child(q, k)[..|p|] == q && child[..|p|] == p && child[|p|] == str;
        }
      }
      next := node.GetLink(str);
    }

    method DescendStraight(node: Node, subTopics: Path, i: nat,
                           ghost first: map<Path, Node>, ghost path: Path, ghost p: Path)
      returns (next: Node, ghost p': Path)
      requires Linked() && p in nodes && nodes[p] == node && Extends(first)
      requires |p| == i < |subTopics| && !IsWild(subTopics[i])
      requires Straight(path, p, subTopics) && StraightShape(first.Keys, path, p, nodes.Keys)
      modifies this`nodes, node`links
      ensures Linked() && |p'| == i + 1 && p' in nodes && nodes[p'] == next && Extends(first)
      ensures Straight(path, p', subTopics) && StraightShape(first.Keys, path, p', nodes.Keys)
      ensures NodesGrow()
    {
      StraightStep(first.Keys, path, p, subTopics, nodes.Keys);
      ghost var before := nodes.Keys;
      next := Descend(node, subTopics[i], p);
      p' := p + [subTopics[i]];
      assert nodes.Keys == before + {p'};
    }

    /** A "+" or "#" level: if there are children, go on into them or collect the subtree. */
    method AtWildcard(vec: seq<Node>, node: Node, subTopics: Path, i: nat,
                      ghost first: map<Path, Node>, ghost path: Path, ghost p: Path)
      returns (out: seq<Node>, ghost paths: seq<Path>)
      requires Linked() && p in nodes && nodes[p] == node
      requires |p| == i < |subTopics| && IsWild(subTopics[i])
      requires PrefixClosed(first.Keys) && path in first && Extends(first)
      requires Straight(path, p, subTopics) && StraightShape(first.Keys, path, p, nodes.Keys)
      modifies this`nodes, nodes.Values`links
      ensures LookedUp(first, path, subTopics, vec, out, paths)
      ensures NodesGrow()
      decreases |subTopics| - i, 2
    {
      var linkTopics := node.GetLinkTopics();
      ghost var P1 := nodes.Keys;
      LinksAreChildren(p, linkTopics);
      out, paths := vec, [];
      if linkTopics != [] {
        if subTopics[i] == "+" {
          StraightFits(path, p, subTopics, p);
          out, paths := FanOut(vec, node, linkTopics, subTopics, i, first, p);
          PlusLookedUp(first, P1, path, p, linkTopics, subTopics, vec, out, paths);
        } else {
          out, paths := HandleWildCard(node, linkTopics, vec, p);
          HashLookedUp(first, path, p, linkTopics, subTopics, vec, out, paths);
        }
      } else {
        ChildlessLookedUp(first, path, p, subTopics, vec);
      }
    }

    lemma PlusLookedUp(first: map<Path, Node>, P1: set<Path>, path: Path, p: Path, topics: seq<string>, f: Path,
                       vec: seq<Node>, out: seq<Node>, paths: seq<Path>)
      requires PrefixClosed(first.Keys) && path in first
      requires Straight(path, p, f) && StraightShape(first.Keys, path, p, P1)
      requires |p| < |f| && f[|p|] == "+" && forall k :: k in topics <==> p + [k] in P1
      requires Fanned(first, P1, p, topics, f, vec, out, paths)
      ensures LookedUp(first, path, f, vec, out, paths)
    {
      PlusIsDone(first.Keys, path, p, f, P1, topics, nodes.Keys);
    }

    lemma HashLookedUp(first: map<Path, Node>, path: Path, p: Path, topics: seq<string>, f: Path,
                       vec: seq<Node>, out: seq<Node>, paths: seq<Path>)
      requires Linked() && Extends(first)
      requires Straight(path, p, f) && StraightShape(first.Keys, path, p, nodes.Keys)
      requires |p| < |f| && f[|p|] == "#" && topics != [] && forall k :: k in topics <==> p + [k] in nodes
      requires Collected(vec, out, paths) && Distinct(paths)
      requires forall q :: q in paths <==> q in nodes && p <= q
      ensures LookedUp(first, path, f, vec, out, paths)
    {
      assert topics[0] in topics;
      HashIsDone(first.Keys, path, p, f, nodes.Keys, topics[0]);
    }

    lemma ChildlessLookedUp(first: map<Path, Node>, path: Path, p: Path, f: Path, vec: seq<Node>)
      requires Linked() && Extends(first) && PrefixClosed(first.Keys) && path in first
      requires Straight(path, p, f) && StraightShape(first.Keys, path, p, nodes.Keys)
      requires |p| < |f| && IsWild(f[|p|]) && forall k :: p + [k] !in nodes
      ensures LookedUp(first, path, f, vec, vec, [])
    {
      ShapeIsPrefixClosed();
      ChildlessIsDone(first.Keys, path, p, f, nodes.Keys);
    }

    lemma StraightLookedUp(first: map<Path, Node>, path: Path, p: Path, f: Path, vec: seq<Node>)
      requires Linked() && Extends(first) && p in nodes && |p| == |f|
      requires Straight(path, p, f) && StraightShape(first.Keys, path, p, nodes.Keys)
      ensures LookedUp(first, path, f, vec, vec + [nodes[p]], [p])
    {
      StraightIsDone(first.Keys, path, p, f, nodes.Keys);
    }

    /** The "+" loop of `getNode`: goes on into the children found at the start. */
    method FanOut(vec: seq<Node>, node: Node, topics: seq<string>, subTopics: Path, i: nat,
                  ghost first: map<Path, Node>, ghost p: Path)
      returns (out: seq<Node>, ghost paths: seq<Path>)
      requires Linked() && Extends(first) && p in nodes && nodes[p] == node
      requires |p| == i < |subTopics| && subTopics[i] == "+" && Fits(subTopics, p)
      requires Distinct(topics) && forall k :: k in topics <==> p + [k] in nodes
      modifies this`nodes, nodes.Values`links
      ensures Fanned(first, old(nodes).Keys, p, topics, subTopics, vec, out, paths)
      ensures NodesGrow()
      decreases |subTopics| - i, 1
    {
      out, paths := vec, [];
      ghost var P1 := nodes.Keys;
      for k := 0 to |topics|
        invariant p in nodes && nodes[p] == node
        invariant Fanned(first, P1, p, topics[..k], subTopics, vec, out, paths)
        invariant NodesGrow()
      {
        out, paths := IntoChild(vec, out, node, topics, k, subTopics, i, first, P1, p, paths);
      }
      assert topics[..|topics|] == topics;
    }

    /** The lookup has gone on into these children of `p`, and nowhere else. */
    ghost predicate Fanned(first: map<Path, Node>, P1: set<Path>, p: Path, topics: seq<string>, f: Path,
                           vec: seq<Node>, out: seq<Node>, paths: seq<Path>)
      reads this, nodes.Values
    {
      && Linked() && Extends(first) && FanShape(P1, p, topics, f, nodes.Keys)
      && Collected(vec, out, paths) && Distinct(paths)
      && (forall q :: q in paths <==> FanSelected(nodes.Keys, p, topics, f, q))
    }

    method IntoChild(ghost vec: seq<Node>, mid: seq<Node>, node: Node, topics: seq<string>, k: nat,
                     subTopics: Path, i: nat, ghost first: map<Path, Node>, ghost P1: set<Path>,
                     ghost p: Path, ghost done: seq<Path>)
      returns (out: seq<Node>, ghost paths: seq<Path>)
      requires k < |topics| && Distinct(topics) && p + [topics[k]] in P1
      requires |p| == i < |subTopics| && subTopics[i] == "+" && Fits(subTopics, p)
      requires Fanned(first, P1, p, topics[..k], subTopics, vec, mid, done)
      requires p in nodes && nodes[p] == node
      modifies this`nodes, nodes.Values`links
      ensures Fanned(first, P1, p, topics[..k + 1], subTopics, vec, out, paths)
      ensures NodesGrow() && p in nodes && nodes[p] == node
      decreases |subTopics| - i, 0
    {
      var topic := topics[k];
      ChildLink(p, topic);
      ghost var K, more: seq<Path> := nodes.Keys, [];
      out, more := GetNode(mid, node.GetLink(topic), subTopics, i + 1, p + [topic]);
      FanStep(P1, p, topics, k, subTopics, K, nodes.Keys);
      FanPaths(p, topics, k, subTopics, K, nodes.Keys, done, more);
      CollectedTwice(vec, mid, out, done, more);
      paths := done + more;
    }

    /** Every node that was there is still there and is the same object; the others are bare. */
    ghost predicate Extends(was: map<Path, Node>)
      reads this, nodes.Values
    {
      && (forall q | q in was :: q in nodes && nodes[q] == was[q])
      && (forall q | q in nodes && q !in was :: nodes[q].subscribers == map[])
    }

    // -------------------------------------------------------------- the operations

    /** A lookup from the root leaves exactly the value that the operation's growth describes. */
    lemma GrownContents(first: map<Path, Node>, before: Tree<Subscription>, f: Path,
                        vec: seq<Node>, out: seq<Node>, paths: seq<Path>)
      requires LookedUp(first, [], f, vec, out, paths) && before.Keys == first.Keys && [] in first
      requires forall q | q in first :: nodes[q].subscribers == before[q]
      ensures nodes.Keys == Grow(before.Keys, f)
      ensures forall q | q in nodes :: nodes[q].subscribers == SubscribersAt(before, q)
      ensures forall q :: q in paths <==> Selected(nodes.Keys, f, q)
    {
      forall q ensures q in nodes <==> q in Grow(before.Keys, f) { GrowMember(before.Keys, f, q); }
    }

    /** `getNode` from the root: grows the tree by the filter. */
    method Lookup(words: Path) returns (out: seq<Node>, ghost paths: seq<Path>)
      requires Valid()
      modifies this`nodes, this`repr, repr`links
      ensures Owned() && Linked() && Grows()
      ensures Collected([], out, paths) && Distinct(paths)
      ensures forall q :: q in paths <==> Selected(nodes.Keys, words, q)
      ensures nodes.Keys == Grow(Run(ops).Keys, words) && ops == old(ops)
      ensures forall q | q in nodes :: nodes[q].subscribers == SubscribersAt(Run(ops), q)
    {
      ghost var first := nodes;
      out, paths := GetNode([], root, words, 0, []);
      GrownContents(first, Run(ops), words, [], out, paths);
      Own(first);
    }

    /** The nodes that a lookup has created belong to the tree. */
    ghost method Own(first: map<Path, Node>)
      requires forall p | p in first :: first[p] in repr
      modifies this`repr
      ensures Owned() && repr == old(repr) + (nodes.Values - first.Values)
    {
      repr := repr + (nodes.Values - first.Values);
    }

    method Subscribe(topic: string, cs: ClientSession, qos: byte)
      requires Valid()
      modifies this, repr
      ensures Valid() && Grows()
      ensures ops == old(ops) + [Op.Subscribe(TopicNames.SplitTopic(topic), cs.clientId, BrokerModel.Match(cs, qos))]
    {
      var words := TopicNames.Split(topic);
      ghost var op := Op.Subscribe(words, cs.clientId, BrokerModel.Match(cs, qos));
      var found: seq<Node>;
      ghost var paths: seq<Path>;
      found, paths := Lookup(words);
      SubscribeAll(found, cs, qos, op, paths);
      Record(op, paths);
    }

    method SubscribeAll(found: seq<Node>, cs: ClientSession, qos: byte, ghost op: Op<Subscription>, ghost paths: seq<Path>)
      requires Linked() && Collected([], found, paths) && Worked(op, paths, 0)
      requires op.Subscribe? && op.client == cs.clientId && op.sub == BrokerModel.Match(cs, qos)
      modifies nodes.Values`subscribers
      ensures Linked() && Worked(op, paths, |paths|)
    {
      for i := 0 to |found|
        invariant Linked() && Worked(op, paths, i)
      {
        assert nodes[paths[i]] == found[i];
        SubscribeNode(found[i], cs, qos, op, paths, i);
      }
    }

    method Unsubscribe(topic: string, cs: ClientSession)
      requires Valid()
      modifies this, repr
      ensures Valid() && Grows()
      ensures ops == old(ops) + [Op.Unsubscribe(TopicNames.SplitTopic(topic), cs.clientId)]
    {
      var words := TopicNames.Split(topic);
      ghost var op := Op.Unsubscribe(words, cs.clientId);
      var found: seq<Node>;
      ghost var paths: seq<Path>;
      found, paths := Lookup(words);
      UnsubscribeAll(found, cs, op, paths);
      Record(op, paths);
    }

    method UnsubscribeAll(found: seq<Node>, cs: ClientSession, ghost op: Op<Subscription>, ghost paths: seq<Path>)
      requires Linked() && Collected([], found, paths) && Worked(op, paths, 0)
      requires op.Unsubscribe? && op.client == cs.clientId
      modifies nodes.Values`subscribers
      ensures Linked() && Worked(op, paths, |paths|)
    {
      for i := 0 to |found|
        invariant Linked() && Worked(op, paths, i)
      {
        assert nodes[paths[i]] == found[i];
        UnsubscribeNode(found[i], cs, op, paths, i);
      }
    }

    /** `match`: all subscriptions at the selected nodes, one for every (node, client) pair. */
    method Match(topic: string) returns (result: seq<Subscription>, ghost entries: seq<Entry<Subscription>>)
      requires Valid()
      modifies this, repr
      ensures Valid() && Grows()
      ensures ops == old(ops) + [Op.Lookup(TopicNames.SplitTopic(topic))]
      ensures Lists(result, entries) && FoundBy(old(ops), TopicNames.SplitTopic(topic), entries)
    {
      var words := TopicNames.Split(topic);
      var found: seq<Node>;
      ghost var paths: seq<Path>;
      found, paths := LookupRecorded(words);
      result, entries := ListAll(found, paths, Run(ops));
      assert Among(paths) == SelectedIn(Run(ops).Keys, words);
    }

    method LookupRecorded(words: Path) returns (found: seq<Node>, ghost paths: seq<Path>)
      requires Valid()
      modifies this, repr
      ensures Valid() && Grows()
      ensures ops == old(ops) + [Op.Lookup(words)]
      ensures Collected([], found, paths) && Distinct(paths)
      ensures forall q :: q in paths <==> Selected(nodes.Keys, words, q)
    {
      found, paths := Lookup(words);
      assert paths[..|paths|] == paths;
      Record(Op.Lookup(words), paths);
    }

    method ListAll(found: seq<Node>, ghost paths: seq<Path>, ghost t: Tree<Subscription>)
      returns (result: seq<Subscription>, ghost entries: seq<Entry<Subscription>>)
      requires Linked() && Shows(t) && Collected([], found, paths) && Distinct(paths)
      ensures Lists(result, entries) && EntriesAt(t, Among(paths), entries)
    {
      result, entries := [], [];
      for i := 0 to |found|
        invariant Lists(result, entries) && EntriesAt(t, Among(paths[..i]), entries)
      {
        result, entries := ListMore(result, found[i], entries, paths, i, t);
      }
      assert paths[..|paths|] == paths;
    }

    /** The subscriptions at one more node. */
    method ListMore(before: seq<Subscription>, node: Node, ghost done: seq<Entry<Subscription>>,
                    ghost paths: seq<Path>, ghost i: nat, ghost t: Tree<Subscription>)
      returns (result: seq<Subscription>, ghost entries: seq<Entry<Subscription>>)
      requires Linked() && Shows(t) && Distinct(paths) && i < |paths| && paths[i] in nodes && nodes[paths[i]] == node
      requires Lists(before, done) && EntriesAt(t, Among(paths[..i]), done)
      ensures Lists(result, entries) && EntriesAt(t, Among(paths[..i + 1]), entries)
    {
      result, entries := node.ListSubscribers();
      EntriesOfOneMore(t, paths, i, done, entries);
      ListsOfTwo(before, done, result, entries);
      result, entries := before + result, done + entries;
    }

    method SubscribeNode(node: Node, cs: ClientSession, qos: byte,
                         ghost op: Op<Subscription>, ghost paths: seq<Path>, ghost i: nat)
      requires Linked() && Worked(op, paths, i)
      requires i < |paths| && paths[i] in nodes && nodes[paths[i]] == node
      requires op.Subscribe? && op.client == cs.clientId && op.sub == BrokerModel.Match(cs, qos)
      modifies node`subscribers
      ensures Linked() && Worked(op, paths, i + 1)
    {
      assert paths[..i + 1] == paths[..i] + [paths[i]];
      node.Subscribe(cs, qos);
    }

    method UnsubscribeNode(node: Node, cs: ClientSession,
                           ghost op: Op<Subscription>, ghost paths: seq<Path>, ghost i: nat)
      requires Linked() && Worked(op, paths, i)
      requires i < |paths| && paths[i] in nodes && nodes[paths[i]] == node
      requires op.Unsubscribe? && op.client == cs.clientId
      modifies node`subscribers
      ensures Linked() && Worked(op, paths, i + 1)
    {
      assert paths[..i + 1] == paths[..i] + [paths[i]];
      node.Unsubscribe(cs);
    }

    /** The operation has been carried out at the first `i` of the collected nodes. */
    ghost predicate Worked(op: Op<Subscription>, paths: seq<Path>, i: nat)
      reads this, nodes.Values
    {
      && i <= |paths| && Distinct(paths)
      && (forall q :: q in paths <==> Selected(nodes.Keys, op.filter, q))
      && forall q | q in nodes ::
           nodes[q].subscribers == if q in paths[..i] then Updated(nodes.Keys, op, q, SubscribersAt(Run(ops), q))
                                   else SubscribersAt(Run(ops), q)
    }

    /** The operation is complete: it becomes part of the history. */
    ghost method Record(op: Op<Subscription>, paths: seq<Path>)
      requires Owned() && Linked() && Worked(op, paths, |paths|) && nodes.Keys == Grow(Run(ops).Keys, op.filter)
      modifies this`ops
      ensures Valid() && ops == old(ops) + [op]
    {
      Finished(op, paths);
      Append(op, Run(ops + [op]));
    }

    /** The history grows; the objects stay as they are. */
    ghost method Append(op: Op<Subscription>, t: Tree<Subscription>)
      requires Owned() && Linked() && Shows(t)
      modifies this`ops
      ensures Owned() && Linked() && Shows(t) && ops == old(ops) + [op]
    {
      ops := ops + [op];
    }

    lemma Finished(op: Op<Subscription>, paths: seq<Path>)
      requires nodes.Keys == Grow(Run(ops).Keys, op.filter) && Worked(op, paths, |paths|)
      ensures Shows(Run(ops + [op]))
    {
      assert paths[..|paths|] == paths;
      assert (ops + [op])[..|ops|] == ops;
    }

    lemma LinksAreChildren(p: Path, topics: seq<string>)
      requires Linked() && p in nodes && forall k :: k in topics <==> k in nodes[p].links
      ensures forall k :: k in topics <==> p + [k] in nodes
    {
      forall k ensures k in topics <==> p + [k] in nodes { ChildLink(p, k); }
    }
  }

  lemma FanPaths(p: Path, topics: seq<string>, k: nat, f: Path, K: set<Path>, K2: set<Path>,
                 done: seq<Path>, more: seq<Path>)
    requires k < |topics| && topics[k] !in topics[..k] && Distinct(done) && Distinct(more)
    requires forall q :: q in done <==> FanSelected(K, p, topics[..k], f, q)
    requires forall q :: q in more <==> p + [topics[k]] <= q && Selected(K2, f, q)
    requires forall q | p < q && q[|p|] in topics[..k] :: Selected(K, f, q) <==> Selected(K2, f, q)
    ensures Distinct(done + more)
    ensures forall q :: q in done + more <==> FanSelected(K2, p, topics[..k + 1], f, q)
  {
    var b := p + [topics[k]];
    assert topics[..k + 1] == topics[..k] + [topics[k]];
    forall q ensures q in more <==> FanSelected(K2, p, [topics[k]], f, q) {
      if b <= q { assert q[|p|] == b[|p|] && p == b[..|p|] == q[..|p|]; }
      if p < q && q[|p|] == topics[k] { assert q[..|p| + 1] == b; }
    }
    forall x, y | 0 <= x < |done| && 0 <= y < |more| ensures done[x] != more[y] {
      assert done[x] in done && more[y] in more;
    }
  }

  lemma StraightIsDone(P: set<Path>, path: Path, p: Path, f: Path, P1: set<Path>)
    requires Straight(path, p, f) && |p| == |f| && StraightShape(P, path, p, P1) && p in P1
    ensures forall q :: q in P1 <==> q in P || Created(P, path, f, q)
    ensures forall q :: q == p <==> path <= q && Selected(P1, f, q)
  {
    forall q
      ensures q in P1 <==> q in P || Created(P, path, f, q)
      ensures q == p <==> path <= q && Selected(P1, f, q)
    {
      StraightLookup(P, path, p, f, P1, q);
    }
  }

  lemma HashIsDone(P: set<Path>, path: Path, p: Path, f: Path, P1: set<Path>, k: string)
    requires Straight(path, p, f) && StraightShape(P, path, p, P1)
    requires |p| < |f| && f[|p|] == "#" && p + [k] in P1
    ensures forall q :: q in P1 <==> q in P || Created(P, path, f, q)
    ensures forall q :: q in P1 && p <= q <==> path <= q && Selected(P1, f, q)
  {
    forall q
      ensures q in P1 <==> q in P || Created(P, path, f, q)
      ensures q in P1 && p <= q <==> path <= q && Selected(P1, f, q)
    {
      HashLookup(P, path, p, f, P1, q);
      if p <= q { assert path == p[..|path|] == q[..|path|]; }
    }
  }

  lemma PlusIsDone(P: set<Path>, path: Path, p: Path, f: Path, P1: set<Path>, topics: seq<string>, K: set<Path>)
    requires PrefixClosed(P) && Straight(path, p, f) && StraightShape(P, path, p, P1)
    requires path in P && |p| < |f| && f[|p|] == "+"
    requires FanShape(P1, p, topics, f, K) && forall k :: k in topics <==> p + [k] in P1
    ensures forall q :: q in K <==> q in P || Created(P, path, f, q)
    ensures forall q :: FanSelected(K, p, topics, f, q) <==> path <= q && Selected(K, f, q)
  {
    forall q
      ensures q in K <==> q in P || Created(P, path, f, q)
      ensures FanSelected(K, p, topics, f, q) <==> path <= q && Selected(K, f, q)
    {
      PlusLookup(P, path, p, f, P1, q);
      if p < q {
        assert q[..|p| + 1] == p + [q[|p|]];
        if q in P { PrefixIn(P, q, |p| + 1); }
      }
      if path <= q && Selected(K, f, q) { SelectedBelowPlus(path, p, f, K, q); }
    }
  }

  lemma ChildlessIsDone(P: set<Path>, path: Path, p: Path, f: Path, P1: set<Path>)
    requires PrefixClosed(P) && PrefixClosed(P1) && Straight(path, p, f) && StraightShape(P, path, p, P1)
    requires path in P && |p| < |f| && IsWild(f[|p|]) && forall k :: p + [k] !in P1
    ensures forall q :: q in P1 <==> q in P || Created(P, path, f, q)
    ensures forall q | path <= q :: !Selected(P1, f, q)
  {
    forall q
      ensures q in P1 <==> q in P || Created(P, path, f, q)
      ensures path <= q ==> !Selected(P1, f, q)
    {
      if p < q {
        assert q[..|p| + 1] == p + [q[|p|]];
        if q in P1 { PrefixIn(P1, q, |p| + 1); }
      }
      if f[|p|] == "+" {
        PlusLookup(P, path, p, f, P1, q);
        if path <= q && Selected(P1, f, q) { SelectedBelowPlus(path, p, f, P1, q); }
      } else {
        HashLookup(P, path, p, f, P1, q);
      }
    }
  }
}
