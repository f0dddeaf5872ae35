/** `eventfd_queue` in the source's own form: two lists of nodes linked through `next`, used by
    one thread, with functions that post to the queue that is calling them. */
module EventfdQueues {
  import opened Helpers

  type Fn = nat

  /** A `post` made by a function while it runs; `fails`: constructing its function throws. */
  datatype Post = Post(f: Fn, fails: bool)

  /** What a function does when it is called. */
  datatype Behaviour = Behaviour(posts: seq<Post>, throws: bool)

  /** The outcome of a `consume`. */
  datatype Consumed = Consumed(executed: seq<Fn>, rest: seq<Fn>, threw: bool)

  /** What a sequence of posts links. */
  function Accepted(posts: seq<Post>): seq<Fn> {
    if posts == [] then []
    else (if posts[0].fails then [] else [posts[0].f]) + Accepted(posts[1..])
  }

  /** What calling the functions in order links. */
  function AllAccepted(fs: seq<Fn>, script: Fn -> Behaviour): seq<Fn> {
    if fs == [] then [] else Accepted(script(fs[0]).posts) + AllAccepted(fs[1..], script)
  }

  lemma AcceptedSnoc(posts: seq<Post>, i: nat)
    requires i < |posts|
    ensures Accepted(posts[..i + 1]) == Accepted(posts[..i]) + (if posts[i].fails then [] else [posts[i].f])
  {
    if i == 0 {
      assert posts[..1] == [posts[0]];
    } else {
      AcceptedSnoc(posts[1..], i - 1);
      assert posts[..i + 1][1..] == posts[1..][..i];
      assert posts[..i][1..] == posts[1..][..i - 1];
    }
  }

  /** `consume(n)` on the contents of the queue: functions are called from the front until n have
      been called or one throws; what they post goes to the back. */
  function Consuming(c: seq<Fn>, n: nat, script: Fn -> Behaviour): Consumed
    decreases n
  {
    if n == 0 || c == [] then Consumed([], c, false)
    else
      var rest := c[1..] + Accepted(script(c[0]).posts);
      if script(c[0]).throws then Consumed([c[0]], rest, true)
      else
        var r := Consuming(rest, n - 1, script);
        r.(executed := [c[0]] + r.executed)
  }

  /** The outcome when `done` has been called already and n more calls are due on `c`. */
  function After'(done: seq<Fn>, c: seq<Fn>, n: nat, script: Fn -> Behaviour): Consumed {
    var r := Consuming(c, n, script);
    r.(executed := done + r.executed)
  }

  /** The most functions that are queued or running at once while n are consumed. */
  function MostHeld(c: seq<Fn>, n: nat, script: Fn -> Behaviour): nat
    decreases n
  {
    if n == 0 || c == [] then 0
    else
      var posted := Accepted(script(c[0]).posts);
      Max(|c| + |posted|, if script(c[0]).throws then 0 else MostHeld(c[1..] + posted, n - 1, script))
  }

  lemma NoneHeld(c: seq<Fn>, script: Fn -> Behaviour)
    ensures MostHeld(c, 0, script) == 0
  {
  }

  lemma MostUnfold(c: seq<Fn>, n: nat, script: Fn -> Behaviour)
    requires c != []
    ensures var posted := Accepted(script(c[0]).posts);
            MostHeld(c, n + 1, script) ==
              Max(|c| + |posted|, if script(c[0]).throws then 0 else MostHeld(c[1..] + posted, n, script))
  {
  }

  lemma NothingDone(c: seq<Fn>, n: nat, script: Fn -> Behaviour)
    ensures After'([], c, n, script) == Consuming(c, n, script)
  {
  }

  lemma NothingLeft(done: seq<Fn>, c: seq<Fn>, script: Fn -> Behaviour)
    ensures After'(done, c, 0, script) == Consumed(done, c, false)
  {
  }

  lemma UnfoldConsuming(done: seq<Fn>, c: seq<Fn>, n: nat, script: Fn -> Behaviour)
    requires c != []
    ensures var rest := c[1..] + Accepted(script(c[0]).posts);
            After'(done, c, n + 1, script)
              == if script(c[0]).throws then Consumed(done + [c[0]], rest, true)
                 else After'(done + [c[0]], rest, n, script)
  {
    var rest := c[1..] + Accepted(script(c[0]).posts);
    var r := Consuming(rest, n, script);
    assert done + ([c[0]] + r.executed) == done + [c[0]] + r.executed;
  }

  /** What `r` says of a `consume(n)` on the contents `c`: exactly the n functions that were at the front
      were called, in order, or those up to and including the first that throws; whatever was
      posted meanwhile is behind what was left, in the order of the calls. */
  ghost predicate InOrder(c: seq<Fn>, n: nat, r: Consumed, script: Fn -> Behaviour)
    requires n <= |c|
  {
    && r.executed <= c[..n]
    && (!r.threw ==> r.executed == c[..n])
    && (r.threw ==> r.executed != [] && script(r.executed[|r.executed| - 1]).throws)
    && (forall i :: 0 <= i < |r.executed| - One(r.threw) ==> !script(r.executed[i]).throws)
    && r.rest == c[|r.executed|..] + AllAccepted(r.executed, script)
  }

  lemma {:induction false} ConsumingIsFifo(c: seq<Fn>, n: nat, script: Fn -> Behaviour)
    requires n <= |c|
    ensures InOrder(c, n, Consuming(c, n, script), script)
    decreases n
  {
    if n == 0 {
      assert c[0..] == c;
    } else if script(c[0]).throws {
      FirstThrows(c, n, script);
    } else {
      var posted := Accepted(script(c[0]).posts);
      ConsumingIsFifo(c[1..] + posted, n - 1, script);
      hide InOrder;
      OneMore(c, n, Consuming(c[1..] + posted, n - 1, script), posted, script);
    }
  }

  lemma FirstThrows(c: seq<Fn>, n: nat, script: Fn -> Behaviour)
    requires 0 < n <= |c| && script(c[0]).throws
    ensures InOrder(c, n, Consuming(c, n, script), script)
  {
    var called := [c[0]];
    assert called[1..] == [] && AllAccepted([], script) == [];
    assert AllAccepted(called, script) == Accepted(script(c[0]).posts);
    assert called == c[..1] && c[..1] <= c[..n];
    hide Accepted, AllAccepted;
  }

  lemma OneMore(c: seq<Fn>, n: nat, r: Consumed, posted: seq<Fn>, script: Fn -> Behaviour)
    requires 0 < n <= |c| && posted == Accepted(script(c[0]).posts) && !script(c[0]).throws
    requires InOrder(c[1..] + posted, n - 1, r, script)
    ensures InOrder(c, n, r.(executed := [c[0]] + r.executed), script)
  {
    hide AllAccepted, Accepted;
    FifoStep(c, n, r, posted, script);
    ThrowStep(c[0], r.executed, r.threw, script);
  }

  lemma ThrowStep(f: Fn, executed: seq<Fn>, threw: bool, script: Fn -> Behaviour)
    requires !script(f).throws
    requires threw ==> executed != [] && script(executed[|executed| - 1]).throws
    requires forall i :: 0 <= i < |executed| - One(threw) ==> !script(executed[i]).throws
    ensures var all := [f] + executed;
            && (threw ==> script(all[|all| - 1]).throws)
            && forall i :: 0 <= i < |all| - One(threw) ==> !script(all[i]).throws
  {
  }

  lemma FifoStep(c: seq<Fn>, n: nat, r: Consumed, posted: seq<Fn>, script: Fn -> Behaviour)
    requires 0 < n <= |c| && posted == Accepted(script(c[0]).posts)
    requires r.executed <= (c[1..] + posted)[..n - 1]
    requires r.rest == (c[1..] + posted)[|r.executed|..] + AllAccepted(r.executed, script)
    ensures [c[0]] + r.executed <= c[..n]
    ensures r.executed == (c[1..] + posted)[..n - 1] ==> [c[0]] + r.executed == c[..n]
    ensures r.rest == c[|[c[0]] + r.executed|..] + AllAccepted([c[0]] + r.executed, script)
  {
    assert (c[1..] + posted)[..n - 1] == c[1..n];
    assert c[..n] == [c[0]] + c[1..n];
    var k := |r.executed|;
    assert (c[1..] + posted)[k..] == c[k + 1..] + posted;
    assert ([c[0]] + r.executed)[1..] == r.executed;
  }

  class Node {
    var next: Node?
    var storage: Option<Fn>

    constructor ()
      ensures next == null && storage == None
    {
      next := null;
      storage := None;
    }
  }

  function First(nodes: seq<Node>): Node? {
    if nodes == [] then null else nodes[0]
  }

  function Last(nodes: seq<Node>): Node? {
    if nodes == [] then null else nodes[|nodes| - 1]
  }

  /** `nodes` are linked in order and the last one's `next` is null. */
  ghost predicate Chain(nodes: seq<Node>)
    reads nodes`next
  {
    forall i :: 0 <= i < |nodes| ==> nodes[i].next == After(nodes, i)
  }

  /** Every node holds a function. */
  ghost predicate Full(nodes: seq<Node>)
    reads nodes`storage
  {
    forall i :: 0 <= i < |nodes| ==> nodes[i].storage.Some?
  }

  /** The functions that the nodes hold. */
  ghost function Values(nodes: seq<Node>): (s: seq<Fn>)
    reads nodes`storage
    requires Full(nodes)
    ensures |s| == |nodes|
  {
    if nodes == [] then [] else [nodes[0].storage.value] + Values(nodes[1..])
  }

  function After(nodes: seq<Node>, i: nat): Node? {
    if i + 1 < |nodes| then nodes[i + 1] else null
  }

  /** No node of the list holds a function. */
  ghost predicate Blank(nodes: seq<Node>)
    reads nodes`storage
  {
    forall i :: 0 <= i < |nodes| ==> nodes[i].storage.None?
  }

  predicate Apart(a: seq<Node>, b: seq<Node>) {
    forall i, j :: 0 <= i < |a| && 0 <= j < |b| ==> a[i] != b[j]
  }

  predicate AllIn(list: seq<Node>, nodes: set<Node>) {
    forall i :: 0 <= i < |list| ==> list[i] in nodes
  }

  /** Every node is queued, free or in flight. */
  predicate Placed(nodes: set<Node>, queue: seq<Node>, frees: seq<Node>, flight: seq<Node>) {
    forall n :: n in nodes ==> n in queue || n in frees || n in flight
  }

  /** The nodes are those queued, free or in flight, none in two places and none twice in one. */
  predicate Layout(nodes: set<Node>, queue: seq<Node>, frees: seq<Node>, flight: seq<Node>) {
    && AllIn(queue, nodes) && AllIn(frees, nodes) && AllIn(flight, nodes)
    && Distinct(queue) && Distinct(frees) && Distinct(flight)
    && Apart(queue, frees) && Apart(queue, flight) && Apart(frees, flight)
    && Placed(nodes, queue, frees, flight)
  }

  /** From the front of the free list into flight. */
  lemma LayoutTake(nodes: set<Node>, queue: seq<Node>, frees: seq<Node>, flight: seq<Node>)
    requires Layout(nodes, queue, frees, flight) && frees != []
    ensures Layout(nodes, queue, frees[1..], flight + [frees[0]])
    ensures frees[0] in nodes && frees[0] !in queue && frees[0] !in frees[1..]
  {
    assert frees == [frees[0]] + frees[1..];
  }

  /** From the front of the queue into flight. */
  lemma LayoutPop(nodes: set<Node>, queue: seq<Node>, frees: seq<Node>, flight: seq<Node>)
    requires Layout(nodes, queue, frees, flight) && queue != []
    ensures Layout(nodes, queue[1..], frees, flight + [queue[0]]) && queue[0] in nodes
  {
    assert queue == [queue[0]] + queue[1..];
  }

  /** A new node, in flight. */
  lemma LayoutNew(nodes: set<Node>, queue: seq<Node>, frees: seq<Node>, flight: seq<Node>, n: Node)
    requires Layout(nodes, queue, frees, flight) && n !in nodes
    ensures Layout(nodes + {n}, queue, frees, flight + [n])
  {
  }

  /** From flight to the back of the queue. */
  lemma LayoutLink(nodes: set<Node>, queue: seq<Node>, frees: seq<Node>, flight: seq<Node>, n: Node)
    requires Layout(nodes, queue, frees, flight) && flight != [] && n == Last(flight)
    ensures Layout(nodes, queue + [n], frees, flight[..|flight| - 1])
    ensures n in nodes && n !in queue
    ensures queue != [] ==> Last(queue) in nodes && Last(queue) !in frees
  {
    assert flight == flight[..|flight| - 1] + [n];
  }

  /** From flight to the front of the free list. */
  lemma LayoutPut(nodes: set<Node>, queue: seq<Node>, frees: seq<Node>, flight: seq<Node>, n: Node)
    requires Layout(nodes, queue, frees, flight) && flight != [] && n == Last(flight)
    ensures Layout(nodes, queue, [n] + frees, flight[..|flight| - 1])
    ensures n in nodes && n !in queue && n !in frees
  {
    assert flight == flight[..|flight| - 1] + [n];
  }

  /** A node in flight is in neither list. */
  lemma LayoutFlight(nodes: set<Node>, queue: seq<Node>, frees: seq<Node>, flight: seq<Node>)
    requires Layout(nodes, queue, frees, flight) && flight != []
    ensures Last(flight) !in queue && Last(flight) !in frees
  {
  }

  lemma ChainAt(nodes: seq<Node>, k: nat)
    requires Chain(nodes) && k < |nodes|
    ensures nodes[k].next == if k + 1 < |nodes| then nodes[k + 1] else null
  {
    assert nodes[k].next == After(nodes, k);
  }

  lemma ChainRest(nodes: seq<Node>)
    requires Chain(nodes) && nodes != []
    ensures Chain(nodes[1..]) && nodes[0].next == First(nodes[1..])
    ensures nodes[1..] != [] ==> Last(nodes[1..]) == Last(nodes)
  {
    var rest := nodes[1..];
    forall i | 0 <= i < |rest|
      ensures rest[i].next == After(rest, i)
    {
      var j := i + 1;
      assert rest[i] == nodes[j] && nodes[j].next == After(nodes, j);
    }
  }

  lemma FullRest(nodes: seq<Node>)
    requires Full(nodes) && nodes != []
    ensures nodes[0].storage == Some(Values(nodes)[0]) && Full(nodes[1..]) && Values(nodes[1..]) == Values(nodes)[1..]
  {
  }

  lemma {:induction false} FullMore(nodes: seq<Node>, n: Node)
    requires Full(nodes) && n.storage.Some?
    ensures Full(nodes + [n]) && Values(nodes + [n]) == Values(nodes) + [n.storage.value]
  {
    assert forall i :: 0 <= i < |nodes| ==> (nodes + [n])[i] == nodes[i];
    if nodes != [] {
      FullMore(nodes[1..], n);
      assert (nodes + [n])[1..] == nodes[1..] + [n];
    }
  }

  lemma BlankRest(nodes: seq<Node>)
    requires Blank(nodes) && nodes != []
    ensures nodes[0].storage.None? && Blank(nodes[1..])
  {
  }

  lemma BlankMore(n: Node, nodes: seq<Node>)
    requires Blank(nodes) && n.storage.None?
    ensures Blank([n] + nodes)
  {
  }

  class EventfdQueue {
    var count: nat        // the eventfd's counter
    var head: Node?
    var tail: Node?
    var free: Node?
    ghost var queue: seq<Node>
    ghost var frees: seq<Node>
    ghost var flight: seq<Node>  // taken from a list and not put back, the latest last
    ghost var taken: nat         // read from the eventfd and not consumed
    ghost var nodes: set<Node>   // every node allocated
    ghost var allocs: nat     // how many allocations there were
    ghost var peak: nat          // the most nodes queued or in flight at once

    /** The two lists and the nodes in flight, no node in two places. */
    ghost predicate Shape()
      reads this, nodes
    {
      && Layout(nodes, queue, frees, flight)
      && Full(queue) && Blank(frees)
      && Chain(queue) && head == First(queue) && tail == Last(queue)
      && Chain(frees) && free == First(frees)
    }

    ghost predicate Valid()
      reads this, nodes
    {
      && Shape()
      && count + taken == |queue|
      && allocs == |queue| + |frees| + |flight|
      && allocs == peak
    }

    ghost function Contents(): seq<Fn>
      reads this, nodes
      requires Shape()
    {
      Values(queue)
    }

    constructor ()
      ensures Valid() && fresh(nodes) && Contents() == [] && flight == [] && taken == 0 && peak == 0
    {
      count, head, tail, free := 0, null, null, null;
      queue, frees, flight, taken, nodes, allocs, peak := [], [], [], 0, {}, 0, 0;
    }

    /** The first half of `get_node`: unlink the head of the free list. */
    method TakeFree() returns (n: Node)
      requires Valid() && free != null
      modifies this, nodes`next
      ensures Valid() && nodes == old(nodes) && Contents() == old(Contents()) && taken == old(taken)
      ensures n in nodes && flight == old(flight) + [n] && n.next == null && n.storage.None?
      ensures allocs == old(allocs) && peak == Max(old(peak), |queue| + |flight|)
      ensures n == old(free)
    {
      LayoutTake(nodes, queue, frees, flight);
      ChainRest(frees);
      BlankRest(frees);
      hide Layout, Full, Blank, Values, Chain;
      n := free;
      var rest := n.next;
      Cut(n, queue, frees[1..]);
      MoveFree(n, rest);
    }

    /** `free_ = free_->next`. */
    method MoveFree(n: Node, rest: Node?)
      requires frees != [] && Layout(nodes, queue, frees[1..], flight + [n])
      requires Full(queue) && Blank(frees[1..]) && Chain(queue) && Chain(frees[1..])
      requires head == First(queue) && tail == Last(queue) && rest == First(frees[1..])
      requires count + taken == |queue| && allocs == |queue| + |frees| + |flight| == peak
      modifies `free, `flight, `frees, `peak
      ensures Valid() && flight == old(flight) + [n] && peak == Max(old(peak), |queue| + |flight|)
    {
      hide Layout, Full, Blank, Values, Chain;
      free := rest;
      flight := flight + [n];
      frees := frees[1..];
      peak := Max(peak, |queue| + |flight|);
    }

    /** `retr.next = nullptr`. */
    method Cut(n: Node, ghost a: seq<Node>, ghost b: seq<Node>)
      requires Chain(a) && Chain(b) && n !in a && n !in b
      modifies n`next
      ensures Chain(a) && Chain(b) && n.next == null
    {
      n.next := null;
    }

    /** The second half of `get_node`: allocate. */
    method Allocate() returns (n: Node)
      requires Valid() && free == null
      modifies this
      ensures Valid() && fresh(n) && nodes == old(nodes) + {n} && Contents() == old(Contents()) && taken == old(taken)
      ensures flight == old(flight) + [n] && n.next == null && n.storage.None?
      ensures allocs == old(allocs) + 1 && peak == Max(old(peak), |queue| + |flight|) == |queue| + |flight|
    {
      hide Layout, Full, Blank, Values, Chain;
      n := new Node();
      LayoutNew(nodes, queue, frees, flight, n);
      nodes := nodes + {n};
      allocs := allocs + 1;
      flight := flight + [n];
      peak := Max(peak, |queue| + |flight|);
    }

    /** `get_node`: null when a node had to be allocated and could not be. */
    method GetNode(allocThrows: bool) returns (n: Node?)
      requires Valid()
      modifies this, nodes`next
      ensures Valid() && fresh(nodes - old(nodes)) && old(nodes) <= nodes
      ensures Contents() == old(Contents()) && taken == old(taken)
      ensures n == null <==> allocThrows && old(free) == null
      ensures n == null ==> flight == old(flight)
      ensures n != null ==> n in nodes && flight == old(flight) + [n] && n.next == null && n.storage.None?
      ensures n != null ==> allocs == peak == Max(old(peak), |queue| + |flight|)
      ensures peak >= old(peak) && (old(free) != null ==> n == old(free))
    {
      if free != null {
        n := TakeFree();
      } else if allocThrows {
        n := null;
      } else {
        n := Allocate();
      }
    }

    /** `release_node`. */
    method ReleaseNode(n: Node)
      requires Valid() && flight != [] && n == Last(flight) && n.storage.None?
      modifies this, n`next
      ensures Valid() && nodes == old(nodes) && Contents() == old(Contents()) && taken == old(taken)
      ensures flight == old(flight)[..|old(flight)| - 1]
      ensures free == n && peak == old(peak)
    {
      ghost var put, rest := PutAside(n);
      hide Layout, Full, Blank, Values, Chain, First, Last;
      LinkBefore(n, free, put, frees, queue);
      MovePut(n, put, rest);
    }

    /** The free list and the nodes in flight when `n` has been put back. */
    ghost method PutAside(n: Node) returns (put: seq<Node>, rest: seq<Node>)
      requires Valid() && flight != [] && n == Last(flight)
      ensures put == [n] + frees && rest == flight[..|flight| - 1]
      ensures |put| == |frees| + 1 && |rest| + 1 == |flight| && First(put) == n && Layout(nodes, queue, put, rest)
      ensures n !in queue && n !in frees
    {
      LayoutPut(nodes, queue, frees, flight, n);
      put, rest := [n] + frees, flight[..|flight| - 1];
    }

    /** `free_ = &node`. */
    method MovePut(n: Node, ghost put: seq<Node>, ghost rest: seq<Node>)
      requires |put| == |frees| + 1 && |rest| + 1 == |flight| && Layout(nodes, queue, put, rest)
      requires Full(queue) && Blank(put) && Chain(queue) && Chain(put)
      requires head == First(queue) && tail == Last(queue) && First(put) == n
      requires count + taken == |queue| && allocs == |queue| + |frees| + |flight| == peak
      modifies `free, `flight, `frees
      ensures Valid() && flight == rest && free == n
    {
      hide Layout, Full, Blank, Values, Chain;
      free := n;
      flight := rest;
      frees := put;
    }

    /** `node.next = free_`. */
    method LinkBefore(n: Node, to: Node?, ghost put: seq<Node>, ghost list: seq<Node>, ghost others: seq<Node>)
      requires Chain(list) && to == First(list) && Chain(others) && n !in list && n !in others
      requires Blank(list) && n.storage.None? && Full(others) && put == [n] + list
      modifies n`next
      ensures Chain(put) && Chain(others) && Blank(put)
      ensures Full(others) && Values(others) == old(Values(others))
    {
      BlankMore(n, list);
      hide Blank, Values, Full;
      n.next := to;
      ghost var nodes := [n] + list;
      forall i | 0 <= i < |nodes|
        ensures nodes[i].next == After(nodes, i)
      {
        if i > 0 {
          assert list[i - 1].next == After(list, i - 1);
        }
      }
    }

    /** The end of `emplace` on an empty queue: link the node, then write the eventfd. */
    method PublishFirst(n: Node)
      requires Valid() && flight != [] && n == Last(flight) && n.next == null && n.storage.Some? && tail == null
      modifies this
      ensures Valid() && nodes == old(nodes) && Contents() == old(Contents()) + [n.storage.value] && taken == old(taken)
      ensures flight == old(flight)[..|old(flight)| - 1]
      ensures peak == old(peak)
    {
      LayoutLink(nodes, queue, frees, flight, n);
      FullMore(queue, n);
      hide Layout, Full, Blank, Values;
      head := n;
      tail := n;
      flight := flight[..|flight| - 1];
      queue := queue + [n];
      count := count + 1;
    }

    /** The end of `emplace` on a queue that holds nodes. */
    method PublishLast(n: Node)
      requires Valid() && flight != [] && n == Last(flight) && n.next == null && n.storage.Some? && tail != null
      modifies this, nodes`next
      ensures Valid() && nodes == old(nodes) && Contents() == old(Contents()) + [n.storage.value] && taken == old(taken)
      ensures flight == old(flight)[..|old(flight)| - 1]
      ensures peak == old(peak)
    {
      LayoutLink(nodes, queue, frees, flight, n);
      FullMore(queue, n);
      assert Distinct(queue);
      hide Layout, Full, Blank, Values, Chain, Distinct;
      LinkBehind(queue, tail, n, frees);
      MoveLast(n);
    }

    /** `tail_ = &node`, and the write. */
    method MoveLast(n: Node)
      requires flight != [] && queue != [] && Layout(nodes, queue + [n], frees, flight[..|flight| - 1])
      requires Full(queue + [n]) && Blank(frees) && Chain(queue + [n]) && Chain(frees)
      requires head == First(queue) && free == First(frees)
      requires count + taken == |queue| && allocs == |queue| + |frees| + |flight| == peak
      modifies `tail, `flight, `queue, `count
      ensures Valid() && queue == old(queue) + [n] && flight == old(flight)[..|old(flight)| - 1]
    {
      hide Layout, Full, Blank, Values, Chain;
      tail := n;
      flight := flight[..|flight| - 1];
      queue := queue + [n];
      count := count + 1;
    }

    /** `tail_->next = &node`. */
    method LinkBehind(ghost was: seq<Node>, last: Node, n: Node, ghost others: seq<Node>)
      requires Chain(was) && Distinct(was) && was != [] && last == Last(was) && n.next == null && n !in was
      requires Chain(others) && last !in others
      modifies last`next
      ensures Chain(others) && Chain(was + [n]) && last.next == n
    {
      last.next := n;
      ghost var nodes := was + [n];
      forall i | 0 <= i < |nodes|
        ensures nodes[i].next == After(nodes, i)
      {
        if i < |was| - 1 {
          assert was[i] != last && was[i].next == After(was, i);
        }
      }
    }

    method Publish(n: Node)
      requires Valid() && flight != [] && n == Last(flight) && n.next == null && n.storage.Some?
      modifies this, nodes`next
      ensures Valid() && nodes == old(nodes) && Contents() == old(Contents()) + [n.storage.value] && taken == old(taken)
      ensures flight == old(flight)[..|old(flight)| - 1]
      ensures peak == old(peak)
    {
      hide Valid, Shape;
      if tail != null {
        PublishLast(n);
      } else {
        PublishFirst(n);
      }
    }

    /** `emplace`, when allocating or constructing may throw. */
    method Emplace(f: Fn, allocThrows: bool, ctorThrows: bool) returns (ok: bool)
      requires Valid()
      modifies this, nodes
      ensures Valid() && fresh(nodes - old(nodes)) && old(nodes) <= nodes
      ensures ok <==> !ctorThrows && !(allocThrows && old(free) == null)
      ensures Contents() == old(Contents()) + if ok then [f] else []
      ensures flight == old(flight) && taken == old(taken)
      ensures forall m :: m in flight ==> m.storage == old(m.storage)
      ensures peak >= old(peak)
    {
      hide Shape, Contents;
      var n := GetNode(allocThrows);
      if n == null {
        return false;
      }
      if ctorThrows {
        ReleaseNode(n);
        return false;
      }
      Fill(n, f);
      Publish(n);
      ok := true;
    }

    /** Construct the function in the node. */
    method Fill(n: Node, f: Fn)
      requires Valid() && flight != [] && n == Last(flight)
      modifies n`storage
      ensures Valid() && Contents() == old(Contents()) && n.storage == Some(f)
      ensures forall m :: m in flight[..|flight| - 1] ==> m.storage == old(m.storage)
    {
      LayoutFlight(nodes, queue, frees, flight);
      n.storage := Some(f);
    }

    /** Destroy the function in the node. */
    method Reset(n: Node)
      requires Valid() && flight != [] && n == Last(flight)
      modifies n`storage
      ensures Valid() && Contents() == old(Contents()) && n.storage == None
      ensures forall m :: m in flight[..|flight| - 1] ==> m.storage == old(m.storage)
    {
      LayoutFlight(nodes, queue, frees, flight);
      n.storage := None;
    }

    /** `pending`: the eventfd read, which would block at zero. */
    method Pending() returns (n: nat)
      requires Valid() && count > 0
      modifies `count, `taken
      ensures Valid() && Contents() == old(Contents()) && taken == old(taken) + n && n > 0
      ensures count == 0 && n == old(count)
    {
      n := count;
      count := 0;
      taken := taken + n;
    }

    /** `pop_node`, which relies on the caller's count. */
    method PopNode() returns (n: Node)
      requires Valid() && taken > 0
      modifies this
      ensures Valid() && nodes == old(nodes) && taken == old(taken) - 1
      ensures |old(Contents())| > 0 && Contents() == old(Contents())[1..]
      ensures n in nodes && flight == old(flight) + [n] && n.storage == Some(old(Contents())[0])
      ensures peak == old(peak)
    {
      LayoutPop(nodes, queue, frees, flight);
      ChainRest(queue);
      FullRest(queue);
      hide Layout, Full, Blank, Values, Chain;
      n := head;
      MoveHead(n);
    }

    /** `head_ = head_->next`, and `tail_ = nullptr` when that was the last node. */
    method MoveHead(n: Node)
      requires queue != [] && n == head && taken > 0 && Layout(nodes, queue[1..], frees, flight + [n])
      requires Full(queue[1..]) && Blank(frees) && Chain(queue[1..]) && Chain(frees)
      requires n.next == First(queue[1..]) && tail == Last(queue) && free == First(frees)
      requires queue[1..] != [] ==> Last(queue[1..]) == Last(queue)
      requires count + taken == |queue| && allocs == |queue| + |frees| + |flight| == peak
      modifies `head, `tail, `taken, `flight, `queue
      ensures Valid() && queue == old(queue)[1..] && flight == old(flight) + [n] && taken == old(taken) - 1
    {
      hide Layout, Full, Blank, Values, Chain;
      head := head.next;
      if head == null {
        tail := null;
      }
      taken := taken - 1;
      flight := flight + [n];
      queue := queue[1..];
    }

    /** What the function `f` does: it posts to this queue while its own node, which holds it, is in
        flight.  The functions queued at its end and the nodes in flight were all there at once. */
    method Call(f: Fn, b: Behaviour)
      requires Valid() && flight != [] && Last(flight).storage == Some(f)
      modifies this, nodes
      ensures Valid() && fresh(nodes - old(nodes)) && old(nodes) <= nodes
      ensures Contents() == old(Contents()) + Accepted(b.posts)
      ensures flight == old(flight) && taken == old(taken)
      ensures forall m :: m in flight ==> m.storage == old(m.storage)
      ensures peak >= old(peak) && peak >= |queue| + |flight|
    {
      hide Shape;
      var i := 0;
      assert b.posts[..0] == [];
      while i < |b.posts|
        invariant 0 <= i <= |b.posts| && Valid() && fresh(nodes - old(nodes)) && old(nodes) <= nodes
        invariant Contents() == old(Contents()) + Accepted(b.posts[..i])
        invariant flight == old(flight) && taken == old(taken) && peak >= old(peak)
        invariant forall m :: m in flight ==> m.storage == old(m.storage)
      {
        var ok := Emplace(b.posts[i].f, false, b.posts[i].fails);
        AcceptedSnoc(b.posts, i);
        i := i + 1;
      }
      assert b.posts[..i] == b.posts;
    }

    /** `consume_one`: the node goes back to the free list whether or not the function throws, and not
        before the function is done: its node counts beside those of what it posts. */
    method ConsumeOne(script: Fn -> Behaviour) returns (f: Fn, threw: bool)
      requires Valid() && taken > 0
      modifies this, nodes
      ensures Valid() && fresh(nodes - old(nodes)) && old(nodes) <= nodes
      ensures |old(Contents())| > 0 && f == old(Contents())[0] && threw == script(f).throws
      ensures Contents() == old(Contents())[1..] + Accepted(script(f).posts)
      ensures flight == old(flight) && taken == old(taken) - 1
      ensures peak >= old(peak) && peak >= |old(Contents())| + |flight| + |Accepted(script(f).posts)|
    {
      hide Shape, Contents;
      var n := PopNode();
      f := n.storage.value;
      Call(f, script(f));
      QueueLength();
      threw := script(f).throws;
      Reset(n);
      ReleaseNode(n);
    }

    lemma QueueLength()
      requires Valid()
      ensures |Contents()| == |queue|
    {
    }

    /** `consume`. */
    method Consume(n: nat, script: Fn -> Behaviour) returns (executed: seq<Fn>, threw: bool)
      requires Valid() && n <= taken
      modifies this, nodes
      ensures Valid() && fresh(nodes - old(nodes)) && flight == old(flight)
      ensures Consumed(executed, Contents(), threw) == Consuming(old(Contents()), n, script)
      ensures taken == old(taken) - |executed|
      ensures n > 0 ==> peak >= MostHeld(old(Contents()), n, script) + |flight|
    {
      hide Shape, Consuming, Accepted, After', MostHeld;
      executed := [];
      threw := false;
      NothingDone(Contents(), n, script);
      var i := 0;
      ghost var most: nat, reached: nat := MostHeld(Contents(), n, script), 0;
      while i < n && !threw
        invariant 0 <= i <= n && |executed| == i && Valid() && fresh(nodes - old(nodes)) && old(nodes) <= nodes
        invariant flight == old(flight) && taken == old(taken) - i
        invariant !threw ==> After'(executed, Contents(), n - i, script) == Consuming(old(Contents()), n, script)
        invariant threw ==> Consumed(executed, Contents(), true) == Consuming(old(Contents()), n, script)
        invariant most == Max(reached, if threw then 0 else MostHeld(Contents(), n - i, script))
        invariant if i == 0 then reached == 0 else peak >= reached + |flight|
        decreases n - i
      {
        var f;
        ghost var before, done := Contents(), executed;
        f, threw := ConsumeOne(script);
        executed := executed + [f];
        i := i + 1;
        reached := Max(reached, |before| + |Accepted(script(f).posts)|);
        UnfoldConsuming(done, before, n - i, script);
        MostUnfold(before, n - i, script);
      }
      NothingLeft(executed, Contents(), script);
      NoneHeld(Contents(), script);
    }

    /** `consume_all`: as many as the eventfd has counted, which is everything unless a count was
        read before and not used up. */
    method ConsumeAll(script: Fn -> Behaviour) returns (n: nat, executed: seq<Fn>, threw: bool)
      requires Valid() && count > 0
      modifies this, nodes
      ensures Valid() && fresh(nodes - old(nodes)) && flight == old(flight)
      ensures n == old(count) == |old(Contents())| - old(taken) && taken == old(taken) + n - |executed|
      ensures Consumed(executed, Contents(), threw) == Consuming(old(Contents()), n, script)
    {
      n := Pending();
      executed, threw := Consume(n, script);
    }

    /** The destructor's first loop. */
    method FreeQueue() returns (ghost freed: seq<Node>)
      requires Chain(queue) && head == First(queue)
      modifies `head, queue`storage
      ensures head == null && freed == queue
    {
      hide Chain;
      freed := [];
      ghost var k := 0;
      while head != null
        invariant 0 <= k <= |queue| && freed == queue[..k] && Chain(queue)
        invariant head == if k < |queue| then queue[k] else null
        decreases |queue| - k
      {
        var node := head;
        ChainAt(queue, k);
        head := head.next;
        node.storage := None;
        freed := freed + [node];
        k := k + 1;
      }
    }

    /** The destructor's second loop. */
    method FreeList() returns (ghost freed: seq<Node>)
      requires Chain(frees) && free == First(frees)
      modifies `free
      ensures free == null && freed == frees
    {
      hide Chain;
      freed := [];
      ghost var k := 0;
      while free != null
        invariant 0 <= k <= |frees| && freed == frees[..k] && Chain(frees)
        invariant free == if k < |frees| then frees[k] else null
        decreases |frees| - k
      {
        var node := free;
        ChainAt(frees, k);
        free := free.next;
        freed := freed + [node];
        k := k + 1;
      }
    }

    /** The destructor: both loops end, and every node is freed once. */
    method Teardown() returns (ghost freed: seq<Node>)
      requires Valid() && flight == []
      modifies this, nodes
      ensures head == null && free == null && Distinct(freed) && |freed| == old(allocs)
      ensures freed == old(queue) + old(frees) && forall n :: n in old(nodes) <==> n in freed
    {
      ghost var queued := FreeQueue();
      assert Chain(frees);
      ghost var rest := FreeList();
      freed := queued + rest;
    }
  }
}
