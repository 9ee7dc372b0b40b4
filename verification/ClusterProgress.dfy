/** What dialling comes to: a node calls a seed exactly when it has no link to it, never gives up on a
    seed, and two nodes that are not linked are linked by one call that goes through.
 */
module ClusterProgress {
  import opened Basics
  import opened ClusterLinks
  import opened ClusterAgreement

  // ------------------------------------------------------------ when a node calls

  /** A call begins exactly when a Connect command is taken up and there is no link to that seed; and a
      command is used up by that, whether there is a link or not. */
  lemma CallsOnlyTheUnlinked(roads: Roads, s: Net, e: Event, r: Road)
    ensures var s' := Act(roads, s, e);
      && (Count(s'.dialling, r) > Count(s.dialling, r) <==>
            e == Connect(r) && Count(s.commands, r) > 0 && r.seed !in TablesOf(s, r.source).nodes)
      && (Count(s'.commands, r) < Count(s.commands, r) <==> e == Connect(r) && Count(s.commands, r) > 0)
      && Count(s'.dialling, r) <= Count(s.dialling, r) + 1
  {
  }

  /** A new command comes up exactly when a call was refused, or when the end of a connection leaves a
      node out of touch with a seed. */
  lemma CommandsComeFromLosses(roads: Roads, s: Net, e: Event, r: Road)
    ensures var s' := Act(roads, s, e);
      Count(s'.commands, r) > Count(s.commands, r) <==>
        || (e == Refused(r) && Count(s.dialling, r) > 0)
        || (e.Close? && Ended(s, e.at) && r in roads && Owner(s.links[e.at.conn], e.at.front) == r.source
            && LostNode(TablesOf(s, r.source), e.at) == Some(r.seed))
  {
  }

  // ------------------------------------------------------------ no seed is forgotten

  /** The node has a record of a connection it dialled to that seed. */
  ghost predicate Called(t: Tables, seed: NodeId) {
    exists o :: o in t.peers && t.peers[o].expected == Some(seed)
  }

  /** The node is linked to the seed, is about to call it, or waits for a call to come through. */
  ghost predicate Minded(s: Net, r: Road) {
    var t := TablesOf(s, r.source);
    Count(s.commands, r) + Count(s.dialling, r) > 0 || r.seed in t.nodes || Called(t, r.seed)
  }

  lemma HelloKeepsMinded(x: NodeId, t: Tables, at: Socket, n: NodeId, seed: NodeId)
    requires Linked(t) && AsExpected(t) && (seed in t.nodes || Called(t, seed))
    ensures var t' := AfterHello(x, t, at, n).tables; seed in t'.nodes || Called(t', seed)
  {
    var t' := AfterHello(x, t, at, n).tables;
    if seed !in t.nodes {
      var o :| o in t.peers && t.peers[o].expected == Some(seed);
      if o in t'.peers {
        assert t'.peers[o].expected == Some(seed);
      }
    }
  }

  lemma CloseKeepsMinded(t: Tables, at: Socket, seed: NodeId)
    requires Linked(t) && AsExpected(t) && (seed in t.nodes || Called(t, seed))
    ensures var t' := AfterClose(t, at); seed in t'.nodes || Called(t', seed) || LostNode(t, at) == Some(seed)
  {
    var t' := AfterClose(t, at);
    if seed !in t.nodes {
      var o :| o in t.peers && t.peers[o].expected == Some(seed);
      if o != at {
        assert o in t'.peers && t'.peers[o].expected == Some(seed);
      }
    } else {
      LostMeansUnlinked(t, at, seed);
    }
  }

  /** A new socket is new. */
  lemma RecordsStay(roads: Roads, s: Net, e: Event, x: NodeId, o: Socket)
    requires Base(s) && o in TablesOf(s, x).peers
    ensures o in TablesOf(SetUp(roads, s, e), x).peers
    ensures TablesOf(SetUp(roads, s, e), x).peers[o] == TablesOf(s, x).peers[o]
  {
    assert Recorded(s.links, x, o, TablesOf(s, x).peers[o]);
  }

  lemma SetUpKeepsMinded(roads: Roads, s: Net, e: Event, r: Road)
    requires Base(s) && Minded(s, r) && r in roads
    ensures Minded(SetUp(roads, s, e), r)
  {
    var s', t := SetUp(roads, s, e), TablesOf(s, r.source);
    var t' := TablesOf(s', r.source);
    RestKeepsTables(roads, s, e, r.source);
    if Called(t, r.seed) {
      var o :| o in t.peers && t.peers[o].expected == Some(r.seed);
      RecordsStay(roads, s, e, r.source, o);
      assert o in t'.peers && t'.peers[o].expected == Some(r.seed);
    } else if e == Established(r) && Opens(roads, s, e) {
      assert Socket(|s.links|, true) in t'.peers && t'.peers[Socket(|s.links|, true)].expected == Some(r.seed);
    }
  }

  lemma StepKeepsMinded(roads: Roads, s: Net, e: Event, r: Road)
    requires Base(s) && Minded(s, r) && r in roads
    ensures Minded(Act(roads, s, e), r)
  {
    var t := TablesOf(s, r.source);
    assert TablesOk(s.links, r.source, t);
    match e
    case Hello(at) =>
      if Arrives(s, at) && (r.seed in t.nodes || Called(t, r.seed)) {
        HelloKeepsMinded(r.source, t, at, Other(s.links[at.conn], at.front), r.seed);
      }
    case Close(at) =>
      if Ended(s, at) && (r.seed in t.nodes || Called(t, r.seed)) {
        CloseKeepsMinded(t, at, r.seed);
      }
    case _ => SetUpKeepsMinded(roads, s, e, r);
  }

  lemma {:induction false} RunKeepsMinded(roads: Roads, run: seq<Net>, n: nat, r: Road)
    requires IsRun(roads, run) && n < |run| && r in roads
    ensures Minded(run[n], r)
  {
    if n > 0 {
      RunKeepsMinded(roads, run, n - 1, r);
      PrefixIsRun(roads, run, n - 1);
      assert Step(roads, run[n - 1], run[n - 1 + 1]);
      var e :| run[n] == Act(roads, run[n - 1], e);
      StepKeepsMinded(roads, run[n - 1], e, r);
    }
  }

  /** No seed is ever forgotten: in every reachable state a node is linked to each of its seeds, has a
      connection to it on record that it dialled, or is calling it or about to. */
  lemma SeedsAreNeverForgotten(roads: Roads, s: Net, r: Road)
    requires Reachable(roads, s) && r in roads
    ensures Minded(s, r)
  {
    var run :| IsRun(roads, run) && run[|run| - 1] == s;
    RunKeepsMinded(roads, run, |run| - 1, r);
  }

  // ------------------------------------------------------------ a call that goes through

  /** The connection is there, and its dialler has it on record. */
  lemma CallComesThrough(roads: Roads, s: Net, r: Road) returns (s': Net)
    requires Base(s) && r in roads && roads[r] == r.seed && Count(s.commands, r) > 0
    requires r.seed !in TablesOf(s, r.source).nodes
    ensures s' == Act(roads, Act(roads, s, Connect(r)), Established(r))
    ensures var k := |s.links|;
      && s'.links == s.links[k := Link(r.source, r.seed, r.seed, false, {}, false, false)]
      && TablesOf(s', r.source) == AddPeer(TablesOf(s, r.source), Socket(k, true), Some(r.seed))
      && forall x :: x != r.source ==> TablesOf(s', x) == TablesOf(s, x)
  {
    s' := Act(roads, Act(roads, s, Connect(r)), Established(r));
  }

  /** Both hellos of a new connection between two nodes that have no link to each other. */
  lemma HellosLink(s: Net, k: nat, x: NodeId, y: NodeId)
    requires k in s.links && s.links[k] == Link(x, y, y, true, {}, false, false) && x != y
    requires y !in TablesOf(s, x).nodes && x !in TablesOf(s, y).nodes
    requires Socket(k, true) in TablesOf(s, x).peers && TablesOf(s, x).peers[Socket(k, true)] == Peer(None, Some(y))
    requires Socket(k, false) in TablesOf(s, y).peers && TablesOf(s, y).peers[Socket(k, false)] == Peer(None, None)
    ensures var s' := Greet(Greet(s, Socket(k, true)), Socket(k, false));
      && Arrives(s, Socket(k, true)) && Arrives(Greet(s, Socket(k, true)), Socket(k, false))
      && Uses(s', x, y, Socket(k, true)) && Uses(s', y, x, Socket(k, false)) && k in s'.links && !s'.links[k].shut
  {
    var s1 := Greet(s, Socket(k, true));
    assert s1.links[k] == Link(x, y, y, true, {true}, false, false) by {
      var none: set<bool> := {};
      assert none + {true} == {true};
    }
    assert TablesOf(s1, y) == TablesOf(s, y) && Uses(s1, x, y, Socket(k, true));
  }

  /** And accepted, with nothing else changed. */
  lemma CallIsAccepted(roads: Roads, s: Net, r: Road) returns (s': Net)
    requires Base(s) && r in roads && roads[r] == r.seed != r.source && Count(s.commands, r) > 0
    requires r.seed !in TablesOf(s, r.source).nodes
    ensures var k := |s.links|;
      && s' == Act(roads, Act(roads, Act(roads, s, Connect(r)), Established(r)), Accept(k))
      && k in s'.links && s'.links[k] == Link(r.source, r.seed, r.seed, true, {}, false, false)
      && TablesOf(s', r.source) == AddPeer(TablesOf(s, r.source), Socket(k, true), Some(r.seed))
      && TablesOf(s', r.seed) == AddPeer(TablesOf(s, r.seed), Socket(k, false), None)
  {
    var s1 := CallComesThrough(roads, s, r);
    s' := Act(roads, s1, Accept(|s.links|));
  }

  /** Two nodes without a link to each other, of which one has a Connect command for the other: taking it
      up, a connection, accepting it and the two hellos leave both linked over it. */
  lemma OneCallLinksBoth(roads: Roads, s: Net, r: Road)
    requires Reachable(roads, s) && r in roads && roads[r] == r.seed != r.source && Count(s.commands, r) > 0
    requires r.seed !in TablesOf(s, r.source).nodes && r.source !in TablesOf(s, r.seed).nodes
    ensures var k := |s.links|;
      var s1 := Act(roads, Act(roads, s, Connect(r)), Established(r));
      var s2 := Act(roads, s1, Accept(k));
      var s3 := Act(roads, Act(roads, s2, Hello(Socket(k, true))), Hello(Socket(k, false)));
      && Uses(s3, r.source, r.seed, Socket(k, true)) && Uses(s3, r.seed, r.source, Socket(k, false))
      && k in s3.links && !s3.links[k].shut
  {
    ReachableIsBase(roads, s);
    var s2 := CallIsAccepted(roads, s, r);
    HellosLink(s2, |s.links|, r.source, r.seed);
  }
}
