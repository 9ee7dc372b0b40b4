/** All nodes and all connections together. Each node dials its seeds, once at the start and again
    whenever it lost touch with one; hellos and closes are delivered in any order, late or never, and
    the network may break any connection. When is a connection shut by one of its own ends?
 */
module ClusterAgreement {
  import opened Basics
  import opened ClusterLinks

  /** A connection: who dialled whom, and under which name. `accepted`: the other end has set up
      its socket. `heard`: the ends at which the hello of the other end has been delivered.
      `shut`: one end shut it. `broken`: the network lost it. */
  datatype Link = Link(
    dialer: NodeId, acceptor: NodeId, expected: NodeId,
    accepted: bool, heard: set<bool>, shut: bool, broken: bool)

  /** A node and a seed of its. */
  datatype Road = Road(source: NodeId, seed: NodeId)

  /** Who really answers at the address a node has for a seed; a node lists a seed once. */
  type Roads = map<Road, NodeId>

  /** `commands`: Connect commands on their way, after start or after a pause. `dialling`: calls of
      `connect` that wait for the network. */
  datatype Net = Net(
    tables: map<NodeId, Tables>, links: map<nat, Link>, commands: map<Road, nat>, dialling: map<Road, nat>)

  /** How many there are for a road. */
  function Count(m: map<Road, nat>, r: Road): nat {
    if r in m then m[r] else 0
  }

  function More(m: map<Road, nat>, r: Road): map<Road, nat> {
    m[r := Count(m, r) + 1]
  }

  function Fewer(m: map<Road, nat>, r: Road): map<Road, nat> {
    if Count(m, r) == 0 then m else m[r := Count(m, r) - 1]
  }

  datatype Event =
    | Connect(r: Road)       // a Connect command is taken up
    | Established(r: Road)   // the network has set up the connection
    | Refused(r: Road)       // or not: try again
    | Accept(conn: nat)
    | Hello(at: Socket)      // the other end's hello arrives
    | Close(at: Socket)      // the end of the connection is noticed
    | Break(conn: nat)

  function Init(roads: Roads): Net {
    Net(map[], map[], map r | r in roads :: 1, map[])
  }

  function TablesOf(s: Net, x: NodeId): Tables {
    if x in s.tables then s.tables[x] else Tables(map[], map[])
  }

  function Owner(l: Link, front: bool): NodeId {
    if front then l.dialer else l.acceptor
  }

  function Other(l: Link, front: bool): NodeId {
    Owner(l, !front)
  }

  function AddPeer(t: Tables, socket: Socket, expected: Option<NodeId>): Tables {
    t.(peers := t.peers[socket := Peer(None, expected)])
  }

  function Shut(links: map<nat, Link>, which: Option<Socket>): map<nat, Link> {
    if which.Some? && which.value.conn in links
    then links[which.value.conn := links[which.value.conn].(shut := true)]
    else links
  }

  /** A hello is sent once by each end, when it is set up. */
  predicate Arrives(s: Net, at: Socket) {
    at.conn in s.links && at.front !in s.links[at.conn].heard && s.links[at.conn].accepted
  }

  predicate Ended(s: Net, at: Socket) {
    at.conn in s.links && (s.links[at.conn].shut || s.links[at.conn].broken)
  }

  predicate Opens(roads: Roads, s: Net, e: Event) {
    e.Established? && Count(s.dialling, e.r) > 0 && e.r in roads
  }

  function Act(roads: Roads, s: Net, e: Event): Net {
    match e
    case Hello(at) => if Arrives(s, at) then Greet(s, at) else s
    case Close(at) => if Ended(s, at) then Notice(roads, s, at) else s
    case _ => SetUp(roads, s, e)
  }

  /** Everything up to the setting up of both ends, and the network. */
  function SetUp(roads: Roads, s: Net, e: Event): Net {
    match e
    case Connect(r) =>
      if Count(s.commands, r) == 0 then s
      else
        // connect: nothing to do while there is a link
        s.(commands := Fewer(s.commands, r),
           dialling := if r.seed in TablesOf(s, r.source).nodes then s.dialling else More(s.dialling, r))
    case Established(r) => if Opens(roads, s, e) then Open(s, r, roads[r]) else s
    case Refused(r) =>
      if Count(s.dialling, r) == 0 then s
      else s.(dialling := Fewer(s.dialling, r), commands := More(s.commands, r))
    case Accept(k) =>
      if k !in s.links || s.links[k].accepted then s
      else
        var l := s.links[k];
        s.(tables := s.tables[l.acceptor := AddPeer(TablesOf(s, l.acceptor), Socket(k, false), None)],
           links := s.links[k := l.(accepted := true)])
    case Break(k) => if k in s.links then s.(links := s.links[k := s.links[k].(broken := true)]) else s
    case _ => s
  }

  function Open(s: Net, r: Road, answers: NodeId): Net {
    var k := |s.links|;
    s.(tables := s.tables[r.source := AddPeer(TablesOf(s, r.source), Socket(k, true), Some(r.seed))],
       links := s.links[k := Link(r.source, answers, r.seed, false, {}, false, false)],
       dialling := Fewer(s.dialling, r))
  }

  function Greet(s: Net, at: Socket): Net
    requires at.conn in s.links
  {
    var l := s.links[at.conn];
    var x := Owner(l, at.front);
    var after := AfterHello(x, TablesOf(s, x), at, Other(l, at.front));
    s.(tables := s.tables[x := after.tables],
       links := Shut(s.links[at.conn := l.(heard := l.heard + {at.front})], after.shut))
  }

  function Notice(roads: Roads, s: Net, at: Socket): Net
    requires at.conn in s.links
  {
    var x := Owner(s.links[at.conn], at.front);
    var lost := LostNode(TablesOf(s, x), at);
    s.(tables := s.tables[x := AfterClose(TablesOf(s, x), at)],
       commands := if lost.Some? && Road(x, lost.value) in roads
                   then More(s.commands, Road(x, lost.value)) else s.commands)
  }

  ghost predicate Step(roads: Roads, s: Net, s': Net) {
    exists e :: s' == Act(roads, s, e)
  }

  ghost predicate IsRun(roads: Roads, run: seq<Net>) {
    && |run| > 0 && run[0] == Init(roads)
    && forall i :: 0 <= i < |run| - 1 ==> Step(roads, run[i], run[i + 1])
  }

  ghost predicate Reachable(roads: Roads, s: Net) {
    exists run :: IsRun(roads, run) && run[|run| - 1] == s
  }

  // ------------------------------------------------------------ what every step keeps

  /** A node's record of a socket says what the connection is. */
  predicate Recorded(links: map<nat, Link>, x: NodeId, socket: Socket, p: Peer) {
    && socket.conn in links
    && var l := links[socket.conn];
       && x == Owner(l, socket.front)
       && p.expected == (if socket.front then Some(l.expected) else None)
       && (!socket.front ==> l.accepted)
       && (p.node.Some? ==> p.node.value == Other(l, socket.front) && socket.front in l.heard)
  }

  ghost predicate TablesOk(links: map<nat, Link>, x: NodeId, t: Tables) {
    && Linked(t) && AsExpected(t)
    && forall socket :: socket in t.peers ==> Recorded(links, x, socket, t.peers[socket])
  }

  ghost predicate Consecutive(keys: set<nat>) {
    forall k: nat :: k in keys <==> k < |keys|
  }

  ghost predicate Base(s: Net) {
    && Consecutive(s.links.Keys) && |s.links| !in s.links
    && (forall x: NodeId :: TablesOk(s.links, x, TablesOf(s, x)))
  }

  /** Links only gain: an entry keeps its ends and its name, and what it has heard. */
  predicate Grew(l: Link, l': Link) {
    && l'.dialer == l.dialer && l'.acceptor == l.acceptor && l'.expected == l.expected
    && (l.accepted ==> l'.accepted) && l.heard <= l'.heard && (l.shut ==> l'.shut) && (l.broken ==> l'.broken)
  }

  ghost predicate Gains(links: map<nat, Link>, links': map<nat, Link>) {
    forall k :: k in links ==> k in links' && Grew(links[k], links'[k])
  }

  lemma LinkGrows(roads: Roads, s: Net, e: Event, k: nat)
    requires |s.links| !in s.links && k in s.links
    ensures k in Act(roads, s, e).links && Grew(s.links[k], Act(roads, s, e).links[k])
  {
  }

  lemma LinksGain(roads: Roads, s: Net, e: Event)
    requires Base(s)
    ensures Gains(s.links, Act(roads, s, e).links)
  {
    forall k | k in s.links ensures k in Act(roads, s, e).links && Grew(s.links[k], Act(roads, s, e).links[k]) {
      LinkGrows(roads, s, e, k);
    }
  }

  lemma GainsKeepTables(links: map<nat, Link>, links': map<nat, Link>, x: NodeId, t: Tables)
    requires Gains(links, links') && TablesOk(links, x, t)
    ensures TablesOk(links', x, t)
  {
    forall socket | socket in t.peers ensures Recorded(links', x, socket, t.peers[socket]) {
      assert Recorded(links, x, socket, t.peers[socket]);
    }
  }

  lemma AddTablesOk(links: map<nat, Link>, x: NodeId, t: Tables, socket: Socket, expected: Option<NodeId>)
    requires TablesOk(links, x, t) && socket !in t.peers && Recorded(links, x, socket, Peer(None, expected))
    ensures TablesOk(links, x, AddPeer(t, socket, expected))
  {
  }

  lemma HelloTablesOk(links: map<nat, Link>, x: NodeId, t: Tables, at: Socket)
    requires TablesOk(links, x, t) && at.conn in links && at.front in links[at.conn].heard
    requires x == Owner(links[at.conn], at.front)
    ensures TablesOk(links, x, AfterHello(x, t, at, Other(links[at.conn], at.front)).tables)
  {
    HelloKeepsLinked(x, t, at, Other(links[at.conn], at.front));
  }

  lemma CloseTablesOk(links: map<nat, Link>, x: NodeId, t: Tables, at: Socket)
    requires TablesOk(links, x, t)
    ensures TablesOk(links, x, AfterClose(t, at))
  {
    CloseKeepsLinked(t, at);
  }

  /** The node whose tables the event may change. */
  function Touched(s: Net, e: Event): NodeId {
    match e
    case Connect(r) => r.source
    case Established(r) => r.source
    case Refused(r) => r.source
    case Accept(k) => if k in s.links then s.links[k].acceptor else 0
    case Hello(at) => if at.conn in s.links then Owner(s.links[at.conn], at.front) else 0
    case Close(at) => if at.conn in s.links then Owner(s.links[at.conn], at.front) else 0
    case Break(_) => 0
  }

  lemma TouchedOk(roads: Roads, s: Net, e: Event)
    requires Base(s)
    ensures TablesOk(Act(roads, s, e).links, Touched(s, e), TablesOf(Act(roads, s, e), Touched(s, e)))
  {
    var s', x := Act(roads, s, e), Touched(s, e);
    var t := TablesOf(s, x);
    LinksGain(roads, s, e);
    GainsKeepTables(s.links, s'.links, x, t);
    match e
    case Established(r) =>
      if Opens(roads, s, e) { AddTablesOk(s'.links, x, t, Socket(|s.links|, true), Some(r.seed)); }
    case Accept(k) =>
      if k in s.links && !s.links[k].accepted { AddTablesOk(s'.links, x, t, Socket(k, false), None); }
    case Hello(at) => if Arrives(s, at) { HelloTablesOk(s'.links, x, t, at); }
    case Close(at) => CloseTablesOk(s'.links, x, t, at);
    case _ =>
  }

  lemma ActKeepsBase(roads: Roads, s: Net, e: Event)
    requires Base(s)
    ensures Base(Act(roads, s, e))
  {
    var s' := Act(roads, s, e);
    LinksGain(roads, s, e);
    KeysStay(roads, s, e);
    TouchedOk(roads, s, e);
    forall x: NodeId ensures TablesOk(s'.links, x, TablesOf(s', x)) {
      if x != Touched(s, e) {
        GainsKeepTables(s.links, s'.links, x, TablesOf(s, x));
      }
    }
  }

  lemma KeysOf(roads: Roads, s: Net, e: Event)
    ensures Act(roads, s, e).links.Keys == s.links.Keys + if Opens(roads, s, e) then {|s.links|} else {}
  {
  }

  lemma StillConsecutive(keys: set<nat>)
    requires Consecutive(keys)
    ensures Consecutive(keys + {|keys|}) && Consecutive(keys + {})
  {
    assert keys + {} == keys;
  }

  lemma KeysStay(roads: Roads, s: Net, e: Event)
    requires Consecutive(s.links.Keys)
    ensures Consecutive(Act(roads, s, e).links.Keys)
  {
    assert |s.links| == |s.links.Keys|;
    KeysOf(roads, s, e);
    StillConsecutive(s.links.Keys);
  }

  lemma {:induction false} RunIsBase(roads: Roads, run: seq<Net>)
    requires IsRun(roads, run)
    ensures Base(run[|run| - 1])
  {
    if |run| > 1 {
      var before := run[..|run| - 1];
      forall i | 0 <= i < |before| - 1 ensures Step(roads, before[i], before[i + 1]) {
        assert Step(roads, run[i], run[i + 1]);
      }
      RunIsBase(roads, before);
      var s, s' := run[|run| - 2], run[|run| - 1];
      assert s == before[|before| - 1] && Step(roads, run[|run| - 2], run[|run| - 2 + 1]);
      var e :| s' == Act(roads, s, e);
      ActKeepsBase(roads, s, e);
    }
  }

  lemma ReachableIsBase(roads: Roads, s: Net)
    requires Reachable(roads, s)
    ensures Base(s)
  {
    var run :| IsRun(roads, run) && run[|run| - 1] == s;
    RunIsBase(roads, run);
  }

  /** Every node's link table points at sockets whose other end is that node. */
  lemma LinksAreTrue(roads: Roads, s: Net, x: NodeId, n: NodeId)
    requires Reachable(roads, s) && n in TablesOf(s, x).nodes
    ensures var socket := TablesOf(s, x).nodes[n];
      && socket in TablesOf(s, x).peers && TablesOf(s, x).peers[socket].node == Some(n) && socket.conn in s.links
      && Owner(s.links[socket.conn], socket.front) == x && Other(s.links[socket.conn], socket.front) == n
  {
    ReachableIsBase(roads, s);
    var t := TablesOf(s, x);
    assert TablesOk(s.links, x, t);
    assert Recorded(s.links, x, t.nodes[n], t.peers[t.nodes[n]]);
  }

  // ------------------------------------------------------------ a connection in good standing

  /** A connection between two nodes, dialled under the right name. */
  predicate Sound(l: Link) {
    l.dialer != l.acceptor == l.expected
  }

  predicate Uses(s: Net, x: NodeId, y: NodeId, socket: Socket) {
    y in TablesOf(s, x).nodes && TablesOf(s, x).nodes[y] == socket
  }

  /** It is not shut, its ends are on record, and whoever has heard its hello uses it. */
  ghost predicate Kept(s: Net, k: nat)
    requires k in s.links
  {
    var l := s.links[k];
    && !l.shut
    && Socket(k, true) in TablesOf(s, l.dialer).peers
    && (l.accepted ==> Socket(k, false) in TablesOf(s, l.acceptor).peers)
    && forall front :: front in l.heard ==> Uses(s, Owner(l, front), Other(l, front), Socket(k, front))
  }

  // ------------------------------------------------------------ what a hello does to it

  /** The hello at `at` makes node `x` prefer that connection to `k`, which it uses. */
  predicate Supplants(links: map<nat, Link>, x: NodeId, t: Tables, at: Socket, k: nat)
    requires k in links && at.conn in links
  {
    var n := Other(links[at.conn], at.front);
    && n in t.nodes && t.nodes[n].conn == k && at in t.peers && Claimable(x, t.peers[at], n)
    && links[at.conn].dialer < links[k].dialer
  }

  /** Its own hello: it loses to a link dialled by the same node or a smaller one, and takes the place of
      any other. */
  lemma OwnHello(links: map<nat, Link>, x: NodeId, t: Tables, at: Socket)
    requires TablesOk(links, x, t) && at.conn in links && x == Owner(links[at.conn], at.front)
    requires Sound(links[at.conn]) && at in t.peers && at.front !in links[at.conn].heard
    ensures var n := Other(links[at.conn], at.front);
      var after := AfterHello(x, t, at, n);
      && (n in t.nodes ==> t.nodes[n].conn in links)
      && if n in t.nodes && links[t.nodes[n].conn].dialer <= links[at.conn].dialer then after.shut == Some(at)
         else
           && n in after.tables.nodes && after.tables.nodes[n] == at && at in after.tables.peers
           && (after.shut.Some? ==> after.shut.value.conn != at.conn)
  {
    var n := Other(links[at.conn], at.front);
    assert Recorded(links, x, at, t.peers[at]);
    if n in t.nodes {
      assert Recorded(links, x, t.nodes[n], t.peers[t.nodes[n]]);
    }
  }

  /** Another hello takes its place exactly when it is used there and the other was dialled by a smaller
      node; otherwise it does no harm. */
  lemma OtherHello(links: map<nat, Link>, x: NodeId, t: Tables, at: Socket, k: nat, front: bool)
    requires TablesOk(links, x, t) && k in links
    requires at.conn in links && at.conn != k && x == Owner(links[at.conn], at.front)
    ensures var n := Other(links[at.conn], at.front);
      var after := AfterHello(x, t, at, n);
      if Supplants(links, x, t, at, k) then after.shut.Some? && after.shut.value.conn == k
      else
        && (after.shut.Some? ==> after.shut.value.conn != k)
        && (Socket(k, front) in t.peers ==> Socket(k, front) in after.tables.peers)
        && forall y :: y in t.nodes && t.nodes[y] == Socket(k, front) ==>
             y in after.tables.nodes && after.tables.nodes[y] == Socket(k, front)
  {
    var n := Other(links[at.conn], at.front);
    if at in t.peers {
      assert Recorded(links, x, at, t.peers[at]);
    }
    if n in t.nodes {
      assert Recorded(links, x, t.nodes[n], t.peers[t.nodes[n]]);
    }
  }

  /** A hello that costs connection `k` its place: its own, at an end that is linked over one dialled
      by the same node or a smaller one; or that of a new one dialled by a smaller node, at an end that
      uses `k`. */
  predicate Overruled(s: Net, k: nat, at: Socket)
    requires k in s.links && at.conn in s.links
  {
    var x, n := Owner(s.links[at.conn], at.front), Other(s.links[at.conn], at.front);
    var t := TablesOf(s, x);
    if at.conn == k then
      n in t.nodes && t.nodes[n].conn in s.links && s.links[t.nodes[n].conn].dialer <= s.links[k].dialer
    else Supplants(s.links, x, t, at, k)
  }

  lemma GreetShutsExactly(s: Net, at: Socket, k: nat)
    requires Base(s) && k in s.links && Sound(s.links[k]) && Kept(s, k) && Arrives(s, at)
    ensures k in Greet(s, at).links && (Greet(s, at).links[k].shut <==> Overruled(s, k, at))
  {
    var x := Owner(s.links[at.conn], at.front);
    assert TablesOk(s.links, x, TablesOf(s, x));
    if at.conn == k {
      OwnHello(s.links, x, TablesOf(s, x), at);
    } else {
      OtherHello(s.links, x, TablesOf(s, x), at, k, true);
    }
  }

  /** A step shuts a connection in good standing if and only if it delivers such a hello. */
  lemma ShutExactlyWhenOverruled(roads: Roads, s: Net, e: Event, k: nat)
    requires Reachable(roads, s) && k in s.links && Sound(s.links[k]) && Kept(s, k)
    ensures k in Act(roads, s, e).links
    ensures Act(roads, s, e).links[k].shut <==> e.Hello? && Arrives(s, e.at) && Overruled(s, k, e.at)
  {
    ReachableIsBase(roads, s);
    LinksGain(roads, s, e);
    if e.Hello? && Arrives(s, e.at) {
      GreetShutsExactly(s, e.at, k);
    }
  }

  // ------------------------------------------------------------ what a step leaves of it

  /** What a step must leave of it at one end. */
  ghost predicate EndKept(s: Net, s': Net, k: nat, front: bool)
    requires k in s.links && k in s'.links
  {
    var x, n := Owner(s.links[k], front), Other(s.links[k], front);
    && (Socket(k, front) in TablesOf(s, x).peers ==> Socket(k, front) in TablesOf(s', x).peers)
    && (Uses(s, x, n, Socket(k, front)) ==> Uses(s', x, n, Socket(k, front)))
    && (front in s'.links[k].heard ==> front in s.links[k].heard || Uses(s', x, n, Socket(k, front)))
  }

  lemma OwnHelloLeavesEnd(s: Net, at: Socket, front: bool)
    requires Base(s) && Arrives(s, at) && Sound(s.links[at.conn]) && Kept(s, at.conn) && !Overruled(s, at.conn, at)
    ensures at.conn in Greet(s, at).links && EndKept(s, Greet(s, at), at.conn, front)
  {
    var x := Owner(s.links[at.conn], at.front);
    assert TablesOk(s.links, x, TablesOf(s, x));
    OwnHello(s.links, x, TablesOf(s, x), at);
  }

  lemma OtherHelloLeavesEnd(s: Net, at: Socket, k: nat, front: bool)
    requires Base(s) && Arrives(s, at) && k in s.links && at.conn != k && !Overruled(s, k, at)
    ensures k in Greet(s, at).links && EndKept(s, Greet(s, at), k, front)
  {
    var x := Owner(s.links[at.conn], at.front);
    assert TablesOk(s.links, x, TablesOf(s, x));
    OtherHello(s.links, x, TablesOf(s, x), at, k, front);
  }

  lemma CloseElsewhere(k: nat, t: Tables, at: Socket, front: bool)
    requires Linked(t) && at.conn != k
    ensures var after := AfterClose(t, at);
      && (Socket(k, front) in t.peers ==> Socket(k, front) in after.peers)
      && forall n :: n in t.nodes && t.nodes[n] == Socket(k, front) ==>
           n in after.nodes && after.nodes[n] == Socket(k, front)
  {
  }

  lemma CloseKeepsEnd(roads: Roads, s: Net, at: Socket, k: nat, front: bool)
    requires Base(s) && k in s.links && at.conn in s.links && at.conn != k
    ensures EndKept(s, Notice(roads, s, at), k, front)
  {
    var x := Owner(s.links[at.conn], at.front);
    assert TablesOk(s.links, x, TablesOf(s, x));
    CloseElsewhere(k, TablesOf(s, x), at, front);
  }

  /** An event that only adds a socket, or changes nobody's tables. */
  lemma RestKeepsTables(roads: Roads, s: Net, e: Event, x: NodeId)
    ensures var t, t' := TablesOf(s, x), TablesOf(SetUp(roads, s, e), x);
      t'.nodes == t.nodes && forall o :: o in t.peers ==> o in t'.peers
  {
  }

  lemma RestKeepsFlags(roads: Roads, s: Net, e: Event, k: nat)
    requires |s.links| !in s.links && k in s.links
    ensures k in SetUp(roads, s, e).links && SetUp(roads, s, e).links[k].shut == s.links[k].shut
    ensures SetUp(roads, s, e).links[k].heard == s.links[k].heard
  {
  }

  lemma RestKeepsEnd(roads: Roads, s: Net, e: Event, k: nat, front: bool)
    requires Base(s) && k in s.links && !e.Hello? && !e.Close?
    ensures k in Act(roads, s, e).links && Act(roads, s, e).links[k].shut == s.links[k].shut
    ensures EndKept(s, Act(roads, s, e), k, front)
  {
    LinksGain(roads, s, e);
    RestKeepsTables(roads, s, e, Owner(s.links[k], front));
    RestKeepsFlags(roads, s, e, k);
  }

  lemma StepLeavesEnd(roads: Roads, s: Net, e: Event, k: nat, front: bool)
    requires Base(s) && k in s.links && Sound(s.links[k]) && Kept(s, k) && !s.links[k].broken
    requires k in Act(roads, s, e).links && !Act(roads, s, e).links[k].shut
    ensures EndKept(s, Act(roads, s, e), k, front)
  {
    match e
    case Hello(at) =>
      if Arrives(s, at) {
        GreetShutsExactly(s, at, k);
        if at.conn == k { OwnHelloLeavesEnd(s, at, front); } else { OtherHelloLeavesEnd(s, at, k, front); }
      }
    case Close(at) => if Ended(s, at) { CloseKeepsEnd(roads, s, at, k, front); }
    case _ => RestKeepsEnd(roads, s, e, k, front);
  }

  lemma AcceptedIsRecorded(roads: Roads, s: Net, e: Event, k: nat)
    requires k in s.links && !s.links[k].accepted && k in Act(roads, s, e).links && Act(roads, s, e).links[k].accepted
    ensures Socket(k, false) in TablesOf(Act(roads, s, e), s.links[k].acceptor).peers
  {
  }

  /** A step that does not shut a connection in good standing leaves it so, whatever rivals it has. */
  lemma UnshutStaysKept(roads: Roads, s: Net, s': Net, k: nat)
    requires Base(s) && Step(roads, s, s') && k in s.links && k in s'.links
    requires Sound(s.links[k]) && Kept(s, k) && !s.links[k].broken && !s'.links[k].shut
    ensures Kept(s', k)
  {
    var e :| s' == Act(roads, s, e);
    LinksGain(roads, s, e);
    StepLeavesEnd(roads, s, e, k, true);
    StepLeavesEnd(roads, s, e, k, false);
    if !s.links[k].accepted && s'.links[k].accepted {
      AcceptedIsRecorded(roads, s, e, k);
    }
  }

  // ------------------------------------------------------------ over whole runs

  lemma PrefixIsRun(roads: Roads, run: seq<Net>, n: nat)
    requires IsRun(roads, run) && n < |run|
    ensures IsRun(roads, run[..n + 1]) && Base(run[n])
  {
    var part := run[..n + 1];
    forall i | 0 <= i < |part| - 1 ensures Step(roads, part[i], part[i + 1]) {
      assert Step(roads, run[i], run[i + 1]);
    }
    RunIsBase(roads, part);
  }

  ghost predicate Growing(run: seq<Net>) {
    forall i :: 0 <= i < |run| - 1 ==> Gains(run[i].links, run[i + 1].links)
  }

  lemma StepGains(roads: Roads, run: seq<Net>, i: nat)
    requires IsRun(roads, run) && i + 1 < |run|
    ensures Gains(run[i].links, run[i + 1].links)
  {
    PrefixIsRun(roads, run, i);
    assert Step(roads, run[i], run[i + 1]);
    var e :| run[i + 1] == Act(roads, run[i], e);
    LinksGain(roads, run[i], e);
  }

  lemma RunGrows(roads: Roads, run: seq<Net>)
    requires IsRun(roads, run)
    ensures Growing(run)
  {
    forall i | 0 <= i < |run| - 1 ensures Gains(run[i].links, run[i + 1].links) {
      StepGains(roads, run, i);
    }
  }

  lemma {:induction false} EndsStay(run: seq<Net>, i: nat, n: nat, k: nat)
    requires Growing(run) && i <= n < |run| && k in run[i].links
    ensures k in run[n].links && Grew(run[i].links[k], run[n].links[k])
    decreases n
  {
    if i < n {
      EndsStay(run, i, n - 1, k);
      assert Gains(run[n - 1].links, run[n - 1 + 1].links);
    }
  }

  /** Connection `k` was set up by the step to state `m`, and is there in every state up to `n`. */
  ghost predicate DialledAt(run: seq<Net>, m: nat, n: nat, k: nat) {
    0 < m <= n < |run| && k !in run[m - 1].links && forall i :: m <= i <= n ==> k in run[i].links
  }

  lemma NewlyDialled(roads: Roads, s: Net, s': Net, k: nat)
    requires Base(s) && Step(roads, s, s') && k !in s.links && k in s'.links
    ensures Kept(s', k)
  {
    var e :| s' == Act(roads, s, e);
    KeysOf(roads, s, e);
    assert k == |s.links|;
  }

  /** What is sound and unbroken after a step was so before it. */
  lemma WasGood(roads: Roads, s: Net, s': Net, k: nat)
    requires Base(s) && Step(roads, s, s') && k in s.links && k in s'.links
    requires Sound(s'.links[k]) && !s'.links[k].broken
    ensures Sound(s.links[k]) && !s.links[k].broken
  {
    var e :| s' == Act(roads, s, e);
    LinksGain(roads, s, e);
  }

  /** As long as it is not shut it is in good standing. */
  lemma {:induction false} KeptUnlessShut(roads: Roads, run: seq<Net>, m: nat, n: nat, k: nat)
    requires IsRun(roads, run) && DialledAt(run, m, n, k) && Sound(run[n].links[k]) && !run[n].links[k].broken
    requires !run[n].links[k].shut
    ensures Kept(run[n], k)
    decreases n
  {
    PrefixIsRun(roads, run, n - 1);
    assert Step(roads, run[n - 1], run[n - 1 + 1]);
    if m == n {
      NewlyDialled(roads, run[n - 1], run[n], k);
    } else {
      WasGood(roads, run[n - 1], run[n], k);
      StepGains(roads, run, n - 1);
      KeptUnlessShut(roads, run, m, n - 1, k);
      UnshutStaysKept(roads, run[n - 1], run[n], k);
    }
  }

  /** The step from state `i` of the run delivers a hello that costs connection `k` its place. */
  ghost predicate OverruledAt(roads: Roads, run: seq<Net>, i: nat, k: nat) {
    && i + 1 < |run| && k in run[i].links
    && exists at :: run[i + 1] == Act(roads, run[i], Hello(at)) && Arrives(run[i], at) && Overruled(run[i], k, at)
  }

  lemma OverruledIsShut(roads: Roads, run: seq<Net>, i: nat, k: nat)
    requires IsRun(roads, run) && OverruledAt(roads, run, i, k) && Sound(run[i].links[k]) && Kept(run[i], k)
    ensures k in run[i + 1].links && run[i + 1].links[k].shut
  {
    PrefixIsRun(roads, run, i);
    var at :| run[i + 1] == Act(roads, run[i], Hello(at)) && Arrives(run[i], at) && Overruled(run[i], k, at);
    GreetShutsExactly(run[i], at, k);
  }

  lemma ShutByAHello(roads: Roads, run: seq<Net>, i: nat, k: nat)
    requires IsRun(roads, run) && i + 1 < |run| && k in run[i].links && Sound(run[i].links[k]) && Kept(run[i], k)
    requires k in run[i + 1].links && run[i + 1].links[k].shut
    ensures OverruledAt(roads, run, i, k)
  {
    PrefixIsRun(roads, run, i);
    assert Step(roads, run[i], run[i + 1]);
    var e :| run[i + 1] == Act(roads, run[i], e);
    assert Reachable(roads, run[i]) by {
      var part := run[..i + 1];
      assert IsRun(roads, part) && part[|part| - 1] == run[i];
    }
    ShutExactlyWhenOverruled(roads, run[i], e, k);
  }

  /** The step that shut it. */
  lemma {:induction false} ShutSometime(run: seq<Net>, m: nat, n: nat, k: nat) returns (i: nat)
    requires m <= n < |run| && forall i :: m <= i <= n ==> k in run[i].links
    requires !run[m].links[k].shut && run[n].links[k].shut
    ensures m <= i < n && !run[i].links[k].shut && run[i + 1].links[k].shut
    decreases n
  {
    if run[n - 1].links[k].shut {
      i := ShutSometime(run, m, n - 1, k);
    } else {
      i := n - 1;
    }
  }

  lemma BeginsUnshut(roads: Roads, run: seq<Net>, m: nat, n: nat, k: nat)
    requires IsRun(roads, run) && DialledAt(run, m, n, k)
    ensures !run[m].links[k].shut
  {
    PrefixIsRun(roads, run, m - 1);
    assert Step(roads, run[m - 1], run[m - 1 + 1]);
    NewlyDialled(roads, run[m - 1], run[m], k);
  }

  lemma ShutHasACause(roads: Roads, run: seq<Net>, m: nat, n: nat, k: nat) returns (i: nat)
    requires IsRun(roads, run) && DialledAt(run, m, n, k) && Sound(run[n].links[k]) && !run[n].links[k].broken
    requires run[n].links[k].shut
    ensures m <= i < n && OverruledAt(roads, run, i, k)
  {
    BeginsUnshut(roads, run, m, n, k);
    i := ShutSometime(run, m, n, k);
    RunGrows(roads, run);
    EndsStay(run, i, n, k);
    KeptUnlessShut(roads, run, m, i, k);
    ShutByAHello(roads, run, i, k);
  }

  lemma CausesShut(roads: Roads, run: seq<Net>, m: nat, n: nat, k: nat, i: nat)
    requires IsRun(roads, run) && DialledAt(run, m, n, k) && Sound(run[n].links[k]) && !run[n].links[k].broken
    requires m <= i < n && OverruledAt(roads, run, i, k)
    ensures run[n].links[k].shut
  {
    RunGrows(roads, run);
    EndsStay(run, i, n, k);
    if !run[i].links[k].shut {
      KeptUnlessShut(roads, run, m, i, k);
      OverruledIsShut(roads, run, i, k);
      EndsStay(run, i + 1, n, k);
    }
  }

  /** Over every run: an unbroken connection under the right name has been shut if and only if, since it
      was dialled, such a hello was delivered; and as long as none was, it is in good standing. */
  lemma ShutExactlyByAHello(roads: Roads, run: seq<Net>, m: nat, n: nat, k: nat)
    requires IsRun(roads, run) && DialledAt(run, m, n, k) && Sound(run[n].links[k]) && !run[n].links[k].broken
    ensures run[n].links[k].shut <==> exists i :: m <= i < n && OverruledAt(roads, run, i, k)
    ensures run[n].links[k].shut || Kept(run[n], k)
  {
    if run[n].links[k].shut {
      var i := ShutHasACause(roads, run, m, n, k);
    } else {
      KeptUnlessShut(roads, run, m, n, k);
      forall i | m <= i < n ensures !OverruledAt(roads, run, i, k) {
        if OverruledAt(roads, run, i, k) {
          CausesShut(roads, run, m, n, k, i);
        }
      }
    }
  }

  // ------------------------------------------------------------ without rivals

  /** The other connections of the same two nodes that are on record at one end were dialled by a
      larger node, or by the same one and this end has already heard of this one. */
  ghost predicate EndRivalFree(links: map<nat, Link>, k: nat, front: bool, t: Tables)
    requires k in links
  {
    var l := links[k];
    forall o :: o in t.peers && o.conn != k && o.conn in links && Other(links[o.conn], o.front) == Other(l, front) ==>
      links[o.conn].dialer > l.dialer || (links[o.conn].dialer == l.dialer && front in l.heard)
  }

  /** What a connection must be able to rely on. For one dialled by the smaller node: no other one
      that node dialled is still recorded at an end that has not heard of this one. For one dialled
      by the larger node, besides: the smaller node has none at all recorded there. */
  ghost predicate RivalFree(s: Net, k: nat)
    requires k in s.links
  {
    forall front :: EndRivalFree(s.links, k, front, TablesOf(s, Owner(s.links[k], front)))
  }

  /** Without rivals no hello costs it its place. */
  lemma NoRivalsNoLoss(s: Net, k: nat, at: Socket)
    requires Base(s) && k in s.links && Sound(s.links[k]) && Arrives(s, at) && RivalFree(s, k)
    ensures !Overruled(s, k, at)
  {
    var l := s.links[at.conn];
    var x, n := Owner(l, at.front), Other(l, at.front);
    var t := TablesOf(s, x);
    assert TablesOk(s.links, x, t);
    if n in t.nodes {
      var o := t.nodes[n];
      assert Recorded(s.links, x, o, t.peers[o]);
      if at.conn == k {
        assert EndRivalFree(s.links, k, at.front, t);
      } else if o.conn == k {
        assert EndRivalFree(s.links, k, o.front, TablesOf(s, Owner(s.links[k], o.front)));
        assert at in t.peers ==> Recorded(s.links, x, at, t.peers[at]);
      }
    }
  }

  lemma NotOverruledAt(roads: Roads, run: seq<Net>, i: nat, k: nat)
    requires IsRun(roads, run) && i + 1 < |run| && k in run[i].links && Sound(run[i].links[k]) && RivalFree(run[i], k)
    ensures !OverruledAt(roads, run, i, k)
  {
    PrefixIsRun(roads, run, i);
    if OverruledAt(roads, run, i, k) {
      var at :| run[i + 1] == Act(roads, run[i], Hello(at)) && Arrives(run[i], at) && Overruled(run[i], k, at);
      NoRivalsNoLoss(run[i], k, at);
    }
  }

  /** A connection with the right name that the network does not break, and that has no rival in any
      state up to now, is not shut, and every end that has heard its hello uses it. */
  lemma SurvivesWithoutRivals(roads: Roads, run: seq<Net>, m: nat, n: nat, k: nat)
    requires IsRun(roads, run) && DialledAt(run, m, n, k) && Sound(run[n].links[k]) && !run[n].links[k].broken
    requires forall i :: m <= i < n ==> RivalFree(run[i], k)
    ensures Kept(run[n], k)
  {
    RunGrows(roads, run);
    forall i | m <= i < n ensures !OverruledAt(roads, run, i, k) {
      EndsStay(run, i, n, k);
      NotOverruledAt(roads, run, i, k);
    }
    ShutExactlyByAHello(roads, run, m, n, k);
  }

  /** No other connection its dialler dialled to that node is recorded at an end that has yet to hear
      of this one. */
  ghost predicate OnlyOfItsDialler(s: Net, k: nat)
    requires k in s.links
  {
    var l := s.links[k];
    forall front, o ::
      front !in l.heard && o in TablesOf(s, Owner(l, front)).peers && o.conn != k && o.conn in s.links ==>
        !(s.links[o.conn].dialer == l.dialer && s.links[o.conn].acceptor == l.acceptor)
  }

  /** No other connection of the two nodes is recorded at either end. */
  ghost predicate OnlyOfItsPair(s: Net, k: nat)
    requires k in s.links
  {
    var l := s.links[k];
    forall front, o :: o in TablesOf(s, Owner(l, front)).peers && o.conn != k && o.conn in s.links ==>
      Other(s.links[o.conn], o.front) != Other(l, front)
  }

  lemma SmallerHasNoRivals(s: Net, k: nat)
    requires Base(s) && k in s.links && s.links[k].dialer < s.links[k].acceptor && OnlyOfItsDialler(s, k)
    ensures RivalFree(s, k)
  {
    var l := s.links[k];
    forall front ensures EndRivalFree(s.links, k, front, TablesOf(s, Owner(l, front))) {
      var t := TablesOf(s, Owner(l, front));
      assert TablesOk(s.links, Owner(l, front), t);
      forall o | o in t.peers && o.conn != k && o.conn in s.links && Other(s.links[o.conn], o.front) == Other(l, front)
        ensures s.links[o.conn].dialer > l.dialer || (s.links[o.conn].dialer == l.dialer && front in l.heard)
      {
        assert Recorded(s.links, Owner(l, front), o, t.peers[o]);
      }
    }
  }

  /** Of two nodes that dial each other, the smaller one's connection stays, however many the larger
      one dials: neither end shuts it, and both use it once its hellos are in, as long as no earlier
      connection of the smaller node is still on record at an end that has yet to hear of it. */
  lemma SmallerDialSurvives(roads: Roads, run: seq<Net>, m: nat, n: nat, k: nat)
    requires IsRun(roads, run) && DialledAt(run, m, n, k) && Sound(run[n].links[k]) && !run[n].links[k].broken
    requires run[n].links[k].dialer < run[n].links[k].acceptor
    requires forall i :: m <= i < n ==> OnlyOfItsDialler(run[i], k)
    ensures Kept(run[n], k)
  {
    RunGrows(roads, run);
    forall i | m <= i < n ensures RivalFree(run[i], k) {
      PrefixIsRun(roads, run, i);
      EndsStay(run, i, n, k);
      SmallerHasNoRivals(run[i], k);
    }
    SurvivesWithoutRivals(roads, run, m, n, k);
  }

  /** And a connection that is the only one its two nodes have on record stays whoever dialled it. */
  lemma SoleConnectionSurvives(roads: Roads, run: seq<Net>, m: nat, n: nat, k: nat)
    requires IsRun(roads, run) && DialledAt(run, m, n, k) && Sound(run[n].links[k]) && !run[n].links[k].broken
    requires forall i :: m <= i < n ==> OnlyOfItsPair(run[i], k)
    ensures Kept(run[n], k)
  {
    forall i | m <= i < n ensures RivalFree(run[i], k) {
      assert OnlyOfItsPair(run[i], k);
    }
    SurvivesWithoutRivals(roads, run, m, n, k);
  }

  // ------------------------------------------------------------ the condition is sharp

  lemma Reaches(roads: Roads, s: Net, e: Event) returns (s': Net)
    requires Reachable(roads, s)
    ensures s' == Act(roads, s, e) && Reachable(roads, s')
  {
    s' := Act(roads, s, e);
    var run :| IsRun(roads, run) && run[|run| - 1] == s;
    var longer := run + [s'];
    forall i | 0 <= i < |longer| - 1 ensures Step(roads, longer[i], longer[i + 1]) {
      if i < |run| - 1 {
        assert Step(roads, run[i], run[i + 1]);
      }
    }
    assert IsRun(roads, longer) && longer[|longer| - 1] == s';
  }

  /** Nobody's tables change but those of `x`. */
  ghost predicate OnlyAt(s: Net, s': Net, x: NodeId) {
    forall y: NodeId :: y != x ==> TablesOf(s', y) == TablesOf(s, y)
  }

  lemma Dials(roads: Roads, s: Net, r: Road) returns (s': Net)
    requires Reachable(roads, s) && r in roads && Count(s.commands, r) > 0 && r.seed !in TablesOf(s, r.source).nodes
    ensures Reachable(roads, s') && s'.commands == Fewer(s.commands, r) && OnlyAt(s, s', r.source)
    ensures s'.links == s.links[|s.links| := Link(r.source, roads[r], r.seed, false, {}, false, false)]
    ensures TablesOf(s', r.source) == AddPeer(TablesOf(s, r.source), Socket(|s.links|, true), Some(r.seed))
  {
    s' := Reaches(roads, s, Connect(r));
    s' := Reaches(roads, s', Established(r));
  }

  lemma Accepts(roads: Roads, s: Net, k: nat) returns (s': Net)
    requires Reachable(roads, s) && k in s.links && !s.links[k].accepted
    ensures Reachable(roads, s') && s'.commands == s.commands && OnlyAt(s, s', s.links[k].acceptor)
    ensures s'.links == s.links[k := s.links[k].(accepted := true)]
    ensures TablesOf(s', s.links[k].acceptor) == AddPeer(TablesOf(s, s.links[k].acceptor), Socket(k, false), None)
  {
    s' := Reaches(roads, s, Accept(k));
  }

  lemma Hears(roads: Roads, s: Net, at: Socket) returns (s': Net)
    requires Reachable(roads, s) && Arrives(s, at)
    ensures var l := s.links[at.conn];
      var x := Owner(l, at.front);
      var after := AfterHello(x, TablesOf(s, x), at, Other(l, at.front));
      && Reachable(roads, s') && s'.commands == s.commands && OnlyAt(s, s', x) && TablesOf(s', x) == after.tables
      && s'.links == Shut(s.links[at.conn := l.(heard := l.heard + {at.front})], after.shut)
  {
    s' := Reaches(roads, s, Hello(at));
  }

  lemma Breaks(roads: Roads, s: Net, k: nat) returns (s': Net)
    requires Reachable(roads, s) && k in s.links
    ensures Reachable(roads, s') && s'.commands == s.commands && s'.tables == s.tables
    ensures s'.links == s.links[k := s.links[k].(broken := true)]
  {
    s' := Reaches(roads, s, Break(k));
  }

  lemma Notices(roads: Roads, s: Net, at: Socket) returns (s': Net)
    requires Reachable(roads, s) && Ended(s, at)
    ensures var x := Owner(s.links[at.conn], at.front);
      var lost := LostNode(TablesOf(s, x), at);
      && Reachable(roads, s') && s'.links == s.links && OnlyAt(s, s', x)
      && TablesOf(s', x) == AfterClose(TablesOf(s, x), at)
      && s'.commands == if lost.Some? && Road(x, lost.value) in roads
                        then More(s.commands, Road(x, lost.value)) else s.commands
  {
    s' := Reaches(roads, s, Close(at));
  }

  /** Two nodes with each other as seeds. */
  function Two(a: NodeId, b: NodeId): Roads {
    map[Road(a, b) := b, Road(b, a) := a]
  }

  lemma Beginning(a: NodeId, b: NodeId) returns (s: Net)
    requires a != b
    ensures Reachable(Two(a, b), s) && s == Net(map[], map[], map[Road(a, b) := 1, Road(b, a) := 1], map[])
  {
    s := Init(Two(a, b));
    assert IsRun(Two(a, b), [s]) && [s][|[s]| - 1] == s;
  }

  /** `a` has dialled, `b` has heard the hello, and the network has lost the connection. */
  lemma DialledHeardAndBroken(a: NodeId, b: NodeId) returns (s: Net)
    requires a != b
    ensures Reachable(Two(a, b), s) && s.links == map[0 := Link(a, b, b, true, {false}, false, true)]
    ensures TablesOf(s, a) == Tables(map[], map[Socket(0, true) := Peer(None, Some(b))])
    ensures TablesOf(s, b) == Tables(map[a := Socket(0, false)], map[Socket(0, false) := Peer(Some(a), None)])
    ensures Count(s.commands, Road(a, b)) == 0
  {
    var none: set<bool> := {};
    assert none + {false} == {false};
    s := Beginning(a, b);
    s := Dials(Two(a, b), s, Road(a, b));
    assert s.links == map[0 := Link(a, b, b, false, {}, false, false)];
    s := Accepts(Two(a, b), s, 0);
    assert TablesOf(s, b) == Tables(map[], map[Socket(0, false) := Peer(None, None)]);
    s := Hears(Two(a, b), s, Socket(0, false));
    assert s.links == map[0 := Link(a, b, b, true, {false}, false, false)];
    s := Breaks(Two(a, b), s, 0);
  }

  lemma Redialled(a: NodeId, b: NodeId) returns (s: Net)
    requires a != b
    ensures Reachable(Two(a, b), s)
    ensures s.links == map[0 := Link(a, b, b, true, {false}, false, true), 1 := Link(a, b, b, true, {}, false, false)]
    ensures TablesOf(s, b) == Tables(map[a := Socket(0, false)],
                                     map[Socket(0, false) := Peer(Some(a), None), Socket(1, false) := Peer(None, None)])
  {
    s := DialledHeardAndBroken(a, b);
    s := Notices(Two(a, b), s, Socket(0, true));
    assert TablesOf(s, a) == Tables(map[], map[]);
    s := Dials(Two(a, b), s, Road(a, b));
    assert s.links == map[0 := Link(a, b, b, true, {false}, false, true), 1 := Link(a, b, b, false, {}, false, false)];
    s := Accepts(Two(a, b), s, 1);
  }

  /** A redial can be shut although nothing is wrong with it and its dialler is the smaller node: `a`
      has noticed the loss of its first connection and dials again, and `b`, which has not, holds on to
      the dead one and shuts the only one that lives. */
  lemma RedialCanBeShut(a: NodeId, b: NodeId)
    requires a != b
    ensures exists s :: Reachable(Two(a, b), s) && OnlySecondLives(s, a, b) && s.links[1].shut
  {
    var s := Redialled(a, b);
    s := Hears(Two(a, b), s, Socket(1, false));
    assert OnlySecondLives(s, a, b) && s.links[1].shut;
  }

  /** Two connections from `a` to `b` in all: the network broke the first and not the second. */
  predicate OnlySecondLives(s: Net, a: NodeId, b: NodeId) {
    && s.links.Keys == {0, 1} && s.links[0].broken && !s.links[1].broken
    && forall k :: k in s.links ==> s.links[k].dialer == a && s.links[k].acceptor == b == s.links[k].expected
  }

  // ------------------------------------------------------------ two retries at once

  /** Both have dialled; `a` has noticed the loss of its own connection and is about to retry. */
  lemma FirstRetry(a: NodeId, b: NodeId) returns (s: Net)
    requires a != b
    ensures Reachable(Two(a, b), s) && Count(s.commands, Road(a, b)) == 1
    ensures s.links == map[0 := Link(a, b, b, false, {}, false, true), 1 := Link(b, a, a, false, {}, false, false)]
    ensures TablesOf(s, a) == Tables(map[], map[])
    ensures TablesOf(s, b) == Tables(map[], map[Socket(1, true) := Peer(None, Some(a))])
  {
    s := Beginning(a, b);
    s := Dials(Two(a, b), s, Road(a, b));
    assert s.links == map[0 := Link(a, b, b, false, {}, false, false)];
    s := Dials(Two(a, b), s, Road(b, a));
    assert s.links == map[0 := Link(a, b, b, false, {}, false, false), 1 := Link(b, a, a, false, {}, false, false)];
    s := Breaks(Two(a, b), s, 0);
    s := Notices(Two(a, b), s, Socket(0, true));
  }

  /** Meanwhile `b`'s connection was linked at `a` and lost: a second retry. */
  lemma SecondRetry(a: NodeId, b: NodeId) returns (s: Net)
    requires a != b
    ensures Reachable(Two(a, b), s) && Count(s.commands, Road(a, b)) == 2
    ensures s.links == map[0 := Link(a, b, b, false, {}, false, true), 1 := Link(b, a, a, true, {false}, false, true)]
    ensures TablesOf(s, a) == Tables(map[], map[])
    ensures TablesOf(s, b) == Tables(map[], map[Socket(1, true) := Peer(None, Some(a))])
  {
    var none: set<bool> := {};
    assert none + {false} == {false};
    s := FirstRetry(a, b);
    s := Accepts(Two(a, b), s, 1);
    assert TablesOf(s, a) == Tables(map[], map[Socket(1, false) := Peer(None, None)]);
    s := Hears(Two(a, b), s, Socket(1, false));
    assert TablesOf(s, a) == Tables(map[b := Socket(1, false)], map[Socket(1, false) := Peer(Some(b), None)]);
    s := Breaks(Two(a, b), s, 1);
    s := Notices(Two(a, b), s, Socket(1, false));
  }

  function Lost(a: NodeId, b: NodeId): map<nat, Link> {
    map[0 := Link(a, b, b, false, {}, false, true), 1 := Link(b, a, a, true, {false}, false, true)]
  }

  /** The retries find the node unlinked, and dial. */
  lemma DialledOnce(a: NodeId, b: NodeId) returns (s: Net)
    requires a != b
    ensures Reachable(Two(a, b), s) && Count(s.commands, Road(a, b)) == 1
    ensures s.links == Lost(a, b)[2 := Link(a, b, b, false, {}, false, false)]
    ensures TablesOf(s, a) == Tables(map[], map[Socket(2, true) := Peer(None, Some(b))])
    ensures TablesOf(s, b) == Tables(map[], map[Socket(1, true) := Peer(None, Some(a))])
  {
    s := SecondRetry(a, b);
    s := Dials(Two(a, b), s, Road(a, b));
  }

  lemma DialledTwice(a: NodeId, b: NodeId) returns (s: Net)
    requires a != b
    ensures Reachable(Two(a, b), s)
    ensures s.links == Lost(a, b)[2 := Link(a, b, b, false, {}, false, false)]
                                 [3 := Link(a, b, b, false, {}, false, false)]
    ensures TablesOf(s, a) == Tables(map[], map[Socket(2, true) := Peer(None, Some(b)),
                                                Socket(3, true) := Peer(None, Some(b))])
    ensures TablesOf(s, b) == Tables(map[], map[Socket(1, true) := Peer(None, Some(a))])
  {
    s := DialledOnce(a, b);
    s := Dials(Two(a, b), s, Road(a, b));
  }

  lemma AcceptedTwice(a: NodeId, b: NodeId) returns (s: Net)
    requires a != b
    ensures Reachable(Two(a, b), s)
    ensures s.links == Lost(a, b)[2 := Link(a, b, b, true, {}, false, false)]
                                 [3 := Link(a, b, b, true, {}, false, false)]
    ensures TablesOf(s, a) == Tables(map[], map[Socket(2, true) := Peer(None, Some(b)),
                                                Socket(3, true) := Peer(None, Some(b))])
    ensures TablesOf(s, b) == Tables(map[], map[Socket(1, true) := Peer(None, Some(a)),
                                                Socket(2, false) := Peer(None, None),
                                                Socket(3, false) := Peer(None, None)])
  {
    s := DialledTwice(a, b);
    s := Accepts(Two(a, b), s, 2);
    s := Accepts(Two(a, b), s, 3);
  }

  /** Each node has heard on the connection the other has not. */
  lemma CrossedHellos(a: NodeId, b: NodeId) returns (s: Net)
    requires a != b
    ensures Reachable(Two(a, b), s)
    ensures s.links == Lost(a, b)[2 := Link(a, b, b, true, {true}, false, false)]
                                 [3 := Link(a, b, b, true, {false}, false, false)]
    ensures Uses(s, a, b, Socket(2, true)) && Uses(s, b, a, Socket(3, false))
    ensures Socket(3, true) in TablesOf(s, a).peers && TablesOf(s, a).peers[Socket(3, true)] == Peer(None, Some(b))
    ensures Socket(2, false) in TablesOf(s, b).peers && TablesOf(s, b).peers[Socket(2, false)] == Peer(None, None)
    ensures Socket(2, true) in TablesOf(s, a).peers && TablesOf(s, a).peers[Socket(2, true)].expected == Some(b)
    ensures Socket(3, false) in TablesOf(s, b).peers && TablesOf(s, b).peers[Socket(3, false)].expected == None
  {
    var none: set<bool> := {};
    assert none + {false} == {false} && none + {true} == {true};
    s := AcceptedTwice(a, b);
    s := Hears(Two(a, b), s, Socket(2, true));
    assert s.links == Lost(a, b)[2 := Link(a, b, b, true, {true}, false, false)]
                                [3 := Link(a, b, b, true, {}, false, false)];
    s := Hears(Two(a, b), s, Socket(3, false));
  }

  /** Two live connections of one node can both be shut, since each end keeps the one it heard on
      first and these may be different ones: the retry after a dial of its own that was lost, and the
      retry after a link the other had dialled was lost, can be under way together. */
  lemma TwoRetriesCanLoseBoth(a: NodeId, b: NodeId)
    requires a != b
    ensures exists s :: Reachable(Two(a, b), s) && BothShut(s, a, b)
  {
    var s := CrossedHellos(a, b);
    s := Hears(Two(a, b), s, Socket(3, true));
    assert s.links[3].shut && s.links[2] == Link(a, b, b, true, {true}, false, false);
    s := Hears(Two(a, b), s, Socket(2, false));
    assert BothShut(s, a, b);
  }

  predicate BothShut(s: Net, a: NodeId, b: NodeId) {
    2 in s.links && 3 in s.links && ShutAlive(s.links[2], a, b) && ShutAlive(s.links[3], a, b)
  }

  predicate ShutAlive(l: Link, a: NodeId, b: NodeId) {
    l.dialer == a && l.acceptor == b && l.shut && !l.broken
  }
}
