/** Links between cluster nodes: the tables of one node, and the network of all nodes, where hellos
    and closes arrive in any order. Two nodes that dial each other must keep the same connection.
 */
module ClusterLinks {
  import opened Basics

  type NodeId = nat

  /** One end of a connection: `front` is the dialling end. */
  datatype Socket = Socket(conn: nat, front: bool)

  /** `node`: who said hello here. `expected`: whom this node meant to dial, if it dialled. */
  datatype Peer = Peer(node: Option<NodeId>, expected: Option<NodeId>)

  datatype Tables = Tables(nodes: map<NodeId, Socket>, peers: map<Socket, Peer>)

  /** What a hello or a close leads to: new tables, and perhaps a connection to shut. */
  datatype Effect = Effect(tables: Tables, shut: Option<Socket>)

  /** Who dialled the connection, as seen from `local` talking to `node`. */
  function Initiator(local: NodeId, node: NodeId, peer: Peer): NodeId {
    if peer.expected.Some? then local else node
  }

  /** The node a hello on this socket is from is accepted as such. */
  predicate Claimable(local: NodeId, peer: Peer, node: NodeId) {
    node != local && (peer.expected.Some? ==> peer.expected.value == node) && peer.node.None?
  }

  /** The link that node already has is the one to keep. */
  predicate KeepsOld(local: NodeId, t: Tables, socket: Socket, node: NodeId)
    requires socket in t.peers
  {
    node in t.nodes
    && (var previous := t.nodes[node];
        (if previous in t.peers then Initiator(local, node, t.peers[previous]) else node)
        <= Initiator(local, node, t.peers[socket]))
  }

  function AfterHello(local: NodeId, t: Tables, socket: Socket, node: NodeId): Effect {
    if node == local then Effect(t, Some(socket))
    else if socket !in t.peers then Effect(t, None)
    else if !Claimable(local, t.peers[socket], node) then Effect(t, Some(socket))
    else
      var claimed := t.(peers := t.peers[socket := t.peers[socket].(node := Some(node))]);
      if KeepsOld(local, claimed, socket, node) then Effect(claimed, Some(socket))
      else
        var linked := claimed.(nodes := claimed.nodes[node := socket]);
        if node in t.nodes && t.nodes[node] != socket then
          Effect(linked.(peers := linked.peers - {t.nodes[node]}), Some(t.nodes[node]))
        else Effect(linked, None)
  }

  function ReconnectNode(peer: Peer): Option<NodeId> {
    if peer.expected.Some? then peer.expected else peer.node
  }

  function AfterClose(t: Tables, socket: Socket): Tables {
    if socket !in t.peers then t
    else
      var node := ReconnectNode(t.peers[socket]);
      var left := t.(peers := t.peers - {socket});
      if node.Some? && node.value in t.nodes && t.nodes[node.value] == socket
      then left.(nodes := left.nodes - {node.value})
      else left
  }

  /** The node a close leaves out of touch: the one meant or met at this socket, unless it is linked
      over another. Its requests fail, and it is dialled again if it is a seed. */
  function LostNode(t: Tables, socket: Socket): Option<NodeId> {
    if socket !in t.peers then None
    else
      var node := ReconnectNode(t.peers[socket]);
      if node.Some? && node.value in t.nodes && t.nodes[node.value] != socket then None else node
  }

  /** Every link points at a socket whose other end said it is that node. */
  ghost predicate Linked(t: Tables) {
    forall n :: n in t.nodes ==> t.nodes[n] in t.peers && t.peers[t.nodes[n]].node == Some(n)
  }

  /** Nobody is known by a name other than the one it was dialled under. */
  ghost predicate AsExpected(t: Tables) {
    forall s :: s in t.peers && t.peers[s].node.Some? && t.peers[s].expected.Some? ==>
      t.peers[s].node == t.peers[s].expected
  }

  lemma HelloKeepsLinked(local: NodeId, t: Tables, socket: Socket, node: NodeId)
    requires Linked(t) && AsExpected(t)
    ensures Linked(AfterHello(local, t, socket, node).tables) && AsExpected(AfterHello(local, t, socket, node).tables)
  {
  }

  lemma CloseKeepsLinked(t: Tables, socket: Socket)
    requires Linked(t) && AsExpected(t)
    ensures Linked(AfterClose(t, socket)) && AsExpected(AfterClose(t, socket))
    ensures socket !in AfterClose(t, socket).nodes.Values
  {
  }

  /** A node reported lost has no link any more, and every node that loses its link is reported. */
  lemma LostMeansUnlinked(t: Tables, socket: Socket, n: NodeId)
    requires Linked(t) && AsExpected(t)
    ensures LostNode(t, socket) == Some(n) ==> n !in AfterClose(t, socket).nodes
    ensures n in t.nodes && n !in AfterClose(t, socket).nodes ==> LostNode(t, socket) == Some(n)
  {
  }

  /** A link gives way exactly to a connection, newly claimed, that a smaller node dialled; then the
      old socket is the one shut, and otherwise the new one. */
  lemma LinksYieldToSmallerDialers(local: NodeId, t: Tables, socket: Socket, node: NodeId)
    requires Linked(t) && node in t.nodes && socket in t.peers && node != local
    ensures var after := AfterHello(local, t, socket, node);
      && node in after.tables.nodes
      && (after.tables.nodes[node] != t.nodes[node] <==>
            && Claimable(local, t.peers[socket], node)
            && Initiator(local, node, t.peers[socket]) < Initiator(local, node, t.peers[t.nodes[node]]))
      && after.shut == Some(if after.tables.nodes[node] != t.nodes[node] then t.nodes[node] else socket)
  {
  }

  /** The tables of one node, as the cluster service keeps them. */
  class ClusterState {
    const local: NodeId
    var nodes: map<NodeId, Socket>
    var peers: map<Socket, Peer>
    var pending: map<nat, NodeId>     // requests on their way, and whom they ask
    var nextRequest: nat

    ghost function Value(): Tables
      reads this
    {
      Tables(nodes, peers)
    }

    ghost predicate Valid()
      reads this
    {
      Linked(Value()) && AsExpected(Value()) && forall id :: id in pending ==> id <= nextRequest
    }

    constructor (id: NodeId)
      ensures Valid() && local == id && Value() == Tables(map[], map[]) && pending == map[]
    {
      local, nodes, peers, pending, nextRequest := id, map[], map[], map[], 0;
    }

    /** The bookkeeping of a request: a new id. */
    method Ask(node: NodeId) returns (id: nat)
      requires Valid()
      modifies this`pending, this`nextRequest
      ensures Valid() && id !in old(pending) && id != 0 && pending == old(pending)[id := node]
    {
      nextRequest := nextRequest + 1;
      id := nextRequest;
      pending := pending[id := node];
    }

    /** `connect` with an expected node, or the accepting of a connection; socket ids are new. */
    method Add(socket: Socket, expected: Option<NodeId>)
      requires Valid() && socket !in peers
      modifies this`peers
      ensures Valid() && Value() == old(Value()).(peers := old(peers)[socket := Peer(None, expected)])
    {
      peers := peers[socket := Peer(None, expected)];
    }

    method AcceptHello(socket: Socket, node: NodeId) returns (shut: Option<Socket>)
      requires Valid()
      modifies this`nodes, this`peers
      ensures Valid() && Effect(Value(), shut) == AfterHello(local, old(Value()), socket, node)
    {
      HelloKeepsLinked(local, Value(), socket, node);
      if node == local {
        return Some(socket);
      }
      if socket !in peers {
        return None;
      }
      var peer := peers[socket];
      if peer.expected.Some? && peer.expected.value != node {
        return Some(socket);
      }
      if peer.node.Some? {
        return Some(socket);
      }
      peers := peers[socket := peer.(node := Some(node))];
      var initiator := if peer.expected.Some? then local else node;
      if node in nodes {
        var previous := nodes[node];
        var first := if previous in peers && peers[previous].expected.Some? then local else node;
        if first <= initiator {
          return Some(socket);
        }
        nodes := nodes[node := socket];
        if previous != socket {
          peers := peers - {previous};
          return Some(previous);
        }
        return None;
      }
      nodes := nodes[node := socket];
      return None;
    }

    /** `disconnected`: what is left of the tables, whom to dial again, and which requests fail:
        exactly those to the node that is out of touch now. */
    method Disconnected(socket: Socket) returns (lost: Option<NodeId>, failed: set<nat>)
      requires Valid()
      modifies this`nodes, this`peers, this`pending
      ensures Valid() && Value() == AfterClose(old(Value()), socket) && lost == LostNode(old(Value()), socket)
      ensures failed == set id | id in old(pending) && lost == Some(old(pending)[id])
      ensures pending == old(pending) - failed
    {
      CloseKeepsLinked(Value(), socket);
      lost, failed := None, {};
      if socket in peers {
        var node := if peers[socket].expected.Some? then peers[socket].expected else peers[socket].node;
        peers := peers - {socket};
        if node.Some? && !(node.value in nodes && nodes[node.value] != socket) {
          lost := node;
          if node.value in nodes && nodes[node.value] == socket {
            nodes := nodes - {node.value};
          }
          failed := set id | id in pending && pending[id] == node.value;
          pending := pending - failed;
        }
      }
    }
  }
}
