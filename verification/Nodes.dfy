/** The workforce registry: influence comes from executed work and reputation only. */
module Nodes {
  import opened Folds
  import opened Events
  import opened NodeChain

  datatype Status = Active | Penalized | Disconnected

  datatype Node = Node(id: string, kind: string, uptime: real, successes: nat, total: nat,
                       status: Status, weight: real, reputation: real)

  /** The position of the row with this id, or the table length. */
  function Position(nodes: seq<Node>, id: string): (i: nat)
    ensures i <= |nodes|
    ensures i < |nodes| ==> nodes[i].id == id
    ensures forall j :: 0 <= j < i ==> nodes[j].id != id
  {
    IndexOf((node: Node) => node.id, nodes, id)
  }

  predicate Registered(nodes: seq<Node>, id: string) { Position(nodes, id) < |nodes| }

  function Lookup(nodes: seq<Node>, id: string): (node: Node)
    requires Registered(nodes, id)
    ensures node in nodes && node.id == id
  {
    nodes[Position(nodes, id)]
  }

  /** Insert the row, or replace the row with the same primary key. */
  function Saved(nodes: seq<Node>, node: Node): seq<Node>
  {
    if Registered(nodes, node.id) then nodes[Position(nodes, node.id) := node] else nodes + [node]
  }

  function Fresh(id: string, kind: string): Node { Node(id, kind, 1.0, 0, 0, Active, 1.0, 1.0) }

  function Reputation(successes: nat, total: nat, uptime: real): real
  {
    if total == 0 then 1.0 else (successes as real / total as real) * uptime
  }

  /** A node after one more unit of attempted work. */
  function Worked(node: Node, success: bool): Node
  {
    var total := node.total + 1;
    var successes := if success then node.successes + 1 else node.successes;
    var reputation := Reputation(successes, total, node.uptime);
    node.(total := total, successes := successes, reputation := reputation, weight := reputation * node.uptime)
  }

  function Employed(nodes: seq<Node>, id: string, success: bool): seq<Node>
    requires Registered(nodes, id)
  {
    Saved(nodes, Worked(Lookup(nodes, id), success))
  }

  function AdmissionRecord(node: Node): Payload
  {
    NodeRecord(node.id, node.kind, node.uptime, node.reputation, node.weight)
  }

  lemma SavedLookup(nodes: seq<Node>, node: Node, id: string)
    ensures Registered(Saved(nodes, node), id) <==> id == node.id || Registered(nodes, id)
    ensures Registered(Saved(nodes, node), id) ==>
              Lookup(Saved(nodes, node), id) == if id == node.id then node else Lookup(nodes, id)
  {
    var nodes' := Saved(nodes, node);
    var i, i' := Position(nodes, id), Position(nodes', id);
    var k := Position(nodes, node.id);
    if k < |nodes| {
      assert nodes'[k] == node;
    } else {
      assert nodes'[|nodes|] == node;
    }
    if i < |nodes| { assert nodes'[i].id == id; }
    assert i <= i' || i' == k;
  }

  /** A registry where every node has only ever succeeded. */
  ghost predicate NeverFailed(node: Node)
  {
    node.uptime == 1.0 && node.status == Active && node.successes == node.total
    && node.weight == 1.0 && node.reputation == 1.0
  }

  lemma SuccessKeepsFullWeight(node: Node)
    requires NeverFailed(node)
    ensures NeverFailed(Worked(node, true))
  {
  }

  /** What every node keeps, failures included: its weight is its success rate. */
  ghost predicate WellWeighted(node: Node)
  {
    node.uptime == 1.0 && node.status == Active && node.successes <= node.total
    && 0.0 <= node.weight <= 1.0 && node.weight == node.reputation
    && node.weight * node.total as real == node.successes as real && (node.total == 0 ==> node.weight == 1.0)
  }

  lemma WorkKeepsWeightBounds(node: Node, success: bool)
    requires WellWeighted(node)
    ensures WellWeighted(Worked(node, success))
  {
    var node' := Worked(node, success);
    var s, t := node'.successes as real, node'.total as real;
    assert 0.0 <= s <= t && 0.0 < t;
    assert s / t <= 1.0;
  }

  class NodesService {
    const chain: NodeChainService
    var nodes: seq<Node>

    constructor (chain: NodeChainService)
      ensures this.chain == chain && nodes == []
    {
      this.chain := chain;
      nodes := [];
    }

    method Register(id: string, kind: string) returns (saved: Node)
      modifies this, chain, chain.clock
      ensures saved == Fresh(id, kind)
      ensures nodes == Saved(old(nodes), Fresh(id, kind))
      ensures chain.View() == Log(chain.env, old(chain.View()), NodeRegistered, AdmissionRecord(Fresh(id, kind)))
    {
      saved := Fresh(id, kind);
      nodes := Saved(nodes, saved);
      var _ := chain.Append(NodeRegistered, AdmissionRecord(saved));
    }

    method RecordExecution(id: string, success: bool) returns (saved: Option<Node>)
      modifies this
      ensures saved == if Registered(old(nodes), id) then Some(Worked(Lookup(old(nodes), id), success)) else None
      ensures nodes == if Registered(old(nodes), id) then Employed(old(nodes), id, success) else old(nodes)
    {
      if !Registered(nodes, id) {
        return None;
      }
      var node := Lookup(nodes, id);
      node := node.(total := node.total + 1);
      if success {
        node := node.(successes := node.successes + 1);
      }
      node := node.(reputation := Reputation(node.successes, node.total, node.uptime));
      node := node.(weight := node.reputation * node.uptime);
      assert node == Worked(Lookup(nodes, id), success);
      nodes := Saved(nodes, node);
      return Some(node);
    }

    method CurrentWeight(id: string) returns (weight: Option<real>)
      ensures weight == if Registered(nodes, id) then Some(Lookup(nodes, id).weight) else None
    {
      weight := if Registered(nodes, id) then Some(Lookup(nodes, id).weight) else None;
    }

    /** A receipt on NodeChain only: the node row is untouched. */
    method ReceivePayment(id: string, amount: real) returns (found: bool)
      modifies chain, chain.clock
      ensures found <==> Registered(nodes, id)
      ensures chain.View() ==
                if found then Log(chain.env, old(chain.View()), NodePaymentReceived,
                                  PaymentRecord(id, amount, Lookup(nodes, id).weight))
                else old(chain.View())
    {
      if !Registered(nodes, id) {
        return false;
      }
      var node := Lookup(nodes, id);
      var _ := chain.Append(NodePaymentReceived, PaymentRecord(node.id, amount, node.weight));
      return true;
    }
  }
}
