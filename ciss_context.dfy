/** The application context of `lib/cissUsbSensor.py` (`AppCissContext`):
    the table of configured CISS nodes. */
module CissContext {
  import opened Values

  /** The node registration of `init_context` over the configured node
      list: a node without `id`, or with an `id` already registered, stops
      it with `False`, keeping what was registered before. */
  function RegisterNodes(ciss: map<Value, Record>, nodes: seq<Record>): (r: (map<Value, Record>, bool))
    ensures ciss.Keys <= r.0.Keys
    ensures forall k :: k in ciss ==> r.0[k] == ciss[k]
    decreases |nodes|
  {
    if nodes == [] then (ciss, true)
    else if "id" !in nodes[0] then (ciss, false)
    else if nodes[0]["id"] in ciss then (ciss, false)
    else RegisterNodes(ciss[nodes[0]["id"] := nodes[0]], nodes[1..])
  }

  /** The ids of a node list whose nodes all have one. */
  function Ids(nodes: seq<Record>): (ids: set<Value>)
    requires forall i :: 0 <= i < |nodes| ==> "id" in nodes[i]
    ensures forall i :: 0 <= i < |nodes| ==> nodes[i]["id"] in ids
    ensures forall x :: x in ids ==> exists i :: 0 <= i < |nodes| && nodes[i]["id"] == x
    decreases |nodes|
  {
    if nodes == [] then {} else {nodes[0]["id"]} + Ids(nodes[1..])
  }

  /** Every node has an `id`, the ids are pairwise distinct, and none is
      registered already. */
  predicate NodesAcceptable(ciss: map<Value, Record>, nodes: seq<Record>)
  {
    && (forall i :: 0 <= i < |nodes| ==> "id" in nodes[i])
    && (forall i :: 0 <= i < |nodes| ==> nodes[i]["id"] !in ciss)
    && (forall i, j :: 0 <= i < j < |nodes| ==> nodes[i]["id"] != nodes[j]["id"])
  }

  /** A node list is acceptable exactly when its first node has an id not
      registered yet and the rest is acceptable once that node is. */
  lemma NodesAcceptableCons(ciss: map<Value, Record>, nodes: seq<Record>)
    requires nodes != [] && "id" in nodes[0] && nodes[0]["id"] !in ciss
    ensures NodesAcceptable(ciss, nodes) <==> NodesAcceptable(ciss[nodes[0]["id"] := nodes[0]], nodes[1..])
  {
    var c', rest := ciss[nodes[0]["id"] := nodes[0]], nodes[1..];
    assert forall i :: 1 <= i < |nodes| ==> nodes[i] == rest[i - 1];
    if NodesAcceptable(c', rest) {
      forall i, j | 0 <= i < j < |nodes|
        ensures nodes[i]["id"] != nodes[j]["id"]
      {
        if i > 0 {
          assert rest[i - 1]["id"] != rest[j - 1]["id"];
        } else {
          assert rest[j - 1]["id"] !in c';
        }
      }
    }
  }

  /** Registration succeeds exactly for an acceptable node list. */
  lemma {:induction false} RegisterNodesIff(ciss: map<Value, Record>, nodes: seq<Record>)
    ensures RegisterNodes(ciss, nodes).1 <==> NodesAcceptable(ciss, nodes)
    decreases |nodes|
  {
    if nodes != [] && "id" in nodes[0] && nodes[0]["id"] !in ciss {
      NodesAcceptableCons(ciss, nodes);
      RegisterNodesIff(ciss[nodes[0]["id"] := nodes[0]], nodes[1..]);
    }
  }

  /** A successful registration registers every node under its id and
      nothing else. */
  lemma {:induction false} RegisterNodesContents(ciss: map<Value, Record>, nodes: seq<Record>)
    requires NodesAcceptable(ciss, nodes)
    ensures RegisterNodes(ciss, nodes).0.Keys == ciss.Keys + Ids(nodes)
    ensures forall i :: 0 <= i < |nodes| ==> RegisterNodes(ciss, nodes).0[nodes[i]["id"]] == nodes[i]
    decreases |nodes|
  {
    if nodes != [] {
      var n0 := nodes[0];
      var c', rest := ciss[n0["id"] := n0], nodes[1..];
      NodesAcceptableCons(ciss, nodes);
      RegisterNodesContents(c', rest);
      var r := RegisterNodes(c', rest).0;
      assert RegisterNodes(ciss, nodes).0 == r;
      assert Ids(nodes) == {n0["id"]} + Ids(rest);
      assert r.Keys == ciss.Keys + Ids(nodes) by {
        assert c'.Keys == ciss.Keys + {n0["id"]};
      }
      forall i | 0 <= i < |nodes|
        ensures r[nodes[i]["id"]] == nodes[i]
      {
        if i > 0 {
          assert nodes[i] == rest[i - 1];
        }
      }
    }
  }

  /** The node table of the application context. */
  class AppCissContext {
    /** `_ciss`: the configuration of every registered node, by id. */
    var ciss: map<Value, Record>

    constructor ()
      ensures ciss == map[]
    {
      ciss := map[];
    }

    /** `init_context()` on the loaded configuration: `None` stands for a
        configuration without `ciss_nodes`. */
    method InitContext(cissNodes: Option<seq<Record>>) returns (r: bool)
      modifies this
      ensures cissNodes.None? ==> !r && ciss == old(ciss)
      ensures cissNodes.Some? ==> (ciss, r) == RegisterNodes(old(ciss), cissNodes.value)
    {
      if cissNodes.None? {
        return false;
      }
      var nodes := cissNodes.value;
      var i := 0;
      while i < |nodes|
        invariant 0 <= i <= |nodes|
        invariant RegisterNodes(ciss, nodes[i..]) == RegisterNodes(old(ciss), nodes)
      {
        var node := nodes[i];
        assert nodes[i..][0] == node && nodes[i..][1..] == nodes[i + 1..];
        if "id" !in node {
          return false;
        }
        if node["id"] in ciss {
          return false;
        }
        ciss := ciss[node["id"] := node];
        i := i + 1;
      }
      r := true;
    }
  }
}
