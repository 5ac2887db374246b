/** Choice of the root nodes that get a certification request. */
module RootSelection {
  import opened Types

  /** The position i places after an index, going round. */
  function Position(n: nat, index: nat, i: nat): (k: nat)
    requires index < n && i <= n
    ensures k < n
  {
    if index + i < n then index + i else index + i - n
  }

  function Cyclic(nodes: seq<PeerID>, index: nat, count: nat): (chosen: seq<PeerID>)
    requires index < |nodes| && count <= |nodes|
    ensures |chosen| == count
  {
    seq(count, i requires 0 <= i < count => nodes[Position(|nodes|, index, i)])
  }

  /** The loop: takes nodes from the index on until there are enough or it is back at the index. */
  method Pick(nodes: seq<PeerID>, index: nat, upTo: int) returns (chosen: seq<PeerID>)
    requires index < |nodes| && upTo < |nodes| && upTo != 0
    ensures chosen == Cyclic(nodes, index, if upTo < 0 then |nodes| else upTo)
  {
    chosen := [];
    var idx := index;
    while true
      invariant |chosen| < |nodes| && (upTo > 0 ==> |chosen| < upTo)
      invariant idx == Position(|nodes|, index, |chosen|)
      invariant chosen == Cyclic(nodes, index, |chosen|)
      decreases |nodes| - |chosen|
    {
      chosen := chosen + [nodes[idx]];
      idx := idx + 1;
      if idx >= |nodes| {
        idx := 0;
      }
      if idx == index || |chosen| == upTo {
        break;
      }
    }
  }

  /** The hash is the certificate's, as a number; None when hashing fails. */
  method SelectRootNodes(luc: Option<Certificate>, hash: Option<nat>, nodes: seq<PeerID>, upTo: int) returns (chosen: Option<seq<PeerID>>)
    ensures chosen.None? <==> luc.None? || nodes == [] || upTo == 0 || (upTo < |nodes| && hash.None?)
    ensures chosen.Some? && upTo >= |nodes| ==> chosen.value == nodes
    ensures chosen.Some? && upTo < |nodes| ==>
              && |chosen.value| == (if upTo < 0 then |nodes| else upTo)
              && var start := hash.value % |nodes|;
                 forall i :: 0 <= i < |chosen.value| ==> chosen.value[i] == nodes[if start + i < |nodes| then start + i else start + i - |nodes|]
  {
    if luc.None? || nodes == [] || upTo == 0 {
      return None;
    }
    if upTo >= |nodes| {
      return Some(nodes);
    }
    if hash.None? {
      return None;
    }
    var picked := Pick(nodes, hash.value % |nodes|, upTo);
    chosen := Some(picked);
  }

  /** No position, and so no node of a list without duplicates, is chosen twice. */
  lemma NoNodeTwice(nodes: seq<PeerID>, index: nat, count: nat, i: nat, j: nat)
    requires index < |nodes| && count <= |nodes| && i < j < count
    requires forall a, b :: 0 <= a < b < |nodes| ==> nodes[a] != nodes[b]
    ensures Position(|nodes|, index, i) != Position(|nodes|, index, j)
    ensures Cyclic(nodes, index, count)[i] != Cyclic(nodes, index, count)[j]
  {
    var a, b := Position(|nodes|, index, i), Position(|nodes|, index, j);
    assert if a < b then nodes[a] != nodes[b] else nodes[b] != nodes[a];
  }
}
