/**
 * The `Callback` chain of iotvp.cpp: handler objects linked through a
 * non-owning `chain` pointer. An application handler's `run` is user code;
 * here each run is recorded in a `Journal` as (handler, body it was given).
 */
module Callbacks {
  import opened CoreTypes

  /** One execution of a handler's `run`, with the body bytes it saw. */
  datatype Entry = Entry(handler: Callback, body: seq<uint8>)

  /** What the handlers did, in the order they ran. */
  class Journal {
    var entries: seq<Entry>

    constructor ()
      ensures entries == []
    {
      entries := [];
    }
  }

  /**
   * `nodes` is the chain reached from `nodes[0]`: each node's `chain` is the
   * next one, the last one's is null, and no node occurs twice (so the walk
   * terminates).
   */
  ghost predicate IsChain(nodes: seq<Callback>)
    reads nodes
  {
    && |nodes| > 0
    && (forall i :: 0 <= i < |nodes| - 1 ==> nodes[i].chain == nodes[i + 1])
    && nodes[|nodes| - 1].chain == null
    && (forall i, j :: 0 <= i < j < |nodes| ==> nodes[i] != nodes[j])
  }

  /** The tail of a chain is the chain from its second node. */
  lemma ChainTail(nodes: seq<Callback>)
    requires IsChain(nodes) && |nodes| > 1
    ensures IsChain(nodes[1..]) && nodes[1] == nodes[0].chain
  {
    var tail := nodes[1..];
    forall i | 0 <= i < |tail| - 1
      ensures tail[i].chain == tail[i + 1]
    {
      assert tail[i] == nodes[i + 1] && tail[i + 1] == nodes[i + 2];
    }
    forall i, j | 0 <= i < j < |tail|
      ensures tail[i] != tail[j]
    {
      assert tail[i] == nodes[i + 1] && tail[j] == nodes[j + 1];
    }
  }

  /** The runs a walk of `nodes` produces: every node once, in chain order, each on the same body. */
  function Runs(nodes: seq<Callback>, body: seq<uint8>): (r: seq<Entry>)
    ensures |r| == |nodes|
    decreases |nodes|
  {
    if nodes == [] then [] else [Entry(nodes[0], body)] + Runs(nodes[1..], body)
  }

  /** The `i`-th run is node `i` of the walk, on the common body. */
  lemma {:induction false} RunsAt(nodes: seq<Callback>, body: seq<uint8>, i: nat)
    requires i < |nodes|
    ensures Runs(nodes, body)[i] == Entry(nodes[i], body)
    decreases |nodes|
  {
    if i > 0 {
      RunsAt(nodes[1..], body, i - 1);
    }
  }

  class Callback {
    var chain: Callback?

    /** A fresh handler is not linked to any other. */
    constructor ()
      ensures chain == null
    {
      chain := null;
    }

    method SetCallback(callback: Callback?)
      modifies this
      ensures chain == callback
    {
      chain := callback;
    }

    method ClearCallback()
      modifies this
      ensures chain == null
    {
      chain := null;
    }

    /** The application's handler body, abstracted as an entry in the journal. */
    method Run(data: seq<uint8>, log: Journal)
      modifies log
      ensures log.entries == old(log.entries) + [Entry(this, data)]
    {
      log.entries := log.entries + [Entry(this, data)];
    }

    /**
     * `start(data)`: runs this handler, then the rest of the chain, with no
     * short-circuit; `nodes` is the chain from this node.
     */
    method Start(data: seq<uint8>, log: Journal, ghost nodes: seq<Callback>)
      requires IsChain(nodes) && nodes[0] == this
      modifies log
      ensures log.entries == old(log.entries) + Runs(nodes, data)
      decreases |nodes|
    {
      ghost var before := log.entries;
      if |nodes| > 1 {
        ChainTail(nodes);
      }
      Run(data, log);
      if chain != null {
        chain.Start(data, log, nodes[1..]);
        assert log.entries == before + ([Entry(this, data)] + Runs(nodes[1..], data));
      } else {
        assert nodes == [this];
      }
    }
  }

  /** A handler that was never linked runs alone. */
  method StartFresh(data: seq<uint8>) returns (h: Callback, ran: seq<Entry>)
    ensures ran == [Entry(h, data)]
  {
    h := new Callback();
    var log := new Journal();
    h.Start(data, log, [h]);
    ran := log.entries;
  }
}
