/** The fault queue of ErrorHandling.cpp: a singly linked list of `Error_t`
    nodes behind a head sentinel `queue`, with the tail pointer `working` and
    the 16-bit counter `errorCount`. */
module ErrorHandling {
  import opened ErrorTypes

  /** `errorCount` is a `uint16_t`: increments wrap modulo this. */
  const COUNT_MODULUS := 0x1_0000

  function Reversed<T>(s: seq<T>): (r: seq<T>)
    ensures |r| == |s|
    ensures forall k :: 0 <= k < |s| ==> r[k] == s[|s| - 1 - k]
  {
    if s == [] then [] else Reversed(s[1..]) + [s[0]]
  }

  predicate Distinct<T(==)>(s: seq<T>)
  {
    forall i, j :: 0 <= i < j < |s| ==> s[i] != s[j]
  }

  /** The three globals `queue`, `working` and `errorCount`, with a ghost view:
      `nodes` are the nodes after the head in list order, `Contents` their records. */
  class ErrorQueue {
    var queue: Node?
    var working: Node?
    var errorCount: int
    ghost var nodes: seq<Node>
    ghost var Contents: seq<Record>
    ghost var Repr: set<Node>

    ghost predicate Valid()
      reads this, Repr
    {
      && queue != null && working != null
      && Repr == {queue} + (set n | n in nodes)
      && queue !in nodes
      && Distinct(nodes)
      && |Contents| == |nodes|
      && queue.next == (if nodes == [] then null else nodes[0])
      && (forall i :: 0 <= i < |nodes| ==>
            nodes[i].next == (if i + 1 < |nodes| then nodes[i + 1] else null))
      && (forall i :: 0 <= i < |nodes| ==> nodes[i].Value() == Contents[i])
      && working == (if nodes == [] then queue else nodes[|nodes| - 1])
      && 0 <= errorCount < COUNT_MODULUS
      && errorCount == |nodes| % COUNT_MODULUS
    }

    /** Every node of the list, head sentinel first. */
    ghost function Chain(): (c: seq<Node>)
      reads this
      requires queue != null
    {
      [queue] + nodes
    }

    /** The globals before SetupQueue: zero-initialised. */
    constructor ()
      ensures queue == null && working == null && errorCount == 0
      ensures nodes == [] && Contents == [] && Repr == {}
    {
      queue, working, errorCount := null, null, 0;
      nodes, Contents, Repr := [], [], {};
    }

    /** SetupQueue: allocate the head; `allocOk` is whether `malloc` succeeded.
        On failure the source blinks the LED forever; here it reports `halted`. */
    method SetupQueue(allocOk: bool) returns (halted: bool)
      modifies this
      ensures halted <==> !allocOk
      ensures halted ==> queue == null
      ensures !halted ==> Valid() && fresh(Repr)
      ensures !halted ==> queue.next == null && working == queue && errorCount == 0
      ensures !halted ==> Contents == []
    {
      if !allocOk {
        queue := null;
        return true;
      }
      queue := new Node(NONE, 0, 0, 0, null);
      halted := false;
      queue.next := null;
      working := queue;
      errorCount := 0;
      nodes, Contents, Repr := [], [], {queue};
    }

    /** EnqueueError: copy `toPush` into a new tail node, or do nothing when
        `allocOk` says that `malloc` failed. Only the old tail's `next` is written. */
    method EnqueueError(toPush: Node, allocOk: bool)
      requires Valid()
      requires toPush.next == null
      modifies this, working`next
      ensures Valid() && fresh(Repr - old(Repr)) && queue == old(queue)
      ensures allocOk ==> nodes == old(nodes) + [working]
      ensures allocOk ==> Contents == old(Contents) + [old(toPush.Value())]
      ensures allocOk ==> errorCount == (old(errorCount) + 1) % COUNT_MODULUS
      ensures allocOk ==> fresh(working) && working != toPush && old(working).next == working
      ensures allocOk ==> Repr == old(Repr) + {working}
      ensures !allocOk ==> unchanged(this) && unchanged(old(working))
    {
      if !allocOk {
        return;
      }
      var newErr := new Node.Copy(toPush);
      ghost var oldNodes, oldContents, last := nodes, Contents, |nodes|;
      working.next := newErr;
      working := newErr;
      CountStep(|nodes|);
      errorCount := (errorCount + 1) % COUNT_MODULUS;
      nodes, Contents, Repr := nodes + [newErr], Contents + [newErr.Value()], Repr + {newErr};
      assert Distinct(nodes) by {
        assert forall i :: 0 <= i < last ==> nodes[i] == oldNodes[i] && nodes[i] != newErr;
      }
      forall i | 0 <= i < |nodes| ensures nodes[i].Value() == Contents[i] {
        if i < last {
          assert nodes[i] == oldNodes[i] && Contents[i] == oldContents[i];
        }
      }
      forall i | 0 <= i < |nodes| ensures nodes[i].next == (if i + 1 < |nodes| then nodes[i + 1] else null) {
        if i < last {
          assert nodes[i] == oldNodes[i];
        }
      }
    }

    /** FreeQueue: release every node, head included. Returns the release order. */
    method FreeQueue() returns (freed: seq<Node>)
      requires Valid()
      ensures freed == Reversed(Chain())
      ensures |freed| == |nodes| + 1 && Distinct(freed) && (set n | n in freed) == Repr
      ensures freed[0] == working && freed[|freed| - 1] == queue
    {
      freed := FreeQueueRecursive(queue, 0);
      ghost var chain := Chain();
      assert chain[0..] == chain;
      assert Distinct(chain) by {
        forall i, j | 0 <= i < j < |chain| ensures chain[i] != chain[j] {
          if i > 0 {
            assert chain[i] == nodes[i - 1];
          }
          assert chain[j] == nodes[j - 1];
        }
      }
      ReversedFacts(chain);
      assert (set n | n in chain) == Repr by {
        assert forall n :: n in chain <==> n == queue || n in nodes;
      }
    }

    /** FreeQueueRecursive: release the chain from `node` (the i-th node, head
        being 0) onwards, the rest of the chain before `node` itself. */
    method FreeQueueRecursive(node: Node, ghost i: nat) returns (freed: seq<Node>)
      requires Valid()
      requires i <= |nodes| && node == Chain()[i]
      ensures freed == Reversed(Chain()[i..])
      decreases |nodes| - i
    {
      freed := [];
      if i == 0 {
        assert node == queue;
      } else {
        assert node == nodes[i - 1];
      }
      assert node.next == if i < |nodes| then nodes[i] else null;
      if node.next != null {
        assert node.next == Chain()[i + 1];
        freed := FreeQueueRecursive(node.next, i + 1);
      }
      freed := freed + [node];
      assert Chain()[i..] == [node] + Chain()[i + 1..];
    }
  }

  /** Counting one more node modulo 2^16 is one more wrapped increment. */
  lemma CountStep(n: nat)
    ensures (n % COUNT_MODULUS + 1) % COUNT_MODULUS == (n + 1) % COUNT_MODULUS
  {
  }

  /** Reversing a list of distinct elements keeps them distinct and keeps the
      same elements, and swaps its ends. */
  lemma ReversedFacts<T>(s: seq<T>)
    requires Distinct(s) && |s| > 0
    ensures Distinct(Reversed(s))
    ensures (set x | x in Reversed(s)) == (set x | x in s)
    ensures Reversed(s)[0] == s[|s| - 1] && Reversed(s)[|s| - 1] == s[0]
  {
    var r := Reversed(s);
    forall i, j | 0 <= i < j < |r| ensures r[i] != r[j] {
      assert r[i] == s[|s| - 1 - i] && r[j] == s[|s| - 1 - j];
    }
    forall x | x in s ensures x in r {
      var k :| 0 <= k < |s| && s[k] == x;
      assert r[|s| - 1 - k] == x;
    }
    forall x | x in r ensures x in s {
      var k :| 0 <= k < |r| && r[k] == x;
      assert s[|s| - 1 - k] == x;
    }
  }
}
