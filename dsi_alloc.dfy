/**
 * The allocation-tracking list of `dsih_core.c` (`alloc_mem`,
 * `free_all_mem`).
 *
 * A sentinel head node (instance 0) counts the allocations in its `instance`
 * field and their total size in its `size` field; each allocation adds a node
 * whose `prev` points at the previous node, or at the head for the first one,
 * and the head's `last` points at the newest node.  `free_all_mem` pops
 * nodes from `last` back to the head.
 */
module DsiAlloc {

  /** A block handed out to the caller (the payload `kzalloc` returns). */
  class Block {
    const size: nat

    constructor (size: nat)
      ensures this.size == size
    {
      this.size := size;
    }
  }

  /** `struct mem_alloc`. */
  class MemAlloc {
    var instance: int
    var size: nat
    var pointer: Block?
    var last: MemAlloc?
    var prev: MemAlloc?

    constructor (instance: int, size: nat, pointer: Block?, prev: MemAlloc?)
      ensures this.instance == instance && this.size == size && this.pointer == pointer
      ensures this.prev == prev && this.last == null
    {
      this.instance := instance;
      this.size := size;
      this.pointer := pointer;
      this.prev := prev;
      this.last := null;
    }

    /**
     * The linking part of `alloc_mem` on the head: a new node for `block`
     * becomes allocation number `instance + 1`, pointing back at the newest
     * node (or the head), and the total grows by `size`.
     */
    method Append(ghost ns: seq<MemAlloc>, ghost sizes: seq<nat>, ghost blocks: seq<Block>,
                  size: nat, block: Block) returns (n: MemAlloc)
      requires Linked(this, ns, sizes, blocks)
      modifies this
      ensures fresh(n)
      ensures Linked(this, ns + [n], sizes + [size], blocks + [block])
    {
      var prev := if last == null then this else last;
      n := new MemAlloc(instance + 1, size, block, prev);
      instance := instance + 1;
      this.size := this.size + size;
      last := n;
      n.last := n;
      assert Chained(ns, this);
      ChainedAppend(ns, this, n);
      assert (sizes + [size])[..|sizes|] == sizes;
    }

    /**
     * One step of `free_all_mem` on the head: unlink the newest of the
     * `instance` nodes of `ns`, taking one off the count and that node's
     * size off the total.
     */
    method Pop(ghost ns: seq<MemAlloc>, ghost sizes: seq<nat>, ghost blocks: seq<Block>) returns (node: MemAlloc)
      requires this !in ns && 0 < instance <= |ns| && last == ns[instance - 1]
      requires Chained(ns, this) && Records(ns, sizes, blocks)
      requires size == Sum(sizes[..instance])
      modifies this
      ensures node == ns[old(instance) - 1]
      ensures instance == old(instance) - 1 && size == Sum(sizes[..instance])
      ensures instance > 0 ==> last == ns[instance - 1]
    {
      node := last;
      assert sizes[..instance][..instance - 1] == sizes[..instance - 1];
      last := node.prev;
      instance := instance - 1;
      size := size - node.size;
    }

    /**
     * The loop of `free_all_mem`: pop nodes until the count is 0.  The total
     * then is 0 too, and the nodes come off newest first.
     */
    method Drain(ghost ns: seq<MemAlloc>, ghost sizes: seq<nat>, ghost blocks: seq<Block>)
      returns (ghost freed: seq<MemAlloc>)
      requires Linked(this, ns, sizes, blocks)
      modifies this
      ensures instance == 0 && size == 0
      ensures |freed| == |ns|
      ensures forall k :: 0 <= k < |freed| ==> freed[k] == ns[|ns| - 1 - k]
    {
      freed := [];
      assert sizes[..instance] == sizes;
      while instance != 0
        invariant 0 <= instance <= |ns|
        invariant instance > 0 ==> last == ns[instance - 1]
        invariant size == Sum(sizes[..instance])
        invariant |freed| == |ns| - instance
        invariant forall k :: 0 <= k < |freed| ==> freed[k] == ns[|ns| - 1 - k]
        decreases instance
      {
        // Chained and Records keep holding: the loop changes no node of `ns`.
        var node := Pop(ns, sizes, blocks);
        freed := freed + [node];
      }
    }
  }

  /** The sum of `sizes`. */
  function Sum(sizes: seq<nat>): nat
  {
    if sizes == [] then 0 else Sum(sizes[..|sizes| - 1]) + sizes[|sizes| - 1]
  }

  /** Each node's `prev` is the node before it, the first node's is the head. */
  ghost predicate Chained(ns: seq<MemAlloc>, head: MemAlloc)
    reads set n | n in ns
  {
    && (|ns| > 0 ==> ns[0].prev == head)
    && forall i :: 0 < i < |ns| ==> ns[i].prev == ns[i - 1]
  }

  /**
   * Node `i` is allocation number `i + 1` and records the size and the block
   * of the `i`-th allocation.
   */
  ghost predicate Records(ns: seq<MemAlloc>, sizes: seq<nat>, blocks: seq<Block>)
    reads set n | n in ns
  {
    && |ns| == |sizes| == |blocks|
    && forall i :: 0 <= i < |ns| ==>
         ns[i].instance == i + 1 && ns[i].size == sizes[i] && ns[i].pointer == blocks[i]
  }

  /**
   * The head counts the nodes `ns` and totals their sizes, its `last` is
   * the newest node, and the nodes are chained back to the head and record
   * the allocations in order.
   */
  ghost predicate Linked(head: MemAlloc, ns: seq<MemAlloc>, sizes: seq<nat>, blocks: seq<Block>)
    reads head, set n | n in ns
  {
    && head !in ns
    && head.instance == |ns|
    && head.size == Sum(sizes)
    && head.last == (if ns == [] then null else ns[|ns| - 1])
    && Records(ns, sizes, blocks)
    && Chained(ns, head)
  }

  /** A node whose `prev` is the newest node (or the head) extends the chain. */
  lemma ChainedAppend(ns: seq<MemAlloc>, head: MemAlloc, n: MemAlloc)
    requires Chained(ns, head)
    requires n.prev == (if ns == [] then head else ns[|ns| - 1])
    ensures Chained(ns + [n], head)
  {
    var ms := ns + [n];
    forall i | 0 < i < |ms|
      ensures ms[i].prev == ms[i - 1]
    {
      if i < |ns| {
        assert ms[i] == ns[i];
        assert ms[i - 1] == ns[i - 1];
      }
    }
  }

  /** The numbering alone keeps the recorded nodes distinct. */
  lemma RecordsDistinct(ns: seq<MemAlloc>, sizes: seq<nat>, blocks: seq<Block>, i: int, j: int)
    requires Records(ns, sizes, blocks)
    requires 0 <= i < j < |ns|
    ensures ns[i] != ns[j]
  {
  }

  /** The module statics: `alloc_list`, and the blocks not yet freed. */
  class AllocList {
    /** `alloc_list`: the sentinel head, or null before the first allocation. */
    var head: MemAlloc?
    /** The allocation nodes, oldest first, with the size and the block of each. */
    ghost var nodes: seq<MemAlloc>
    ghost var sizes: seq<nat>
    ghost var blocks: seq<Block>
    ghost var Repr: set<object>

    ghost predicate Valid()
      reads this, Repr
    {
      && (head == null ==> nodes == [] && sizes == [] && blocks == [] && Repr == {})
      && (head != null ==>
            && head in Repr
            && (forall i :: 0 <= i < |nodes| ==> nodes[i] in Repr)
            && Linked(head, nodes, sizes, blocks))
    }

    constructor ()
      ensures Valid() && head == null && nodes == []
    {
      head := null;
      nodes, sizes, blocks := [], [], [];
      Repr := {};
    }

    /**
     * `alloc_mem(info, size)`.  `headOk`, `payloadOk` and `nodeOk` say
     * whether the three `kzalloc` calls succeed.  The head is created on the
     * first call and survives a later failure.  On success a new node
     * records the allocation as number `n + 1` after the `n` so far, the
     * head's total grows by `size`, and the new block is returned.  When the
     * payload or the node cannot be allocated the result is null and no
     * allocation is recorded (a failed node allocation frees the payload
     * first).
     */
    method Alloc(size: nat, headOk: bool, payloadOk: bool, nodeOk: bool) returns (p: Block?)
      requires Valid()
      modifies this, Repr
      ensures Valid()
      ensures old(head) != null ==> head == old(head)
      ensures old(head) == null ==> (head != null <==> headOk)
      ensures p != null <==> (old(head) != null || headOk) && payloadOk && nodeOk
      ensures p == null ==> sizes == old(sizes) && blocks == old(blocks)
      ensures p != null ==>
                && fresh(p) && p.size == size
                && sizes == old(sizes) + [size] && blocks == old(blocks) + [p]
    {
      if head == null {
        if !headOk {
          return null;
        }
        head := new MemAlloc(0, 0, null, null);
        Repr := {head};
      }
      if !payloadOk {
        return null;
      }
      var block := new Block(size);
      if !nodeOk {
        // The payload is released again before returning.
        return null;
      }
      Record(block);
      p := block;
    }

    /** The success path of `alloc_mem`: a new node records `block`. */
    method Record(block: Block)
      requires Valid() && head != null
      modifies this, Repr
      ensures Valid() && head == old(head)
      ensures sizes == old(sizes) + [block.size] && blocks == old(blocks) + [block]
    {
      ghost var ns, ss, bs := nodes, sizes, blocks;
      var n := head.Append(ns, ss, bs, block.size, block);
      nodes, sizes, blocks, Repr := ns + [n], ss + [block.size], bs + [block], Repr + {n};
    }

    /**
     * `free_all_mem`.  Pops the nodes newest first, each pop taking one off
     * the head's count and the node's size off its total, until the count
     * is 0; the total is then 0 as well.  Finally the head is freed and the
     * list emptied.  With no list it does nothing.  Returns the total left
     * when the count reached 0 (the value logged) and, as a ghost, the nodes
     * in the order they were freed.
     */
    method FreeAll() returns (endSize: int, ghost freed: seq<MemAlloc>)
      requires Valid()
      modifies this, Repr
      ensures Valid() && head == null && nodes == [] && blocks == []
      ensures endSize == 0
      ensures |freed| == |old(nodes)|
      ensures forall k :: 0 <= k < |freed| ==> freed[k] == old(nodes)[|freed| - 1 - k]
    {
      freed := [];
      if head == null {
        return 0, freed;
      }
      var h := head;
      freed := h.Drain(nodes, sizes, blocks);
      endSize := h.size;
      head := null;
      nodes, sizes, blocks := [], [], [];
      Repr := {};
    }
  }
}
