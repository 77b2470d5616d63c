/** The write buffer lists of a socket: nodes linked through `next`, with a head and a tail. */
module WriteBuffers {
  import opened Basics
  import opened SocketSlot

  class Node {
    var pkg: Package
    var offset: nat
    var next: Node?
    ghost var owner: object?   // the list that holds the node
    ghost var place: int       // its place in that list, which makes list nodes distinct

    constructor (p: Package, n: nat)
      ensures pkg == p && offset == n && next == null && owner == null
    {
      pkg, offset, next := p, n, null;
      owner, place := null, 0;
    }
  }

  /** A list whose head has moved on by n bytes. */
  function Advanced(bufs: seq<WriteBuffer>, n: nat): seq<WriteBuffer>
    requires bufs != []
  {
    [WriteBuffer(bufs[0].pkg, bufs[0].offset + n)] + bufs[1..]
  }

  class BufferList {
    var head: Node?
    var tail: Node?
    ghost var nodes: seq<Node>
    ghost var bufs: seq<WriteBuffer>   // what the nodes hold
    ghost var base: int

    constructor ()
      ensures Valid() && bufs == [] && nodes == []
    {
      head, tail := null, null;
      nodes, bufs, base := [], [], 0;
    }

    ghost predicate Valid()
      reads this, nodes
    {
      && |nodes| == |bufs|
      && (forall i :: 0 <= i < |nodes| ==> nodes[i].owner == this && nodes[i].place == base + i)
      && (forall i :: 0 <= i < |nodes| ==> nodes[i].pkg == bufs[i].pkg && nodes[i].offset == bufs[i].offset)
      && (forall i :: 0 <= i < |nodes| - 1 ==> nodes[i].next == nodes[i + 1])
      && if nodes == [] then head == null && tail == null
         else head == nodes[0] && tail == nodes[|nodes| - 1] && tail.next == null
    }

    /** Behind the tail. */
    method LinkLast(n: Node)
      requires Valid() && n.owner == null && n.next == null
      modifies this, nodes, n
      ensures Valid() && nodes == old(nodes) + [n] && bufs == old(bufs) + [WriteBuffer(old(n.pkg), old(n.offset))]
    {
      if head == null {
        head, tail := n, n;
      } else {
        tail.next := n;
        tail := n;
      }
      n.owner, n.place := this, base + |nodes|;
      nodes, bufs := nodes + [n], bufs + [WriteBuffer(n.pkg, n.offset)];
    }

    /** In front of the head. */
    method LinkFirst(n: Node)
      requires Valid() && n.owner == null
      modifies this, n
      ensures Valid() && nodes == [n] + old(nodes) && bufs == [WriteBuffer(old(n.pkg), old(n.offset))] + old(bufs)
    {
      if head == null {
        head, tail := n, n;
        n.next := null;
      } else {
        n.next := head;
        head := n;
      }
      base := base - 1;
      n.owner, n.place := this, base;
      nodes, bufs := [n] + nodes, [WriteBuffer(n.pkg, n.offset)] + bufs;
    }

    /** Unlinks the head. */
    method UnlinkFirst() returns (n: Node)
      requires Valid() && bufs != []
      modifies this, nodes
      ensures Valid() && nodes == old(nodes)[1..] && bufs == old(bufs)[1..]
      ensures n == old(nodes)[0] && n.owner == null && n.next == null
      ensures n.pkg == old(bufs)[0].pkg && n.offset == old(bufs)[0].offset
    {
      n := head;
      head := n.next;
      if head == null { tail := null; }
      n.next := null;
      n.owner := null;
      nodes, bufs, base := nodes[1..], bufs[1..], base + 1;
    }

    method MoveOn(sz: nat)
      requires Valid() && bufs != []
      modifies this, head
      ensures Valid() && nodes == old(nodes) && bufs == Advanced(old(bufs), sz)
    {
      head.offset := head.offset + sz;
      bufs := [WriteBuffer(head.pkg, head.offset)] + bufs[1..];
    }

    // The same, and what happens to the other list of the socket: nothing.

    method Append(n: Node, ghost other: BufferList)
      requires Valid() && n.owner == null && n.next == null && other.Valid() && other != this
      modifies this, nodes, n
      ensures Valid() && nodes == old(nodes) + [n] && bufs == old(bufs) + [WriteBuffer(old(n.pkg), old(n.offset))]
      ensures Kept(other, old(other.bufs), old(other.nodes))
    {
      ListsApart(this, other);
      LinkLast(n);
    }

    method Prepend(n: Node, ghost other: BufferList)
      requires Valid() && n.owner == null && other.Valid() && other != this
      modifies this, n
      ensures Valid() && nodes == [n] + old(nodes) && bufs == [WriteBuffer(old(n.pkg), old(n.offset))] + old(bufs)
      ensures Kept(other, old(other.bufs), old(other.nodes))
    {
      LinkFirst(n);
    }

    method TakeHead(ghost other: BufferList) returns (n: Node)
      requires Valid() && bufs != [] && other.Valid() && other != this
      modifies this, nodes
      ensures Valid() && nodes == old(nodes)[1..] && bufs == old(bufs)[1..]
      ensures n == old(nodes)[0] && n.owner == null && n.next == null
      ensures n.pkg == old(bufs)[0].pkg && n.offset == old(bufs)[0].offset
      ensures Kept(other, old(other.bufs), old(other.nodes))
    {
      ListsApart(this, other);
      n := UnlinkFirst();
    }

    /** The kernel takes part of the head. */
    method Advance(sz: nat, ghost other: BufferList)
      requires Valid() && bufs != [] && other.Valid() && other != this
      modifies this, nodes
      ensures Valid() && nodes == old(nodes) && bufs == Advanced(old(bufs), sz)
      ensures Kept(other, old(other.bufs), old(other.nodes))
    {
      hide Advanced;
      ListsApart(this, other);
      MoveOn(sz);
    }

    /** FreeWriteBufferList */
    method Free()
      requires Valid()
      modifies this
      ensures Valid() && bufs == [] && nodes == []
    {
      var cursor := head;
      ghost var k := 0;
      while cursor != null
        invariant k <= |nodes| && cursor == if k < |nodes| then nodes[k] else null
        decreases |nodes| - k
      {
        cursor := cursor.next;
        k := k + 1;
      }
      head, tail := null, null;
      nodes, bufs := [], [];
    }
  }

  ghost predicate Kept(list: BufferList, bufs: seq<WriteBuffer>, nodes: seq<Node>)
    reads list, list.nodes
  {
    list.Valid() && list.bufs == bufs && list.nodes == nodes
  }

  /** What the head tells of a list. */
  lemma HeadTells(list: BufferList)
    requires list.Valid()
    ensures |list.nodes| == |list.bufs|
    ensures list.head == null <==> list.bufs == []
    ensures list.bufs != [] ==> list.head.pkg == list.bufs[0].pkg && list.head.offset == list.bufs[0].offset
  {
  }

  /** Nodes know their list, so two lists have none in common. */
  lemma ListsApart(a: BufferList, b: BufferList)
    requires a.Valid() && b.Valid() && a != b
    ensures forall n :: n in a.nodes ==> n !in b.nodes
  {
  }
}
