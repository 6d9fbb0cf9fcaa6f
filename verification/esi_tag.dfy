/** `ESITag` and its list operations.  The tags a response has opened form one list linked
    through `next`, starting at the context's root tag; closing a tag frees it together with
    every tag after it. */
module EsiTag {

  /** `esi_tag_t`. */
  datatype TagType = Try | Attempt | Except | Include | Invalidate | Vars | Remove | NoType

  /** The element name of each ESI tag type; `ESI_NONE` has none. */
  function TagName(t: TagType): string {
    match t
    case Try => "esi:try"
    case Attempt => "esi:attempt"
    case Except => "esi:except"
    case Include => "esi:include"
    case Invalidate => "esi:invalidate"
    case Vars => "esi:vars"
    case Remove => "esi:remove"
    case NoType => ""
  }

  /** One `ESITag`.  `esi_tag_new` sets a `chain` pointer that the struct in `ngx_esi_tag.h`
      does not declare, and never sets the struct's `ctx`; the code modelled here reads neither,
      and neither is part of the model. */
  class ESITag {
    const kind: TagType
    var depth: int
    var next: ESITag?

    /** `esi_tag_new`: a tag of the given type at depth 0 with no tag after it. */
    constructor New(kind: TagType)
      ensures this.kind == kind && depth == 0 && next == null
    {
      this.kind := kind;
      depth := 0;
      next := null;
    }
  }

  /** The list starting at `head` consists of `nodes`, in order: each node's `next` is the node
      after it (so only the last one's is null), and no node appears twice.  A null head is the
      empty list. */
  ghost predicate List(head: ESITag?, nodes: seq<ESITag>)
    reads (set n | n in nodes)`next
  {
    && (head == null <==> nodes == [])
    && (nodes != [] ==> nodes[0] == head && nodes[|nodes| - 1].next == null)
    && (forall i, k :: 0 <= i && k == i + 1 && k < |nodes| ==> nodes[i].next == nodes[k])
    && (forall i :: 0 <= i < |nodes| - 1 ==> nodes[i].next != null)
    && (forall i, j :: 0 <= i < j < |nodes| ==> nodes[i] != nodes[j])
  }

  /** The types of the tags of a list, in order. */
  ghost function Kinds(nodes: seq<ESITag>): (ks: seq<TagType>)
    ensures |ks| == |nodes| && forall i :: 0 <= i < |nodes| ==> ks[i] == nodes[i].kind
  {
    if nodes == [] then [] else [nodes[0].kind] + Kinds(nodes[1..])
  }

  /** The types of the first `j` tags are the first `j` types. */
  lemma KindsPrefix(nodes: seq<ESITag>, j: int)
    requires 0 <= j <= |nodes|
    ensures Kinds(nodes[..j]) == Kinds(nodes)[..j]
  {
  }

  /** Every tail of a list is the list starting at its first node. */
  lemma ListTail(nodes: seq<ESITag>, i: int)
    requires nodes != [] && List(nodes[0], nodes) && 0 <= i < |nodes|
    ensures List(nodes[i], nodes[i..])
  {
    var tail := nodes[i..];
    assert forall m :: 0 <= m < |tail| - 1 ==> tail[m].next == nodes[i + m + 1];
    assert forall m, j :: 0 <= m < j < |tail| ==> tail[m] == nodes[i + m] && tail[j] == nodes[i + j];
  }

  /** The position of the first type `k` at or after `from`, or the length when there is none. */
  function Find(kinds: seq<TagType>, k: TagType, from: nat): (j: nat)
    requires from <= |kinds|
    ensures from <= j <= |kinds|
    ensures j < |kinds| ==> kinds[j] == k
    ensures forall i :: from <= i < j ==> kinds[i] != k
    decreases |kinds| - from
  {
    if from == |kinds| || kinds[from] == k then from else Find(kinds, k, from + 1)
  }

  /** `esi_tag_debug`: the line it prints for a tag, or for a null pointer. */
  function Debug(tag: ESITag?): (line: string)
    reads tag
    ensures tag == null <==> line == "tag:(NULL)\n"
    ensures tag != null && tag.kind != NoType ==> line == TagName(tag.kind) + "\n"
    ensures tag != null && tag.kind == NoType ==> line == "unknown esi type\n"
  {
    if tag == null then "tag:(NULL)\n"
    else
      match tag.kind
      case Try => "esi:try\n"
      case Attempt => "esi:attempt\n"
      case Except => "esi:except\n"
      case Include => "esi:include\n"
      case Invalidate => "esi:invalidate\n"
      case Vars => "esi:vars\n"
      case Remove => "esi:remove\n"
      case NoType => "unknown esi type\n"
  }

  /** `esi_tag_free`: the tags after `tag` are freed one after the other, then `tag` itself.
      The result is the order in which they are released. */
  method Free(tag: ESITag, ghost nodes: seq<ESITag>) returns (freed: seq<ESITag>)
    requires List(tag, nodes)
    ensures freed == nodes[1..] + [tag]
  {
    freed := [];
    var next := tag.next;
    ghost var i := 1;
    while next != null
      invariant 1 <= i <= |nodes| && freed == nodes[1..i]
      invariant next == (if i < |nodes| then nodes[i] else null)
      decreases |nodes| - i
    {
      var n := next.next;
      freed := freed + [next];
      next := n;
      i := i + 1;
    }
    freed := freed + [tag];
  }

  /** `esi_tag_close`: the tag's debug line is printed after `close tag: `, then the tag and
      every tag after it are freed. */
  method Close(tag: ESITag, ghost nodes: seq<ESITag>) returns (line: string, freed: seq<ESITag>)
    requires List(tag, nodes)
    ensures tag.kind != NoType ==> line == "close tag: " + TagName(tag.kind) + "\n"
    ensures tag.kind == NoType ==> line == "close tag: unknown esi type\n"
    ensures freed == nodes[1..] + [tag]
  {
    line := "close tag: " + Debug(tag);
    freed := Free(tag, nodes);
  }

  /** The search loop of `esi_tag_close_children`: starting after `tag`, it stops at the first
      tag of the given type or at the end of the list, with `prev` the tag before that point. */
  method SeekChild(tag: ESITag, kind: TagType, ghost nodes: seq<ESITag>) returns (prev: ESITag, next: ESITag?, ghost i: nat)
    requires List(tag, nodes)
    ensures i == Find(Kinds(nodes), kind, 1)
    ensures 1 <= i <= |nodes| && prev == nodes[i - 1] && next == (if i < |nodes| then nodes[i] else null)
  {
    ghost var kinds := Kinds(nodes);
    prev := tag;
    next := tag.next;
    i := 1;
    while next != null && next.kind != kind
      invariant 1 <= i <= |nodes| && prev == nodes[i - 1]
      invariant next == (if i < |nodes| then nodes[i] else null)
      invariant Find(kinds, kind, 1) == Find(kinds, kind, i)
      decreases |nodes| - i
    {
      prev := next;
      next := next.next;
      i := i + 1;
    }
  }

  /** `prev->next = NULL`: the list ends at `prev`, the node at position `i - 1`. */
  method Cut(prev: ESITag, ghost nodes: seq<ESITag>, ghost i: int)
    requires nodes != [] && List(nodes[0], nodes) && 1 <= i < |nodes| && prev == nodes[i - 1]
    modifies prev`next
    ensures List(nodes[0], nodes[..i])
  {
    prev.next := null;
  }

  /** `last->next = tag` on the last node of a list: the list grows by `tag`. */
  method Link(last: ESITag, tag: ESITag, ghost nodes: seq<ESITag>)
    requires nodes != [] && List(nodes[0], nodes) && last == nodes[|nodes| - 1]
    requires tag !in nodes && tag.next == null
    modifies last`next
    ensures List(nodes[0], nodes + [tag])
  {
    last.next := tag;
  }

  /** `esi_tag_close_children(tag, type)`: the tags after `tag` are searched for the first one of
      the given type.  When there is one, it is closed, which frees it and every tag after it, and
      the list is cut before it.  When there is none, nothing changes.  `tag` itself is never
      examined. */
  method CloseChildren(tag: ESITag, kind: TagType, ghost nodes: seq<ESITag>) returns (freed: seq<ESITag>, ghost j: nat)
    requires List(tag, nodes)
    modifies (set n | n in nodes)`next
    ensures j == Find(Kinds(nodes), kind, 1)
    ensures List(tag, nodes[..j]) && Kinds(nodes[..j]) == Kinds(nodes)[..j]
    ensures freed == (if j < |nodes| then nodes[j + 1..] + [nodes[j]] else [])
  {
    var prev, next;
    prev, next, j := SeekChild(tag, kind, nodes);
    KindsPrefix(nodes, j);
    if next == null {
      assert nodes[..j] == nodes;
      return [], j;
    }
    ListTail(nodes, j);
    ListTail(nodes, j - 1);
    var line;
    line, freed := Close(next, nodes[j..]);
    assert nodes[j..][1..] == nodes[j + 1..];
    Cut(prev, nodes, j);
  }
}
