/** src/node.rs: the `nodeType` decoder, the `compareDocumentPosition` bit mask, and the fused
    iterator over a `NodeList` (section 4.4 of the WHATWG DOM Standard for the constants). */
module Nodes {
  import opened Macros
  import opened Host

  datatype NodeType =
    | Element | Attribute | Text | CdataSection | EntityReference | EntityNode
    | ProcessingInstruction | Comment | Document | DocumentType | DocumentFragment | Notation

  /** The variants in declaration order. */
  const NodeTypes: seq<NodeType> := [
    Element, Attribute, Text, CdataSection, EntityReference, EntityNode,
    ProcessingInstruction, Comment, Document, DocumentType, DocumentFragment, Notation
  ]

  const ELEMENT_NODE: u16 := 1
  const ATTRIBUTE_NODE: u16 := 2
  const TEXT_NODE: u16 := 3
  const CDATA_SECTION_NODE: u16 := 4
  const ENTITY_REFERENCE_NODE: u16 := 5
  const ENTITY_NODE: u16 := 6
  const PROCESSING_INSTRUCTION_NODE: u16 := 7
  const COMMENT_NODE: u16 := 8
  const DOCUMENT_NODE: u16 := 9
  const DOCUMENT_TYPE_NODE: u16 := 10
  const DOCUMENT_FRAGMENT_NODE: u16 := 11
  const NOTATION_NODE: u16 := 12

  /** The `nodeType` constant of each variant. */
  function Code(t: NodeType): u16 {
    match t
    case Element => ELEMENT_NODE
    case Attribute => ATTRIBUTE_NODE
    case Text => TEXT_NODE
    case CdataSection => CDATA_SECTION_NODE
    case EntityReference => ENTITY_REFERENCE_NODE
    case EntityNode => ENTITY_NODE
    case ProcessingInstruction => PROCESSING_INSTRUCTION_NODE
    case Comment => COMMENT_NODE
    case Document => DOCUMENT_NODE
    case DocumentType => DOCUMENT_TYPE_NODE
    case DocumentFragment => DOCUMENT_FRAGMENT_NODE
    case Notation => NOTATION_NODE
  }

  /** `NodeType::from_web_sys`: codes 1 to 12 decode, in declaration order, to the variant whose
      constant they are; every other code is `unreachable!`. */
  function FromWebSys(raw: u16): (r: Outcome<NodeType>)
    ensures r.Returned? <==> 1 <= raw <= 12
    ensures r.Returned? ==> Code(r.value) == raw && NodeTypes[raw as int - 1] == r.value
    ensures r.Panicked? ==> r.context == "invalid node type"
  {
    if raw == ELEMENT_NODE then Returned(Element)
    else if raw == ATTRIBUTE_NODE then Returned(Attribute)
    else if raw == TEXT_NODE then Returned(Text)
    else if raw == CDATA_SECTION_NODE then Returned(CdataSection)
    else if raw == ENTITY_REFERENCE_NODE then Returned(EntityReference)
    else if raw == ENTITY_NODE then Returned(EntityNode)
    else if raw == PROCESSING_INSTRUCTION_NODE then Returned(ProcessingInstruction)
    else if raw == COMMENT_NODE then Returned(Comment)
    else if raw == DOCUMENT_NODE then Returned(Document)
    else if raw == DOCUMENT_TYPE_NODE then Returned(DocumentType)
    else if raw == DOCUMENT_FRAGMENT_NODE then Returned(DocumentFragment)
    else if raw == NOTATION_NODE then Returned(Notation)
    else Panicked("invalid node type")
  }

  /** Every variant decodes from its own constant. */
  lemma FromWebSysCode(t: NodeType)
    ensures FromWebSys(Code(t)) == Returned(t)
  {
  }

  /** Distinct codes never decode to the same variant. */
  lemma FromWebSysInjective(a: u16, b: u16)
    requires FromWebSys(a).Returned? && FromWebSys(b).Returned?
    requires FromWebSys(a).value == FromWebSys(b).value
    ensures a == b
  {
  }

  // ---------------------------------------------------------------------------------------------
  // DocumentPosition: the bitflags set over the six position bits.

  const DOCUMENT_POSITION_DISCONNECTED: bv16 := 0x01
  const DOCUMENT_POSITION_PRECEDING: bv16 := 0x02
  const DOCUMENT_POSITION_FOLLOWING: bv16 := 0x04
  const DOCUMENT_POSITION_CONTAINS: bv16 := 0x08
  const DOCUMENT_POSITION_CONTAINED_BY: bv16 := 0x10
  const DOCUMENT_POSITION_IMPLEMENTATION_SPECIFIC: bv16 := 0x20

  /** Every flag of the set (`DocumentPosition::all()`). */
  const ALL_POSITIONS: bv16 :=
    DOCUMENT_POSITION_DISCONNECTED | DOCUMENT_POSITION_PRECEDING | DOCUMENT_POSITION_FOLLOWING
    | DOCUMENT_POSITION_CONTAINS | DOCUMENT_POSITION_CONTAINED_BY | DOCUMENT_POSITION_IMPLEMENTATION_SPECIFIC

  datatype DocumentPosition = DocumentPosition(bits: bv16)

  /** Bit `i` of `b` is set. */
  predicate HasBit(b: bv16, i: bv16)
    requires i < 16
  {
    b & (1 << i) != 0
  }

  /** `compare_document_position`: the host's answer passed through `from_bits_truncate`, which keeps
      exactly the six position bits (bits 0 to 5, the values 1 to 32) and clears all the others. */
  function CompareDocumentPosition(host: bv16): (p: DocumentPosition)
    ensures forall i: bv16 | i < 16 :: HasBit(p.bits, i) <==> i < 6 && HasBit(host, i)
  {
    MaskKeepsPositionBits(host);
    DocumentPosition(host & ALL_POSITIONS)
  }

  /** Masking with all six flags keeps bits 0 to 5 of `x` and clears every other bit. */
  lemma MaskKeepsPositionBits(x: bv16)
    ensures forall i: bv16 | i < 16 :: HasBit(x & ALL_POSITIONS, i) <==> i < 6 && HasBit(x, i)
  {
    forall i: bv16 | i < 16
      ensures HasBit(x & ALL_POSITIONS, i) <==> i < 6 && HasBit(x, i)
    {
      AndBit(x, ALL_POSITIONS, i);
      AllPositionsBit(i);
    }
  }

  /** Bit `i` of a conjunction is set exactly when it is set in both operands. */
  lemma AndBit(x: bv16, m: bv16, i: bv16)
    requires i < 16
    ensures HasBit(x & m, i) <==> HasBit(x, i) && HasBit(m, i)
  {
  }

  /** The set bits of `ALL_POSITIONS` are bits 0 to 5. */
  lemma AllPositionsBit(i: bv16)
    requires i < 16
    ensures HasBit(ALL_POSITIONS, i) <==> i < 6
  {
  }

  /** The six flags are the single bits 0 to 5. */
  lemma PositionFlagsAreBits()
    ensures DOCUMENT_POSITION_DISCONNECTED == 1 << 0 && DOCUMENT_POSITION_PRECEDING == 1 << 1
    ensures DOCUMENT_POSITION_FOLLOWING == 1 << 2 && DOCUMENT_POSITION_CONTAINS == 1 << 3
    ensures DOCUMENT_POSITION_CONTAINED_BY == 1 << 4 && DOCUMENT_POSITION_IMPLEMENTATION_SPECIFIC == 1 << 5
    ensures ALL_POSITIONS == 0x3F
  {
  }

  // ---------------------------------------------------------------------------------------------
  // Node lists and their iterator.

  datatype Node = Node(inner: HostRef)

  /** A host `NodeList`: `length` entries, where the host may fail to produce an entry (`None`). */
  datatype HostNodeList = HostNodeList(items: seq<Option<HostRef>>) {
    function Length(): nat {
      |items|
    }

    /** Host `item(index)`: nothing past the end. */
    function Get(index: nat): (r: Option<HostRef>)
      ensures index >= Length() ==> r.None?
      ensures index < Length() ==> r == items[index]
    {
      if index < |items| then items[index] else None
    }
  }

  datatype NodeList = NodeList(inner: HostNodeList) {
    /** `NodeList::len`. */
    function Len(): (n: nat)
      ensures n == |inner.items|
    {
      inner.Length()
    }

    /** `NodeList::get`: the host's entry, wrapped as a node. */
    function Get(index: nat): (r: Option<Node>)
      ensures r.Some? <==> index < |inner.items| && inner.items[index].Some?
      ensures r.Some? ==> r.value.inner == inner.items[index].value
    {
      match inner.Get(index)
      case Some(h) => Some(Node(h))
      case None => None
    }
  }

  class NodeListIterator {
    var idx: nat
    const len: nat
    const inner: HostNodeList
    /** The nodes handed out so far. */
    ghost var yielded: seq<Node>

    ghost predicate Valid()
      reads this
    {
      && idx <= len
      && len == inner.Length()
      && |yielded| == idx
      && forall i | 0 <= i < idx :: inner.items[i] == Some(yielded[i].inner)
    }

    /** `NodeList::into_iter`: the cursor starts at 0 and the length is read once. */
    constructor IntoIter(list: NodeList)
      ensures Valid()
      ensures idx == 0 && len == list.Len() && inner == list.inner && yielded == []
    {
      idx, len, inner := 0, list.inner.Length(), list.inner;
      yielded := [];
    }

    /** `NodeListIterator::next`: past the end it yields nothing and changes nothing (so it stays
        exhausted); otherwise it yields the entry at the cursor and advances by one, and an entry the
        host cannot produce is fatal. Once it yields nothing, every entry has been handed out in
        order. */
    method Next() returns (r: Outcome<Option<Node>>)
      requires Valid()
      modifies this
      ensures Valid()
      ensures old(idx) >= len ==> r == Returned(None) && idx == old(idx) && yielded == old(yielded)
      ensures old(idx) < len && inner.items[old(idx)].None? ==>
        r == Panicked("out of bounds error indexing into NodeList") && idx == old(idx) && yielded == old(yielded)
      ensures old(idx) < len && inner.items[old(idx)].Some? ==>
        var node := Node(inner.items[old(idx)].value);
        r == Returned(Some(node)) && idx == old(idx) + 1 && yielded == old(yielded) + [node]
      ensures r == Returned(None) ==>
        |yielded| == len && forall i | 0 <= i < len :: inner.items[i] == Some(yielded[i].inner)
    {
      if idx >= len {
        return Returned(None);
      }
      var item := ExpectOpt(inner.Get(idx), "out of bounds error indexing into NodeList");
      if item.Panicked? {
        return Panicked(item.context);
      }
      var node := Node(item.value);
      idx := idx + 1;
      yielded := yielded + [node];
      r := Returned(Some(node));
    }
  }
}
