/** src/element.rs: the insert-position keywords, the copy loop of `get_client_rects`, and the two
    error tiers of the element wrappers. Each host call is a function parameter standing for the
    browser's implementation of that call on the wrapped element. */
module Elements {
  import opened Macros
  import opened Host
  import Nodes

  datatype Element = Element(inner: HostRef)

  /** The caller-triggerable failures, each a unit error. */
  datatype InvalidSelector = InvalidSelector
  datatype InvalidPointerId = InvalidPointerId
  datatype InvalidCharacter = InvalidCharacter

  // ---------------------------------------------------------------------------------------------
  // Insert positions (section 4.9 of the WHATWG DOM Standard, insertAdjacent*).

  datatype InsertPosition = BeforeBegin | AfterBegin | BeforeEnd | AfterEnd

  /** `InsertPosition::as_web_sys`: the keyword the host expects for each position. */
  function AsWebSys(position: InsertPosition): (s: string)
    ensures position == BeforeBegin ==> s == "beforebegin"
    ensures position == AfterBegin ==> s == "afterbegin"
    ensures position == BeforeEnd ==> s == "beforeend"
    ensures position == AfterEnd ==> s == "afterend"
  {
    match position
    case BeforeBegin => "beforebegin"
    case AfterBegin => "afterbegin"
    case BeforeEnd => "beforeend"
    case AfterEnd => "afterend"
  }

  /** The four keywords are pairwise distinct, so no two positions reach the host alike. */
  lemma AsWebSysInjective(a: InsertPosition, b: InsertPosition)
    requires AsWebSys(a) == AsWebSys(b)
    ensures a == b
  {
  }

  // ---------------------------------------------------------------------------------------------
  // get_client_rects

  /** A host `DOMRect`, read through its four getters. */
  datatype HostDomRect = HostDomRect(x: real, y: real, width: real, height: real)

  /** The crate's owned copy of a host rectangle. */
  datatype DomRect = DomRect(x: real, y: real, width: real, height: real)

  /** `DomRect::from_web_sys`: copies the four coordinates. */
  function RectFromWebSys(rect: HostDomRect): (r: DomRect)
    ensures r.x == rect.x && r.y == rect.y && r.width == rect.width && r.height == rect.height
  {
    DomRect(rect.x, rect.y, rect.width, rect.height)
  }

  /** A host `DOMRectList`, where the host may fail to produce an entry (`None`). */
  datatype HostDomRectList = HostDomRectList(items: seq<Option<HostDomRect>>)

  /** `get_client_rects`: converts every entry of the host list, in order, into a vector of the same
      length; an entry the host cannot produce is fatal. */
  method GetClientRects(raw: HostDomRectList) returns (r: Outcome<seq<DomRect>>)
    ensures r.Returned? <==> forall i | 0 <= i < |raw.items| :: raw.items[i].Some?
    ensures r.Returned? ==>
      && |r.value| == |raw.items|
      && forall i | 0 <= i < |raw.items| :: raw.items[i].Some? && r.value[i] == RectFromWebSys(raw.items[i].value)
    ensures r.Panicked? ==> r.context == "error calling DomRectList::item - this is a bug!"
  {
    var length := |raw.items|;
    var out: seq<DomRect> := [];
    for i := 0 to length
      invariant |out| == i
      invariant forall j | 0 <= j < i :: raw.items[j].Some? && out[j] == RectFromWebSys(raw.items[j].value)
    {
      var item := ExpectOpt(raw.items[i], "error calling DomRectList::item - this is a bug!");
      if item.Panicked? {
        return Panicked(item.context);
      }
      out := out + [RectFromWebSys(item.value)];
    }
    return Returned(out);
  }

  // ---------------------------------------------------------------------------------------------
  // Fatal host failures: insert_adjacent_*.

  /** `insert_adjacent_element`: passes the position keyword and the element to the host; the
      optional inserted element comes back wrapped, and a host failure is fatal. */
  function InsertAdjacentElement(host: (string, HostRef) -> Result<Option<HostRef>, JsValue>,
                                 position: InsertPosition, element: Element): (r: Outcome<Option<Element>>)
    ensures r.Returned? <==> host(AsWebSys(position), element.inner).Ok?
    ensures r.Returned? ==>
      && (r.value.Some? <==> host(AsWebSys(position), element.inner).value.Some?)
      && (r.value.Some? ==> r.value.value.inner == host(AsWebSys(position), element.inner).value.value)
    ensures r.Panicked? ==> r.context == "error calling Element::insert_adjacent_element - this is a bug!"
  {
    match Expect(host(AsWebSys(position), element.inner),
                 "error calling Element::insert_adjacent_element - this is a bug!")
    case Returned(res) => Returned(if res.Some? then Some(Element(res.value)) else None)
    case Panicked(context) => Panicked(context)
  }

  /** `insert_adjacent_html`: a host failure is fatal. */
  function InsertAdjacentHtml(host: (string, string) -> Result<(), JsValue>,
                              position: InsertPosition, data: string): (r: Outcome<()>)
    ensures r.Returned? <==> host(AsWebSys(position), data).Ok?
    ensures r.Panicked? ==> r.context == "error calling Element::insert_adjacent_html - this is a bug!"
  {
    Expect(host(AsWebSys(position), data), "error calling Element::insert_adjacent_html - this is a bug!")
  }

  /** `insert_adjacent_text`: a host failure is fatal. */
  function InsertAdjacentText(host: (string, string) -> Result<(), JsValue>,
                              position: InsertPosition, text: string): (r: Outcome<()>)
    ensures r.Returned? <==> host(AsWebSys(position), text).Ok?
    ensures r.Panicked? ==> r.context == "error calling Element::insert_adjacent_text - this is a bug!"
  {
    Expect(host(AsWebSys(position), text), "error calling Element::insert_adjacent_text - this is a bug!")
  }

  /** `remove_attribute`: a host failure is fatal. */
  function RemoveAttribute(host: string -> Result<(), JsValue>, name: string): (r: Outcome<()>)
    ensures r.Returned? <==> host(name).Ok?
    ensures r.Panicked? ==> r.context == "error calling Element::remove_attribute - this is a bug!"
  {
    Expect(host(name), "error calling Element::remove_attribute - this is a bug!")
  }

  /** `remove_attribute_ns`: a host failure is fatal. */
  function RemoveAttributeNs(host: (Option<string>, string) -> Result<(), JsValue>,
                             namespace: Option<string>, localName: string): (r: Outcome<()>)
    ensures r.Returned? <==> host(namespace, localName).Ok?
    ensures r.Panicked? ==> r.context == "error calling Element::remove_attribute_ns - this is a bug!"
  {
    Expect(host(namespace, localName), "error calling Element::remove_attribute_ns - this is a bug!")
  }

  /** `request_fullscreen`: a host failure is fatal. */
  function RequestFullscreen(host: () -> Result<(), JsValue>): (r: Outcome<()>)
    ensures r.Returned? <==> host().Ok?
    ensures r.Panicked? ==> r.context == "error calling Element::request_fullscreen - this is a bug!"
  {
    Expect(host(), "error calling Element::request_fullscreen - this is a bug!")
  }

  // ---------------------------------------------------------------------------------------------
  // Typed host failures: selectors, attributes, pointer capture.

  /** `closest`: the nearest matching ancestor, wrapped; any host failure is an invalid selector. */
  function Closest(host: string -> Result<Option<HostRef>, JsValue>, selector: string)
    : (r: Result<Option<Element>, InvalidSelector>)
    ensures r.Ok? <==> host(selector).Ok?
    ensures r.Ok? ==>
      && (r.value.Some? <==> host(selector).value.Some?)
      && (r.value.Some? ==> r.value.value.inner == host(selector).value.value)
  {
    match host(selector)
    case Ok(found) => Ok(if found.Some? then Some(Element(found.value)) else None)
    case Err(_) => Err(InvalidSelector)
  }

  /** `matches`: the host's answer, or an invalid selector. */
  function Matches(host: string -> Result<bool, JsValue>, selector: string): (r: Result<bool, InvalidSelector>)
    ensures r.Ok? <==> host(selector).Ok?
    ensures r.Ok? ==> r.value == host(selector).value
  {
    match host(selector)
    case Ok(b) => Ok(b)
    case Err(_) => Err(InvalidSelector)
  }

  /** `query_selector`: the first match, wrapped, or an invalid selector. */
  function QuerySelector(host: string -> Result<Option<HostRef>, JsValue>, selectors: string)
    : (r: Result<Option<Element>, InvalidSelector>)
    ensures r.Ok? <==> host(selectors).Ok?
    ensures r.Ok? ==>
      && (r.value.Some? <==> host(selectors).value.Some?)
      && (r.value.Some? ==> r.value.value.inner == host(selectors).value.value)
  {
    match host(selectors)
    case Ok(found) => Ok(if found.Some? then Some(Element(found.value)) else None)
    case Err(_) => Err(InvalidSelector)
  }

  /** `query_selector_all`: the host's list, wrapped, or an invalid selector. */
  function QuerySelectorAll(host: string -> Result<Nodes.HostNodeList, JsValue>, selectors: string)
    : (r: Result<Nodes.NodeList, InvalidSelector>)
    ensures r.Ok? <==> host(selectors).Ok?
    ensures r.Ok? ==> r.value.inner == host(selectors).value
  {
    match host(selectors)
    case Ok(list) => Ok(Nodes.NodeList(list))
    case Err(_) => Err(InvalidSelector)
  }

  /** `set_attribute`: succeeds exactly when the host does; otherwise an invalid character. */
  function SetAttribute(host: (string, string) -> Result<(), JsValue>, name: string, value: string)
    : (r: Result<(), InvalidCharacter>)
    ensures r.Ok? <==> host(name, value).Ok?
  {
    match host(name, value)
    case Ok(_) => Ok(())
    case Err(_) => Err(InvalidCharacter)
  }

  /** `set_attribute_ns`: succeeds exactly when the host does; otherwise an invalid character. */
  function SetAttributeNs(host: (Option<string>, string, string) -> Result<(), JsValue>,
                          namespace: Option<string>, localName: string, value: string)
    : (r: Result<(), InvalidCharacter>)
    ensures r.Ok? <==> host(namespace, localName, value).Ok?
  {
    match host(namespace, localName, value)
    case Ok(_) => Ok(())
    case Err(_) => Err(InvalidCharacter)
  }

  /** `toggle_attribute`: the host's answer (whether the attribute is now present), or an invalid
      character. */
  function ToggleAttribute(host: string -> Result<bool, JsValue>, name: string): (r: Result<bool, InvalidCharacter>)
    ensures r.Ok? <==> host(name).Ok?
    ensures r.Ok? ==> r.value == host(name).value
  {
    match host(name)
    case Ok(present) => Ok(present)
    case Err(_) => Err(InvalidCharacter)
  }

  /** `set_pointer_capture`: succeeds exactly when the host does; otherwise an invalid pointer id. */
  function SetPointerCapture(host: i32 -> Result<(), JsValue>, pointerId: i32): (r: Result<(), InvalidPointerId>)
    ensures r.Ok? <==> host(pointerId).Ok?
  {
    match host(pointerId)
    case Ok(_) => Ok(())
    case Err(_) => Err(InvalidPointerId)
  }

  /** `release_pointer_capture`: succeeds exactly when the host does; otherwise an invalid pointer id. */
  function ReleasePointerCapture(host: i32 -> Result<(), JsValue>, pointerId: i32): (r: Result<(), InvalidPointerId>)
    ensures r.Ok? <==> host(pointerId).Ok?
  {
    match host(pointerId)
    case Ok(_) => Ok(())
    case Err(_) => Err(InvalidPointerId)
  }
}
