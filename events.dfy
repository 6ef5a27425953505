/** src/event.rs: the event-name codec `EventKind`, the listener option dictionary built by `dict!`,
    the one-shot `SubscribeGuard`, and `EventTarget::add_event_listener_opts` over the target's
    event listener list (section 2.7 of the WHATWG DOM Standard). */
module Events {
  import opened Macros

  // ---------------------------------------------------------------------------------------------
  // EventKind: 29 named DOM events and an escape variant for every other name.

  datatype EventKind =
    | Abort | BeforeInput | Blur | Click
    | CompositionStart | CompositionUpdate | CompositionEnd
    | DoubleClick | Error | Focus | FocusIn | FocusOut | Input
    | KeyDown | KeyPress | KeyUp | Load
    | MouseDown | MouseEnter | MouseLeave | MouseMove | MouseOut | MouseOver | MouseUp
    | Resize | Scroll | Select | Unload | Wheel
    | Other(name: string)

  /** The event type string of a kind (`From<EventKind> for Cow<str>`): the held string of `Other`,
      and for a named variant its DOM name, which `Parse` maps back to it (`PrintParseNamed`). */
  function Name(kind: EventKind): (r: string)
    ensures kind.Other? ==> r == kind.name
  {
    match kind
    case Abort => "abort"
    case BeforeInput => "beforeinput"
    case Blur => "blur"
    case Click => "click"
    case CompositionStart => "compositionstart"
    case CompositionUpdate => "compositionupdate"
    case CompositionEnd => "compositionend"
    case DoubleClick => "dblclick"
    case Error => "error"
    case Focus => "focus"
    case FocusIn => "focusin"
    case FocusOut => "focusout"
    case Input => "input"
    case KeyDown => "keydown"
    case KeyPress => "keypress"
    case KeyUp => "keyup"
    case Load => "load"
    case MouseDown => "mousedown"
    case MouseEnter => "mouseenter"
    case MouseLeave => "mouseleave"
    case MouseMove => "mousemove"
    case MouseOut => "mouseout"
    case MouseOver => "mouseover"
    case MouseUp => "mouseup"
    case Resize => "resize"
    case Scroll => "scroll"
    case Select => "select"
    case Unload => "unload"
    case Wheel => "wheel"
    case Other(name) => name
  }

  /** `s` is the type string of one of the 29 named variants. */
  ghost predicate IsKnownName(s: string) {
    exists k: EventKind :: !k.Other? && Name(k) == s
  }

  /** The kind of an event type string (`From<String> for EventKind`). Printing the result gives
      back the input: a name that is not matched is kept verbatim in `Other`. */
  function Parse(s: string): (r: EventKind)
    ensures match r
      case Other(name) => name == s
      case _ => Name(r) == s
  {
    match s
    case "abort" => Abort
    case "beforeinput" => BeforeInput
    case "blur" => Blur
    case "click" => Click
    case "compositionstart" => CompositionStart
    case "compositionupdate" => CompositionUpdate
    case "compositionend" => CompositionEnd
    case "dblclick" => DoubleClick
    case "error" => Error
    case "focus" => Focus
    case "focusin" => FocusIn
    case "focusout" => FocusOut
    case "input" => Input
    case "keydown" => KeyDown
    case "keypress" => KeyPress
    case "keyup" => KeyUp
    case "load" => Load
    case "mousedown" => MouseDown
    case "mouseenter" => MouseEnter
    case "mouseleave" => MouseLeave
    case "mousemove" => MouseMove
    case "mouseout" => MouseOut
    case "mouseover" => MouseOver
    case "mouseup" => MouseUp
    case "resize" => Resize
    case "scroll" => Scroll
    case "select" => Select
    case "unload" => Unload
    case "wheel" => Wheel
    case _ => Other(s)
  }

  /** Parsing then printing gives back every string unchanged. */
  lemma ParsePrintRoundTrip(s: string)
    ensures Name(Parse(s)) == s
  {
  }

  /** Each named variant parses back from its own name. */
  lemma PrintParseNamed(k: EventKind)
    requires !k.Other?
    ensures Parse(Name(k)) == k
  {
    // The 29 names are evaluated a few at a time, which keeps each string comparison proof small.
    ParseNamesAbortToClick();
    ParseNamesComposition();
    ParseNamesErrorToInput();
    ParseNamesKeyAndLoad();
    ParseNamesMouseDownToMove();
    ParseNamesMouseOutToUp();
    ParseNamesResizeToSelect();
    ParseNamesUnloadAndWheel();
  }

  lemma ParseNamesAbortToClick()
    ensures Parse(Name(Abort)) == Abort
    ensures Parse(Name(BeforeInput)) == BeforeInput
    ensures Parse(Name(Blur)) == Blur
    ensures Parse(Name(Click)) == Click
  {
  }

  lemma ParseNamesComposition()
    ensures Parse(Name(CompositionStart)) == CompositionStart
    ensures Parse(Name(CompositionUpdate)) == CompositionUpdate
    ensures Parse(Name(CompositionEnd)) == CompositionEnd
    ensures Parse(Name(DoubleClick)) == DoubleClick
  {
  }

  lemma ParseNamesErrorToInput()
    ensures Parse(Name(Error)) == Error
    ensures Parse(Name(Focus)) == Focus
    ensures Parse(Name(FocusIn)) == FocusIn
    ensures Parse(Name(FocusOut)) == FocusOut
    ensures Parse(Name(Input)) == Input
  {
  }

  lemma ParseNamesKeyAndLoad()
    ensures Parse(Name(KeyDown)) == KeyDown
    ensures Parse(Name(KeyPress)) == KeyPress
    ensures Parse(Name(KeyUp)) == KeyUp
    ensures Parse(Name(Load)) == Load
  {
  }

  lemma ParseNamesMouseDownToMove()
    ensures Parse(Name(MouseDown)) == MouseDown
    ensures Parse(Name(MouseEnter)) == MouseEnter
    ensures Parse(Name(MouseLeave)) == MouseLeave
    ensures Parse(Name(MouseMove)) == MouseMove
  {
  }

  lemma ParseNamesMouseOutToUp()
    ensures Parse(Name(MouseOut)) == MouseOut
    ensures Parse(Name(MouseOver)) == MouseOver
    ensures Parse(Name(MouseUp)) == MouseUp
  {
  }

  lemma ParseNamesResizeToSelect()
    ensures Parse(Name(Resize)) == Resize
    ensures Parse(Name(Scroll)) == Scroll
    ensures Parse(Name(Select)) == Select
  {
  }

  lemma ParseNamesUnloadAndWheel()
    ensures Parse(Name(Unload)) == Unload
    ensures Parse(Name(Wheel)) == Wheel
  {
  }

  /** Printing is injective on the named variants. */
  lemma NameInjective(a: EventKind, b: EventKind)
    requires !a.Other? && !b.Other?
    requires Name(a) == Name(b)
    ensures a == b
  {
    PrintParseNamed(a);
    PrintParseNamed(b);
  }

  /** A string parses to `Other` (holding it verbatim) exactly when it is none of the 29 names. */
  lemma ParseOtherIffUnknown(s: string)
    ensures Parse(s).Other? <==> !IsKnownName(s)
  {
    if Parse(s).Other? {
      forall k: EventKind | !k.Other? && Name(k) == s
        ensures false
      {
        PrintParseNamed(k);
      }
    } else {
      assert !Parse(s).Other? && Name(Parse(s)) == s;
    }
  }

  /** `Other(s)` survives a print/parse round trip exactly when `s` is no known name. */
  lemma OtherRoundTrip(s: string)
    ensures Parse(Name(Other(s))) == Other(s) <==> !IsKnownName(s)
  {
    ParseOtherIffUnknown(s);
  }

  /** The normalisation the derived equality sees: `Other("click")` prints as "click", which parses
      as `Click`, a different value. */
  lemma OtherClickParsesAsClick()
    ensures Parse(Name(Other("click"))) == Click
    ensures Other("click") != Click
  {
  }

  // ---------------------------------------------------------------------------------------------
  // AddEventListenerOptions: the `dict!` instance of src/event.rs, and the host dictionaries it is
  // converted into.

  /** The value of an `AddEventListenerOptions` as its derived equality sees it. */
  datatype ListenerOptions = ListenerOptions(capture: Option<bool>, once: Option<bool>, passive: Option<bool>)

  /** `Default::default()`: every field unset. */
  const Unset := ListenerOptions(None, None, None)

  /** The host's `AddEventListenerOptions` dictionary; a member that was never set is `None`. */
  datatype WebAddEventListenerOptions =
    WebAddEventListenerOptions(capture: Option<bool>, once: Option<bool>, passive: Option<bool>)

  /** The host's `EventListenerOptions` dictionary, which has only `capture`. */
  datatype WebEventListenerOptions = WebEventListenerOptions(capture: Option<bool>)

  /** What `into_web_sys` yields for options with value `o`: no dictionary at all when every field
      is unset, and otherwise a dictionary holding exactly the fields that are set, with their values. */
  function WebAddOptions(o: ListenerOptions): (r: Option<WebAddEventListenerOptions>)
    ensures r.None? <==> o.capture.None? && o.once.None? && o.passive.None?
    ensures r.Some? ==> r.value.capture == o.capture && r.value.once == o.once && r.value.passive == o.passive
  {
    if o == Unset then None else Some(WebAddEventListenerOptions(o.capture, o.once, o.passive))
  }

  /** The capture flag the host files a listener under when it is added: `false` unless a dictionary
      with `capture` set to true is passed ("flatten more", section 2.7 of the WHATWG DOM Standard). */
  function AddCapture(opts: Option<WebAddEventListenerOptions>): bool {
    opts.Some? && opts.value.capture == Some(true)
  }

  /** The capture flag the host looks for when a listener is removed ("flatten"). */
  function RemoveCapture(opts: Option<WebEventListenerOptions>): bool {
    opts.Some? && opts.value.capture == Some(true)
  }

  class AddEventListenerOptions {
    var capture: Option<bool>
    var once: Option<bool>
    var passive: Option<bool>

    function Value(): ListenerOptions
      reads this
    {
      ListenerOptions(capture, once, passive)
    }

    /** `Default::default()`. */
    constructor ()
      ensures Value() == Unset
    {
      capture, once, passive := None, None, None;
    }

    /** The `capture` setter: sets its own field, keeps the others, and returns the same builder. */
    method Capture(val: bool) returns (self: AddEventListenerOptions)
      modifies this
      ensures self == this
      ensures Value() == old(Value()).(capture := Some(val))
      ensures Value() != Unset
    {
      capture := Some(val);
      self := this;
    }

    /** The `once` setter. */
    method Once(val: bool) returns (self: AddEventListenerOptions)
      modifies this
      ensures self == this
      ensures Value() == old(Value()).(once := Some(val))
      ensures Value() != Unset
    {
      once := Some(val);
      self := this;
    }

    /** The `passive` setter. */
    method Passive(val: bool) returns (self: AddEventListenerOptions)
      modifies this
      ensures self == this
      ensures Value() == old(Value()).(passive := Some(val))
      ensures Value() != Unset
    {
      passive := Some(val);
      self := this;
    }

    /** `into_web_sys`: compares against the default, then copies the set fields one by one into a
        fresh host dictionary. */
    method IntoWebSys() returns (r: Option<WebAddEventListenerOptions>)
      ensures r == WebAddOptions(Value())
    {
      if Value() == Unset {
        return None;
      }
      var opts := WebAddEventListenerOptions(None, None, None);
      if capture.Some? {
        opts := opts.(capture := Some(capture.value));
      }
      if once.Some? {
        opts := opts.(once := Some(once.value));
      }
      if passive.Some? {
        opts := opts.(passive := Some(passive.value));
      }
      return Some(opts);
    }

    /** `into_web_sys_remove`: a removal dictionary exactly when `capture` is set, carrying only it. */
    function IntoWebSysRemove(): (r: Option<WebEventListenerOptions>)
      reads this
      ensures r.Some? <==> capture.Some?
      ensures r.Some? ==> r.value == WebEventListenerOptions(capture)
    {
      match capture
      case Some(c) => Some(WebEventListenerOptions(Some(c)))
      case None => None
    }
  }

  /** An options value that sets a field, even to `false`, differs from the default and is passed to
      the host as a dictionary. */
  lemma ExplicitFalseIsNotUnset(o: ListenerOptions)
    requires o.capture == Some(false) || o.once == Some(false) || o.passive == Some(false)
    ensures o != Unset
    ensures WebAddOptions(o).Some?
  {
  }

  /** The removal dictionary is unaffected by `once` and `passive`. */
  lemma RemovalIgnoresOnceAndPassive(a: AddEventListenerOptions, b: AddEventListenerOptions)
    requires a.capture == b.capture
    ensures a.IntoWebSysRemove() == b.IntoWebSysRemove()
  {
  }

  /** Whatever the options, the removal call looks for the capture flag the registration filed the
      listener under. */
  lemma RemovalCaptureMatchesRegistration(options: AddEventListenerOptions)
    ensures RemoveCapture(options.IntoWebSysRemove()) == AddCapture(WebAddOptions(options.Value()))
  {
  }

  // ---------------------------------------------------------------------------------------------
  // The target's event listener list, the guard, and subscription.

  /** The Rust callback a caller subscribes; only its identity is modelled. */
  type Listener = nat

  /** The JavaScript function `Closure::wrap` makes around a listener. Each subscription allocates a
      new one, so its identity is fresh. */
  class JsClosure {
    const listener: Listener

    constructor (listener: Listener)
      ensures this.listener == listener
    {
      this.listener := listener;
    }
  }

  /** An entry of a target's event listener list, identified as in section 2.7 of the WHATWG DOM
      Standard by its type, its callback and its capture flag. */
  datatype ListenerEntry = ListenerEntry(eventType: string, callback: JsClosure, capture: bool)

  /** A call the wrapper made into the host, with the dictionary it passed (if any). */
  datatype HostCall =
    | Added(eventType: string, callback: JsClosure, addOptions: Option<WebAddEventListenerOptions>)
    | Removed(eventType: string, callback: JsClosure, removeOptions: Option<WebEventListenerOptions>)

  /** What the guard's closure captured: the target, the event type, the JavaScript callback and
      the removal dictionary chosen at subscription. */
  datatype Unsubscribe = Unsubscribe(target: EventTarget, eventType: string, callback: JsClosure,
                                     removeOptions: Option<WebEventListenerOptions>)
  {
    /** The list entry the removal call takes out. */
    function Entry(): ListenerEntry {
      ListenerEntry(eventType, callback, RemoveCapture(removeOptions))
    }
  }

  class SubscribeGuard {
    var unsubscribe: Option<Unsubscribe>

    /** `SubscribeGuard::new`: the slot holds the action. */
    constructor (unsubscribe: Unsubscribe)
      ensures this.unsubscribe == Some(unsubscribe)
    {
      this.unsubscribe := Some(unsubscribe);
    }

    /** `Drop`: takes the action out of its slot and runs it, so it runs at most once; a guard whose
        slot is already empty changes nothing but itself. */
    method Drop()
      modifies this, if unsubscribe.Some? then {unsubscribe.value.target} else {}
      ensures unsubscribe == None
      ensures old(unsubscribe).Some? ==>
        var u := old(unsubscribe).value;
        && u.target.listeners == old(u.target.listeners) - {u.Entry()}
        && u.target.calls == old(u.target.calls) + [Removed(u.eventType, u.callback, u.removeOptions)]
    {
      var taken := unsubscribe;
      unsubscribe := None;
      if taken.Some? {
        var u := taken.value;
        if u.removeOptions.Some? {
          u.target.RemoveEventListenerWithOptions(u.eventType, u.callback, u.removeOptions.value);
        } else {
          u.target.RemoveEventListenerWithCallback(u.eventType, u.callback);
        }
      }
    }
  }

  class EventTarget {
    /** The target's event listener list, as a set of entries. */
    var listeners: set<ListenerEntry>
    /** The listener calls the wrapper has made on this target. */
    ghost var calls: seq<HostCall>

    /** `EventTarget::new`: a target without listeners. */
    constructor ()
      ensures listeners == {} && calls == []
    {
      listeners, calls := {}, [];
    }

    /** Host `addEventListener(type, callback)`: files the entry with capture `false`; an equal
        entry already present is kept as it is. */
    method AddEventListenerWithCallback(eventType: string, callback: JsClosure)
      modifies this
      ensures listeners == old(listeners) + {ListenerEntry(eventType, callback, false)}
      ensures calls == old(calls) + [Added(eventType, callback, None)]
    {
      listeners := listeners + {ListenerEntry(eventType, callback, false)};
      calls := calls + [Added(eventType, callback, None)];
    }

    /** Host `addEventListener(type, callback, options)`. */
    method AddEventListenerWithOptions(eventType: string, callback: JsClosure, opts: WebAddEventListenerOptions)
      modifies this
      ensures listeners == old(listeners) + {ListenerEntry(eventType, callback, AddCapture(Some(opts)))}
      ensures calls == old(calls) + [Added(eventType, callback, Some(opts))]
    {
      listeners := listeners + {ListenerEntry(eventType, callback, AddCapture(Some(opts)))};
      calls := calls + [Added(eventType, callback, Some(opts))];
    }

    /** Host `removeEventListener(type, callback)`: removes the entry with capture `false`, if any. */
    method RemoveEventListenerWithCallback(eventType: string, callback: JsClosure)
      modifies this
      ensures listeners == old(listeners) - {ListenerEntry(eventType, callback, false)}
      ensures calls == old(calls) + [Removed(eventType, callback, None)]
    {
      listeners := listeners - {ListenerEntry(eventType, callback, false)};
      calls := calls + [Removed(eventType, callback, None)];
    }

    /** Host `removeEventListener(type, callback, options)`. */
    method RemoveEventListenerWithOptions(eventType: string, callback: JsClosure, opts: WebEventListenerOptions)
      modifies this
      ensures listeners == old(listeners) - {ListenerEntry(eventType, callback, RemoveCapture(Some(opts)))}
      ensures calls == old(calls) + [Removed(eventType, callback, Some(opts))]
    {
      listeners := listeners - {ListenerEntry(eventType, callback, RemoveCapture(Some(opts)))};
      calls := calls + [Removed(eventType, callback, Some(opts))];
    }

    /** `add_event_listener_opts`: wraps the listener in a new JavaScript function, registers it under
        the kind's name (with a dictionary exactly when the options are not all unset), and returns a
        guard whose action removes that same entry again. */
    method AddEventListenerOpts(kind: EventKind, listener: Listener, options: AddEventListenerOptions)
      returns (guard: SubscribeGuard)
      modifies this
      ensures fresh(guard) && guard.unsubscribe.Some?
      ensures var u := guard.unsubscribe.value;
        && u.target == this && u.eventType == Name(kind)
        && fresh(u.callback) && u.callback.listener == listener
        && u.removeOptions == options.IntoWebSysRemove()
        && calls == old(calls) + [Added(Name(kind), u.callback, WebAddOptions(options.Value()))]
        && u.Entry() !in old(listeners)
        && listeners == old(listeners) + {u.Entry()}
    {
      var closure := new JsClosure(listener);
      var eventType := Name(kind);
      var addOpts := options.IntoWebSys();
      if addOpts.Some? {
        AddEventListenerWithOptions(eventType, closure, addOpts.value);
      } else {
        AddEventListenerWithCallback(eventType, closure);
      }
      RemovalCaptureMatchesRegistration(options);
      var removeOpts := options.IntoWebSysRemove();
      guard := new SubscribeGuard(Unsubscribe(this, eventType, closure, removeOpts));
    }

    /** `add_event_listener`: the same with default options, so both the registration and the removal
        take the plain path without a dictionary. */
    method AddEventListener(kind: EventKind, listener: Listener) returns (guard: SubscribeGuard)
      modifies this
      ensures fresh(guard) && guard.unsubscribe.Some?
      ensures var u := guard.unsubscribe.value;
        && u.target == this && u.eventType == Name(kind)
        && fresh(u.callback) && u.callback.listener == listener
        && u.removeOptions == None
        && calls == old(calls) + [Added(Name(kind), u.callback, None)]
        && u.Entry() == ListenerEntry(Name(kind), u.callback, false)
        && u.Entry() !in old(listeners)
        && listeners == old(listeners) + {u.Entry()}
    {
      var options := new AddEventListenerOptions();
      guard := AddEventListenerOpts(kind, listener, options);
    }
  }

  /** `let _ = target.add_event_listener(kind, listener);` discards the guard, which is dropped at
      once: the listener is gone again before anything can be dispatched to it. */
  method SubscribeAndDiscard(target: EventTarget, kind: EventKind, listener: Listener)
    modifies target
    ensures target.listeners == old(target.listeners)
  {
    var guard := target.AddEventListener(kind, listener);
    guard.Drop();
  }

  /** Two subscriptions of the same kind on the same target are independent: dropping the first
      leaves the second registered. */
  method IndependentGuards(target: EventTarget, kind: EventKind, first: Listener, second: Listener)
    returns (kept: SubscribeGuard)
    modifies target
    ensures kept.unsubscribe.Some? && kept.unsubscribe.value.target == target
    ensures target.listeners == old(target.listeners) + {kept.unsubscribe.value.Entry()}
  {
    var dropped := target.AddEventListener(kind, first);
    kept := target.AddEventListener(kind, second);
    dropped.Drop();
  }
}
