# dommer in Dafny

A Dafny model of the host-independent logic in `dommer`, a Rust crate that wraps the browser DOM and its events. Almost every wrapper passes a call through to the browser. What the crate owns itself, and what this project models and proves, is the following:

- **Event-name codec** (`Events.Parse`, `Events.Name`). 29 DOM event type strings map to `EventKind` variants and back. Every other string is kept verbatim in `Other`.
- **Listener options.** `AddEventListenerOptions` is built by the `dict!` macro. It is a class with three `Option<bool>` fields, chained setters and `into_web_sys`. `into_web_sys_remove` gives the removal dictionary.
- **Scoped subscription.** `EventTarget.AddEventListenerOpts` registers a fresh JavaScript callback in the target's event listener list. It returns a `SubscribeGuard`. The guard's `Drop` takes its one-shot action out of the slot and runs it, which removes the same entry again. The listener list is a set of (type, callback, capture) entries, as in section 2.7 of the WHATWG DOM Standard. A ghost log records every add and remove call made to the host, together with the dictionary passed.
- **Node constants and the node-list iterator.** These are `NodeType::from_web_sys`, the six-bit mask of `compare_document_position`, and the fused `NodeListIterator` (constants from section 4.4 of the WHATWG DOM Standard).
- **Element mappings.** These are the insert-position keywords (section 4.9 of the WHATWG DOM Standard) and the copy loop of `get_client_rects`. They also cover the crate's two error tiers:
  - caller-triggerable host failures become unit errors (`InvalidSelector`, `InvalidCharacter`, `InvalidPointerId`);
  - "cannot happen" failures go through `expect!` and stop the program.

A panic is modelled as the value `Outcome.Panicked(context)`, where `context` holds the words written at the call site. Each browser call an element wrapper makes is a function parameter. That parameter stands for the browser's answer for the wrapped element.

The crate's own test at `src/event.rs:376-386` writes `let _ = target.add_event_listener(...)`, which drops the guard at once. It then expects two dispatches to reach the listener. The model follows the drop semantics of `src/event.rs:26-32`: `Events.SubscribeAndDiscard` shows that the listener has already left the target's list before any dispatch, so that expectation does not hold.

Files: `macros.dfy` (module `Macros`), `host.dfy` (`Host`), `events.dfy` (`Events`), `nodes.dfy` (`Nodes`), `elements.dfy` (`Elements`).

## Model

| member | source | states |
|---|---|---|
| `Macros.Expect` | src/macros.rs:15-21 | returns the `Ok` payload unchanged exactly when the input is `Ok`; otherwise panics with the call site's context |
| `Macros.ExpectOpt` | src/macros.rs:38-45 | returns the `Some` payload unchanged exactly when the input is `Some`; otherwise panics with the context |
| `Events.Name` | src/event.rs:133-168 | `Other(s)` prints s verbatim; each named variant prints its DOM name ("dblclick" for `DoubleClick`), which `Parse` maps back to it (`Events.PrintParseNamed`) |
| `Events.Parse` | src/event.rs:95-131 | an `Other` result holds the input verbatim; any other result is the variant whose name is the input |
| `Events.ParseOtherIffUnknown` | src/event.rs:97-129 | the result is `Other` exactly when the input is none of the 29 names |
| `Events.ParsePrintRoundTrip` | src/event.rs:95-168 | for every string s, printing the parsed kind gives s back |
| `Events.PrintParseNamed` | src/event.rs:97-164 | each of the 29 named variants (with "dblclick" for `DoubleClick`) parses back from its own name |
| `Events.NameInjective` | src/event.rs:135-164 | two named variants with the same name are equal, so printing is injective on them |
| `Events.OtherRoundTrip` | src/event.rs:127-165 | `Other(s)` survives print-then-parse exactly when s is no known name |
| `Events.OtherClickParsesAsClick` | src/event.rs:61-168 | `Other("click")` comes back as `Click`, which the derived equality treats as a different value |
| `Events.WebAddOptions` | src/macros.rs:77-87 | no host dictionary exactly when every field is unset; otherwise a dictionary holding exactly the set fields, with their values |
| `Events.AddEventListenerOptions.constructor` | src/macros.rs:60-66 | the default has every field unset |
| `Events.AddEventListenerOptions.Capture` | src/macros.rs:68-74 | sets `capture` to `Some(val)`, leaves the other fields unchanged, returns the same builder; the result is no longer the default |
| `Events.AddEventListenerOptions.Once` | src/macros.rs:68-74 | same as `Capture`, for `once` |
| `Events.AddEventListenerOptions.Passive` | src/macros.rs:68-74 | same as `Capture`, for `passive` |
| `Events.AddEventListenerOptions.IntoWebSys` | src/macros.rs:77-87 | copies field by field into a fresh host dictionary, and the result is `WebAddOptions` of the current value |
| `Events.ExplicitFalseIsNotUnset` | src/macros.rs:55-79 | a field set to `false` makes the value differ from the default, so a dictionary is passed |
| `Events.AddEventListenerOptions.IntoWebSysRemove` | src/event.rs:179-194 | a removal dictionary exactly when `capture` is set, carrying only that value |
| `Events.RemovalIgnoresOnceAndPassive` | src/event.rs:181-192 | options that agree on `capture` give the same removal dictionary, whatever `once` and `passive` are |
| `Events.RemovalCaptureMatchesRegistration` | src/event.rs:315-356 | the removal call looks for the capture flag under which the registration filed the listener |
| `Events.SubscribeGuard.constructor` | src/event.rs:12-18 | a new guard holds its action |
| `Events.SubscribeGuard.Drop` | src/event.rs:26-32 | leaves the slot empty; runs the action only if the slot held one, removing exactly its entry with one host call; an empty guard changes nothing else |
| `Events.EventTarget.constructor` | src/event.rs:223-230 | a new target has no listeners |
| `Events.EventTarget.AddEventListenerOpts` | src/event.rs:303-357 | adds one entry for a fresh callback under the kind's name, passing a dictionary exactly when the options are not all unset; the guard removes that same entry, with a dictionary exactly when `capture` is set |
| `Events.EventTarget.AddEventListener` | src/event.rs:202-208 | default options: plain add path and plain removal path, capture `false` |
| `Events.SubscribeAndDiscard` | src/event.rs:376-386 | discarding the guard leaves the target's listener list exactly as it was |
| `Events.IndependentGuards` | src/event.rs:26-32 | dropping one of two guards for the same target and kind leaves the other's entry registered |
| `Nodes.FromWebSys` | src/node.rs:21-38 | codes 1 to 12 decode, in declaration order, to the variant whose constant they are; any other code panics with "invalid node type" |
| `Nodes.FromWebSysCode` | src/node.rs:24-35 | every variant decodes from its own constant |
| `Nodes.FromWebSysInjective` | src/node.rs:23-37 | distinct codes never decode to the same variant |
| `Nodes.CompareDocumentPosition` | src/node.rs:87-91 | bit i of the result is set exactly when i < 6 and bit i of the host's answer is set |
| `Nodes.MaskKeepsPositionBits` | src/node.rs:41-50 | masking with all six flags keeps bits 0 to 5 and clears every other bit |
| `Nodes.PositionFlagsAreBits` | src/node.rs:41-50 | the six flags are the single bits 1, 2, 4, 8, 16, 32 and together make 0x3F |
| `Nodes.NodeList.Len` | src/node.rs:217-220 | the host list's length |
| `Nodes.NodeList.Get` | src/node.rs:222-224 | an entry exactly when the index is in range and the host has one; it wraps that host node |
| `Nodes.NodeListIterator.IntoIter` | src/node.rs:227-237 | the cursor starts at 0, and the length is fixed once from the list |
| `Nodes.NodeListIterator.Next` | src/node.rs:245-260 | past the end: `None` and no change, so it stays exhausted. In range: the entry at the cursor, and the cursor advances by exactly one. A missing entry is fatal. After `None`, all entries have been yielded in order |
| `Elements.AsWebSys` | src/element.rs:15-24 | "beforebegin", "afterbegin", "beforeend", "afterend" for the four positions |
| `Elements.AsWebSysInjective` | src/element.rs:17-22 | the four keywords are pairwise distinct |
| `Elements.RectFromWebSys` | src/dom_rect.rs:11-18 | the owned rectangle has the host rectangle's x, y, width and height |
| `Elements.GetClientRects` | src/element.rs:264-275 | returns exactly when every host entry is present; the vector then has the list's length, and element i is the copy of host entry i; a missing entry is fatal |
| `Elements.InsertAdjacentElement` | src/element.rs:289-300 | passes the position keyword to the host; returns the optional inserted element, wrapped, exactly when the host succeeds; otherwise fatal |
| `Elements.InsertAdjacentHtml` | src/element.rs:301-306 | returns exactly when the host succeeds on the position keyword; otherwise fatal |
| `Elements.InsertAdjacentText` | src/element.rs:307-312 | returns exactly when the host succeeds on the position keyword; otherwise fatal |
| `Elements.RemoveAttribute` | src/element.rs:333-338 | returns exactly when the host succeeds; otherwise fatal |
| `Elements.RemoveAttributeNs` | src/element.rs:339-344 | returns exactly when the host succeeds; otherwise fatal |
| `Elements.RequestFullscreen` | src/element.rs:345-350 | returns exactly when the host succeeds; otherwise fatal |
| `Elements.Closest` | src/element.rs:247-252 | `Ok` exactly when the host succeeds, holding the host's element wrapped; any failure is `InvalidSelector` |
| `Elements.Matches` | src/element.rs:313-315 | `Ok` with the host's answer exactly when the host succeeds; otherwise `InvalidSelector` |
| `Elements.QuerySelector` | src/element.rs:316-321 | `Ok` exactly when the host succeeds, holding the first match wrapped; otherwise `InvalidSelector` |
| `Elements.QuerySelectorAll` | src/element.rs:322-327 | `Ok` exactly when the host succeeds, wrapping the host's list; otherwise `InvalidSelector` |
| `Elements.SetAttribute` | src/element.rs:351-355 | `Ok` exactly when the host succeeds; otherwise `InvalidCharacter` |
| `Elements.SetAttributeNs` | src/element.rs:356-365 | `Ok` exactly when the host succeeds; otherwise `InvalidCharacter` |
| `Elements.ToggleAttribute` | src/element.rs:371-375 | `Ok` with the host's answer exactly when the host succeeds; otherwise `InvalidCharacter` |
| `Elements.SetPointerCapture` | src/element.rs:366-370 | `Ok` exactly when the host succeeds; otherwise `InvalidPointerId` |
| `Elements.ReleasePointerCapture` | src/element.rs:328-332 | `Ok` exactly when the host succeeds; otherwise `InvalidPointerId` |

## Left out

- Event dispatch (`dispatch_event`) and creating host events from a kind (`src/event.rs:39-59`). These are host behaviour. The model stops at the listener list and does not count callback invocations.
- The host's event listener list is modelled as a set of (type, callback, capture) entries. Its order and the `once`/`passive` flags stored in each entry are not modelled, because nothing the crate does depends on them.
- The host's `addEventListener` and `removeEventListener` are modelled as never failing. The `expect!` around each of those calls (`src/event.rs:316-331`, `src/event.rs:336-353`) is therefore not modelled. The same holds for `EventTarget::new` (`src/event.rs:224-229`).
- A target that the host has destroyed before its guard is dropped is not modelled: every target stays alive.
- Re-entrant dropping of a guard from inside its own callback is not modelled, because callbacks are never run.
- Panic messages keep only the words written at the call site. The formatted text around them (the error's debug form and the report URL) is not modelled.
- The third `expect!` arm (`src/macros.rs:23-29`) refers to an unbound `$args`, so it cannot expand. Only the message-bearing arms are modelled.
- `DomRect` coordinates are `f64` in the crate and `real` here. A copy is exact either way, but NaN, ±∞ and −0.0 are not representable.
- Host list lengths and indices are `u32`/`usize` in the crate and unbounded naturals here. No index can reach the width limits.
- A live `NodeList` that the page changes during iteration is not modelled. The host list is a fixed value, and a missing entry inside the fixed length is the fatal case.
- Pass-through wrappers have no logic of their own: attribute, namespace, scroll, client-size and HTML getters and setters; `get_bounding_client_rect`; `has_attribute*`; `has_pointer_capture`; the child-element accessors; the Node tree operations; the Element to Node and Element to EventTarget delegation (`src/element.rs:115-244`); `src/document.rs`; `document()` in `src/lib.rs`.
- `src/fetch.rs`: `build` ignores every builder field and passes only the URL to the host.
- The console macros `println!`, `eprintln!`, `log!` and `error!` are I/O.
- Runtime plumbing is not modelled: wasm-bindgen `Closure` wrapping (only its fresh identity is kept), the `transmute` in `Deref for Node`, and the unused `impl_IEventTarget` macro (`src/event.rs:233-301`).
