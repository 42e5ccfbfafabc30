# Design-pattern demos, modelled and verified in Dafny

This project models the demos in `src/bin` of a Rust design-pattern corpus that carry real logic, and proves what each one promises:

- the weak-reference notification registries of the observer and mediator demos;
- the article workflow state machine;
- the memento undo stack;
- the cursor iterator;
- the car builder;
- the composite weights;
- the flyweight cache;
- the chain of responsibility;
- the door factory's name check;
- the template method's extension check;
- the prototype clone.

There is one Dafny module per Rust file. Two shared modules sit beside them:

- `Wrappers` holds Rust's `Option`.
- `WeakRegistry` holds `Retain`, the model of `Vec::retain(|x| x.upgrade().is_some())`, and its lemmas. The observer and mediator modules both use it.

Code that mutates in place is modelled as Dafny classes whose methods say their whole new state:

- the shop and its subscribers;
- the mediator and its users;
- the state and memento articles;
- the iterator;
- the composite containers;
- the flyweight factory and forest;
- the chain's document.

Code that works on values is modelled as datatypes, functions and lemmas: the builder, the composite weights, the handler chain, the factory, the template and the prototype.

How the source's runtime mechanisms are modelled:

- **Weak handles.** A `Weak` handle is the object it points to. Whether a handle still resolves is decided by the set `alive` passed to `notify`/`send_msg`. Nothing inside either call can drop an owner, so liveness is fixed for the whole call. After the call, the handle list is the old list filtered to `alive`, in the same order.
- **Console output.** In the observer, mediator and chain demos, each `println!` that reports a delivery becomes a returned value:
  - the observer's `Notify` returns the subscribers it reached;
  - the mediator returns one `Delivery` per `recv` call;
  - the chain returns the position of the handler that took the event.

  What the other `main` functions print is stated in their demo's contract:
  - the contents read back by the memento demo;
  - the users the iterator yields;
  - the weights in the composite demo;
  - whether the car is built, the door, and whether each document opens.

  The state demo's transition messages are not returned (see "## Left out"). The flyweight and prototype demos print nothing.
- **Demos.** Each `main` is a method, or for pure code a lemma or function, whose contract states the outcome of the demo.

About the code as it stands:

- `notify` takes no event argument. Every notification delivers the list `["Socks"]`.
- The demo in `observer.rs` subscribes three persons and notifies them. It then drops person 3, and two more notifications follow.

## Model

| member | source | states |
|---|---|---|
| WeakRegistry.Retain | src/bin/observer.rs:43-45 | The pruning pass keeps at most as many handles as there were |
| WeakRegistry.RetainMembership | src/bin/observer.rs:44 | A handle survives pruning iff it was in the list and its referent is alive |
| WeakRegistry.RetainCount | src/bin/observer.rs:44 | Pruning keeps every copy of a live handle and no copy of a dead one |
| WeakRegistry.RetainAllLive | src/bin/observer.rs:43-45 | When every handle resolves, the list is left exactly as it was |
| WeakRegistry.RetainDropsDead | src/bin/observer.rs:43-45 | When some handle is dead, pruning makes the list strictly shorter |
| WeakRegistry.RetainIdempotent | src/bin/observer.rs:44 | A second pruning pass with the same live set changes nothing |
| WeakRegistry.RetainAppend | src/bin/observer.rs:44 | Pruning a concatenation prunes each part, and survivors keep their relative order |
| Observer.Person.constructor | src/bin/observer.rs:55-60 | A new person has the given name and no products |
| Observer.Person.Event | src/bin/observer.rs:64-70 | Every discount item is appended to `products`, in order; the name is a constant and cannot change |
| Observer.Shop.constructor | src/bin/observer.rs:26-28 | A new shop has no subscribers |
| Observer.Shop.AddSubscriber | src/bin/observer.rs:32-34 | Exactly one handle is appended at the end; existing handles stay, duplicates are accepted |
| Observer.Shop.Notify | src/bin/observer.rs:35-46 | Reaches, in list order, exactly the handles that resolve; each subscriber gets one `["Socks"]` per live handle to it (so twice if registered twice), dead ones get nothing. The new list is the old list filtered to the live handles, in order |
| Observer.Deliveries | src/bin/observer.rs:37-42 | A subscriber receives at least one announcement iff it is alive and subscribed |
| Observer.DeliveredMatchesCount | src/bin/observer.rs:37-42 | The subscribers reached by `notify` occur in its log exactly as often as they receive announcements |
| Observer.RepeatAdd | src/bin/observer.rs:66-68 | Receiving m announcements and then n is receiving m + n |
| Observer.SubscribeThree | src/bin/observer.rs:74-82 | Three distinct fresh persons are subscribed in order with empty product lists |
| Observer.SubscribeAndNotifyThree | src/bin/observer.rs:74-84 | The first notification reaches all three persons once and keeps all three handles |
| Observer.NotifyPair | src/bin/observer.rs:86 | A notification with both remaining persons alive adds one "Socks" to each and keeps the list |
| Observer.ObserverDemo | src/bin/observer.rs:73-87 | The subscriber count goes 3, 2, 2; persons 1 and 2 end with three "Socks", person 3 with one |
| Mediator.MediatorColleague.constructor | src/bin/mediator.rs:25-27 | A new mediator has no colleagues |
| Mediator.MediatorColleague.AddColleague | src/bin/mediator.rs:47-49 | Exactly one handle is appended at the end; neither handles nor ids are checked for duplicates |
| Mediator.MediatorColleague.SendMsg | src/bin/mediator.rs:31-46 | `recv(msg, from)` is called on exactly the live colleagues whose id is `to`, in list order, with `msg` and `from` unchanged; afterwards dead handles are gone and survivors keep their order |
| Mediator.User.constructor | src/bin/mediator.rs:58-60 | A user has the given id and mediator |
| Mediator.User.Recv | src/bin/mediator.rs:64-66 | Reports receipt by this user of `msg` from `from` |
| Mediator.User.Send | src/bin/mediator.rs:67-71 | Does nothing if the mediator is gone; otherwise it is `send_msg` with `from` set to this user's id |
| Mediator.RecipientsExactly | src/bin/mediator.rs:33-39 | A colleague is reached iff it is registered, alive and has the target id; every live holder of that id is reached, once per registration |
| Mediator.UnknownAddressDropped | src/bin/mediator.rs:31-46 | A message to an id no live colleague has reaches nobody, with no error |
| Mediator.ThreeUsersAddressed | src/bin/mediator.rs:88-89 | Among live users 1, 2, 3, the address 3 reaches only user 3 and the address 1 only user 1 |
| Mediator.RegisterThree | src/bin/mediator.rs:78-85 | Users 1, 2, 3 are registered in order with one fresh mediator |
| Mediator.MediatorDemo | src/bin/mediator.rs:77-90 | User 3 gets "Hello" from 1, user 1 gets "Hi" from 3, and nobody else gets anything |
| ArticleState.Step | src/bin/state.rs:21-75 | Any edit stores the text and returns to Draft. Approve reaches Approved iff not Published, and leaves Published as it is. Publish reaches Published iff not in Draft, and leaves Draft as it is. Approve and publish never change the content |
| ArticleState.ContentIsLastEdit | src/bin/state.rs:21-75 | After any sequence of operations, the content is the text of the last edit, or the initial content if there was none |
| ArticleState.PublishedNeedsApproval | src/bin/state.rs:21-75 | From Draft, being Approved needs an approve with no edit after it. Being Published needs such an approve followed later by a publish |
| ArticleState.Handle | src/bin/state.rs:21-75 | Each state's transition sets the article's state (and, on edit, content) as the table says and leaves the state present |
| ArticleState.Article.constructor | src/bin/state.rs:82-84 | A new article has empty content and is a draft |
| ArticleState.Article.Dispatch | src/bin/state.rs:85-99 | The taken state is always put back after the transition; with no state, nothing happens |
| ArticleState.Article.SetContent | src/bin/state.rs:85-89 | From any state, the content becomes the text and the state Draft |
| ArticleState.Article.Approve | src/bin/state.rs:90-94 | The state follows the approve column of the table; content unchanged |
| ArticleState.Article.Publish | src/bin/state.rs:95-99 | The state follows the publish column of the table; content unchanged |
| ArticleState.StateDemo | src/bin/state.rs:102-109 | The demo ends Published with content "Pattern state!!!" |
| Memento.MementoArticle.GetState | src/bin/memento.rs:17-19 | Returns exactly the saved content (the memento is rebuilt from it) and changes nothing, although the source takes `&mut self` |
| Memento.AfterSet | src/bin/memento.rs:43-48 | The previous content, if there was one, is pushed on top as a memento; nothing else in the stack changes, and the new content is stored |
| Memento.AfterUndo | src/bin/memento.rs:31-36 | Empty history: content becomes `None`, history stays empty. Otherwise the top memento is removed and becomes the content. Either way, no content implies no history |
| Memento.SetThenUndo | src/bin/memento.rs:31-48 | Under the invariant (no content implies no history), setting content then undoing restores the article exactly |
| Memento.UndoAllSets | src/bin/memento.rs:31-48 | Undoing as many times as contents were set returns to the starting article |
| Memento.Article.constructor | src/bin/memento.rs:28-30 | A new article has no content and no history |
| Memento.Article.Undo | src/bin/memento.rs:31-36 | The article changes as `AfterUndo` says |
| Memento.Article.GetContent | src/bin/memento.rs:37-42 | Returns exactly the stored content and changes nothing |
| Memento.Article.SetContent | src/bin/memento.rs:43-48 | The article changes as `AfterSet` says |
| Memento.MementoDemo | src/bin/memento.rs:51-68 | The demo reads None, First, Second, First, None, None, Third, None |
| Iterator.Colleagues.constructor | src/bin/iterator.rs:19-21 | A new collection is empty |
| Iterator.Colleagues.AddUser | src/bin/iterator.rs:22-24 | The user is appended at the end |
| Iterator.Colleagues.Iterator | src/bin/iterator.rs:25-27 | A fresh cursor starts at 0 over the current users |
| Iterator.ColleaguesIter.constructor | src/bin/iterator.rs:26 | A cursor starts at position 0 |
| Iterator.ColleaguesIter.Next | src/bin/iterator.rs:37-43 | Yields nothing iff at the end, and then stays put, so it keeps yielding nothing. Otherwise it yields `users[pos]` and advances by one. The position never passes the end |
| Iterator.IterateAll | src/bin/iterator.rs:37-52 | Driving a fresh cursor to its end yields all users in insertion order, duplicates included |
| Iterator.IteratorDemo | src/bin/iterator.rs:45-53 | The demo yields John (1), Smith (2), Kate (1) |
| Builder.New | src/bin/builder.rs:44-50 | A fresh builder has no part chosen |
| Builder.Build | src/bin/builder.rs:51-61 | A car exists iff engine and transmission are set; it carries exactly the chosen engine, transmission and navigation (`None` if never set) |
| Builder.Transmission | src/bin/builder.rs:62-65 | Replaces the transmission, whatever was there, and keeps the other parts |
| Builder.Engine | src/bin/builder.rs:66-69 | Replaces the engine and keeps the other parts |
| Builder.Navigation | src/bin/builder.rs:70-73 | Replaces the navigation and keeps the other parts |
| Builder.ApplyKeepsLastOfEachPart | src/bin/builder.rs:62-73 | After any chain of setters each part is the last one chosen for it, or the starting one |
| Builder.LastChoicePresent | src/bin/builder.rs:62-73 | A part has a last choice iff some call in the chain chose it |
| Builder.BuildAfterSteps | src/bin/builder.rs:51-73 | Building after a chain of setters on a fresh builder succeeds iff the chain set an engine and a transmission, in any order |
| Builder.SameChoicesSameCar | src/bin/builder.rs:62-73 | Call order matters only through the last choice of each part |
| Builder.MainCar | src/bin/builder.rs:76-85 | The demo's chain builds a gasoline, automatic car with `Glonas` navigation |
| Composite.Weight | src/bin/composite.rs:29-81 | Wood weighs 320, a car 2200, and a sea container or tanker the total weight of its items |
| Composite.TotalWeight | src/bin/composite.rs:60-62 | An empty container weighs 0 |
| Composite.TotalWeightAppend | src/bin/composite.rs:60-62 | The weight of two loads side by side is the sum of their weights |
| Composite.TotalWeightRemove | src/bin/composite.rs:60-62 | Removing one item lightens the load by exactly its weight |
| Composite.TotalWeightPermutation | src/bin/composite.rs:60-62 | The order of the items does not change a container's weight |
| Composite.WeightCountsLeaves | src/bin/composite.rs:29-43 | Any nested component weighs 320 per wood plus 2200 per car it contains, at any depth |
| Composite.Container.constructor | src/bin/composite.rs:50-52 | A new container is empty |
| Composite.Container.AddCargo | src/bin/composite.rs:55-57 | The cargo is appended and the container gets heavier by exactly its weight |
| Composite.LoadContainers | src/bin/composite.rs:88-96 | The two sea containers of the demo hold wood, wood, car and wood, car, car |
| Composite.CompositeDemo | src/bin/composite.rs:83-112 | The demo weighs 2840, 4720, 2200, and the tanker 9760 |
| Flyweight.TreeExtendData.constructor | src/bin/flyweight.rs:65-69 | Shared data holds the given colour, texture name and texture |
| Flyweight.Forest.constructor | src/bin/flyweight.rs:37-39 | A new forest has no trees |
| Flyweight.Forest.Add | src/bin/flyweight.rs:40-42 | The tree is appended |
| Flyweight.TreeFactory.constructor | src/bin/flyweight.rs:50-54 | A new factory has an empty cache |
| Flyweight.TreeFactory.Make | src/bin/flyweight.rs:55-77 | Afterwards the key is cached. An existing entry is never replaced (the first texture wins). The cache grows by exactly one iff the key was new. The tree shares the cached data, which has the requested colour and texture name |
| Flyweight.MakeTwice | src/bin/flyweight.rs:64-75 | Two trees made with the same key share their data, which keeps the first texture |
| Flyweight.MakeFirstThree | src/bin/flyweight.rs:82-84 | Three calls with three new keys give three entries with distinct data |
| Flyweight.MakeSecondThree | src/bin/flyweight.rs:85-87 | Repeating cached keys leaves the cache unchanged and reuses the cached data |
| Flyweight.PlantSix | src/bin/flyweight.rs:88-93 | Six additions leave the six trees in order |
| Flyweight.FlyweightDemo | src/bin/flyweight.rs:79-94 | The demo leaves 3 cache entries and 6 trees; trees three apart share data, the first three do not |
| Chain.Execute | src/bin/chain.rs:36-74 | The handler reported is one of the chain's |
| Chain.ExecuteTakesFirstMatch | src/bin/chain.rs:36-74 | A handled event is taken by the first handler in the chain able to take it, and by no other |
| Chain.ExecuteDropsUnmatched | src/bin/chain.rs:36-74 | An event is dropped iff no handler in the chain can take it |
| Chain.SetNext | src/bin/chain.rs:48-50 | The successor is replaced: the chain becomes this handler followed by the new successor's chain |
| Chain.Document.constructor | src/bin/chain.rs:84-88 | A new document has no handler |
| Chain.Document.SetHandler | src/bin/chain.rs:89-91 | The handler is replaced |
| Chain.Document.Validate | src/bin/chain.rs:92-96 | Without a handler nothing happens; otherwise `Validate` goes down the chain |
| Chain.Document.Save | src/bin/chain.rs:97-101 | Without a handler nothing happens; otherwise `Save` goes down the chain |
| Chain.ChainDemo | src/bin/chain.rs:104-112 | With Validator then Keeper, Validate is taken by the first handler and Save by the second |
| Factory.Utf8Len | src/bin/factory.rs:47 | `str::len` of a name counts between one and four bytes per character |
| Factory.Utf8LenBounds | src/bin/factory.rs:47 | A name's byte length is between its character count and four times it, and equals it iff the name is ASCII |
| Factory.NewDoor | src/bin/factory.rs:31-36 | The door has the given name and colour |
| Factory.Make | src/bin/factory.rs:42-51 | No door iff the name is over 10 bytes (exactly 10 is accepted); otherwise the door has the given name and colour |
| Factory.MakeByCharacters | src/bin/factory.rs:47-49 | Over 10 characters is always refused, at most 2 always accepted, and an ASCII name is accepted iff it has at most 10 characters |
| Factory.MainDoor | src/bin/factory.rs:54-57 | "Wood Door" gives a white door |
| Template.AllowExtension | src/bin/template.rs:28-43 | Each type's extension is non-empty and holds no dot or separator; Word's is "doc" and PDF's is "pdf" |
| Template.Extension | src/bin/template.rs:14 | An extension never contains a dot or a separator |
| Template.ExtensionOfStemDotExt | src/bin/template.rs:14 | A path whose final component is a non-empty stem (which may itself hold dots), a dot and a dot-free, separator-free text has that text as extension, unless the component is ".." |
| Template.ExtensionIsSuffix | src/bin/template.rs:14 | Conversely, a path with an extension ends, trailing separators aside, with a dot and that extension, preceded by a character of the same final component |
| Template.Open | src/bin/template.rs:13-18 | Opens iff the path's extension equals the type's allowed extension ("doc" for Word, "pdf" for PDF) |
| Template.OpensOwnExtension | src/bin/template.rs:13-43 | Each type opens a file named with its own extension, and the other type refuses that file |
| Template.TemplateDemo | src/bin/template.rs:45-54 | Word opens "/home/user/rules.doc", PDF does not |
| Template.MultiDotName | src/bin/template.rs:14 | Only the text after the last dot is the extension: "/home/user/rules.v2.doc" has "doc" |
| Prototype.Clone | src/bin/prototype.rs:20-27 | The clone keeps the name and has force 90, whatever the original's force |
| Prototype.CloneIsCopyIff | src/bin/prototype.rs:20-27 | A clone equals its original iff the original's force is 90 |
| Prototype.Army | src/bin/prototype.rs:47-51 | The loop yields 2 × rounds warriors, alternately clones of the Knight and the Farmer prototype |
| Prototype.PrototypeDemo | src/bin/prototype.rs:29-52 | Ten warriors, Knight and Farmer in turn, all of force 90; the Farmer's clone differs from its prototype (force 40) |

## Left out

- Rc/Weak reference counting and RefCell borrow checking: liveness is the `alive` set given to each call. Borrow panics from re-entrant calls cannot arise in these demos and are not modelled.
- Observer.Shop.Notify: liveness cannot change during the loop, so a subscriber dropped while a notification is in progress is not modelled. In this code none can be: `Person::event` (observer.rs:64-70) only pushes and prints, and `User::recv` (mediator.rs:64-66) only prints.
- Mediator.User.Send: whether the user's weak mediator handle still resolves is the parameter `mediatorAlive`.
- `User::id` of the mediator is the constant field `id`. It needs no member of its own.
- The exact `println!` text of every demo: the model returns what is printed as values.
- ArticleState: the transition messages printed by state.rs (lines 23, 28, 44, 52 and 65, such as "DraftState -> ApprovedState") are not returned. Instead, the contract of each transition (`Step`, `Handle`, `Article.SetContent`, `Article.Approve`, `Article.Publish`) gives the new state and content.
- ArticleState: the three boxed state objects are the three values of `State`. The state field is `None` only inside a transition, so `Article` starts and ends every public call with a state.
- Memento.MementoArticle.GetState takes `&mut self` but changes nothing, so it is a pure function.
- Composite: `weight` returns `u32`. The model uses unbounded `nat`, so the overflow panic (debug) or wrap-around (release) on very heavy loads is not modelled.
- Composite: `SeaContainer` and `Tanker` have identical code. Each is one `Container` class with a kind, and one constructor of `Component`.
- Flyweight: the `f32` coordinates are carried as their bit patterns and never computed with. The demo's coordinates are the bit patterns of its values. Textures are byte sequences. `Rc` sharing is object identity.
- Template.Extension: only the plain-path part of `Path::extension` is modelled: the final component after trimming trailing separators, then the text after its last dot. These are not modelled: `.` components (Rust gives "doc" for `rules.doc/.`) and platform-specific prefixes.
- Template.Open: a path without an extension makes the source panic on `unwrap`, so the model requires an extension.
- Prototype.Army: both keys must be present, because `unwrap` would panic otherwise. The `HashMap` is a `map`; its iteration order plays no part.
- Iterator: the cursor borrows the user list, so the list cannot change while a cursor exists. The cursor holds its own copy of the list.
- The files outside this model: abstract_factory, factory_method, command, visitor, bridge, proxy, template_method and facade only print. decorator's cost is `f32` arithmetic. strategy only calls `slice::sort`. singleton rests on a global `OnceLock`/`Mutex`. adapter is a plain copy.
