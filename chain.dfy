/**
 * The chain-of-responsibility demo (src/bin/chain.rs): handlers are linked
 * through an optional boxed successor; an event goes down the chain until a
 * handler that deals with it takes it. Each handler owns its successor, so
 * the chain is a value; the document holding the first handler is an object.
 */
module Chain {
  import opened Wrappers

  datatype Event = Validate | Save

  /** The two handler types, each with its optional successor. */
  datatype Handler = Validator(next: Option<Handler>) | Keeper(next: Option<Handler>)

  /** A validator takes validation, a keeper takes saving. */
  predicate Takes(h: Handler, event: Event)
  {
    match h
    case Validator(_) => event == Validate
    case Keeper(_) => event == Save
  }

  /** The handlers of the chain starting at `h`, first to last. */
  function Handlers(h: Handler): (hs: seq<Handler>)
    ensures |hs| >= 1 && hs[0] == h
  {
    [h] + if h.next.None? then [] else Handlers(h.next.value)
  }

  /**
   * `execute`: the position in the chain of the handler that deals with the
   * event, or `None` when the event falls off the end of the chain.
   */
  function Execute(h: Handler, event: Event): (r: Option<nat>)
    ensures r.Some? ==> r.value < |Handlers(h)|
  {
    if Takes(h, event) then Some(0)
    else if h.next.None? then None
    else
      var rest := Execute(h.next.value, event);
      if rest.Some? then Some(rest.value + 1) else None
  }

  /** The chain after its first handler is the chain of the successor. */
  lemma HandlersTail(h: Handler, j: nat)
    requires h.next.Some? && 1 <= j < |Handlers(h)|
    ensures Handlers(h)[j] == Handlers(h.next.value)[j - 1]
  {
  }

  /** An event that is taken is taken by the first handler in the chain able to take it. */
  lemma {:induction false} ExecuteTakesFirstMatch(h: Handler, event: Event)
    requires Execute(h, event).Some?
    ensures Takes(Handlers(h)[Execute(h, event).value], event)
    ensures forall j :: 0 <= j < Execute(h, event).value ==> !Takes(Handlers(h)[j], event)
  {
    if !Takes(h, event) {
      var next := h.next.value;
      var k := Execute(next, event).value;
      ExecuteTakesFirstMatch(next, event);
      HandlersTail(h, k + 1);
      forall j | 0 <= j < k + 1
        ensures !Takes(Handlers(h)[j], event)
      {
        if j > 0 {
          HandlersTail(h, j);
        }
      }
    }
  }

  /** An event is dropped exactly when no handler in the chain can take it. */
  lemma {:induction false} ExecuteDropsUnmatched(h: Handler, event: Event)
    ensures Execute(h, event).None? <==> forall j :: 0 <= j < |Handlers(h)| ==> !Takes(Handlers(h)[j], event)
  {
    if Execute(h, event).Some? {
      ExecuteTakesFirstMatch(h, event);
    } else if h.next.Some? {
      var next := h.next.value;
      ExecuteDropsUnmatched(next, event);
      forall j | 0 <= j < |Handlers(h)|
        ensures !Takes(Handlers(h)[j], event)
      {
        if j > 0 {
          HandlersTail(h, j);
        }
      }
    }
  }

  /** `set_next`: the successor is replaced, so the old tail of the chain is gone. */
  function SetNext(h: Handler, next: Handler): (r: Handler)
    ensures r.Validator? == h.Validator?
    ensures Handlers(r) == [r] + Handlers(next)
  {
    match h
    case Validator(_) => Validator(Some(next))
    case Keeper(_) => Keeper(Some(next))
  }

  class Document {
    var handler: Option<Handler>

    constructor ()
      ensures handler == None
    {
      handler := None;
    }

    /** Replaces any chain the document had. */
    method SetHandler(handler: Handler)
      modifies this
      ensures this.handler == Some(handler)
    {
      this.handler := Some(handler);
    }

    /** Sends `Validate` down the chain; without a chain nothing happens. */
    method Validate() returns (takenBy: Option<nat>)
      ensures handler.None? ==> takenBy.None?
      ensures handler.Some? ==> takenBy == Execute(handler.value, Event.Validate)
    {
      if handler.Some? {
        takenBy := Execute(handler.value, Event.Validate);
      } else {
        takenBy := None;
      }
    }

    /** Sends `Save` down the chain; without a chain nothing happens. */
    method Save() returns (takenBy: Option<nat>)
      ensures handler.None? ==> takenBy.None?
      ensures handler.Some? ==> takenBy == Execute(handler.value, Event.Save)
    {
      if handler.Some? {
        takenBy := Execute(handler.value, Event.Save);
      } else {
        takenBy := None;
      }
    }
  }

  /**
   * The demo in `main`: with a validator followed by a keeper, validation is
   * taken by the first handler and saving by the second.
   */
  method ChainDemo() returns (validated: Option<nat>, saved: Option<nat>)
    ensures validated == Some(0) && saved == Some(1)
  {
    var document := new Document();
    var handler := SetNext(Validator(None), Keeper(None));
    document.SetHandler(handler);
    validated := document.Validate();
    saved := document.Save();
  }
}
