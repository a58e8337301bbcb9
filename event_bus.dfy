/** The publish/subscribe hub (`EventBus`): handlers listed per event type, in
    subscription order. A handler is an opaque value here; posting an event
    records, in `dispatched`, each handler the bus invokes, in the order it
    invokes them. What a handler does when invoked is modelled by its owner
    (see `Modules.Module`). */
module Events {
  datatype EventType = Tick | Render | KeyPress | MouseMove

  /** `TickEvent`, `RenderEvent` and `KeyPressEvent` carry their type; only a
      key press carries data. */
  datatype Event = TickEvent | RenderEvent | KeyPressEvent(keyCode: int) | MouseMoveEvent

  function TypeOf(e: Event): EventType {
    match e
    case TickEvent => Tick
    case RenderEvent => Render
    case KeyPressEvent(_) => KeyPress
    case MouseMoveEvent => MouseMove
  }

  class EventBus<H> {
    var subscribers: map<EventType, seq<H>>
    /** Every handler invocation so far, oldest first. */
    var dispatched: seq<H>

    constructor ()
      ensures subscribers == map[] && dispatched == []
    {
      subscribers := map[];
      dispatched := [];
    }

    /** The handlers subscribed under `t`, in subscription order. */
    function Handlers(t: EventType): seq<H>
      reads this
    {
      if t in subscribers then subscribers[t] else []
    }

    /** `subscribe`: the handler goes to the end of its type's list (created
        on first use); no other list changes. */
    method Subscribe(t: EventType, h: H)
      modifies this`subscribers
      ensures Handlers(t) == old(Handlers(t)) + [h]
      ensures forall u :: u != t ==> Handlers(u) == old(Handlers(u))
      ensures subscribers.Keys == old(subscribers.Keys) + {t}
    {
      subscribers := subscribers[t := Handlers(t) + [h]];
    }

    /** `post`: exactly the handlers subscribed under the event's type are
        invoked, each once, in subscription order; nothing is invoked for a
        type without subscribers. The lists are not changed. */
    method Post(e: Event)
      modifies this`dispatched
      ensures dispatched == old(dispatched) + Handlers(TypeOf(e))
      ensures TypeOf(e) !in subscribers ==> dispatched == old(dispatched)
    {
      var t := TypeOf(e);
      if t in subscribers {
        var handlers := subscribers[t];
        var i := 0;
        while i < |handlers|
          invariant 0 <= i <= |handlers|
          invariant dispatched == old(dispatched) + handlers[..i]
        {
          dispatched := dispatched + [handlers[i]];
          i := i + 1;
        }
        assert handlers[..i] == handlers;
      }
    }

    /** `clear`: every list is dropped, so a later post invokes nothing until
        something is subscribed again. */
    method Clear()
      modifies this`subscribers
      ensures subscribers == map[]
      ensures forall t :: Handlers(t) == []
    {
      subscribers := map[];
    }
  }
}
