/** A feature of the client (`Module`): a name, a description, an enabled
    flag and a key binding. The overridable hooks (`onEnable`, `onDisable`,
    `onTick`, `onRender`, `onKeyPress`) have no behaviour of their own here;
    each call of one is recorded in `hooks`, in order. `BaseOnDisable` records
    a call of `onDisable` made from the destructor, where the virtual call
    binds to `Module`'s own empty hook and no override runs. */
module Modules {
  import opened Events

  datatype Hook = OnEnable | OnDisable | BaseOnDisable | OnTick | OnRender | OnKeyPress(keyCode: int)

  /** One of the three closures a module subscribes: it belongs to `owner`
      and reacts to events of type `kind`. */
  datatype Handler = Handler(owner: Module, kind: EventType)

  /** Whether a key press with `keyCode` toggles a module bound to `keyBind`:
      only a non-zero binding that the key equals. */
  predicate TogglesOn(keyBind: int, keyCode: int) {
    keyBind != 0 && keyCode == keyBind
  }

  /** The hook `toggle` runs from a given state. */
  function ToggleHook(wasEnabled: bool): Hook {
    if wasEnabled then OnDisable else OnEnable
  }

  class Module {
    const name: string
    const description: string
    /** The bus the module subscribed to (the process-wide instance). */
    const bus: EventBus<Handler>
    var enabled: bool
    var keyBind: int
    var hooks: seq<Hook>

    /** A new module is disabled, unbound, and has subscribed its tick,
        render and key-press handlers, each appended to its type's list. */
    constructor (name: string, description: string, bus: EventBus<Handler>)
      modifies bus`subscribers
      ensures this.name == name && this.description == description && this.bus == bus
      ensures !enabled && keyBind == 0 && hooks == []
      ensures bus.Handlers(Tick) == old(bus.Handlers(Tick)) + [Handler(this, Tick)]
      ensures bus.Handlers(Render) == old(bus.Handlers(Render)) + [Handler(this, Render)]
      ensures bus.Handlers(KeyPress) == old(bus.Handlers(KeyPress)) + [Handler(this, KeyPress)]
      ensures bus.Handlers(MouseMove) == old(bus.Handlers(MouseMove))
    {
      this.name := name;
      this.description := description;
      this.bus := bus;
      enabled := false;
      keyBind := 0;
      hooks := [];
      new;
      RegisterEventHandlers();
    }

    /** `registerEventHandlers`. */
    method RegisterEventHandlers()
      modifies bus`subscribers
      ensures bus.Handlers(Tick) == old(bus.Handlers(Tick)) + [Handler(this, Tick)]
      ensures bus.Handlers(Render) == old(bus.Handlers(Render)) + [Handler(this, Render)]
      ensures bus.Handlers(KeyPress) == old(bus.Handlers(KeyPress)) + [Handler(this, KeyPress)]
      ensures bus.Handlers(MouseMove) == old(bus.Handlers(MouseMove))
    {
      bus.Subscribe(Tick, Handler(this, Tick));
      bus.Subscribe(Render, Handler(this, Render));
      bus.Subscribe(KeyPress, Handler(this, KeyPress));
    }

    /** `unregisterEventHandlers` does nothing: the handlers stay subscribed
        and are filtered by `enabled` alone. */
    method UnregisterEventHandlers()
      ensures bus.subscribers == old(bus.subscribers)
    {
    }

    /** `enable`: a no-op when already enabled; otherwise the flag is set and
        `onEnable` runs exactly once. */
    method Enable()
      modifies this`enabled, this`hooks
      ensures enabled
      ensures hooks == old(hooks) + (if old(enabled) then [] else [OnEnable])
    {
      if enabled {
        return;
      }
      enabled := true;
      hooks := hooks + [OnEnable];
    }

    /** `disable`: a no-op when already disabled; otherwise the flag is
        cleared and `onDisable` runs exactly once. No handler is
        unsubscribed. */
    method Disable()
      modifies this`enabled, this`hooks
      ensures !enabled
      ensures hooks == old(hooks) + (if old(enabled) then [OnDisable] else [])
      ensures bus.subscribers == old(bus.subscribers)
    {
      if !enabled {
        return;
      }
      enabled := false;
      hooks := hooks + [OnDisable];
      UnregisterEventHandlers();
    }

    /** `toggle` flips the flag, running the matching hook. */
    method Toggle()
      modifies this`enabled, this`hooks
      ensures enabled == !old(enabled)
      ensures hooks == old(hooks) + [ToggleHook(old(enabled))]
    {
      if enabled {
        Disable();
      } else {
        Enable();
      }
    }

    method SetKeyBind(key: int)
      modifies this`keyBind
      ensures keyBind == key
    {
      keyBind := key;
    }

    /** The tick handler: `onTick` runs only while enabled. */
    method HandleTick()
      modifies this`hooks
      ensures hooks == old(hooks) + (if enabled then [OnTick] else [])
    {
      if enabled {
        hooks := hooks + [OnTick];
      }
    }

    /** The render handler: `onRender` runs only while enabled. */
    method HandleRender()
      modifies this`hooks
      ensures hooks == old(hooks) + (if enabled then [OnRender] else [])
    {
      if enabled {
        hooks := hooks + [OnRender];
      }
    }

    /** The key-press handler: a key equal to a non-zero binding toggles the
        module whatever its state (binding 0 never toggles); then
        `onKeyPress` runs if the module is enabled at that point. */
    method HandleKeyPress(keyCode: int)
      modifies this`enabled, this`hooks
      ensures enabled == (if TogglesOn(keyBind, keyCode) then !old(enabled) else old(enabled))
      ensures keyBind == 0 ==> enabled == old(enabled)
      ensures hooks == old(hooks)
        + (if TogglesOn(keyBind, keyCode) then [ToggleHook(old(enabled))] else [])
        + (if enabled then [OnKeyPress(keyCode)] else [])
    {
      if keyBind != 0 && keyCode == keyBind {
        Toggle();
      }
      if enabled {
        hooks := hooks + [OnKeyPress(keyCode)];
      }
    }

    /** `~Module`: `disable` only when enabled. The destructor runs while the
        object is already a plain `Module`, so the `onDisable` that `disable`
        calls is the base class's empty one, never a feature's override. */
    method Destroy()
      modifies this`enabled, this`hooks
      ensures !enabled
      ensures hooks == old(hooks) + (if old(enabled) then [BaseOnDisable] else [])
      ensures bus.subscribers == old(bus.subscribers)
    {
      if enabled {
        enabled := false;
        hooks := hooks + [BaseOnDisable];
        UnregisterEventHandlers();
      }
    }
  }

  /** What invoking a subscribed handler does for an event of its kind. */
  method Run(h: Handler, e: Event)
    requires TypeOf(e) == h.kind
    modifies h.owner`enabled, h.owner`hooks
    ensures h.kind == Tick ==> h.owner.hooks == old(h.owner.hooks) + (if h.owner.enabled then [OnTick] else [])
    ensures h.kind == Render ==> h.owner.hooks == old(h.owner.hooks) + (if h.owner.enabled then [OnRender] else [])
    ensures h.kind != KeyPress ==> h.owner.enabled == old(h.owner.enabled)
    ensures e.KeyPressEvent? ==>
      && h.owner.enabled == (if TogglesOn(h.owner.keyBind, e.keyCode) then !old(h.owner.enabled) else old(h.owner.enabled))
      && h.owner.hooks == old(h.owner.hooks)
        + (if TogglesOn(h.owner.keyBind, e.keyCode) then [ToggleHook(old(h.owner.enabled))] else [])
        + (if h.owner.enabled then [OnKeyPress(e.keyCode)] else [])
  {
    match e
    case TickEvent => h.owner.HandleTick();
    case RenderEvent => h.owner.HandleRender();
    case KeyPressEvent(key) => h.owner.HandleKeyPress(key);
    case MouseMoveEvent =>
  }
}
