/** The registry of modules (`ModuleManager`): modules in registration order,
    found by name and switched on or off together. */
module Manager {
  import opened Modules

  /** The modules a manager lists, as a set of objects. */
  function Members(modules: seq<Module>): set<Module> {
    set m | m in modules
  }

  class ModuleManager {
    var modules: seq<Module>

    constructor ()
      ensures modules == []
    {
      modules := [];
    }

    /** `addModule`: a module goes to the end of the list; null is ignored. */
    method AddModule(m: Module?)
      modifies this`modules
      ensures m != null ==> modules == old(modules) + [m]
      ensures m == null ==> modules == old(modules)
    {
      if m != null {
        modules := modules + [m];
      }
    }

    /** `getModule`: the first registered module with that name, or null when
        none has it. */
    method GetModule(name: string) returns (r: Module?)
      ensures r == null <==> forall i :: 0 <= i < |modules| ==> modules[i].name != name
      ensures r != null ==>
        exists i :: 0 <= i < |modules| && modules[i] == r && r.name == name
          && forall j :: 0 <= j < i ==> modules[j].name != name
    {
      var i := 0;
      while i < |modules|
        invariant 0 <= i <= |modules|
        invariant forall j :: 0 <= j < i ==> modules[j].name != name
      {
        if modules[i].name == name {
          return modules[i];
        }
        i := i + 1;
      }
      return null;
    }

    /** `enableAll`: every listed module ends up enabled, and one that was
        disabled has run `onEnable` exactly once, even when it is listed more
        than once. */
    method EnableAll()
      modifies Members(modules)
      ensures forall m :: m in modules ==> m.enabled
      ensures forall m :: m in modules ==> m.hooks == old(m.hooks) + (if old(m.enabled) then [] else [OnEnable])
      ensures forall m :: m in modules ==> m.keyBind == old(m.keyBind)
    {
      var i := 0;
      while i < |modules|
        invariant 0 <= i <= |modules|
        invariant forall m :: m in modules[..i] ==> m.enabled
        invariant forall m :: m in modules[..i] ==> m.hooks == old(m.hooks) + (if old(m.enabled) then [] else [OnEnable])
        invariant forall m :: m in modules && m !in modules[..i] ==> m.enabled == old(m.enabled) && m.hooks == old(m.hooks)
        invariant forall m :: m in modules ==> m.keyBind == old(m.keyBind)
      {
        assert modules[..i + 1] == modules[..i] + [modules[i]];
        modules[i].Enable();
        i := i + 1;
      }
      assert modules[..i] == modules;
    }

    /** `disableAll`: every listed module ends up disabled, and one that was
        enabled has run `onDisable` exactly once. */
    method DisableAll()
      modifies Members(modules)
      ensures forall m :: m in modules ==> !m.enabled
      ensures forall m :: m in modules ==> m.hooks == old(m.hooks) + (if old(m.enabled) then [OnDisable] else [])
      ensures forall m :: m in modules ==> m.keyBind == old(m.keyBind)
    {
      var i := 0;
      while i < |modules|
        invariant 0 <= i <= |modules|
        invariant forall m :: m in modules[..i] ==> !m.enabled
        invariant forall m :: m in modules[..i] ==> m.hooks == old(m.hooks) + (if old(m.enabled) then [OnDisable] else [])
        invariant forall m :: m in modules && m !in modules[..i] ==> m.enabled == old(m.enabled) && m.hooks == old(m.hooks)
        invariant forall m :: m in modules ==> m.keyBind == old(m.keyBind)
      {
        assert modules[..i + 1] == modules[..i] + [modules[i]];
        modules[i].Disable();
        i := i + 1;
      }
      assert modules[..i] == modules;
    }

    /** `initialize` only logs the number of modules; no state changes. */
    method Initialize()
      ensures modules == old(modules)
    {
    }
  }
}
