/** Resolution of the game's classes and members (`MinecraftClasses`). Five
    required classes are looked up in a fixed order, each by its MCP name and
    then by its obfuscated name; the first class that cannot be found stops
    initialization. Within a found class every member handle is resolved by a
    fixed-order fallback chain and an unresolved member is not an error.

    Each `resolve` stage is a function from the handles before it to the
    handles after it and whether its class was found; the methods of
    `MinecraftClasses` are proved to perform exactly these stages. */
module Minecraft {
  import opened Options
  import opened Jvm
  import opened JniUtils
  import Introspection

  datatype Capabilities = Capabilities(
    isFlying: Option<FieldId>,
    allowFlying: Option<FieldId>,
    disableDamage: Option<FieldId>,
    isCreativeMode: Option<FieldId>)

  datatype EntityFields = EntityFields(
    posX: Option<FieldId>, posY: Option<FieldId>, posZ: Option<FieldId>,
    rotationYaw: Option<FieldId>, rotationPitch: Option<FieldId>,
    motionX: Option<FieldId>, motionY: Option<FieldId>, motionZ: Option<FieldId>,
    onGround: Option<FieldId>)

  /** Everything `MinecraftClasses` resolves. */
  datatype Handles = Handles(
    minecraftClass: Option<ClassRef>,
    entityPlayerClass: Option<ClassRef>,
    entityClass: Option<ClassRef>,
    worldClass: Option<ClassRef>,
    playerCapabilitiesClass: Option<ClassRef>,
    theMinecraftField: Option<FieldId>,
    thePlayerField: Option<FieldId>,
    theWorldField: Option<FieldId>,
    capabilitiesField: Option<FieldId>,
    loadedEntityListField: Option<FieldId>,
    playerCapabilities: Capabilities,
    entityFields: EntityFields)

  /** The handles before anything is resolved. The constructor leaves the two
      structs out of its initializer list, but the only instance is a
      function-local static, which is zero-initialized before the constructor
      runs, so their members start null as well. */
  const Unresolved := Handles(None, None, None, None, None, None, None, None, None, None,
    Capabilities(None, None, None, None),
    EntityFields(None, None, None, None, None, None, None, None, None))

  /** A required class: its MCP name, then its obfuscated name. */
  datatype ClassNames = ClassNames(mcp: string, obf: string)

  const MinecraftNames := ClassNames("net/minecraft/client/Minecraft", "ave")
  const EntityPlayerNames := ClassNames("net/minecraft/client/entity/EntityPlayerSP", "bew")
  const EntityNames := ClassNames("net/minecraft/entity/Entity", "pk")
  const WorldNames := ClassNames("net/minecraft/world/World", "adm")
  const CapabilitiesNames := ClassNames("net/minecraft/entity/player/PlayerCapabilities", "rz")

  /** The required classes, in the order `initialize` resolves them. */
  const RequiredClasses: seq<ClassNames> := [MinecraftNames, EntityPlayerNames, EntityNames, WorldNames, CapabilitiesNames]

  /** The class handle of stage `k`. */
  function ClassSlot(h: Handles, k: nat): Option<ClassRef>
    requires k < 5
  {
    match k
    case 0 => h.minecraftClass
    case 1 => h.entityPlayerClass
    case 2 => h.entityClass
    case 3 => h.worldClass
    case 4 => h.playerCapabilitiesClass
  }

  /** A class lookup tries the MCP name first and the obfuscated name second,
      and misses only when neither is loaded. */
  function ResolveClass(env: Env?, names: ClassNames): (r: Option<ClassRef>)
    ensures r.Some? <==> env != null && (names.mcp in env.classes || names.obf in env.classes)
    ensures env != null && names.mcp in env.classes ==> r == Some(ClassRef(names.mcp))
    ensures env != null && names.mcp !in env.classes && names.obf in env.classes ==> r == Some(ClassRef(names.obf))
  {
    OrElse(ClassLookup(env, names.mcp), ClassLookup(env, names.obf))
  }

  /** A member tried under its MCP name and signature, then its obfuscated ones. */
  function NamedField(env: Env?, c: Option<ClassRef>, mcpName: string, mcpSig: string, obfName: string, obfSig: string, isStatic: bool): Option<FieldId> {
    OrElse(FieldLookup(env, c, mcpName, mcpSig, isStatic), FieldLookup(env, c, obfName, obfSig, isStatic))
  }

  const CapabilitiesSig := "Lnet/minecraft/entity/player/PlayerCapabilities;"

  /** The four strategies for the player's `capabilities` field, in order:
      the MCP name, the obfuscated name, then a scan for a field of the
      obfuscated type and one for a field of the MCP type. */
  function CapabilitiesStrategies(env: Env?, c: Option<ClassRef>): seq<Option<FieldId>> {
    [ FieldLookup(env, c, "capabilities", CapabilitiesSig, false),
      FieldLookup(env, c, "bW", "Lrz;", false),
      SignatureLookup(env, c, "Lrz;"),
      SignatureLookup(env, c, CapabilitiesSig) ]
  }

  /** The `capabilities` field as `findEntityPlayerClass` resolves it, each
      strategy tried only while the previous ones returned null. */
  function CapabilitiesField(env: Env?, c: Option<ClassRef>): Option<FieldId> {
    OrElse(OrElse(OrElse(
      FieldLookup(env, c, "capabilities", CapabilitiesSig, false),
      FieldLookup(env, c, "bW", "Lrz;", false)),
      SignatureLookup(env, c, "Lrz;")),
      SignatureLookup(env, c, CapabilitiesSig))
  }

  /** The resolved `capabilities` field is the result of the first strategy
      that succeeded, in strict order. */
  lemma CapabilitiesFieldFirstSuccess(env: Env?, c: Option<ClassRef>)
    ensures CapabilitiesField(env, c) == FirstSome(CapabilitiesStrategies(env, c))
  {
    var s := CapabilitiesStrategies(env, c);
    OrElseChainIsFirstSome(s);
    assert s[..3][..2][..1] == [s[0]];
  }

  /** The three strategies for a capability flag: its full name, its
      obfuscated letter, then its rank among the boolean fields. */
  function FlagStrategies(env: Env?, c: Option<ClassRef>, name: string, letter: string, index: int): seq<Option<FieldId>> {
    [FieldLookup(env, c, name, "Z", false), FieldLookup(env, c, letter, "Z", false), BooleanLookup(env, c, index)]
  }

  /** A capability flag as `findPlayerCapabilitiesClass` resolves it. */
  function CapabilityFlag(env: Env?, c: Option<ClassRef>, name: string, letter: string, index: int): Option<FieldId> {
    OrElse(OrElse(FieldLookup(env, c, name, "Z", false), FieldLookup(env, c, letter, "Z", false)), BooleanLookup(env, c, index))
  }

  /** The resolved flag is the result of the first strategy that succeeded. */
  lemma CapabilityFlagFirstSuccess(env: Env?, c: Option<ClassRef>, name: string, letter: string, index: int)
    ensures CapabilityFlag(env, c, name, letter, index) == FirstSome(FlagStrategies(env, c, name, letter, index))
  {
    var s := FlagStrategies(env, c, name, letter, index);
    OrElseChainIsFirstSome(s);
    assert s[..2][..1] == [s[0]];
  }

  /** `findMinecraftClass`. */
  function MinecraftStage(env: Env?, h: Handles): (Handles, bool)
  {
    var c := ResolveClass(env, MinecraftNames);
    if c.None? then (h.(minecraftClass := None), false)
    else
      (h.(minecraftClass := c,
          theMinecraftField := NamedField(env, c, "theMinecraft", "Lnet/minecraft/client/Minecraft;", "S", "Lave;", true),
          thePlayerField := NamedField(env, c, "thePlayer", "Lnet/minecraft/client/entity/EntityPlayerSP;", "h", "Lbew;", false),
          theWorldField := NamedField(env, c, "theWorld", "Lnet/minecraft/client/multiplayer/WorldClient;", "f", "Lbdb;", false)),
       true)
  }

  /** `findEntityPlayerClass`. */
  function EntityPlayerStage(env: Env?, h: Handles): (Handles, bool)
  {
    var c := ResolveClass(env, EntityPlayerNames);
    if c.None? then (h.(entityPlayerClass := None), false)
    else (h.(entityPlayerClass := c, capabilitiesField := CapabilitiesField(env, c)), true)
  }

  /** `findEntityClass`. */
  function EntityStage(env: Env?, h: Handles): (Handles, bool)
  {
    var c := ResolveClass(env, EntityNames);
    if c.None? then (h.(entityClass := None), false)
    else
      (h.(entityClass := c, entityFields := EntityFieldsOf(env, c)), true)
  }

  /** The position, rotation, motion and ground fields of the entity class,
      each by its MCP name and then by its obfuscated letter. */
  function EntityFieldsOf(env: Env?, c: Option<ClassRef>): EntityFields {
    EntityFields(
      NamedField(env, c, "posX", "D", "s", "D", false),
      NamedField(env, c, "posY", "D", "t", "D", false),
      NamedField(env, c, "posZ", "D", "u", "D", false),
      NamedField(env, c, "rotationYaw", "F", "y", "F", false),
      NamedField(env, c, "rotationPitch", "F", "z", "F", false),
      NamedField(env, c, "motionX", "D", "v", "D", false),
      NamedField(env, c, "motionY", "D", "w", "D", false),
      NamedField(env, c, "motionZ", "D", "x", "D", false),
      NamedField(env, c, "onGround", "Z", "C", "Z", false))
  }

  /** `findWorldClass`. */
  function WorldStage(env: Env?, h: Handles): (Handles, bool)
  {
    var c := ResolveClass(env, WorldNames);
    if c.None? then (h.(worldClass := None), false)
    else
      (h.(worldClass := c,
          loadedEntityListField := NamedField(env, c, "loadedEntityList", "Ljava/util/List;", "h", "Ljava/util/List;", false)),
       true)
  }

  /** `findPlayerCapabilitiesClass`. */
  function CapabilitiesStage(env: Env?, h: Handles): (Handles, bool)
  {
    var c := ResolveClass(env, CapabilitiesNames);
    if c.None? then (h.(playerCapabilitiesClass := None), false)
    else
      (h.(playerCapabilitiesClass := c,
          playerCapabilities := Capabilities(
            CapabilityFlag(env, c, "isFlying", "c", 2),
            CapabilityFlag(env, c, "allowFlying", "b", 1),
            CapabilityFlag(env, c, "disableDamage", "a", 0),
            CapabilityFlag(env, c, "isCreativeMode", "d", 3))),
       true)
  }

  /** Stage `k` of `initialize`: it reports exactly whether its own class was
      found, and touches no other class handle. */
  function Stage(k: nat, env: Env?, h: Handles): (r: (Handles, bool))
    requires k < 5
    ensures r.1 <==> ResolveClass(env, RequiredClasses[k]).Some?
    ensures ClassSlot(r.0, k) == ResolveClass(env, RequiredClasses[k])
    ensures forall j :: 0 <= j < 5 && j != k ==> ClassSlot(r.0, j) == ClassSlot(h, j)
  {
    match k
    case 0 => MinecraftStage(env, h)
    case 1 => EntityPlayerStage(env, h)
    case 2 => EntityStage(env, h)
    case 3 => WorldStage(env, h)
    case 4 => CapabilitiesStage(env, h)
  }

  /** The stages from `k` on, stopping at the first whose class is missing;
      `StagesFrom(0, env, h)` is the class-finding part of `initialize`. */
  function StagesFrom(k: nat, env: Env?, h: Handles): (Handles, bool)
    requires k <= 5
    decreases 5 - k
  {
    if k == 5 then (h, true)
    else
      var (h', found) := Stage(k, env, h);
      if !found then (h', false) else StagesFrom(k + 1, env, h')
  }

  /** What the class-finding part of `initialize` does, written as the chain
      of its five calls with the short-circuit after each. */
  function InitChain(env: Env?, h: Handles): (Handles, bool) {
    var (h1, ok1) := MinecraftStage(env, h);
    if !ok1 then (h1, false) else
    var (h2, ok2) := EntityPlayerStage(env, h1);
    if !ok2 then (h2, false) else
    var (h3, ok3) := EntityStage(env, h2);
    if !ok3 then (h3, false) else
    var (h4, ok4) := WorldStage(env, h3);
    if !ok4 then (h4, false) else
    CapabilitiesStage(env, h4)
  }

  /** The chain of calls is the stage sequence of `StagesFrom`. */
  lemma InitChainIsStagesFrom(env: Env?, h: Handles)
    ensures InitChain(env, h) == StagesFrom(0, env, h)
  {
    var (h1, ok1) := Stage(0, env, h);
    if ok1 {
      var (h2, ok2) := Stage(1, env, h1);
      if ok2 {
        var (h3, ok3) := Stage(2, env, h2);
        if ok3 {
          var (h4, ok4) := Stage(3, env, h3);
          if ok4 {
            assert StagesFrom(4, env, h4) == Stage(4, env, h4);
          }
        }
      }
    }
  }

  /** Whether every required class from stage `k` on is loaded. */
  predicate AllFoundFrom(env: Env?, k: nat) {
    forall j :: k <= j < 5 ==> ResolveClass(env, RequiredClasses[j]).Some?
  }

  /** The chain succeeds exactly when every class it looks up is found. */
  lemma {:induction false} StagesFromSucceeds(k: nat, env: Env?, h: Handles)
    requires k <= 5
    ensures StagesFrom(k, env, h).1 <==> AllFoundFrom(env, k)
    decreases 5 - k
  {
    if k < 5 {
      var (h', found) := Stage(k, env, h);
      if found {
        StagesFromSucceeds(k + 1, env, h');
      }
    }
  }

  /** The chain never touches the class handles of the stages before it. */
  lemma {:induction false} StagesFromKeepsEarlier(k: nat, env: Env?, h: Handles, j: nat)
    requires j < k <= 5
    ensures ClassSlot(StagesFrom(k, env, h).0, j) == ClassSlot(h, j)
    decreases 5 - k
  {
    if k < 5 {
      var (h', found) := Stage(k, env, h);
      if found {
        StagesFromKeepsEarlier(k + 1, env, h', j);
      }
    }
  }

  /** A class handle is resolved once every class up to it was found. */
  lemma {:induction false} StagesFromResolves(k: nat, env: Env?, h: Handles, j: nat)
    requires k <= j < 5
    requires forall i :: k <= i <= j ==> ResolveClass(env, RequiredClasses[i]).Some?
    ensures ClassSlot(StagesFrom(k, env, h).0, j) == ResolveClass(env, RequiredClasses[j])
    decreases 5 - k
  {
    var (h', found) := Stage(k, env, h);
    assert found;
    if k == j {
      if k + 1 <= 4 {
        StagesFromKeepsEarlier(k + 1, env, h', j);
      }
    } else {
      StagesFromResolves(k + 1, env, h', j);
    }
  }

  /** The first missing class stops the chain: its handle is null and the
      classes after it are left as they were, not looked up. */
  lemma {:induction false} StagesFromStops(k: nat, env: Env?, h: Handles, m: nat, j: nat)
    requires k <= m < 5 && m <= j < 5
    requires forall i :: k <= i < m ==> ResolveClass(env, RequiredClasses[i]).Some?
    requires ResolveClass(env, RequiredClasses[m]).None?
    ensures !StagesFrom(k, env, h).1
    ensures ClassSlot(StagesFrom(k, env, h).0, m).None?
    ensures m < j ==> ClassSlot(StagesFrom(k, env, h).0, j) == ClassSlot(h, j)
    decreases 5 - k
  {
    var (h', found) := Stage(k, env, h);
    if k < m {
      assert found;
      StagesFromStops(k + 1, env, h', m, j);
    }
  }

  /** `initialize` succeeds exactly when all five required classes are
      loaded under one of their two names. */
  lemma InitSucceedsIffAllFound(env: Env?, h: Handles)
    ensures InitChain(env, h).1 <==> AllFoundFrom(env, 0)
  {
    InitChainIsStagesFrom(env, h);
    StagesFromSucceeds(0, env, h);
  }

  /** Once `initialize` succeeded, every class handle is the one its lookup
      returns. */
  lemma InitResolvesEveryClass(env: Env?, h: Handles, j: nat)
    requires j < 5 && InitChain(env, h).1
    ensures ClassSlot(InitChain(env, h).0, j) == ResolveClass(env, RequiredClasses[j])
  {
    InitChainIsStagesFrom(env, h);
    StagesFromSucceeds(0, env, h);
    StagesFromResolves(0, env, h, j);
  }

  /** The first missing class `m` makes `initialize` fail with that handle
      null, and no class after it is looked up. */
  lemma InitStopsAtFirstMissing(env: Env?, h: Handles, m: nat, j: nat)
    requires m <= j < 5
    requires forall i :: 0 <= i < m ==> ResolveClass(env, RequiredClasses[i]).Some?
    requires ResolveClass(env, RequiredClasses[m]).None?
    ensures !InitChain(env, h).1
    ensures ClassSlot(InitChain(env, h).0, m).None?
    ensures m < j ==> ClassSlot(InitChain(env, h).0, j) == ClassSlot(h, j)
  {
    InitChainIsStagesFrom(env, h);
    StagesFromStops(0, env, h, m, j);
  }

  /** An illustration of `CapabilitiesFieldFirstSuccess`: when neither name
      of the `capabilities` field exists, the scan by the obfuscated type finds
      the field whatever it is called. */
  lemma CapabilitiesFoundByType(env: Env)
    requires env.reflection
    requires env.classes == map["bew" := ClassDef([Field("bA", "Lrz;", "rz", false)], [])]
    ensures CapabilitiesField(env, Some(ClassRef("bew"))) == Some(FieldId("bew", 0))
  {
    var c := ClassRef("bew");
    var fields := env.classes["bew"].fields;
    assert !FieldMatches(fields[0], "capabilities", CapabilitiesSig, false);
    assert !FieldMatches(fields[0], "bW", "Lrz;", false);
    assert Introspection.SignatureToTypeName("Lrz;") == "rz";
    Introspection.SignaturePicksFirstOfType(env.classes, c, "Lrz;", 0);
  }

  /** The positional fallback: a flag found under neither of its names is the
      boolean field of rank `index`, a field with exactly `index` boolean
      fields before it (`findPlayerCapabilitiesClass` asks for ranks 2, 1, 0
      and 3 for `isFlying`, `allowFlying`, `disableDamage` and
      `isCreativeMode`). */
  lemma FlagResolvedByRank(env: Env, c: ClassRef, name: string, letter: string, index: nat, slot: nat)
    requires env.reflection && c.name in env.classes
    requires forall j: nat :: !DeclaresField(env, c, j, name, "Z", false) && !DeclaresField(env, c, j, letter, "Z", false)
    requires index < |Introspection.BooleanSlots(env.classes[c.name].fields)|
    requires slot == Introspection.BooleanSlots(env.classes[c.name].fields)[index]
    requires Introspection.ResolvesAt(env.classes[c.name].fields, slot, "Z")
    ensures CapabilityFlag(env, Some(c), name, letter, index) == Some(FieldId(c.name, slot))
    ensures IsBooleanField(env.classes[c.name].fields[slot])
    ensures |Introspection.BooleanSlots(env.classes[c.name].fields[..slot])| == index
  {
    FieldLookupSpec(env, Some(c), name, "Z", false);
    FieldLookupSpec(env, Some(c), letter, "Z", false);
    Introspection.BooleanFieldPositional(env.classes, c, index, slot);
  }

  class MinecraftClasses {
    const jni: JNIUtils
    /** The cached class and member handles (one component per cached member
        of the source class). */
    var handles: Handles
    var initialized: bool

    constructor (jni: JNIUtils)
      ensures this.jni == jni && handles == Unresolved && !initialized
    {
      this.jni := jni;
      handles := Unresolved;
      initialized := false;
    }

    /** `initialize`: nothing happens once initialized or while not attached;
        otherwise the five stages run in order up to the first missing class,
        and `initialized` is set only when all five classes were found. */
    method Initialize() returns (ok: bool)
      requires jni.Valid()
      modifies this, jni.env
      ensures jni.Valid()
      ensures jni.env != null ==> unchanged(jni.env`heap, jni.env`statics)
      ensures old(initialized) ==> ok && initialized && handles == old(handles)
      ensures !old(initialized) && !jni.attached ==> !ok && !initialized && handles == old(handles)
      ensures !old(initialized) && jni.attached ==>
                (handles, ok) == InitChain(jni.env, old(handles)) && initialized == ok
    {
      if initialized {
        return true;
      }
      if !jni.attached {
        return false;
      }
      ok := FindMinecraftClass();
      if ok {
        ok := FindEntityPlayerClass();
      }
      if ok {
        ok := FindEntityClass();
      }
      if ok {
        ok := FindWorldClass();
      }
      if ok {
        ok := FindPlayerCapabilitiesClass();
      }
      if !ok {
        return false;
      }
      initialized := true;
    }

    /** A required class by its MCP name, then by its obfuscated name. */
    method ResolveRequiredClass(names: ClassNames) returns (c: Option<ClassRef>)
      requires jni.Valid()
      modifies jni.env
      ensures jni.Valid()
      ensures jni.env != null ==> unchanged(jni.env`heap, jni.env`statics)
      ensures c == ResolveClass(jni.env, names)
    {
      c := jni.FindClass(names.mcp);
      if c.None? {
        c := jni.FindClass(names.obf);
      }
    }

    /** A member by its MCP name and signature, then by its obfuscated ones. */
    method ResolveNamedField(c: Option<ClassRef>, mcpName: string, mcpSig: string, obfName: string, obfSig: string, isStatic: bool)
      returns (f: Option<FieldId>)
      requires jni.Valid()
      modifies jni.env
      ensures jni.Valid()
      ensures jni.env != null ==> unchanged(jni.env`heap, jni.env`statics)
      ensures f == NamedField(jni.env, c, mcpName, mcpSig, obfName, obfSig, isStatic)
    {
      if isStatic {
        f := jni.GetStaticFieldID(c, mcpName, mcpSig);
        if f.None? {
          f := jni.GetStaticFieldID(c, obfName, obfSig);
        }
      } else {
        f := jni.GetFieldID(c, mcpName, mcpSig);
        if f.None? {
          f := jni.GetFieldID(c, obfName, obfSig);
        }
      }
    }

    method FindMinecraftClass() returns (ok: bool)
      requires jni.Valid()
      modifies this`handles, jni.env
      ensures jni.Valid()
      ensures jni.env != null ==> unchanged(jni.env`heap, jni.env`statics)
      ensures (handles, ok) == MinecraftStage(jni.env, old(handles))
    {
      var c := ResolveRequiredClass(MinecraftNames);
      handles := handles.(minecraftClass := c);
      if c.None? {
        return false;
      }
      var theMinecraft := ResolveNamedField(c, "theMinecraft", "Lnet/minecraft/client/Minecraft;", "S", "Lave;", true);
      var thePlayer := ResolveNamedField(c, "thePlayer", "Lnet/minecraft/client/entity/EntityPlayerSP;", "h", "Lbew;", false);
      var theWorld := ResolveNamedField(c, "theWorld", "Lnet/minecraft/client/multiplayer/WorldClient;", "f", "Lbdb;", false);
      handles := handles.(theMinecraftField := theMinecraft, thePlayerField := thePlayer, theWorldField := theWorld);
      return true;
    }

    method FindEntityPlayerClass() returns (ok: bool)
      requires jni.Valid()
      modifies this`handles, jni.env
      ensures jni.Valid()
      ensures jni.env != null ==> unchanged(jni.env`heap, jni.env`statics)
      ensures (handles, ok) == EntityPlayerStage(jni.env, old(handles))
    {
      var c := ResolveRequiredClass(EntityPlayerNames);
      handles := handles.(entityPlayerClass := c);
      if c.None? {
        return false;
      }
      var capabilities := jni.GetFieldID(c, "capabilities", CapabilitiesSig);
      if capabilities.None? {
        capabilities := jni.GetFieldID(c, "bW", "Lrz;");
      }
      if capabilities.None? {
        capabilities := jni.FindFieldBySignature(c, "Lrz;");
      }
      if capabilities.None? {
        capabilities := jni.FindFieldBySignature(c, CapabilitiesSig);
      }
      handles := handles.(capabilitiesField := capabilities);
      return true;
    }

    method FindEntityClass() returns (ok: bool)
      requires jni.Valid()
      modifies this`handles, jni.env
      ensures jni.Valid()
      ensures jni.env != null ==> unchanged(jni.env`heap, jni.env`statics)
      ensures (handles, ok) == EntityStage(jni.env, old(handles))
    {
      var c := ResolveRequiredClass(EntityNames);
      handles := handles.(entityClass := c);
      if c.None? {
        return false;
      }
      var posX := ResolveNamedField(c, "posX", "D", "s", "D", false);
      var posY := ResolveNamedField(c, "posY", "D", "t", "D", false);
      var posZ := ResolveNamedField(c, "posZ", "D", "u", "D", false);
      var rotationYaw := ResolveNamedField(c, "rotationYaw", "F", "y", "F", false);
      var rotationPitch := ResolveNamedField(c, "rotationPitch", "F", "z", "F", false);
      var motionX := ResolveNamedField(c, "motionX", "D", "v", "D", false);
      var motionY := ResolveNamedField(c, "motionY", "D", "w", "D", false);
      var motionZ := ResolveNamedField(c, "motionZ", "D", "x", "D", false);
      var onGround := ResolveNamedField(c, "onGround", "Z", "C", "Z", false);
      handles := handles.(entityFields :=
        EntityFields(posX, posY, posZ, rotationYaw, rotationPitch, motionX, motionY, motionZ, onGround));
      return true;
    }

    method FindWorldClass() returns (ok: bool)
      requires jni.Valid()
      modifies this`handles, jni.env
      ensures jni.Valid()
      ensures jni.env != null ==> unchanged(jni.env`heap, jni.env`statics)
      ensures (handles, ok) == WorldStage(jni.env, old(handles))
    {
      var c := ResolveRequiredClass(WorldNames);
      handles := handles.(worldClass := c);
      if c.None? {
        return false;
      }
      var loadedEntityList := ResolveNamedField(c, "loadedEntityList", "Ljava/util/List;", "h", "Ljava/util/List;", false);
      handles := handles.(loadedEntityListField := loadedEntityList);
      return true;
    }

    /** One capability flag: full name, obfuscated letter, boolean rank. */
    method ResolveCapabilityFlag(c: Option<ClassRef>, name: string, letter: string, index: int) returns (f: Option<FieldId>)
      requires jni.Valid()
      modifies jni.env
      ensures jni.Valid()
      ensures jni.env != null ==> unchanged(jni.env`heap, jni.env`statics)
      ensures f == CapabilityFlag(jni.env, c, name, letter, index)
    {
      f := jni.GetFieldID(c, name, "Z");
      if f.None? {
        f := jni.GetFieldID(c, letter, "Z");
      }
      if f.None? {
        f := jni.FindBooleanField(c, index);
      }
    }

    method FindPlayerCapabilitiesClass() returns (ok: bool)
      requires jni.Valid()
      modifies this`handles, jni.env
      ensures jni.Valid()
      ensures jni.env != null ==> unchanged(jni.env`heap, jni.env`statics)
      ensures (handles, ok) == CapabilitiesStage(jni.env, old(handles))
    {
      var c := ResolveRequiredClass(CapabilitiesNames);
      handles := handles.(playerCapabilitiesClass := c);
      if c.None? {
        return false;
      }
      var isFlying := ResolveCapabilityFlag(c, "isFlying", "c", 2);
      var allowFlying := ResolveCapabilityFlag(c, "allowFlying", "b", 1);
      var disableDamage := ResolveCapabilityFlag(c, "disableDamage", "a", 0);
      var isCreativeMode := ResolveCapabilityFlag(c, "isCreativeMode", "d", 3);
      handles := handles.(playerCapabilities := Capabilities(isFlying, allowFlying, disableDamage, isCreativeMode));
      return true;
    }

    /** `getMinecraft`: the static game instance, or null before
        initialization or when its field is unresolved. The source reads it
        through the environment without checking it, hence the requirement. */
    function GetMinecraft(): (r: Option<ObjRef>)
      reads this, jni, jni.env
      requires initialized && handles.theMinecraftField.Some? ==> jni.env != null
      ensures !initialized || handles.theMinecraftField.None? ==> r.None?
      ensures initialized && handles.theMinecraftField.Some? ==>
                r == jni.env.StaticObjectAt(handles.theMinecraftField.value)
    {
      if !initialized || handles.theMinecraftField.None? then None
      else jni.env.StaticObjectAt(handles.theMinecraftField.value)
    }

    /** `getThePlayer`: null unless the game instance and the player field are
        both available. */
    function GetThePlayer(): (r: Option<ObjRef>)
      reads this, jni, jni.env
      requires initialized && handles.theMinecraftField.Some? ==> jni.env != null
      ensures r.Some? ==> GetMinecraft().Some? && handles.thePlayerField.Some?
      ensures GetMinecraft().Some? && handles.thePlayerField.Some? ==>
                r == jni.env.ObjectAt(GetMinecraft().value, handles.thePlayerField.value)
    {
      var minecraft := GetMinecraft();
      if minecraft.None? || handles.thePlayerField.None? then None
      else jni.GetObjectField(minecraft, handles.thePlayerField)
    }

    /** `getTheWorld`: null unless the game instance and the world field are
        both available. */
    function GetTheWorld(): (r: Option<ObjRef>)
      reads this, jni, jni.env
      requires initialized && handles.theMinecraftField.Some? ==> jni.env != null
      ensures r.Some? ==> GetMinecraft().Some? && handles.theWorldField.Some?
      ensures GetMinecraft().Some? && handles.theWorldField.Some? ==>
                r == jni.env.ObjectAt(GetMinecraft().value, handles.theWorldField.value)
    {
      var minecraft := GetMinecraft();
      if minecraft.None? || handles.theWorldField.None? then None
      else jni.GetObjectField(minecraft, handles.theWorldField)
    }
  }
}
