# Minecraft injection client: a Dafny model of its core

The client is a library injected into a running Minecraft 1.8.9 process. It
attaches to the Java virtual machine through the native interface,
resolves the game's classes and members, and runs feature modules on events.
Where a member may be obfuscated, it tries the MCP name first, then the known
obfuscated name, then reflective introspection. This project models:

- **The native-interface helper layer** (`JniUtils.JNIUtils`). This covers
  attaching to and detaching from the virtual machine, and class, field and
  method lookups. Every missed lookup leaves no exception pending. It also
  covers the typed field getters and setters with their null guards, and the
  two reflective scans. `findFieldBySignature` takes the first declared field
  whose type name equals the converted signature. `findBooleanField` takes the
  boolean field of a given rank.
- **The managed runtime those calls reach** (`Jvm`). This is a small
  deterministic stand-in: loaded classes with their declared fields and
  methods in declaration order, an "exception pending" flag, and stored field
  values.
- **Resolution of the game classes** (`Minecraft.MinecraftClasses`).
  `initialize` resolves `Minecraft`, `EntityPlayerSP`, `Entity`, `World` and
  `PlayerCapabilities` in that order. It stops at the first class it cannot
  find. Members are resolved through the MCP name, then the obfuscated name,
  then introspection.
- **The MCP alias tables** (`Mappings.MappingLoader`). These are read from
  `fields.csv` and `methods.csv`. The parser skips the header, skips blank
  lines and removes whitespace. It drops records with an empty field, and a
  later duplicate wins.
- **The event bus** (`Events.EventBus`): per-type subscriber lists,
  dispatched in subscription order.
- **Modules and their registry** (`Modules.Module`, `Manager.ModuleManager`):
  - an enable/disable/toggle state machine with idempotent transitions;
  - the three event handlers every module subscribes;
  - a registry with first-match lookup by name.

The fallback chains are stated once, in `Options`. `OrElse` is a single
"try the next one on null" step. `FirstSome` independently describes "the
first strategy that succeeds". `OrElseChainIsFirstSome` proves that a chain
of steps computes exactly that.

Two details of the code are easy to miss:

- `detachFromJVM` clears `attached` but not `env`, so the accessors still
  reach the runtime after a detach (src/jni/JNIUtils.cpp:79-85).
- The flags of `PlayerCapabilities` are found by name first. Only when both
  names miss is a flag found by its position among the boolean fields
  (src/jni/MinecraftClasses.cpp:228-262).

## Model

| member | source | states |
|---|---|---|
| Options.FirstSome | src/jni/MinecraftClasses.cpp:109-122 | the result of "try strategies in order" is present exactly when some strategy succeeds, and it is then the first success |
| Options.OrElseChainIsFirstSome | src/jni/MinecraftClasses.cpp:110-121 | a chain of `if (!x) x = next` steps yields the first non-null strategy result |
| JniUtils.ClassLookup | src/jni/JNIUtils.cpp:87-108 | `findClass` yields a class exactly when an environment exists and the class is loaded, and it is that class |
| JniUtils.FieldLookupSpec | src/jni/JNIUtils.cpp:124-136 | a field lookup is null without an environment or class; a hit is the first declared field with that name, signature and staticness; a miss means no such field is declared |
| JniUtils.MethodLookupSpec | src/jni/JNIUtils.cpp:110-122 | the same for method lookups |
| JniUtils.SignatureLookup | src/jni/JNIUtils.cpp:226-343 | nothing without an environment, class or reflection; otherwise the first field of the wanted type, looked up by its name and the original signature |
| JniUtils.BooleanLookup | src/jni/JNIUtils.cpp:345-455 | nothing without an environment, class or reflection; otherwise the boolean field of the given rank, looked up with signature `Z` |
| JniUtils.JNIUtils.constructor | src/jni/JNIUtils.cpp:14-15 | starts without a virtual machine, without an environment and not attached |
| JniUtils.JNIUtils.AttachToJVM | src/jni/JNIUtils.cpp:53-77 | idempotent once attached; fails when no virtual machine is found or attaching fails; on success binds the thread's environment and marks the thread attached; when already attached the virtual machine's thread state is untouched |
| JniUtils.JNIUtils.DetachFromJVM | src/jni/JNIUtils.cpp:79-85 | detaches the thread only when attached; keeps `jvm` and `env` |
| JniUtils.JNIUtils.FindClass | src/jni/JNIUtils.cpp:87-108 | returns the loaded class or null, and a miss leaves no exception pending |
| JniUtils.JNIUtils.GetMethodID | src/jni/JNIUtils.cpp:110-122 | returns the instance method lookup, with no exception left pending and no field value changed |
| JniUtils.JNIUtils.GetFieldID | src/jni/JNIUtils.cpp:124-136 | returns the instance field lookup, with no exception left pending |
| JniUtils.JNIUtils.GetStaticMethodID | src/jni/JNIUtils.cpp:138-150 | returns the static method lookup, with no exception left pending |
| JniUtils.JNIUtils.GetStaticFieldID | src/jni/JNIUtils.cpp:152-164 | returns the static field lookup, with no exception left pending |
| JniUtils.JNIUtils.GetObjectField | src/jni/JNIUtils.cpp:166-169 | null when the object or field is null; otherwise the stored reference |
| JniUtils.JNIUtils.SetObjectField | src/jni/JNIUtils.cpp:171-174 | writes the one slot only when the object and field are present; a later get returns the value |
| JniUtils.JNIUtils.GetBooleanField | src/jni/JNIUtils.cpp:176-179 | false when the object or field is null; otherwise the stored flag |
| JniUtils.JNIUtils.SetBooleanField | src/jni/JNIUtils.cpp:181-184 | writes the one slot only when guarded; a later get returns the value |
| JniUtils.JNIUtils.GetFloatField | src/jni/JNIUtils.cpp:186-189 | 0 when the object or field is null; otherwise the stored value |
| JniUtils.JNIUtils.SetFloatField | src/jni/JNIUtils.cpp:191-194 | writes the one slot only when guarded; a later get returns the value |
| JniUtils.JNIUtils.GetDoubleField | src/jni/JNIUtils.cpp:196-199 | 0 when the object or field is null; otherwise the stored value |
| JniUtils.JNIUtils.SetDoubleField | src/jni/JNIUtils.cpp:201-204 | writes the one slot only when guarded; a later get returns the value |
| JniUtils.JNIUtils.FindFieldBySignature | src/jni/JNIUtils.cpp:226-343 | the loop over the declared fields returns the signature lookup, stopping at the first field of the wanted type, and leaves no exception pending |
| JniUtils.JNIUtils.FindBooleanField | src/jni/JNIUtils.cpp:345-455 | the counting loop returns the boolean field of the given rank, or null, and leaves no exception pending |
| Introspection.SignatureToTypeName | src/jni/JNIUtils.cpp:298-306 | `Lpkg/Name;` becomes a dotted name two characters shorter; any other signature is compared as it stands |
| Introspection.DescriptorRoundTrip | src/jni/JNIUtils.cpp:298-306 | converting the descriptor of a type name gives the name back |
| Introspection.ConvertSignature | src/jni/JNIUtils.cpp:298-306 | the in-place `/` to `.` rewrite computes the converted type name |
| Introspection.BooleanSlots | src/jni/JNIUtils.cpp:403-442 | lists exactly the boolean fields, in increasing position |
| Introspection.BooleanSlotsPrefix | src/jni/JNIUtils.cpp:403-442 | counting over a prefix of the fields gives a prefix of the ranks |
| Introspection.BooleanSlotAt | src/jni/JNIUtils.cpp:403-442 | a boolean field's rank is the number of boolean fields before it |
| Introspection.BooleanSlotRank | src/jni/JNIUtils.cpp:403-442 | the boolean field of rank `k` has exactly `k` boolean fields before it |
| Introspection.LookupResolvesAt | src/jni/JNIUtils.cpp:317-329 | a field with no earlier namesake of the same signature is what a lookup by its name returns |
| Introspection.TypeIndex | src/jni/JNIUtils.cpp:272-335 | the first declared field of the wanted type, or none if no field has it |
| Introspection.FieldBySignature | src/jni/JNIUtils.cpp:272-335 | a hit comes from the first field of the wanted type; no field of that type means nothing |
| Introspection.SignaturePicksFirstOfType | src/jni/JNIUtils.cpp:272-335 | when the first field of the wanted type resolves, the scan returns exactly it |
| Introspection.SignatureNeverTriesLaterMatch | src/jni/JNIUtils.cpp:317-333 | the scan stops at the first field of the type even when its lookup fails and a later one would resolve |
| Introspection.PrimitiveSignatureNeverMatchesBoolean | src/jni/JNIUtils.cpp:272-335 | `Z` is compared unconverted, so scanning by it finds nothing in a class where no field reports the type name `Z`, boolean fields included |
| Introspection.BooleanFieldAt | src/jni/JNIUtils.cpp:403-446 | nothing for a negative rank or one at least the number of boolean fields; otherwise the lookup of the boolean field of that rank by its name with signature `Z` |
| Introspection.BooleanFieldPositional | src/jni/JNIUtils.cpp:403-442 | the field returned for rank `index` is boolean and has exactly `index` boolean fields before it |
| Minecraft.ResolveClass | src/jni/MinecraftClasses.cpp:57-65 | a class is found exactly when its MCP or its obfuscated name is loaded, and the MCP name is preferred |
| Minecraft.CapabilitiesFieldFirstSuccess | src/jni/MinecraftClasses.cpp:109-122 | the `capabilities` field comes from the first of its four strategies that succeeds |
| Minecraft.CapabilityFlagFirstSuccess | src/jni/MinecraftClasses.cpp:228-262 | each capability flag comes from the first of full name, obfuscated letter and boolean rank that succeeds |
| Minecraft.CapabilitiesFoundByType | src/jni/MinecraftClasses.cpp:115-118 | when neither name exists, the field of type `rz` is found by introspection |
| Minecraft.FlagResolvedByRank | src/jni/MinecraftClasses.cpp:222-262 | when both names miss, a flag is the boolean field at its documented rank |
| Minecraft.Stage | src/jni/MinecraftClasses.cpp:42-46 | each stage reports exactly whether its own class was found, stores its lookup and leaves the other class handles alone |
| Minecraft.InitChainIsStagesFrom | src/jni/MinecraftClasses.cpp:42-46 | the `&&`-chain of the five `find*Class` calls is the stage sequence that stops at the first failure |
| Minecraft.StagesFromSucceeds | src/jni/MinecraftClasses.cpp:42-46 | the remaining stages succeed exactly when every class they look up is loaded |
| Minecraft.StagesFromKeepsEarlier | src/jni/MinecraftClasses.cpp:42-46 | later stages never touch the handles of earlier ones |
| Minecraft.StagesFromResolves | src/jni/MinecraftClasses.cpp:42-46 | a class handle is resolved once every class up to it was found |
| Minecraft.StagesFromStops | src/jni/MinecraftClasses.cpp:42-46 | the first missing class fails the chain; the classes after it are not looked up |
| Minecraft.InitSucceedsIffAllFound | src/jni/MinecraftClasses.cpp:27-51 | class resolution succeeds exactly when all five required classes are loaded |
| Minecraft.InitResolvesEveryClass | src/jni/MinecraftClasses.cpp:27-51 | after success every class handle is the MCP-then-obfuscated lookup of its class |
| Minecraft.InitStopsAtFirstMissing | src/jni/MinecraftClasses.cpp:42-46 | the first missing class leaves its handle null and the later handles as they were |
| Minecraft.MinecraftClasses.constructor | src/jni/MinecraftClasses.cpp:10-22 | starts with every handle null and not initialized |
| Minecraft.MinecraftClasses.Initialize | src/jni/MinecraftClasses.cpp:27-51 | idempotent once initialized; fails while not attached; otherwise runs the five finders in order, stopping at the first failure, and records success |
| Minecraft.MinecraftClasses.ResolveRequiredClass | src/jni/MinecraftClasses.cpp:57-65 | looks up the MCP name and then the obfuscated name |
| Minecraft.MinecraftClasses.ResolveNamedField | src/jni/MinecraftClasses.cpp:72-77 | looks up a member under its MCP name and signature, then its obfuscated ones |
| Minecraft.MinecraftClasses.FindMinecraftClass | src/jni/MinecraftClasses.cpp:53-92 | resolves `Minecraft` and its `theMinecraft`, `thePlayer` and `theWorld` fields; fails only when the class is missing |
| Minecraft.MinecraftClasses.FindEntityPlayerClass | src/jni/MinecraftClasses.cpp:94-131 | resolves `EntityPlayerSP` and its `capabilities` field through four strategies; fails only when the class is missing |
| Minecraft.MinecraftClasses.FindEntityClass | src/jni/MinecraftClasses.cpp:133-179 | resolves `Entity` and its position, rotation, motion and ground fields; fails only when the class is missing |
| Minecraft.MinecraftClasses.FindWorldClass | src/jni/MinecraftClasses.cpp:181-204 | resolves `World` and its `loadedEntityList`; fails only when the class is missing |
| Minecraft.MinecraftClasses.ResolveCapabilityFlag | src/jni/MinecraftClasses.cpp:228-235 | a flag by full name, then obfuscated letter, then boolean rank |
| Minecraft.MinecraftClasses.FindPlayerCapabilitiesClass | src/jni/MinecraftClasses.cpp:206-271 | resolves `PlayerCapabilities` and its four flags; fails only when the class is missing |
| Minecraft.MinecraftClasses.GetMinecraft | src/jni/MinecraftClasses.cpp:273-280 | null unless initialized with the `theMinecraft` field resolved; otherwise the static game instance |
| Minecraft.MinecraftClasses.GetThePlayer | src/jni/MinecraftClasses.cpp:282-290 | null unless the game instance and the player field exist; then the stored player |
| Minecraft.MinecraftClasses.GetTheWorld | src/jni/MinecraftClasses.cpp:292-300 | null unless the game instance and the world field exist; then the stored world |
| Mappings.RemoveSpaces | src/jni/MappingLoader.cpp:84-85 | the result has no whitespace and is no longer than the input; a single character is dropped exactly when it is whitespace, which with the splitting lemma fixes the result |
| Mappings.RemoveSpacesAppend | src/jni/MappingLoader.cpp:84-85 | removal works character by character, so it splits over concatenation |
| Mappings.RemoveSpacesKeepsClean | src/jni/MappingLoader.cpp:84-85 | a field without whitespace is kept as it is, so removal is idempotent |
| Mappings.RemoveSpacesInside | src/jni/MappingLoader.cpp:84-85 | whitespace inside a field is removed, not only at its ends |
| Mappings.FirstComma | src/jni/MappingLoader.cpp:82 | the position up to which the first `getline(ss, _, ',')` reads |
| Mappings.SplitRecord | src/jni/MappingLoader.cpp:82 | both fields are comma-free; reading fails exactly when the first comma is missing or ends the line |
| Mappings.SplitRecordFirstTwo | src/jni/MappingLoader.cpp:78-82 | a record `key,name,...` yields `key` and `name`; the remaining columns are ignored |
| Mappings.ParseLine | src/jni/MappingLoader.cpp:82-89 | a stored record has a non-empty key and name, both free of whitespace |
| Mappings.ParseLineRecord | src/jni/MappingLoader.cpp:78-89 | a line `key,name` with a comma-free key gives exactly the two fields with whitespace removed, when neither is then empty |
| Mappings.LoadLinesClean | src/jni/MappingLoader.cpp:66-91 | loading keeps every stored key and value non-empty and free of whitespace |
| Mappings.LoadLinesCount | src/jni/MappingLoader.cpp:66-91 | loading never loses a key and adds at most one per line, which bounds what the count getters report |
| Mappings.LoadLinesKeys | src/jni/MappingLoader.cpp:66-91 | a key is present after loading exactly when it was present before or some line is a record with that key |
| Mappings.LoadLinesLastWins | src/jni/MappingLoader.cpp:87-89 | a key maps to the name from its last record |
| Mappings.LoadLinesUntouched | src/jni/MappingLoader.cpp:87-89 | a key that no record names keeps the value it had before loading |
| Mappings.LoadLinesSkipsBlank | src/jni/MappingLoader.cpp:74-76 | a blank line changes nothing wherever it occurs |
| Mappings.HeaderDiscarded | src/jni/MappingLoader.cpp:68-71 | the first line is dropped even when it is a valid record |
| Mappings.ReadMappings | src/jni/MappingLoader.cpp:64-91 | the read loop, with its `firstLine` flag, inserts the file's records as the line-by-line definition says |
| Mappings.MappingLoader.constructor | src/jni/MappingLoader.cpp:12-14 | starts with both tables empty and not initialized |
| Mappings.MappingLoader.Initialize | src/jni/MappingLoader.cpp:19-55 | idempotent once initialized; otherwise loads `<dir>/fields.csv` and `<dir>/methods.csv` (`src/mappings` for an empty directory), tolerates missing files and returns true |
| Mappings.MappingLoader.LoadFieldMappings | src/jni/MappingLoader.cpp:57-95 | false exactly when the file cannot be opened, leaving the table alone; otherwise the file's records are inserted; the method table is never touched |
| Mappings.MappingLoader.LoadMethodMappings | src/jni/MappingLoader.cpp:97-135 | the same parser, into the method table only |
| Mappings.MappingLoader.GetFieldName | src/jni/MappingLoader.cpp:137-143 | the stored name, or the empty string for an unknown key |
| Mappings.MappingLoader.GetMethodName | src/jni/MappingLoader.cpp:145-151 | the stored name, or the empty string for an unknown key |
| Mappings.MappingLoader.HasFieldMapping | src/jni/MappingLoader.cpp:153-155 | a key is known exactly when it is stored, and, as stored names are non-empty, exactly when its name is non-empty |
| Mappings.MappingLoader.HasMethodMapping | src/jni/MappingLoader.cpp:157-159 | the same for the method table |
| Mappings.MappingLoader.GetFieldMappingCount | src/jni/MappingLoader.cpp:161-163 | the number of distinct stored keys |
| Mappings.MappingLoader.GetMethodMappingCount | src/jni/MappingLoader.cpp:165-167 | the number of distinct stored keys |
| Events.EventBus.constructor | src/core/EventBus.h:52 | starts with no subscribers |
| Events.EventBus.Subscribe | src/core/EventBus.cpp:8-10 | the handler is appended to its type's list; every other list is unchanged |
| Events.EventBus.Post | src/core/EventBus.cpp:12-19 | invokes exactly the handlers of the event's type, each once, in subscription order; nothing for a type without subscribers |
| Events.EventBus.Clear | src/core/EventBus.cpp:21-23 | afterwards every type has no handler, so a post invokes nothing |
| Modules.Module.constructor | src/core/Module.cpp:4-10 | a new module is disabled with key binding 0 and has subscribed its tick, render and key-press handlers |
| Modules.Module.RegisterEventHandlers | src/core/Module.cpp:45-72 | appends one handler each to the tick, render and key-press lists |
| Modules.Module.UnregisterEventHandlers | src/core/Module.cpp:74-77 | leaves every subscription in place |
| Modules.Module.Enable | src/core/Module.cpp:26-33 | a no-op when enabled; otherwise enables and runs `onEnable` exactly once |
| Modules.Module.Disable | src/core/Module.cpp:35-43 | a no-op when disabled; otherwise disables and runs `onDisable` exactly once; subscriptions stay |
| Modules.Module.Toggle | src/core/Module.cpp:18-24 | flips the enabled flag, running the matching hook |
| Modules.Module.SetKeyBind | src/core/Module.h:33 | sets the key binding |
| Modules.Module.HandleTick | src/core/Module.cpp:49-53 | `onTick` runs only while enabled |
| Modules.Module.HandleRender | src/core/Module.cpp:56-60 | `onRender` runs only while enabled |
| Modules.Module.HandleKeyPress | src/core/Module.cpp:63-71 | a key equal to a non-zero binding toggles whatever the state; binding 0 never toggles; `onKeyPress` runs afterwards only if then enabled |
| Modules.Module.Destroy | src/core/Module.cpp:12-16 | disables an enabled module; the `onDisable` it then reaches is `Module`'s own empty hook (recorded as `BaseOnDisable`), never an override, and a disabled module is left as it is |
| Modules.Run | src/core/Module.cpp:49-71 | invoking a subscribed handler runs its module's reaction to that event |
| Manager.ModuleManager.constructor | src/core/ModuleManager.h:27 | starts with no modules |
| Manager.ModuleManager.AddModule | src/core/ModuleManager.cpp:9-14 | appends a non-null module at the end; null leaves the list unchanged |
| Manager.ModuleManager.GetModule | src/core/ModuleManager.cpp:16-23 | the first registered module with that name, or null exactly when none has it |
| Manager.ModuleManager.EnableAll | src/core/ModuleManager.cpp:25-29 | every listed module ends up enabled; one that was disabled runs `onEnable` exactly once, even if listed twice |
| Manager.ModuleManager.DisableAll | src/core/ModuleManager.cpp:31-35 | every listed module ends up disabled; one that was enabled runs `onDisable` exactly once |
| Manager.ModuleManager.Initialize | src/core/ModuleManager.cpp:37-39 | changes no state |

## Left out

- The injector (`src/injector/Injector.cpp`, `src/injector/main.cpp`), the DLL entry point and its thread, and the logger are not part of this model. They are process, thread and console plumbing.
- The Flight and ESP modules and the module template file are not part of this model. They are thin behaviour over the resolved handles, mostly foreign calls.
- JniUtils.JNIUtils.AttachToJVM: a failed `AttachCurrentThread` is assumed to leave `env` as it was. The runtime's documentation does not say what that call writes through its out-parameter on failure; the assumption is what gives `env == old(env)` and no pending exception after a failed attach.
- `findJVM` might not find the virtual machine. It uses `GetModuleHandle` and `JNI_GetCreatedJavaVMs`, and its outcome is the `found` parameter of `AttachToJVM`.
- The `getInstance` singletons are not modelled: the single instance is passed in or held as a field (`Module.bus`).
- `NewGlobalRef`/`DeleteLocalRef` reference bookkeeping and the variadic `callVoidMethod`/`callObjectMethod` are not modelled. They are untyped foreign calls.
- Float and double field values are kept as opaque integers. IEEE arithmetic is not modelled.
- Field and method lookups search the declared members of the class itself. Lookups through superclasses are not modelled, because the runtime is a stand-in.
- The per-element null checks of the reflective scans are not modelled. The stand-in's reflection returns every declared element or, when `reflection` is false, fails at the first step.
- The destructors of `JNIUtils`, `MinecraftClasses` and `MappingLoader` are not modelled. They detach or release references, which is covered by `DetachFromJVM` or is reference bookkeeping.
- The getters `getLoadedEntityList`, `getCapabilitiesField`, `isEnabled`, `getName`, `getDescription`, `getKeyBind` and `getModules` only return a field. The model reads the field.
- File I/O is not modelled. A mapping file is its sequence of lines, or `None` when it cannot be opened; the caller splits lines as `std::getline` would.
- Modules.Run: handlers are closures in the source. The bus records which handlers it invokes, in order, and `Run` states what one invocation does. A whole post followed by running every handler is not composed into one method.
- Modules.Module: the overridable hooks have no behaviour of their own. Each call of one is recorded in `hooks`. The call `~Module` makes through `disable` is recorded as `BaseOnDisable`, because during destruction it reaches only `Module`'s empty `onDisable`.
- Minecraft.MinecraftClasses: the cached handles are one record field, `handles`, rather than one field per handle.
- JniUtils.FieldLookupSpec and JniUtils.MethodLookupSpec state the lookup contracts as lemmas over the lookup functions rather than as their postconditions.
