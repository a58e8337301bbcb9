/** A small, deterministic stand-in for the managed runtime the client attaches
    to. It owns what the native interface would reach through `JNIEnv` and
    `JavaVM`: a table of loaded classes with their declared fields and methods
    in declaration order, the per-thread "exception pending" flag, and the
    values stored in object and static fields. Only the behaviour the client
    relies on is modelled: name-and-signature lookups that raise on a miss,
    reflective enumeration of declared fields, and typed field reads and writes. */
module Jvm {
  import opened Options

  /** A declared field as reflection reports it: its name, its JNI type
      signature (`Z`, `D`, `Lpkg/Name;`), the name of its type as
      `Class.getName` returns it (`boolean`, `double`, `pkg.Name`), and whether
      it is static. */
  datatype Field = Field(name: string, sig: string, typeName: string, isStatic: bool)

  datatype Method = Method(name: string, sig: string, isStatic: bool)

  /** Declared (not inherited) members, in the order reflection reports them. */
  datatype ClassDef = ClassDef(fields: seq<Field>, methods: seq<Method>)

  /** Loaded classes by their internal name (`net/minecraft/client/Minecraft`). */
  type ClassTable = map<string, ClassDef>

  /** A class handle (`jclass`). */
  datatype ClassRef = ClassRef(name: string)

  /** A member handle (`jfieldID`, `jmethodID`): the owning class and the
      position of the member among that class's declared members. */
  datatype FieldId = FieldId(owner: string, slot: nat)
  datatype MethodId = MethodId(owner: string, slot: nat)

  /** An object reference (`jobject`). */
  datatype ObjRef = ObjRef(id: nat)

  /** A stored field value. Floating-point values are kept as opaque integers. */
  datatype Value = BoolVal(b: bool) | FloatVal(f: int) | DoubleVal(d: int) | ObjVal(obj: Option<ObjRef>)

  /** What `IsSameObject(fieldType, Boolean.TYPE)` decides for a declared field. */
  predicate IsBooleanField(f: Field) {
    f.typeName == "boolean"
  }

  predicate FieldMatches(f: Field, name: string, sig: string, isStatic: bool) {
    f.name == name && f.sig == sig && f.isStatic == isStatic
  }

  predicate MethodMatches(m: Method, name: string, sig: string, isStatic: bool) {
    m.name == name && m.sig == sig && m.isStatic == isStatic
  }

  /** `FindClass`: the class is found exactly when it is loaded. */
  function LookupClass(classes: ClassTable, name: string): Option<ClassRef> {
    if name in classes then Some(ClassRef(name)) else None
  }

  /** The position of the first field with this name, signature and
      staticness. */
  function FieldIndex(fields: seq<Field>, name: string, sig: string, isStatic: bool): (r: Option<nat>)
    ensures r.Some? ==> r.value < |fields| && FieldMatches(fields[r.value], name, sig, isStatic)
    ensures r.Some? ==> forall j :: 0 <= j < r.value ==> !FieldMatches(fields[j], name, sig, isStatic)
    ensures r.None? ==> forall j :: 0 <= j < |fields| ==> !FieldMatches(fields[j], name, sig, isStatic)
  {
    if fields == [] then None
    else if FieldMatches(fields[0], name, sig, isStatic) then Some(0)
    else
      match FieldIndex(fields[1..], name, sig, isStatic)
      case None => None
      case Some(k) => Some(k + 1)
  }

  /** The position of the first method with this name, signature and
      staticness. */
  function MethodIndex(methods: seq<Method>, name: string, sig: string, isStatic: bool): (r: Option<nat>)
    ensures r.Some? ==> r.value < |methods| && MethodMatches(methods[r.value], name, sig, isStatic)
    ensures r.Some? ==> forall j :: 0 <= j < r.value ==> !MethodMatches(methods[j], name, sig, isStatic)
    ensures r.None? ==> forall j :: 0 <= j < |methods| ==> !MethodMatches(methods[j], name, sig, isStatic)
  {
    if methods == [] then None
    else if MethodMatches(methods[0], name, sig, isStatic) then Some(0)
    else
      match MethodIndex(methods[1..], name, sig, isStatic)
      case None => None
      case Some(k) => Some(k + 1)
  }

  /** `GetFieldID` / `GetStaticFieldID`: the first declared field of the class
      with this name, signature and staticness. */
  function LookupField(classes: ClassTable, c: ClassRef, name: string, sig: string, isStatic: bool): Option<FieldId> {
    if c.name !in classes then None
    else
      match FieldIndex(classes[c.name].fields, name, sig, isStatic)
      case None => None
      case Some(i) => Some(FieldId(c.name, i))
  }

  /** `GetMethodID` / `GetStaticMethodID`, likewise over declared methods. */
  function LookupMethod(classes: ClassTable, c: ClassRef, name: string, sig: string, isStatic: bool): Option<MethodId> {
    if c.name !in classes then None
    else
      match MethodIndex(classes[c.name].methods, name, sig, isStatic)
      case None => None
      case Some(i) => Some(MethodId(c.name, i))
  }

  /** The interface environment of the attached thread. */
  class Env {
    const classes: ClassTable
    /** Whether the reflective entry points the introspection scans need
        (`java/lang/Class.getDeclaredFields`, `Field.getName`, `Field.getType`,
        `Boolean.TYPE`) resolve. */
    const reflection: bool
    /** A raised exception that has not been cleared yet. */
    var pending: bool
    var heap: map<(ObjRef, FieldId), Value>
    var statics: map<FieldId, Value>

    constructor (classes: ClassTable, reflection: bool, heap: map<(ObjRef, FieldId), Value>, statics: map<FieldId, Value>)
      ensures this.classes == classes && this.reflection == reflection
      ensures !pending && this.heap == heap && this.statics == statics
    {
      this.classes := classes;
      this.reflection := reflection;
      this.pending := false;
      this.heap := heap;
      this.statics := statics;
    }

    /** A miss raises (`NoClassDefFoundError`) and returns null. */
    method FindClass(name: string) returns (c: Option<ClassRef>)
      modifies this`pending
      ensures c == LookupClass(classes, name)
      ensures pending == (old(pending) || c.None?)
    {
      c := LookupClass(classes, name);
      pending := pending || c.None?;
    }

    /** A miss raises (`NoSuchFieldError`) and returns null. */
    method GetFieldID(c: ClassRef, name: string, sig: string, isStatic: bool) returns (f: Option<FieldId>)
      modifies this`pending
      ensures f == LookupField(classes, c, name, sig, isStatic)
      ensures pending == (old(pending) || f.None?)
    {
      f := LookupField(classes, c, name, sig, isStatic);
      pending := pending || f.None?;
    }

    /** A miss raises (`NoSuchMethodError`) and returns null. */
    method GetMethodID(c: ClassRef, name: string, sig: string, isStatic: bool) returns (m: Option<MethodId>)
      modifies this`pending
      ensures m == LookupMethod(classes, c, name, sig, isStatic)
      ensures pending == (old(pending) || m.None?)
    {
      m := LookupMethod(classes, c, name, sig, isStatic);
      pending := pending || m.None?;
    }

    method ExceptionClear()
      modifies this`pending
      ensures !pending
    {
      pending := false;
    }

    function BooleanAt(o: ObjRef, f: FieldId): bool
      reads this
    {
      if (o, f) in heap && heap[(o, f)].BoolVal? then heap[(o, f)].b else false
    }

    function FloatAt(o: ObjRef, f: FieldId): int
      reads this
    {
      if (o, f) in heap && heap[(o, f)].FloatVal? then heap[(o, f)].f else 0
    }

    function DoubleAt(o: ObjRef, f: FieldId): int
      reads this
    {
      if (o, f) in heap && heap[(o, f)].DoubleVal? then heap[(o, f)].d else 0
    }

    function ObjectAt(o: ObjRef, f: FieldId): Option<ObjRef>
      reads this
    {
      if (o, f) in heap && heap[(o, f)].ObjVal? then heap[(o, f)].obj else None
    }

    /** `GetStaticObjectField`. */
    function StaticObjectAt(f: FieldId): Option<ObjRef>
      reads this
    {
      if f in statics && statics[f].ObjVal? then statics[f].obj else None
    }

    /** The `Set<Type>Field` family. */
    method Store(o: ObjRef, f: FieldId, v: Value)
      modifies this`heap
      ensures heap == old(heap)[(o, f) := v]
    {
      heap := heap[(o, f) := v];
    }
  }

  /** The virtual machine found in the process. */
  class JavaVm {
    const env: Env
    /** Whether `AttachCurrentThread` returns `JNI_OK`. */
    const attachOk: bool
    var threadAttached: bool

    constructor (env: Env, attachOk: bool)
      ensures this.env == env && this.attachOk == attachOk && !threadAttached
    {
      this.env := env;
      this.attachOk := attachOk;
      this.threadAttached := false;
    }

    method AttachCurrentThread() returns (ok: bool, penv: Env)
      modifies this`threadAttached
      ensures ok == attachOk && penv == env
      ensures threadAttached == (old(threadAttached) || ok)
    {
      ok, penv := attachOk, env;
      threadAttached := threadAttached || ok;
    }

    method DetachCurrentThread()
      modifies this`threadAttached
      ensures !threadAttached
    {
      threadAttached := false;
    }
  }
}
