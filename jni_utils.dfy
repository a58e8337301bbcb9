/** The native-interface helper layer (`JNIUtils`): the attachment to the
    virtual machine, lookups of classes and members that turn every failure
    into a null handle and never leave an exception pending, typed field access
    that returns the zero value or does nothing on a null argument, and the two
    reflective scans. The module-level functions say what each lookup returns;
    the class's methods are proved to return exactly that. */
module JniUtils {
  import opened Options
  import opened Jvm
  import Introspection

  /** What `findClass` returns. */
  function ClassLookup(env: Env?, name: string): (r: Option<ClassRef>)
    ensures r.Some? <==> env != null && name in env.classes
    ensures r.Some? ==> r.value == ClassRef(name)
  {
    if env == null then None else LookupClass(env.classes, name)
  }

  /** A declared field of the loaded class `c` sits at `slot` and has this
      name, signature and staticness. */
  predicate DeclaresField(env: Env, c: ClassRef, slot: nat, name: string, sig: string, isStatic: bool) {
    && c.name in env.classes
    && slot < |env.classes[c.name].fields|
    && FieldMatches(env.classes[c.name].fields[slot], name, sig, isStatic)
  }

  predicate DeclaresMethod(env: Env, c: ClassRef, slot: nat, name: string, sig: string, isStatic: bool) {
    && c.name in env.classes
    && slot < |env.classes[c.name].methods|
    && MethodMatches(env.classes[c.name].methods[slot], name, sig, isStatic)
  }

  /** What `getFieldID` (instance) and `getStaticFieldID` (static) return. */
  function FieldLookup(env: Env?, clazz: Option<ClassRef>, name: string, sig: string, isStatic: bool): Option<FieldId> {
    if env == null || clazz.None? then None
    else LookupField(env.classes, clazz.value, name, sig, isStatic)
  }

  /** A field lookup is null without an environment or a class; otherwise it
      is the first declared field with that name, signature and staticness,
      and null exactly when the class declares none. */
  lemma FieldLookupSpec(env: Env?, clazz: Option<ClassRef>, name: string, sig: string, isStatic: bool)
    ensures env == null || clazz.None? ==> FieldLookup(env, clazz, name, sig, isStatic).None?
    ensures FieldLookup(env, clazz, name, sig, isStatic).Some? ==>
      var r := FieldLookup(env, clazz, name, sig, isStatic);
      && r.value.owner == clazz.value.name
      && DeclaresField(env, clazz.value, r.value.slot, name, sig, isStatic)
      && forall j :: 0 <= j < r.value.slot ==> !DeclaresField(env, clazz.value, j, name, sig, isStatic)
    ensures FieldLookup(env, clazz, name, sig, isStatic).None? && env != null && clazz.Some? ==>
      forall j: nat :: !DeclaresField(env, clazz.value, j, name, sig, isStatic)
  {
  }

  /** What `getMethodID` and `getStaticMethodID` return. */
  function MethodLookup(env: Env?, clazz: Option<ClassRef>, name: string, sig: string, isStatic: bool): Option<MethodId> {
    if env == null || clazz.None? then None
    else LookupMethod(env.classes, clazz.value, name, sig, isStatic)
  }

  /** A method lookup is null without an environment or a class; otherwise it
      is the first declared method with that name, signature and staticness,
      and null exactly when the class declares none. */
  lemma MethodLookupSpec(env: Env?, clazz: Option<ClassRef>, name: string, sig: string, isStatic: bool)
    ensures env == null || clazz.None? ==> MethodLookup(env, clazz, name, sig, isStatic).None?
    ensures MethodLookup(env, clazz, name, sig, isStatic).Some? ==>
      var r := MethodLookup(env, clazz, name, sig, isStatic);
      && r.value.owner == clazz.value.name
      && DeclaresMethod(env, clazz.value, r.value.slot, name, sig, isStatic)
      && forall j :: 0 <= j < r.value.slot ==> !DeclaresMethod(env, clazz.value, j, name, sig, isStatic)
    ensures MethodLookup(env, clazz, name, sig, isStatic).None? && env != null && clazz.Some? ==>
      forall j: nat :: !DeclaresMethod(env, clazz.value, j, name, sig, isStatic)
  {
  }

  /** Whether a reflective scan gets as far as the declared fields of `clazz`. */
  predicate CanScan(env: Env?, clazz: Option<ClassRef>) {
    env != null && clazz.Some? && env.reflection && clazz.value.name in env.classes
  }

  /** What `findFieldBySignature` returns. */
  function SignatureLookup(env: Env?, clazz: Option<ClassRef>, signature: string): (r: Option<FieldId>)
    ensures !CanScan(env, clazz) ==> r.None?
    ensures r.Some? ==>
      && CanScan(env, clazz) && r.value.owner == clazz.value.name
      && r.value.slot < |env.classes[clazz.value.name].fields|
      && env.classes[clazz.value.name].fields[r.value.slot].sig == signature
      && !env.classes[clazz.value.name].fields[r.value.slot].isStatic
  {
    if !CanScan(env, clazz) then None
    else Introspection.FieldBySignature(env.classes, clazz.value, signature)
  }

  /** What `findBooleanField` returns. */
  function BooleanLookup(env: Env?, clazz: Option<ClassRef>, index: int): (r: Option<FieldId>)
    ensures !CanScan(env, clazz) ==> r.None?
    ensures r.Some? ==>
      && CanScan(env, clazz) && r.value.owner == clazz.value.name
      && r.value.slot < |env.classes[clazz.value.name].fields|
      && env.classes[clazz.value.name].fields[r.value.slot].sig == "Z"
      && !env.classes[clazz.value.name].fields[r.value.slot].isStatic
  {
    if !CanScan(env, clazz) then None
    else Introspection.BooleanFieldAt(env.classes, clazz.value, index)
  }

  class JNIUtils {
    var jvm: JavaVm?
    var env: Env?
    var attached: bool

    /** Attachment binds this thread to `jvm` through its environment, and no
        exception is ever left pending between two calls of the helpers. */
    ghost predicate Valid()
      reads this, env
    {
      && (attached ==> jvm != null && env != null && env == jvm.env)
      && (env != null ==> !env.pending)
    }

    constructor ()
      ensures Valid() && jvm == null && env == null && !attached
    {
      jvm, env, attached := null, null, false;
    }

    /** `attachToJVM`, with the outcome of the process-wide search for a
        virtual machine (`findJVM`) passed in as `found`. */
    method AttachToJVM(found: JavaVm?) returns (ok: bool)
      requires Valid()
      requires found != null ==> !found.env.pending
      modifies this, found
      ensures Valid()
      ensures old(attached) ==> ok && jvm == old(jvm) && env == old(env) && attached
      ensures !old(attached) ==> jvm == found
      ensures !old(attached) ==> (ok <==> found != null && found.attachOk)
      ensures !old(attached) && ok ==> attached && env == found.env && found.threadAttached
      ensures !old(attached) && !ok ==> !attached && env == old(env)
      ensures old(attached) && found != null ==> found.threadAttached == old(found.threadAttached)
      ensures ok == attached
    {
      if attached {
        return true;
      }
      jvm := found;
      if jvm == null {
        return false;
      }
      var result, penv := jvm.AttachCurrentThread();
      if !result {
        return false;
      }
      env := penv;
      attached := true;
      return true;
    }

    /** `detachFromJVM`: a no-op unless attached, so calling it twice is the
        same as calling it once. The environment handle is kept. */
    method DetachFromJVM()
      requires Valid()
      modifies this, jvm
      ensures Valid()
      ensures !attached && jvm == old(jvm) && env == old(env)
      ensures old(attached) && jvm != null ==> !jvm.threadAttached
      ensures !old(attached) ==> jvm != null ==> jvm.threadAttached == old(jvm.threadAttached)
    {
      if attached && jvm != null {
        jvm.DetachCurrentThread();
        attached := false;
      }
    }

    method FindClass(className: string) returns (clazz: Option<ClassRef>)
      requires Valid()
      modifies env
      ensures Valid()
      ensures clazz == ClassLookup(env, className)
      ensures env != null ==> !env.pending && unchanged(env`heap, env`statics)
    {
      if env == null {
        return None;
      }
      clazz := env.FindClass(className);
      if env.pending {
        env.ExceptionClear();
        return None;
      }
      if clazz.None? {
        return None;
      }
    }

    method GetMethodID(clazz: Option<ClassRef>, methodName: string, signature: string) returns (m: Option<MethodId>)
      requires Valid()
      modifies env
      ensures Valid()
      ensures m == MethodLookup(env, clazz, methodName, signature, false)
      ensures env != null ==> !env.pending && unchanged(env`heap, env`statics)
    {
      if env == null || clazz.None? {
        return None;
      }
      m := env.GetMethodID(clazz.value, methodName, signature, false);
      if env.pending {
        env.ExceptionClear();
        return None;
      }
    }

    method GetFieldID(clazz: Option<ClassRef>, fieldName: string, signature: string) returns (f: Option<FieldId>)
      requires Valid()
      modifies env
      ensures Valid()
      ensures f == FieldLookup(env, clazz, fieldName, signature, false)
      ensures env != null ==> !env.pending && unchanged(env`heap, env`statics)
    {
      if env == null || clazz.None? {
        return None;
      }
      f := env.GetFieldID(clazz.value, fieldName, signature, false);
      if env.pending {
        env.ExceptionClear();
        return None;
      }
    }

    method GetStaticMethodID(clazz: Option<ClassRef>, methodName: string, signature: string) returns (m: Option<MethodId>)
      requires Valid()
      modifies env
      ensures Valid()
      ensures m == MethodLookup(env, clazz, methodName, signature, true)
      ensures env != null ==> !env.pending && unchanged(env`heap, env`statics)
    {
      if env == null || clazz.None? {
        return None;
      }
      m := env.GetMethodID(clazz.value, methodName, signature, true);
      if env.pending {
        env.ExceptionClear();
        return None;
      }
    }

    method GetStaticFieldID(clazz: Option<ClassRef>, fieldName: string, signature: string) returns (f: Option<FieldId>)
      requires Valid()
      modifies env
      ensures Valid()
      ensures f == FieldLookup(env, clazz, fieldName, signature, true)
      ensures env != null ==> !env.pending && unchanged(env`heap, env`statics)
    {
      if env == null || clazz.None? {
        return None;
      }
      f := env.GetFieldID(clazz.value, fieldName, signature, true);
      if env.pending {
        env.ExceptionClear();
        return None;
      }
    }

    /** The guard every typed accessor applies before touching the runtime. */
    predicate CanAccess(obj: Option<ObjRef>, fieldID: Option<FieldId>)
      reads this
    {
      env != null && obj.Some? && fieldID.Some?
    }

    function GetObjectField(obj: Option<ObjRef>, fieldID: Option<FieldId>): (r: Option<ObjRef>)
      reads this, env
      ensures !CanAccess(obj, fieldID) ==> r.None?
      ensures CanAccess(obj, fieldID) ==> r == env.ObjectAt(obj.value, fieldID.value)
    {
      if env == null || obj.None? || fieldID.None? then None
      else env.ObjectAt(obj.value, fieldID.value)
    }

    function GetBooleanField(obj: Option<ObjRef>, fieldID: Option<FieldId>): (r: bool)
      reads this, env
      ensures !CanAccess(obj, fieldID) ==> !r
      ensures CanAccess(obj, fieldID) ==> r == env.BooleanAt(obj.value, fieldID.value)
    {
      if env == null || obj.None? || fieldID.None? then false
      else env.BooleanAt(obj.value, fieldID.value)
    }

    function GetFloatField(obj: Option<ObjRef>, fieldID: Option<FieldId>): (r: int)
      reads this, env
      ensures !CanAccess(obj, fieldID) ==> r == 0
      ensures CanAccess(obj, fieldID) ==> r == env.FloatAt(obj.value, fieldID.value)
    {
      if env == null || obj.None? || fieldID.None? then 0
      else env.FloatAt(obj.value, fieldID.value)
    }

    function GetDoubleField(obj: Option<ObjRef>, fieldID: Option<FieldId>): (r: int)
      reads this, env
      ensures !CanAccess(obj, fieldID) ==> r == 0
      ensures CanAccess(obj, fieldID) ==> r == env.DoubleAt(obj.value, fieldID.value)
    {
      if env == null || obj.None? || fieldID.None? then 0
      else env.DoubleAt(obj.value, fieldID.value)
    }

    /** The part of the runtime every setter writes: the one slot, or nothing. */
    function StoredHeap(old_heap: map<(ObjRef, FieldId), Value>, obj: Option<ObjRef>, fieldID: Option<FieldId>, v: Value): map<(ObjRef, FieldId), Value>
      reads this
    {
      if CanAccess(obj, fieldID) then old_heap[(obj.value, fieldID.value) := v] else old_heap
    }

    method SetObjectField(obj: Option<ObjRef>, fieldID: Option<FieldId>, value: Option<ObjRef>)
      requires Valid()
      modifies env
      ensures Valid()
      ensures env != null ==> env.heap == StoredHeap(old(env.heap), obj, fieldID, ObjVal(value))
      ensures env != null ==> unchanged(env`pending, env`statics)
      ensures CanAccess(obj, fieldID) ==> GetObjectField(obj, fieldID) == value
    {
      if env == null || obj.None? || fieldID.None? {
        return;
      }
      env.Store(obj.value, fieldID.value, ObjVal(value));
    }

    method SetBooleanField(obj: Option<ObjRef>, fieldID: Option<FieldId>, value: bool)
      requires Valid()
      modifies env
      ensures Valid()
      ensures env != null ==> env.heap == StoredHeap(old(env.heap), obj, fieldID, BoolVal(value))
      ensures env != null ==> unchanged(env`pending, env`statics)
      ensures CanAccess(obj, fieldID) ==> GetBooleanField(obj, fieldID) == value
    {
      if env == null || obj.None? || fieldID.None? {
        return;
      }
      env.Store(obj.value, fieldID.value, BoolVal(value));
    }

    method SetFloatField(obj: Option<ObjRef>, fieldID: Option<FieldId>, value: int)
      requires Valid()
      modifies env
      ensures Valid()
      ensures env != null ==> env.heap == StoredHeap(old(env.heap), obj, fieldID, FloatVal(value))
      ensures env != null ==> unchanged(env`pending, env`statics)
      ensures CanAccess(obj, fieldID) ==> GetFloatField(obj, fieldID) == value
    {
      if env == null || obj.None? || fieldID.None? {
        return;
      }
      env.Store(obj.value, fieldID.value, FloatVal(value));
    }

    method SetDoubleField(obj: Option<ObjRef>, fieldID: Option<FieldId>, value: int)
      requires Valid()
      modifies env
      ensures Valid()
      ensures env != null ==> env.heap == StoredHeap(old(env.heap), obj, fieldID, DoubleVal(value))
      ensures env != null ==> unchanged(env`pending, env`statics)
      ensures CanAccess(obj, fieldID) ==> GetDoubleField(obj, fieldID) == value
    {
      if env == null || obj.None? || fieldID.None? {
        return;
      }
      env.Store(obj.value, fieldID.value, DoubleVal(value));
    }

    /** `findFieldBySignature`: scan the declared fields in order, stop at the
        first whose reflected type name equals the converted signature, and
        return that field's handle as `GetFieldID` gives it for the original
        signature, or null. */
    method FindFieldBySignature(clazz: Option<ClassRef>, signature: string) returns (result: Option<FieldId>)
      requires Valid()
      modifies env
      ensures Valid()
      ensures result == SignatureLookup(env, clazz, signature)
      ensures env != null ==> !env.pending && unchanged(env`heap, env`statics)
    {
      if env == null || clazz.None? {
        return None;
      }
      if !env.reflection || clazz.value.name !in env.classes {
        // java/lang/Class, getDeclaredFields, Field.getName/getType missing,
        // or getDeclaredFields returned null
        return None;
      }
      var fields := env.classes[clazz.value.name].fields;
      ghost var target := Introspection.SignatureToTypeName(signature);
      result := None;
      var i := 0;
      while i < |fields|
        invariant 0 <= i <= |fields|
        invariant forall j :: 0 <= j < i ==> !Introspection.TypeNameIs(fields[j], target)
        invariant result == None && !env.pending && unchanged(env`heap, env`statics)
      {
        var typeString := fields[i].typeName;
        var targetType := Introspection.ConvertSignature(signature);
        if typeString == targetType {
          result := env.GetFieldID(clazz.value, fields[i].name, signature, false);
          if env.pending {
            env.ExceptionClear();
            result := None;
          }
          assert Introspection.TypeIndex(fields, target) == Some(i);
          break;
        }
        i := i + 1;
      }
    }

    /** `findBooleanField`: count the boolean-typed fields in declaration
        order and return the handle of the one of rank `index`, looked up by
        its name with signature `Z`, or null. */
    method FindBooleanField(clazz: Option<ClassRef>, index: int) returns (result: Option<FieldId>)
      requires Valid()
      modifies env
      ensures Valid()
      ensures result == BooleanLookup(env, clazz, index)
      ensures env != null ==> !env.pending && unchanged(env`heap, env`statics)
    {
      if env == null || clazz.None? {
        return None;
      }
      if !env.reflection || clazz.value.name !in env.classes {
        // reflective entry points or Boolean.TYPE missing, or no field array
        return None;
      }
      var fields := env.classes[clazz.value.name].fields;
      result := None;
      var currentIndex := 0;
      var i := 0;
      while i < |fields|
        invariant 0 <= i <= |fields|
        invariant currentIndex == |Introspection.BooleanSlots(fields[..i])|
        invariant index < 0 || currentIndex <= index
        invariant result == None && !env.pending && unchanged(env`heap, env`statics)
      {
        if IsBooleanField(fields[i]) {
          if currentIndex == index {
            Introspection.BooleanSlotAt(fields, i);
            result := env.GetFieldID(clazz.value, fields[i].name, "Z", false);
            if env.pending {
              env.ExceptionClear();
              result := None;
            }
            break;
          }
          currentIndex := currentIndex + 1;
        }
        assert fields[..i + 1][..i] == fields[..i];
        i := i + 1;
      }
      if i == |fields| {
        assert fields[..i] == fields;
      }
    }
  }
}
