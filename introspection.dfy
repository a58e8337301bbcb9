/** The reflective fallbacks of the interface helpers: picking a declared field
    by the reflected name of its type (`findFieldBySignature`) or by its rank
    among the boolean fields (`findBooleanField`). This module holds what those
    scans compute, as functions over the declared fields, and the facts about
    them; the scans themselves are methods of `JniUtils.JNIUtils`. */
module Introspection {
  import opened Options
  import opened Jvm

  /** A signature of the form `L...;` with at least one character inside. */
  predicate IsReferenceDescriptor(sig: string) {
    |sig| > 2 && sig[0] == 'L' && sig[|sig| - 1] == ';'
  }

  function DotFor(c: char): char {
    if c == '/' then '.' else c
  }

  function SlashFor(c: char): char {
    if c == '.' then '/' else c
  }

  /** The name a signature is compared against: `Lpkg/Name;` becomes
      `pkg.Name`; any other signature (a primitive `Z`, the too-short `L;`, an
      array `[I`) is compared as it stands. */
  function SignatureToTypeName(sig: string): (r: string)
    ensures IsReferenceDescriptor(sig) ==> |r| == |sig| - 2 && '/' !in r
    ensures !IsReferenceDescriptor(sig) ==> r == sig
  {
    if IsReferenceDescriptor(sig) then
      seq(|sig| - 2, k requires 0 <= k < |sig| - 2 => DotFor(sig[k + 1]))
    else sig
  }

  /** The descriptor of a reference type, from the name reflection reports. */
  function DescriptorOf(typeName: string): string {
    "L" + seq(|typeName|, k requires 0 <= k < |typeName| => SlashFor(typeName[k])) + ";"
  }

  /** Converting the descriptor of a named reference type gives that name back,
      so a field of type `pkg.Name` is found by the signature `Lpkg/Name;`. */
  lemma DescriptorRoundTrip(typeName: string)
    requires typeName != [] && '/' !in typeName
    ensures IsReferenceDescriptor(DescriptorOf(typeName))
    ensures SignatureToTypeName(DescriptorOf(typeName)) == typeName
  {
    var d := DescriptorOf(typeName);
    assert |d| == |typeName| + 2;
    forall k | 0 <= k < |typeName|
      ensures DotFor(d[k + 1]) == typeName[k]
    {
      assert d[k + 1] == SlashFor(typeName[k]);
      assert typeName[k] != '/';
    }
  }

  /** The target computation of the scan, with its in-place `/` to `.` rewrite. */
  method ConvertSignature(signature: string) returns (targetType: string)
    ensures targetType == SignatureToTypeName(signature)
  {
    targetType := signature;
    if |targetType| > 2 && targetType[0] == 'L' && targetType[|targetType| - 1] == ';' {
      targetType := targetType[1..|targetType| - 1];
      var j := 0;
      while j < |targetType|
        invariant 0 <= j <= |targetType| == |signature| - 2
        invariant forall k :: 0 <= k < j ==> targetType[k] == DotFor(signature[k + 1])
        invariant forall k :: j <= k < |targetType| ==> targetType[k] == signature[k + 1]
      {
        if targetType[j] == '/' {
          targetType := targetType[j := '.'];
        }
        j := j + 1;
      }
    }
  }

  /** Positions of the boolean fields among the declared fields, in order. */
  function BooleanSlots(fields: seq<Field>): (r: seq<nat>)
    ensures forall k :: 0 <= k < |r| ==> r[k] < |fields| && IsBooleanField(fields[r[k]])
    ensures forall k, l :: 0 <= k < l < |r| ==> r[k] < r[l]
    ensures forall i :: 0 <= i < |fields| && IsBooleanField(fields[i]) ==> i in r
  {
    if fields == [] then []
    else
      BooleanSlots(fields[..|fields| - 1])
      + (if IsBooleanField(fields[|fields| - 1]) then [|fields| - 1] else [])
  }

  /** The boolean positions of a prefix are a prefix of the boolean positions. */
  lemma {:induction false} BooleanSlotsPrefix(fields: seq<Field>, n: nat)
    requires n <= |fields|
    ensures BooleanSlots(fields[..n]) <= BooleanSlots(fields)
    decreases |fields|
  {
    if n < |fields| {
      var init := fields[..|fields| - 1];
      assert init[..n] == fields[..n];
      BooleanSlotsPrefix(init, n);
    } else {
      assert fields[..n] == fields;
    }
  }

  /** A boolean field at position `i` is the boolean field of rank "number of
      boolean fields before it". */
  lemma BooleanSlotAt(fields: seq<Field>, i: nat)
    requires i < |fields| && IsBooleanField(fields[i])
    ensures |BooleanSlots(fields[..i])| < |BooleanSlots(fields)|
    ensures BooleanSlots(fields)[|BooleanSlots(fields[..i])|] == i
  {
    assert fields[..i + 1][..i] == fields[..i];
    assert BooleanSlots(fields[..i + 1]) == BooleanSlots(fields[..i]) + [i];
    BooleanSlotsPrefix(fields, i + 1);
  }

  /** The boolean field of rank `k` has exactly `k` boolean fields before it. */
  lemma {:induction false} BooleanSlotRank(fields: seq<Field>, k: nat)
    requires k < |BooleanSlots(fields)|
    ensures |BooleanSlots(fields[..BooleanSlots(fields)[k]])| == k
    decreases |fields|
  {
    var n := |fields|;
    var init := fields[..n - 1];
    var b := BooleanSlots(init);
    if k < |b| {
      assert BooleanSlots(fields)[k] == b[k];
      assert init[..b[k]] == fields[..b[k]];
      BooleanSlotRank(init, k);
    } else {
      assert BooleanSlots(fields)[k] == n - 1;
      assert fields[..n - 1] == init;
    }
  }

  /** The field at position `i` is the one a lookup by its own name and `sig`
      returns: it has that signature, is an instance field, and no earlier
      instance field has the same name and signature. */
  predicate ResolvesAt(fields: seq<Field>, i: nat, sig: string)
    requires i < |fields|
  {
    && fields[i].sig == sig
    && !fields[i].isStatic
    && forall j :: 0 <= j < i ==> !FieldMatches(fields[j], fields[i].name, sig, false)
  }

  lemma LookupResolvesAt(classes: ClassTable, c: ClassRef, i: nat, sig: string)
    requires c.name in classes && i < |classes[c.name].fields|
    requires ResolvesAt(classes[c.name].fields, i, sig)
    ensures LookupField(classes, c, classes[c.name].fields[i].name, sig, false) == Some(FieldId(c.name, i))
  {
    var fields := classes[c.name].fields;
    var p := (f: Field) => FieldMatches(f, fields[i].name, sig, false);
    assert p(fields[i]);
  }

  predicate TypeNameIs(f: Field, target: string) {
    f.typeName == target
  }

  /** The position of the first field whose reflected type name is `target`. */
  function TypeIndex(fields: seq<Field>, target: string): (r: Option<nat>)
    ensures r.Some? ==> r.value < |fields| && TypeNameIs(fields[r.value], target)
    ensures r.Some? ==> forall j :: 0 <= j < r.value ==> !TypeNameIs(fields[j], target)
    ensures r.None? ==> forall j :: 0 <= j < |fields| ==> !TypeNameIs(fields[j], target)
  {
    if fields == [] then None
    else if TypeNameIs(fields[0], target) then Some(0)
    else
      match TypeIndex(fields[1..], target)
      case None => None
      case Some(k) => Some(k + 1)
  }

  /** `findFieldBySignature` on a loaded class with reflection available: the
      first declared field whose reflected type name equals the converted
      signature is looked up by its name and the original signature; no later
      field of that type is ever considered. */
  function FieldBySignature(classes: ClassTable, c: ClassRef, signature: string): (r: Option<FieldId>)
    requires c.name in classes
    ensures r.Some? ==> r.value.owner == c.name && r.value.slot < |classes[c.name].fields|
    ensures r.Some? ==>
      var fields := classes[c.name].fields;
      exists i :: 0 <= i < |fields| && TypeNameIs(fields[i], SignatureToTypeName(signature))
        && (forall j :: 0 <= j < i ==> !TypeNameIs(fields[j], SignatureToTypeName(signature)))
        && r == LookupField(classes, c, fields[i].name, signature, false)
    ensures (forall i :: 0 <= i < |classes[c.name].fields| ==>
               !TypeNameIs(classes[c.name].fields[i], SignatureToTypeName(signature))) ==> r.None?
  {
    var fields := classes[c.name].fields;
    var target := SignatureToTypeName(signature);
    match TypeIndex(fields, target)
    case None => None
    case Some(i) => LookupField(classes, c, fields[i].name, signature, false)
  }

  /** When the first field of the wanted type resolves under the signature, the
      scan returns exactly that field. */
  lemma SignaturePicksFirstOfType(classes: ClassTable, c: ClassRef, signature: string, i: nat)
    requires c.name in classes && i < |classes[c.name].fields|
    requires TypeNameIs(classes[c.name].fields[i], SignatureToTypeName(signature))
    requires forall j :: 0 <= j < i ==> !TypeNameIs(classes[c.name].fields[j], SignatureToTypeName(signature))
    requires ResolvesAt(classes[c.name].fields, i, signature)
    ensures FieldBySignature(classes, c, signature) == Some(FieldId(c.name, i))
  {
    var fields := classes[c.name].fields;
    var target := SignatureToTypeName(signature);
    var p := (f: Field) => TypeNameIs(f, target);
    assert p(fields[i]);
    LookupResolvesAt(classes, c, i, signature);
  }

  /** An illustration of `SignaturePicksFirstOfType`: the scan stops at the
      first field of the wanted type even when looking it up fails (here
      because it is static), although a later field of the same type would have
      resolved. */
  lemma SignatureNeverTriesLaterMatch()
    ensures
      var fields := [Field("a", "Lrz;", "rz", true), Field("b", "Lrz;", "rz", false)];
      var classes := map["bew" := ClassDef(fields, [])];
      && LookupField(classes, ClassRef("bew"), "b", "Lrz;", false) == Some(FieldId("bew", 1))
      && FieldBySignature(classes, ClassRef("bew"), "Lrz;") == None
  {
    var fields := [Field("a", "Lrz;", "rz", true), Field("b", "Lrz;", "rz", false)];
    var classes := map["bew" := ClassDef(fields, [])];
    assert SignatureToTypeName("Lrz;") == "rz";
    assert TypeIndex(fields, "rz") == Some(0);
    assert !FieldMatches(fields[1], "a", "Lrz;", false);
  }

  /** A primitive signature is compared unconverted: the scan by `Z` looks for
      a field whose reflected type name is `Z`, so it finds nothing in a class
      where no field reports that name, although its boolean fields (reported
      as `boolean`) have signature `Z`. */
  lemma PrimitiveSignatureNeverMatchesBoolean(classes: ClassTable, c: ClassRef)
    requires c.name in classes
    requires forall i :: 0 <= i < |classes[c.name].fields| ==> classes[c.name].fields[i].typeName != "Z"
    ensures FieldBySignature(classes, c, "Z") == None
  {
    assert !IsReferenceDescriptor("Z");
    assert SignatureToTypeName("Z") == "Z";
  }

  /** `findBooleanField` on a loaded class with reflection available: the
      boolean field of rank `index`, looked up by its name with signature `Z`;
      nothing when there are at most `index` boolean fields or `index` is
      negative. */
  function BooleanFieldAt(classes: ClassTable, c: ClassRef, index: int): (r: Option<FieldId>)
    requires c.name in classes
    ensures !(0 <= index < |BooleanSlots(classes[c.name].fields)|) ==> r.None?
    ensures 0 <= index < |BooleanSlots(classes[c.name].fields)| ==>
      r == LookupField(classes, c, classes[c.name].fields[BooleanSlots(classes[c.name].fields)[index]].name, "Z", false)
    ensures r.Some? ==> r.value.owner == c.name && r.value.slot < |classes[c.name].fields|
  {
    var fields := classes[c.name].fields;
    var slots := BooleanSlots(fields);
    if 0 <= index < |slots| then LookupField(classes, c, fields[slots[index]].name, "Z", false)
    else None
  }

  /** Positional disambiguation: the field returned for `index` is a boolean
      field with exactly `index` boolean fields declared before it. */
  lemma BooleanFieldPositional(classes: ClassTable, c: ClassRef, index: nat, slot: nat)
    requires c.name in classes
    requires index < |BooleanSlots(classes[c.name].fields)|
    requires slot == BooleanSlots(classes[c.name].fields)[index]
    requires ResolvesAt(classes[c.name].fields, slot, "Z")
    ensures BooleanFieldAt(classes, c, index) == Some(FieldId(c.name, slot))
    ensures IsBooleanField(classes[c.name].fields[slot])
    ensures |BooleanSlots(classes[c.name].fields[..slot])| == index
  {
    BooleanSlotRank(classes[c.name].fields, index);
    LookupResolvesAt(classes, c, slot, "Z");
  }
}
