/**
 The merge patches both reconcilers write the deployment with: section 2 of RFC 7396, and the patch
 that client.MergeFrom computes from two copies. A patch takes the copy it was computed from to the
 copy the caller wants; on any other document a list in it replaces the stored list wholesale, which is
 why the two reconcilers must not interleave.
 */
module MergePatch {
  import opened Wrappers

  datatype Json =
    | Null
    | Text(text: string)
    | List(items: seq<Json>)
    | Object(fields: map<string, Json>)

  // ---- applying a patch --------------------------------------------------------------------------

  function Apply(target: Json, patch: Json): Json
    decreases patch
  {
    if patch.Object?
    then Object(ApplyFields(if target.Object? then target.fields else map[], patch))
    else patch
  }

  function ApplyFields(fields: map<string, Json>, patch: Json): map<string, Json>
    requires patch.Object?
    decreases patch, 0
  {
    map key | key in fields.Keys + patch.fields.Keys && (key in patch.fields ==> patch.fields[key] != Null)
      :: if key !in patch.fields then fields[key]
         else Apply(if key in fields then fields[key] else Null, patch.fields[key])
  }

  // ---- computing a patch -------------------------------------------------------------------------

  /** What must be patched at one key: nothing, a nested patch, or the wanted value. */
  function DiffAt(from: Option<Json>, want: Json): Option<Json>
    decreases want
  {
    if from.Some? && from.value.Object? && want.Object? then
      var nested := Diff(from.value.fields, want);
      if nested.fields == map[] then None else Some(nested)
    else if from == Some(want) then None
    else Some(want)
  }

  function At(fields: map<string, Json>, key: string): Option<Json> {
    if key in fields then Some(fields[key]) else None
  }

  /** The patch from one object to another: a null for each key that went away, and the differences elsewhere. */
  function Diff(from: map<string, Json>, want: Json): (patch: Json)
    requires want.Object?
    ensures patch.Object?
    decreases want, 0
  {
    Object(map key | key in from.Keys + want.fields.Keys && (key in want.fields ==> DiffAt(At(from, key), want.fields[key]).Some?)
             :: if key in want.fields then DiffAt(At(from, key), want.fields[key]).value else Null)
  }

  /** No object inside has a null member, as in what the API server serialises. */
  predicate NoNulls(j: Json) {
    j.Object? ==> forall key | key in j.fields :: j.fields[key] != Null && NoNulls(j.fields[key])
  }

  /** A document without nulls, applied where there is no object, arrives as it is. */
  lemma {:induction false} ApplyWhole(target: Json, want: Json)
    requires NoNulls(want) && !target.Object?
    ensures Apply(target, want) == want
    decreases want
  {
    if want.Object? {
      forall key | key in want.fields ensures Apply(Null, want.fields[key]) == want.fields[key] {
        ApplyWhole(Null, want.fields[key]);
      }
      assert ApplyFields(map[], want) == want.fields;
    }
  }

  lemma {:induction false} EmptyPatch(fields: map<string, Json>)
    ensures Apply(Object(fields), Object(map[])) == Object(fields)
  {
    assert ApplyFields(fields, Object(map[])) == fields;
  }

  lemma {:induction false} RoundTripAt(from: Option<Json>, want: Json)
    requires NoNulls(want) && want != Null
    ensures DiffAt(from, want).None? ==> from == Some(want)
    ensures DiffAt(from, want).Some? ==>
              && DiffAt(from, want).value != Null
              && Apply(if from.Some? then from.value else Null, DiffAt(from, want).value) == want
    decreases want, 1
  {
    if from.Some? && from.value.Object? && want.Object? {
      RoundTrip(from.value.fields, want);
      EmptyPatch(from.value.fields);
    } else {
      if !(from.Some? && from.value.Object?) {
        ApplyWhole(if from.Some? then from.value else Null, want);
      }
    }
  }

  /** The patch computed from a copy takes that copy to exactly what the caller wants. */
  lemma {:induction false} RoundTrip(from: map<string, Json>, want: Json)
    requires want.Object? && NoNulls(want)
    ensures Apply(Object(from), Diff(from, want)) == want
    decreases want, 0
  {
    var patch := Diff(from, want);
    forall key | key in want.fields
      ensures DiffAt(At(from, key), want.fields[key]).None? ==> At(from, key) == Some(want.fields[key])
      ensures DiffAt(At(from, key), want.fields[key]).Some? ==>
                && DiffAt(At(from, key), want.fields[key]).value != Null
                && Apply(if key in from then from[key] else Null, DiffAt(At(from, key), want.fields[key]).value)
                   == want.fields[key]
    {
      RoundTripAt(At(from, key), want.fields[key]);
    }
    assert ApplyFields(from, patch) == want.fields;
  }

  // ---- patches against a document that has moved on --------------------------------------------------

  /** What a patch has for one key: a deletion, a difference, or nothing. */
  function PatchAt(read: map<string, Json>, copy: Json, key: string): Option<Json>
    requires copy.Object?
  {
    if key in copy.fields then DiffAt(At(read, key), copy.fields[key])
    else if key in read then Some(Null)
    else None
  }

  /** What the stored object has at one key after the patch. */
  lemma PatchedAt(read: map<string, Json>, copy: Json, stored: map<string, Json>, key: string)
    requires copy.Object?
    ensures var after := At(Apply(Object(stored), Diff(read, copy)).fields, key);
            match PatchAt(read, copy, key)
            case None => after == At(stored, key)
            case Some(Null) => after == None
            case Some(p) => after == Some(Apply(if key in stored then stored[key] else Null, p))
  {
    var patch := Diff(read, copy);
    assert Apply(Object(stored), patch).fields == ApplyFields(stored, patch);
    assert At(patch.fields, key) == PatchAt(read, copy, key);
  }

  /**
   patchHypershiftDeploymentResource reads the object and sends the difference between what it read and
   the caller's copy, both whole documents. Wherever the object still says what was read, it says
   afterwards what the copy says, whatever that was: what others wrote between the caller's own read and
   this one is undone.
   */
  lemma PatchStoresTheCopy(read: map<string, Json>, copy: Json, stored: map<string, Json>, key: string)
    requires copy.Object? && NoNulls(copy) && At(stored, key) == At(read, key)
    ensures At(Apply(Object(stored), Diff(read, copy)).fields, key) == At(copy.fields, key)
  {
    PatchedAt(read, copy, stored, key);
    if key in copy.fields {
      RoundTripAt(At(read, key), copy.fields[key]);
    }
  }

  /**
   What others write between that read and the patch: a value under a key that is not an object in the
   copy survives if and only if the copy agreed with the read there.
   */
  lemma LateWriteSurvivesIff(read: map<string, Json>, copy: Json, stored: map<string, Json>, key: string)
    requires copy.Object? && NoNulls(copy) && (key in copy.fields ==> !copy.fields[key].Object?)
    requires key in stored && At(stored, key) != At(copy.fields, key)
    ensures At(Apply(Object(stored), Diff(read, copy)).fields, key) == At(stored, key)
       <==> At(read, key) == At(copy.fields, key)
  {
    PatchedAt(read, copy, stored, key);
  }

  /**
   A patch computed from an old copy: a list that the caller changed replaces the stored list, whatever
   has been added to it since; a list the caller did not change stays as it is stored.
   */
  lemma ListsAreReplaced(read: map<string, Json>, want: Json, stored: map<string, Json>, key: string)
    requires want.Object? && key in want.fields && want.fields[key].List?
    ensures var after := Apply(Object(stored), Diff(read, want)).fields;
            At(after, key) == if At(read, key) == Some(want.fields[key]) then At(stored, key) else Some(want.fields[key])
  {
    PatchedAt(read, want, stored, key);
  }

  const FINALIZERS := "finalizers"

  function ListAt(fields: map<string, Json>, key: string): seq<Json> {
    if key in fields && fields[key].List? then fields[key].items else []
  }

  /**
   Why the reconcilers must not interleave. The import reconciler adds its finalizer to the list it
   read. A finalizer stored in the meantime, such as the destroy finalizer, survives that patch if and
   only if it was in the list that was read, or is the one being added.
   */
  lemma StalePatchDropsFinalizer(read: map<string, Json>, stored: map<string, Json>, added: Json, other: Json)
    requires other in ListAt(stored, FINALIZERS)
    ensures var want := Object(read[FINALIZERS := List(ListAt(read, FINALIZERS) + [added])]);
            var after := Apply(Object(stored), Diff(read, want)).fields;
            other in ListAt(after, FINALIZERS) <==> other in ListAt(read, FINALIZERS) || other == added
  {
    var mine := ListAt(read, FINALIZERS) + [added];
    var want := Object(read[FINALIZERS := List(mine)]);
    ListsAreReplaced(read, want, stored, FINALIZERS);
    assert At(read, FINALIZERS) != Some(List(mine));
    assert other in mine <==> other in ListAt(read, FINALIZERS) || other == added;
  }
}
