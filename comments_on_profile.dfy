/** The derived view that keeps a copy of every comment on its author's profile. */
module CommentsOnProfile {
  import opened Values

  /** A store coordinate: structure, instance, object type and key. The instance and
      key of a derived copy are read from the comment and may be any value. */
  datatype Coord = Coord(structureKey: string, instanceKey: Value, objType: string, key: Value)

  /** A committed object write as the trigger handler receives it. */
  datatype ObjectWrite = ObjectWrite(structureKey: string, instanceKey: string, objType: string, key: string, value: Object)

  /** The derived objects of one silo, by coordinate. */
  type DerivedStore = map<Coord, Object>

  /** A trigger binding: the structure and object type whose writes fire the handler. */
  datatype Binding = Binding(structureKey: string, objType: string)

  /** The handler is registered for comments written under `simplecomments`. */
  const CommentsOnProfileBinding: Binding := Binding("simplecomments", "comment")

  /** A write fires a binding when its structure and object type are the bound ones. */
  predicate Fires(b: Binding, w: ObjectWrite) {
    w.structureKey == b.structureKey && w.objType == b.objType
  }

  /** Where the copy of a comment goes: its author's profile, under the comment's key. */
  function ProfileCoord(comment: Object): Coord {
    Coord("profile", Get(comment, "from"), "comment", Get(comment, "key"))
  }

  /** `{...comment, instanceKey, structureKey}`: every field of the comment, with the
      source write's instance and structure replacing any fields of those names. */
  function ProfileCopy(comment: Object, structureKey: string, instanceKey: string): (copy: Object)
    ensures copy.Keys == comment.Keys + {"instanceKey", "structureKey"}
    ensures Get(copy, "instanceKey") == Str(instanceKey)
    ensures Get(copy, "structureKey") == Str(structureKey)
    ensures forall k :: k != "instanceKey" && k != "structureKey" ==> Get(copy, k) == Get(comment, k)
  {
    comment["instanceKey" := Str(instanceKey)]["structureKey" := Str(structureKey)]
  }

  /** The effect of one handler run on the derived store: one wholesale upsert. */
  function DeriveProfileCopy(store: DerivedStore, structureKey: string, instanceKey: string, comment: Object): DerivedStore {
    store[ProfileCoord(comment) := ProfileCopy(comment, structureKey, instanceKey)]
  }

  /** One run writes exactly the profile coordinate of the comment and no other. */
  lemma OnlyProfileEntryChanges(store: DerivedStore, structureKey: string, instanceKey: string, comment: Object)
    ensures
      var after := DeriveProfileCopy(store, structureKey, instanceKey, comment);
      && after.Keys == store.Keys + {ProfileCoord(comment)}
      && after[ProfileCoord(comment)] == ProfileCopy(comment, structureKey, instanceKey)
      && forall c :: c in store && c != ProfileCoord(comment) ==> after[c] == store[c]
  {
  }

  /** Re-firing on the same write leaves the store as one run left it. */
  lemma RefireIsSafe(store: DerivedStore, structureKey: string, instanceKey: string, comment: Object)
    ensures
      var once := DeriveProfileCopy(store, structureKey, instanceKey, comment);
      DeriveProfileCopy(once, structureKey, instanceKey, comment) == once
  {
  }

  /** Re-firing with an evolved comment at the same coordinate overwrites the copy
      wholesale: nothing of the earlier copy survives. */
  lemma EvolvedCommentOverwrites(store: DerivedStore, structureKey: string, instanceKey: string,
                                 earlier: Object, later: Object, laterStructure: string, laterInstance: string)
    requires ProfileCoord(earlier) == ProfileCoord(later)
    ensures
      DeriveProfileCopy(DeriveProfileCopy(store, structureKey, instanceKey, earlier), laterStructure, laterInstance, later)
      == DeriveProfileCopy(store, laterStructure, laterInstance, later)
  {
  }

  /** The write of a comment from 'u1' with key 'c1' and text 'hi' under
      `simplecomments/conv1` puts at `profile/u1/comment/c1` a copy with that text
      and the source coordinates. */
  lemma ExampleCopy(store: DerivedStore)
    ensures
      var comment := map["from" := Str("u1"), "key" := Str("c1"), "text" := Str("hi")];
      var w := ObjectWrite("simplecomments", "conv1", "comment", "c1", comment);
      var after := OnObjectWrite(store, w);
      var at := Coord("profile", Str("u1"), "comment", Str("c1"));
      && at in after
      && Get(after[at], "text") == Str("hi")
      && Get(after[at], "instanceKey") == Str("conv1")
      && Get(after[at], "structureKey") == Str("simplecomments")
      && Get(after[at], "from") == Str("u1")
  {
  }

  /** The effect of a committed write on the derived store, for this handler alone. */
  function OnObjectWrite(store: DerivedStore, w: ObjectWrite): (after: DerivedStore)
    ensures !Fires(CommentsOnProfileBinding, w) ==> after == store
    ensures Fires(CommentsOnProfileBinding, w) <==> w.structureKey == "simplecomments" && w.objType == "comment"
    // A firing write puts the profile copy, stamped with the write's coordinates, at the
    // comment's profile coordinate and keeps every other entry.
    ensures Fires(CommentsOnProfileBinding, w) ==>
      && after.Keys == store.Keys + {ProfileCoord(w.value)}
      && after[ProfileCoord(w.value)] == ProfileCopy(w.value, "simplecomments", w.instanceKey)
      && forall c :: c in store && c != ProfileCoord(w.value) ==> after[c] == store[c]
  {
    if Fires(CommentsOnProfileBinding, w) then DeriveProfileCopy(store, w.structureKey, w.instanceKey, w.value) else store
  }

  /** The datastore's derived objects, which `setDerivedObject` upserts. */
  class Datastore {
    var derived: DerivedStore

    constructor (initial: DerivedStore)
      ensures derived == initial
    {
      derived := initial;
    }

    /** `setDerivedObject`: a wholesale upsert at one coordinate. */
    method SetDerivedObject(at: Coord, value: Object)
      modifies this
      ensures derived == old(derived)[at := value]
    {
      derived := derived[at := value];
    }
  }

  /** `CommentsOnProfileAsync`: copies the written comment to its author's profile. */
  method CommentsOnProfileAsync(datastore: Datastore, structureKey: string, instanceKey: string, comment: Object)
    modifies datastore
    ensures datastore.derived == DeriveProfileCopy(old(datastore.derived), structureKey, instanceKey, comment)
  {
    datastore.SetDerivedObject(ProfileCoord(comment), ProfileCopy(comment, structureKey, instanceKey));
  }

  /** A committed write reaching the trigger: the handler runs iff the write fires its binding. */
  method Dispatch(datastore: Datastore, w: ObjectWrite)
    modifies datastore
    ensures datastore.derived == OnObjectWrite(old(datastore.derived), w)
  {
    if Fires(CommentsOnProfileBinding, w) {
      CommentsOnProfileAsync(datastore, w.structureKey, w.instanceKey, w.value);
    }
  }
}
