/** The Deployment write as a document: a JSON merge patch (section 2 of RFC 7396) built
    from the Deployment read before. It is shown to do what `Cluster.Applied` says. */
module MergePatch {
  import opened Wrappers

  import opened Cluster

  datatype Json =
    | Null
    | Bool(b: bool)
    | Number(n: int)
    | Text(text: string)
    | List(items: seq<Json>)
    | Object(members: map<string, Json>)

  function Members(doc: Json): map<string, Json> {
    if doc.Object? then doc.members else map[]
  }

  /** A missing member, and any member of what is no object, reads as null. */
  function Get(doc: Json, key: string): Json {
    if key in Members(doc) then Members(doc)[key] else Null
  }

  function Merge(target: Json, patch: Json): Json
    decreases patch
  {
    if !patch.Object? then patch
    else
      Object(map key | key in Members(target).Keys + patch.members.Keys
                       && !(key in patch.members && patch.members[key].Null?)
               :: if key in patch.members then Merge(Get(target, key), patch.members[key])
                  else Members(target)[key])
  }

  /** The document already says everything the patch asks for. */
  predicate Contains(doc: Json, patch: Json)
    decreases patch
  {
    if !patch.Object? then doc == patch
    else
      doc.Object? && forall key | key in patch.members ::
        if patch.members[key].Null? then key !in doc.members
        else key in doc.members && Contains(doc.members[key], patch.members[key])
  }

  lemma GetMerged(target: Json, patch: Json, key: string)
    requires patch.Object?
    ensures Get(Merge(target, patch), key)
            == if key !in patch.members then Get(target, key)
               else if patch.members[key].Null? then Null
               else Merge(Get(target, key), patch.members[key])
  {
  }

  /** The merge leaves this member of the document alone. */
  predicate Settled(doc: Json, patch: Json, key: string)
    requires doc.Object? && patch.Object? && key in patch.members
  {
    if patch.members[key].Null? then key !in doc.members
    else key in doc.members && Merge(doc.members[key], patch.members[key]) == doc.members[key]
  }

  lemma IdleMeansSettled(doc: Json, patch: Json, key: string)
    requires doc.Object? && patch.Object? && key in patch.members && Merge(doc, patch) == doc
    ensures Settled(doc, patch, key)
  {
    var merged := Merge(doc, patch).members;
    assert key in merged <==> !patch.members[key].Null?;
  }

  lemma SettledMeansIdle(doc: Json, patch: Json)
    requires doc.Object? && patch.Object? && forall key | key in patch.members :: Settled(doc, patch, key)
    ensures Merge(doc, patch) == doc
  {
    var merged := Merge(doc, patch).members;
    forall key ensures key in merged <==> key in doc.members {
      assert key in patch.members ==> Settled(doc, patch, key);
    }
    forall key | key in merged ensures merged[key] == doc.members[key] {
      assert key in patch.members ==> Settled(doc, patch, key);
    }
    assert merged == doc.members;
  }

  /** A merge changes nothing exactly when the document contains the patch. */
  lemma {:induction false} MergeIsIdle(doc: Json, patch: Json)
    ensures Merge(doc, patch) == doc <==> Contains(doc, patch)
    decreases patch
  {
    if patch.Object? && doc.Object? {
      hide Merge;
      forall key | key in patch.members && key in doc.members
        ensures Merge(doc.members[key], patch.members[key]) == doc.members[key]
                <==> Contains(doc.members[key], patch.members[key])
      {
        MergeIsIdle(doc.members[key], patch.members[key]);
      }
      if Merge(doc, patch) == doc {
        forall key | key in patch.members ensures Settled(doc, patch, key) {
          IdleMeansSettled(doc, patch, key);
        }
      }
      if Contains(doc, patch) {
        SettledMeansIdle(doc, patch);
      }
    }
  }

  lemma {:induction false} MergedContains(target: Json, patch: Json)
    ensures Contains(Merge(target, patch), patch)
    decreases patch
  {
    if patch.Object? {
      forall key | key in patch.members && !patch.members[key].Null?
        ensures Contains(Merge(Get(target, key), patch.members[key]), patch.members[key])
      {
        MergedContains(Get(target, key), patch.members[key]);
      }
    }
  }

  /** A patch that arrives twice does what it does once. */
  lemma MergeIsIdempotent(target: Json, patch: Json)
    ensures Merge(Merge(target, patch), patch) == Merge(target, patch)
  {
    MergedContains(target, patch);
    MergeIsIdle(Merge(target, patch), patch);
  }

  // ---------- the Deployment write ----------

  const OWNER := "duckflight.sidequery.dev/idle-owner"
  const OPERATION := "duckflight.sidequery.dev/idle-operation"

  function Signature(owner: string, operation: string): (signature: Json)
    ensures signature.Object?
  {
    Object(map[OWNER := Text(owner), OPERATION := Text(operation)])
  }

  function Metadata(version: Json, uid: Json, signature: Json): (metadata: Json)
    ensures metadata.Object?
  {
    Object(map["resourceVersion" := version, "uid" := uid, "annotations" := signature])
  }

  function Spec(replicas: int): (spec: Json)
    ensures spec.Object?
  {
    Object(map["replicas" := Number(replicas)])
  }

  /** The body of a write, from the document read before it. */
  function Body(current: Json, owner: string, operation: string, replicas: Option<int>): (body: Json)
    ensures body.Object?
  {
    var metadata := Get(current, "metadata");
    var written := Metadata(Get(metadata, "resourceVersion"), Get(metadata, "uid"), Signature(owner, operation));
    if replicas.None? then Object(map["metadata" := written])
    else Object(map["metadata" := written, "spec" := Spec(replicas.value)])
  }

  function Annotation(doc: Json, name: string): Json {
    Get(Get(Get(doc, "metadata"), "annotations"), name)
  }

  function Replicas(doc: Json): Json { Get(Get(doc, "spec"), "replicas") }

  /** The stored document has a version and a uid. */
  predicate Identified(doc: Json) {
    Get(Get(doc, "metadata"), "resourceVersion").Text? && Get(Get(doc, "metadata"), "uid").Text?
  }

  /** The server's preconditions: the document still has the version and the uid of the read. */
  predicate Accepted(stored: Json, current: Json) {
    && Get(Get(stored, "metadata"), "resourceVersion") == Get(Get(current, "metadata"), "resourceVersion")
    && Get(Get(stored, "metadata"), "uid") == Get(Get(current, "metadata"), "uid")
  }

  lemma AnnotationsMerged(target: Json, owner: string, operation: string)
    ensures forall k :: Get(Merge(target, Signature(owner, operation)), k)
                     == if k == OWNER then Text(owner) else if k == OPERATION then Text(operation) else Get(target, k)
  {
    forall k ensures Get(Merge(target, Signature(owner, operation)), k)
                  == if k == OWNER then Text(owner) else if k == OPERATION then Text(operation) else Get(target, k) {
      GetMerged(target, Signature(owner, operation), k);
    }
  }

  lemma SpecMerged(target: Json, replicas: int)
    ensures forall k :: Get(Merge(target, Spec(replicas)), k)
                     == if k == "replicas" then Number(replicas) else Get(target, k)
  {
    forall k ensures Get(Merge(target, Spec(replicas)), k)
                  == if k == "replicas" then Number(replicas) else Get(target, k) {
      GetMerged(target, Spec(replicas), k);
    }
  }

  lemma MetadataMerged(target: Json, version: Json, uid: Json, signature: Json)
    requires Get(target, "resourceVersion") == version && Get(target, "uid") == uid
    requires version.Text? && uid.Text? && signature.Object?
    ensures forall k :: Get(Merge(target, Metadata(version, uid, signature)), k)
                     == if k == "annotations" then Merge(Get(target, k), signature) else Get(target, k)
  {
    forall k ensures Get(Merge(target, Metadata(version, uid, signature)), k)
                  == if k == "annotations" then Merge(Get(target, k), signature) else Get(target, k) {
      GetMerged(target, Metadata(version, uid, signature), k);
    }
  }

  /** The document after the write, level by level. */
  lemma WriteMerged(stored: Json, current: Json, owner: string, operation: string, replicas: Option<int>)
    requires Identified(stored) && Accepted(stored, current)
    ensures var merged := Merge(stored, Body(current, owner, operation, replicas));
            && (forall k :: k != "metadata" && k != "spec" ==> Get(merged, k) == Get(stored, k))
            && (forall k :: k != "annotations" ==> Get(Get(merged, "metadata"), k) == Get(Get(stored, "metadata"), k))
            && Get(Get(merged, "metadata"), "annotations")
               == Merge(Get(Get(stored, "metadata"), "annotations"), Signature(owner, operation))
            && Get(merged, "spec") == (if replicas.None? then Get(stored, "spec")
                                       else Merge(Get(stored, "spec"), Spec(replicas.value)))
  {
    hide Merge, Metadata, Signature, Spec;
    var body, metadata := Body(current, owner, operation, replicas), Get(stored, "metadata");
    MetadataMerged(metadata, Get(metadata, "resourceVersion"), Get(metadata, "uid"), Signature(owner, operation));
    forall k ensures Get(Merge(stored, body), k) == if k !in body.members then Get(stored, k)
                                                    else Merge(Get(stored, k), body.members[k]) {
      GetMerged(stored, body, k);
    }
  }

  /** An accepted write sets the two annotations and, if asked, the replica count; every
      other member of the document, at each of the levels it touches, stays as it was. */
  lemma WriteChangesOnly(stored: Json, current: Json, owner: string, operation: string, replicas: Option<int>)
    requires Identified(stored) && Accepted(stored, current)
    ensures var merged := Merge(stored, Body(current, owner, operation, replicas));
            && Annotation(merged, "duckflight.sidequery.dev/idle-owner") == Text(owner)
            && Annotation(merged, "duckflight.sidequery.dev/idle-operation") == Text(operation)
            && Replicas(merged) == (if replicas.Some? then Number(replicas.value) else Replicas(stored))
            && (forall k :: k != "metadata" && k != "spec" ==> Get(merged, k) == Get(stored, k))
            && (forall k :: k != "annotations" ==> Get(Get(merged, "metadata"), k) == Get(Get(stored, "metadata"), k))
            && (forall k :: k != OWNER && k != OPERATION ==> Annotation(merged, k) == Annotation(stored, k))
            && (forall k :: k != "replicas" ==> Get(Get(merged, "spec"), k) == Get(Get(stored, "spec"), k))
  {
    hide Merge, Body, Get;
    WriteMerged(stored, current, owner, operation, replicas);
    AnnotationsMerged(Get(Get(stored, "metadata"), "annotations"), owner, operation);
    if replicas.Some? {
      SpecMerged(Get(stored, "spec"), replicas.value);
    }
  }

  lemma LeavesContained(target: Json, version: Json, uid: Json, owner: string, operation: string)
    requires Get(target, "resourceVersion") == version && Get(target, "uid") == uid && version.Text? && uid.Text?
    ensures Contains(target, Metadata(version, uid, Signature(owner, operation)))
            <==> var annotations := Get(target, "annotations");
                 Get(annotations, OWNER) == Text(owner) && Get(annotations, OPERATION) == Text(operation)
  {
    var annotations := Get(target, "annotations");
    assert Contains(annotations, Signature(owner, operation))
      <==> Get(annotations, OWNER) == Text(owner) && Get(annotations, OPERATION) == Text(operation);
  }

  lemma SpecContained(target: Json, replicas: int)
    ensures Contains(target, Spec(replicas)) <==> Get(target, "replicas") == Number(replicas)
  {
  }

  /** An accepted write changes nothing exactly when the document shows all its values
      already. A fresh operation id therefore always makes a new version. */
  lemma WriteIsIdle(stored: Json, current: Json, owner: string, operation: string, replicas: Option<int>)
    requires Identified(stored) && Accepted(stored, current)
    ensures Merge(stored, Body(current, owner, operation, replicas)) == stored
            <==> && Annotation(stored, OWNER) == Text(owner) && Annotation(stored, OPERATION) == Text(operation)
                 && (replicas.Some? ==> Replicas(stored) == Number(replicas.value))
  {
    hide Merge, Metadata, Signature, Spec;
    var body, metadata := Body(current, owner, operation, replicas), Get(stored, "metadata");
    MergeIsIdle(stored, body);
    LeavesContained(metadata, Get(metadata, "resourceVersion"), Get(metadata, "uid"), owner, operation);
    if replicas.Some? {
      SpecContained(Get(stored, "spec"), replicas.value);
    }
  }

  // ---------- the protocol's view of the document ----------

  /** The document says what the model's Deployment says, ids being written as `name` does. */
  predicate Represents(doc: Json, d: Deployment, name: int -> string) {
    && Get(Get(doc, "metadata"), "uid") == Text(name(d.uid))
    && Get(Get(doc, "metadata"), "resourceVersion") == Text(name(d.version))
    && Annotation(doc, OWNER) == Text(name(d.owner))
    && Annotation(doc, OPERATION) == Text(name(d.operation))
    && Replicas(doc) == Number(d.replicas)
  }

  /** Where the write is accepted, the documents follow the model: the merged document shows
      the model's fields, and it is a new document exactly when the model makes a version. */
  lemma WriteRefinesApplied(stored: Json, d: Deployment, current: Json, read: Deployment,
                            owner: int, operation: int, replicas: Option<int>, name: int -> string)
    requires forall x, y :: name(x) == name(y) ==> x == y
    requires Represents(stored, d, name) && Represents(current, read, name)
    ensures var p := PatchOf(read, owner, operation, replicas);
            var merged := Merge(stored, Body(current, name(owner), name(operation), replicas));
            && (Accepted(stored, current) <==> CanApply(d, p))
            && (CanApply(d, p) ==> Represents(merged, Applied(d, p).(version := d.version), name))
            && (CanApply(d, p) ==> (merged == stored <==> Applied(d, p).version == d.version))
  {
    hide Merge, Body, Get;
    if Accepted(stored, current) {
      WriteChangesOnly(stored, current, name(owner), name(operation), replicas);
      WriteIsIdle(stored, current, name(owner), name(operation), replicas);
    }
  }
}
