/** References from a resource to its S3Instance, and the client a resource obtains through one. */
module S3InstanceHelper {
  import opened Collections
  import opened Text
  import opened Model
  import opened Effects
  import opened Api
  import Namespaces

  datatype S3InstanceInfo = S3InstanceInfo(name: string, namespace: string) {
    function String(): string {
      namespace + "/" + name
    }
  }

  function GetS3InstanceRefInfo(ref: string, namespace: string): S3InstanceInfo {
    if '/' in ref then
      var parts := Split(ref, '/');
      S3InstanceInfo(parts[1], parts[0])
    else S3InstanceInfo(ref, namespace)
  }

  predicate AtMostOneSlash(ref: string) {
    |Split(ref, '/')| <= 2
  }

  /** Writing a parsed reference out again gives it back, with the namespace filled in when it was left out. */
  lemma StringUndoesParse(ref: string, namespace: string)
    requires AtMostOneSlash(ref)
    ensures GetS3InstanceRefInfo(ref, namespace).String() == if '/' in ref then ref else namespace + "/" + ref
  {
    if '/' in ref {
      JoinUndoesSplit(ref, '/');
      var parts := Split(ref, '/');
      assert parts == [parts[0], parts[1]];
      assert Join(parts[1..], '/') == parts[1];
      assert ref == parts[0] + ['/'] + parts[1];
    }
  }

  /** Parsing a written reference gives back its two parts, wherever it is read. */
  lemma ParseUndoesString(info: S3InstanceInfo, namespace: string)
    requires '/' !in info.name && '/' !in info.namespace
    ensures GetS3InstanceRefInfo(info.String(), namespace) == info
  {
    SplitAfterWord(info.namespace, info.name, '/');
    SplitWord(info.name, '/');
    assert info.String() == info.namespace + ['/'] + info.name;
    assert info.String()[|info.namespace|] == '/';
  }

  /** Comparing written references compares the pairs, as long as namespaces hold no slash. */
  lemma StringEqualityIsPairEquality(a: S3InstanceInfo, b: S3InstanceInfo)
    requires '/' !in a.namespace && '/' !in b.namespace
    ensures a.String() == b.String() <==> a == b
  {
    if a.String() == b.String() {
      var s := a.String();
      assert s[|a.namespace|] == '/' && s[|b.namespace|] == '/';
      assert forall i :: 0 <= i < |a.namespace| ==> s[i] == a.namespace[i];
      assert forall i :: 0 <= i < |b.namespace| ==> s[i] == b.namespace[i];
      assert |a.namespace| == |b.namespace|;
      assert a.namespace == s[..|a.namespace|] == b.namespace;
      assert a.name == s[|a.namespace| + 1..] == b.name;
    }
  }

  /** A parsed namespace holds no slash. */
  lemma ParsedNamespaceIsPlain(ref: string, namespace: string)
    requires '/' !in namespace
    ensures '/' !in GetS3InstanceRefInfo(ref, namespace).namespace
  {
  }

  /** The S3Instance that a resource's client is looked up under. */
  function InstanceOf(ref: string, namespace: string): Id {
    var info := GetS3InstanceRefInfo(ref, namespace);
    Id(S3InstanceKind, info.namespace, info.name)
  }

  datatype ClientResult = Client(instance: Spec) | Unavailable(error: Error) | Panicked

  /** The client lookup when every call succeeds. An instance with no condition yet makes it index out of range. */
  function ClientFor(w: World, namespace: string, ref: string): ClientResult {
    var iid := InstanceOf(ref, namespace);
    if iid !in w.resources || !w.resources[iid].spec.InstanceSpec? then Unavailable(InstanceNotFound)
    else
      var instance := w.resources[iid];
      if !Namespaces.Allowed(namespace, instance.spec.allowedNamespaces, iid.namespace) then
        Unavailable(InstanceNotFound)
      else if instance.conditions == [] then Panicked
      else if instance.conditions[0].reason != Reconciled then Unavailable(InstanceNotReady)
      else Client(instance.spec)
  }

  method GetS3ClientForRessource(api: Cluster, namespace: string, ref: string) returns (r: ClientResult)
    requires api.Valid()
    modifies api`faults
    ensures api.Valid() && old(api.faults) <= api.faults
    ensures api.faults == old(api.faults) ==> r == ClientFor(api.w, namespace, ref)
    ensures api.faults > old(api.faults) ==> r.Unavailable?
  {
    var info := GetS3InstanceRefInfo(ref, namespace);
    var e := api.Ask();
    if e.Some? {
      return Unavailable(e.value);
    }
    var iid := Id(S3InstanceKind, info.namespace, info.name);
    if iid !in api.w.resources || !api.w.resources[iid].spec.InstanceSpec? {
      return Unavailable(InstanceNotFound);
    }
    var instance := api.w.resources[iid];
    var allowed := Namespaces.IsAllowedNamespaces(namespace, instance.spec.allowedNamespaces, info.namespace);
    if !allowed {
      return Unavailable(InstanceNotFound);
    }
    if |instance.conditions| == 0 {
      return Panicked;
    }
    if instance.conditions[0].reason != Reconciled {
      return Unavailable(InstanceNotReady);
    }
    // The credentials and the certificates of the instance, then the client itself.
    e := api.Ask();
    if e.Some? {
      return Unavailable(e.value);
    }
    return Client(instance.spec);
  }

  /** The instance referred to exists, admits the namespace, and its first condition says Reconciled. */
  predicate Served(w: World, namespace: string, ref: string) {
    var iid := InstanceOf(ref, namespace);
    && iid in w.resources && w.resources[iid].spec.InstanceSpec?
    && (var patterns := w.resources[iid].spec.allowedNamespaces;
        if patterns == [] then namespace == iid.namespace
        else exists p :: p in patterns && Namespaces.MatchesPattern(p, namespace))
    && w.resources[iid].conditions != []
    && w.resources[iid].conditions[0].reason == Reconciled
  }

  /** A client is obtained exactly from an instance that serves, and it is that instance's. */
  lemma ClientExactly(w: World, namespace: string, ref: string)
    ensures ClientFor(w, namespace, ref).Client? <==> Served(w, namespace, ref)
    ensures Served(w, namespace, ref) ==>
      ClientFor(w, namespace, ref).instance == w.resources[InstanceOf(ref, namespace)].spec
  {
  }

  /** The lookup reads the instance and nothing else. */
  lemma ClientReadsInstanceOnly(w: World, v: World, namespace: string, ref: string)
    requires var iid := InstanceOf(ref, namespace);
             && (iid in w.resources <==> iid in v.resources)
             && (iid in w.resources ==> w.resources[iid] == v.resources[iid])
    ensures ClientFor(w, namespace, ref) == ClientFor(v, namespace, ref)
  {
  }

  // ---------- references to an instance ----------

  /** A resource of the list refers to the instance when its written reference is the instance's. */
  predicate RefersTo(w: World, id: Id, instance: Id) {
    && id in w.resources
    && !w.resources[id].spec.InstanceSpec?
    && GetS3InstanceRefInfo(w.resources[id].spec.s3InstanceRef, id.namespace).String()
       == instance.namespace + "/" + instance.name
  }

  function CountIn(w: World, ids: seq<Id>, instance: Id): nat {
    if ids == [] then 0
    else (if RefersTo(w, ids[0], instance) then 1 else 0) + CountIn(w, ids[1..], instance)
  }

  lemma {:induction false} CountSnoc(w: World, ids: seq<Id>, x: Id, instance: Id)
    ensures CountIn(w, ids + [x], instance) == CountIn(w, ids, instance) + if RefersTo(w, x, instance) then 1 else 0
  {
    if ids != [] {
      CountSnoc(w, ids[1..], x, instance);
      assert (ids + [x])[1..] == ids[1..] + [x];
    }
  }

  method CountReferences(w: World, ids: seq<Id>, instance: Id) returns (count: nat)
    ensures count == CountIn(w, ids, instance)
  {
    count := 0;
    for i := 0 to |ids|
      invariant count == CountIn(w, ids[..i], instance)
    {
      CountSnoc(w, ids[..i], ids[i], instance);
      assert ids[..i + 1] == ids[..i] + [ids[i]];
      if RefersTo(w, ids[i], instance) {
        count := count + 1;
      }
    }
    assert ids[..|ids|] == ids;
  }

  /** Counting agrees with the client lookup: what is counted is what would look its client up under the instance. */
  lemma RefersToIsLookup(w: World, id: Id, instance: Id)
    requires id in w.resources && !w.resources[id].spec.InstanceSpec? && instance.kind == S3InstanceKind
    requires '/' !in id.namespace && '/' !in instance.namespace
    ensures RefersTo(w, id, instance) <==> InstanceOf(w.resources[id].spec.s3InstanceRef, id.namespace) == instance
  {
    ParsedNamespaceIsPlain(w.resources[id].spec.s3InstanceRef, id.namespace);
    StringEqualityIsPairEquality(
      GetS3InstanceRefInfo(w.resources[id].spec.s3InstanceRef, id.namespace),
      S3InstanceInfo(instance.name, instance.namespace));
  }

  function LookupOf(w: World, id: Id): Option<Id> {
    if id in w.resources && !w.resources[id].spec.InstanceSpec? then
      Some(InstanceOf(w.resources[id].spec.s3InstanceRef, id.namespace))
    else None
  }

  /** The listed resources whose client lookup goes to the instance. */
  ghost function LookingUp(w: World, ids: seq<Id>, instance: Id): set<Id> {
    set id | id in ids && LookupOf(w, id) == Some(instance)
  }

  lemma LookingUpFirst(w: World, ids: seq<Id>, instance: Id)
    requires ids != [] && NoDuplicates(ids)
    ensures |LookingUp(w, ids, instance)|
         == |LookingUp(w, ids[1..], instance)| + if LookupOf(w, ids[0]) == Some(instance) then 1 else 0
  {
    var first, rest := ids[0], ids[1..];
    assert ids == [first] + rest;
    assert first !in rest;
    assert LookingUp(w, ids, instance)
        == LookingUp(w, rest, instance) + if LookupOf(w, first) == Some(instance) then {first} else {};
  }

  /** The count is that of the listed resources whose client lookup goes to the instance. */
  lemma {:induction false} CountIsExact(w: World, ids: seq<Id>, instance: Id)
    requires NoDuplicates(ids) && instance.kind == S3InstanceKind && '/' !in instance.namespace
    requires forall id :: id in ids ==> '/' !in id.namespace
    ensures CountIn(w, ids, instance) == |LookingUp(w, ids, instance)|
  {
    if ids == [] {
      assert LookingUp(w, ids, instance) == {};
    } else {
      CountIsExact(w, ids[1..], instance);
      LookingUpFirst(w, ids, instance);
      if LookupOf(w, ids[0]).Some? { RefersToIsLookup(w, ids[0], instance); }
    }
  }
}
