/** The S3User controller, call by call. */
module UserController {
  import opened Collections
  import opened Model
  import opened Effects
  import opened Api
  import opened ControllerHelper
  import opened S3InstanceHelper
  import opened UserPlan
  import opened PasswordGenerator
  import opened PolicyNames
  import Text
  import ObjectDeletion

  /** The in-memory resource is the stored one, and it is an S3User. */
  predicate Current(w: World, id: Id, r: Resource) {
    id in w.resources && w.resources[id] == r && r.spec.UserSpec?
  }

  /** `items` are the Secrets of the namespace, each once. */
  ghost predicate ListedAll(w: World, namespace: string, items: seq<Key>) {
    NoDuplicates(items) && forall k :: k in items <==> k in w.secrets && k.namespace == namespace
  }

  /** The unowned Secret selected among those listed so far. */
  ghost function UnlinkedAmong(secrets: map<Key, Secret>, id: Id, r: Resource, seen: seq<Key>): Option<Key>
    requires r.spec.UserSpec? && forall k :: k in seen ==> k in secrets
  {
    var configured, default := Key(id.namespace, r.spec.secretName), Key(id.namespace, id.name);
    if configured in seen && !OwnedBy(secrets[configured], r.uid) then Some(configured)
    else if default in seen && !OwnedBy(secrets[default], r.uid) then Some(default)
    else None
  }

  /**
   * The owned ones are the Secrets of the namespace in which some owner reference has the UID; the unlinked one
   * has none, and is the one with the configured name if that is such a Secret, else the one with the default name.
   */
  ghost predicate Selected(secrets: map<Key, Secret>, id: Id, r: Resource, owned: seq<Key>, unlinked: Option<Key>)
    requires r.spec.UserSpec?
  {
    var configured, default := Key(id.namespace, r.spec.secretName), Key(id.namespace, id.name);
    && (forall k :: k in owned <==>
          k in secrets && k.namespace == id.namespace && exists ref :: ref in secrets[k].owners && ref.uid == r.uid)
    && (unlinked == Some(configured) <== configured in secrets && configured !in owned)
    && (configured in owned || configured !in secrets ==>
          unlinked == if default in secrets && default !in owned then Some(default) else None)
  }

  /** One more listed Secret: a configured name overrides, a default name is taken if nothing was selected. */
  lemma UnlinkedStep(secrets: map<Key, Secret>, id: Id, r: Resource, seen: seq<Key>, name: string)
    requires r.spec.UserSpec? && Key(id.namespace, name) in secrets && Key(id.namespace, name) !in seen
    requires forall k :: k in seen ==> k in secrets
    ensures
      var k := Key(id.namespace, name);
      var before := UnlinkedAmong(secrets, id, r, seen);
      UnlinkedAmong(secrets, id, r, seen + [k]) ==
        if OwnedBy(secrets[k], r.uid) then before
        else if name == r.spec.secretName then Some(k)
        else if name == id.name && before.None? then Some(k)
        else before
  {
  }

  lemma UnlinkedAmongAll(w: World, id: Id, r: Resource, items: seq<Key>)
    requires r.spec.UserSpec? && ListedAll(w, id.namespace, items)
    ensures UnlinkedAmong(w.secrets, id, r, items) == UnlinkedSecret(w, id, r)
  {
  }

  /** The calls that delete stale Secrets grow by one Secret at a time. */
  lemma StaleStep(owned: seq<Key>, i: nat, at: Key)
    requires i < |owned|
    ensures Deletions(Without(owned[..i + 1], at)) ==
            Deletions(Without(owned[..i], at)) + if owned[i] != at then [DeleteSecret(owned[i])] else []
    ensures Deletions(Without(owned[..i], at)) <= Deletions(Without(owned[..i + 1], at))
    ensures Deletions(Without(owned[..i + 1], at)) <= Deletions(Without(owned, at))
  {
    var head, tail := owned[..i], owned[i + 1..];
    assert owned == (head + [owned[i]]) + tail && owned[..i + 1] == head + [owned[i]];
    WithoutSplits(head, [owned[i]], at);
    WithoutSplits(head + [owned[i]], tail, at);
  }

  /** Whatever the credentials turn out to be, a check begins with the policies. */
  lemma CheckPlanStarts(
    w: World, id: Id, r: Resource, cfg: Config, config: S3Config, key: string, current: Key, owned: bool)
    requires r.spec.UserSpec? && r.spec.accessKey in w.users && current in w.secrets
    ensures PolicyCalls(r.spec.accessKey, w.users[r.spec.accessKey].policies, SetOf(r.spec.policies))
         <= CheckPlan(w, id, r, cfg, config, key, current, owned).actions
  {
  }

  /** Users keep their keys; only their policies may differ. */
  ghost predicate OnlyPoliciesChange(w: World, v: World) {
    && v == w.(users := v.users)
    && v.users.Keys == w.users.Keys
    && forall k :: k in w.users ==> v.users[k].key == w.users[k].key
  }

  class S3UserReconciler {
    const api: Cluster
    const cfg: Config

    constructor (api: Cluster, cfg: Config)
      ensures this.api == api && this.cfg == cfg
    {
      this.api := api;
      this.cfg := cfg;
    }

    /** One listed Secret: it is appended to the owned ones when one of its owners has the UID. */
    method CollectOwned(secret: Secret, k: Key, uid: string, owned0: seq<Key>) returns (owned: seq<Key>, linked: bool)
      ensures linked <==> OwnedBy(secret, uid)
      ensures owned == if linked then owned0 + [k] else owned0
    {
      owned, linked := owned0, false;
      for j := 0 to |secret.owners|
        invariant linked <==> exists m :: 0 <= m < j && secret.owners[m].uid == uid
        invariant owned == if linked then owned0 + [k] else owned0
      {
        if secret.owners[j].uid == uid {
          owned := owned + [k];
          linked := true;
        }
      }
    }

    method SelectSecrets(secrets: map<Key, Secret>, items: seq<Key>, id: Id, r: Resource)
      returns (owned: seq<Key>, unlinked: Option<Key>)
      requires r.spec.UserSpec? && NoDuplicates(items)
      requires forall k :: k in items ==> k in secrets && k.namespace == id.namespace
      ensures NoDuplicates(owned)
      ensures forall k :: k in owned <==> k in items && OwnedBy(secrets[k], r.uid)
      ensures unlinked == UnlinkedAmong(secrets, id, r, items)
    {
      owned, unlinked := [], None;
      for i := 0 to |items|
        invariant NoDuplicates(owned)
        invariant forall k :: k in owned <==> k in items[..i] && OwnedBy(secrets[k], r.uid)
        invariant unlinked == UnlinkedAmong(secrets, id, r, items[..i])
      {
        var k := items[i];
        assert k in items && k !in items[..i] && k == Key(id.namespace, k.name);
        assert items[..i + 1] == items[..i] + [k];
        UnlinkedStep(secrets, id, r, items[..i], k.name);
        var linked: bool;
        owned, linked := CollectOwned(secrets[k], k, r.uid, owned);
        if !linked {
          if k.name == r.spec.secretName {
            unlinked := Some(k);
          } else if k.name == id.name && unlinked.None? {
            unlinked := Some(k);
          }
        }
      }
      assert items[..|items|] == items;
    }

    method GetUserLinkedSecrets(id: Id, r: Resource)
      returns (e: Option<Error>, owned: seq<Key>, unlinked: Option<Key>)
      requires api.Valid() && r.spec.UserSpec?
      modifies api`faults
      ensures api.Valid() && old(api.faults) <= api.faults
      ensures e.None? ==>
        && api.faults == old(api.faults)
        && Lists(owned, OwnedKeys(api.w, id.namespace, r.uid))
        && unlinked == UnlinkedSecret(api.w, id, r)
        && Selected(api.w.secrets, id, r, owned, unlinked)
      ensures e.Some? ==> api.faults > old(api.faults)
    {
      owned, unlinked := [], None;
      e := api.Ask();
      if e.Some? {
        return;
      }
      var items := Enumerate(set k | k in api.w.secrets && k.namespace == id.namespace);
      assert forall k :: k in items <==> k in SetOf(items);
      owned, unlinked := SelectSecrets(api.w.secrets, items, id, r);
      UnlinkedAmongAll(api.w, id, r, items);
      assert forall k :: k in SetOf(owned) <==> k in owned;
      assert SetOf(owned) == OwnedKeys(api.w, id.namespace, r.uid);
    }

    method AddPoliciesToUser(id: Id, r: Resource) returns (e: Option<Error>)
      requires api.Valid() && Current(api.w, id, r) && r.spec.accessKey in api.w.users
      requires ClientFor(api.w, id.namespace, r.spec.s3InstanceRef).Client?
      modifies api`w, api`log, api`faults
      ensures api.Valid() && api.w.resources == old(api.w).resources
      ensures api.Made(old(api.log), old(api.faults), GrantCalls(r.spec), e)
    {
      var client := GetS3ClientForRessource(api, id.namespace, r.spec.s3InstanceRef);
      if client.Unavailable? {
        return Some(client.error);
      }
      e := None;
      if r.spec.policies != [] {
        e := api.Do(AttachPolicies(r.spec.accessKey, SetOf(r.spec.policies)));
      }
    }

    method HandleCreate(id: Id, r: Resource, tape: Tape) returns (out: Outcome)
      requires api.Valid() && Current(api.w, id, r)
      requires ClientFor(api.w, id.namespace, r.spec.s3InstanceRef).Client?
      modifies api`w, api`log, api`faults
      ensures api.Valid()
      ensures
        var config := ClientFor(old(api.w), id.namespace, r.spec.s3InstanceRef).instance.config;
        api.Ran(old(api.log), old(api.faults), HandleCreatePlan(old(api.w), id, r, cfg, config, KeyOf(tape)),
                id, {Unreachable}, out)
    {
      ghost var w0, log0, faults0 := api.w, api.log, api.faults;
      ghost var config := ClientFor(w0, id.namespace, r.spec.s3InstanceRef).instance.config;
      ghost var p := HandleCreatePlan(w0, id, r, cfg, config, KeyOf(tape));

      var client := GetS3ClientForRessource(api, id.namespace, r.spec.s3InstanceRef);
      if client.Unavailable? {
        out := Fail(api, cfg.reconcilePeriod, id, r, Unreachable, ClientSite, client.error,
                    log0, [], faults0, p, {Unreachable});
        return;
      }
      var generated := Generate(tape, 20, true, false, true, true, true);
      GeneratedIsKey(tape);
      if generated.None? {
        api.CountFault(tape);
        out := Fail(api, cfg.reconcilePeriod, id, r, Unreachable, PasswordSite, Transient(0),
                    log0, [], faults0, p, {Unreachable});
        return;
      }
      out := CreateWith(id, r, client.instance.config, generated.value);
    }

    method MakeFresh(id: Id, r: Resource, key: string, secret: Secret) returns (e: Option<Error>, site: Site)
      requires api.Valid() && Current(api.w, id, r) && Target(id, r) !in api.w.secrets
      requires ClientFor(api.w, id.namespace, r.spec.s3InstanceRef).Client?
      modifies api`w, api`log, api`faults
      ensures api.Valid() && api.w.resources == old(api.w).resources
      ensures api.Made(old(api.log), old(api.faults), FreshCalls(id, r, key, secret), e)
    {
      var at := Target(id, r);
      ghost var log0, faults0 := api.log, api.faults;
      ghost var create, write := [CreateUser(r.spec.accessKey, key)], [CreateSecret(at, secret)];
      ghost var grant := GrantCalls(r.spec);
      assert FreshCalls(id, r, key, secret) == create + write + grant;
      e := api.Do(CreateUser(r.spec.accessKey, key));
      site := CreateUserSite;
      if e.Some? {
        api.MadeStopped(log0, create, write + grant, faults0, e);
        assert create + (write + grant) == create + write + grant;
        return;
      }
      e := api.Do(CreateSecret(at, secret));
      api.MadeThen(log0, create, faults0, write, e);
      site := CreateSecretSite;
      if e.Some? {
        api.MadeStopped(log0, create + write, grant, faults0, e);
        return;
      }
      e := AddPoliciesToUser(id, r);
      api.MadeThen(log0, create + write, faults0, grant, e);
      site := UpdatePoliciesSite;
    }

    method OverwriteSecret(at: Key, secret: Secret) returns (e: Option<Error>)
      requires api.Valid() && at in api.w.secrets
      modifies api`w, api`log, api`faults
      ensures api.Valid() && api.w.resources == old(api.w).resources && api.w.users == old(api.w).users
      ensures api.Made(
        old(api.log), old(api.faults), if cfg.overrideExistingSecret then [UpdateSecret(at, secret)] else [], e)
    {
      e := None;
      if cfg.overrideExistingSecret {
        e := api.Do(UpdateSecret(at, secret));
      }
    }

    /** The key a pre-existing Secret is taken over with. */
    method ChooseKey(r: Resource, key: string, data: map<string, string>) returns (used: string)
      requires r.spec.UserSpec?
      ensures used == KeyInPlace(r, cfg, key, data)
    {
      used := key;
      if cfg.readExistingSecret {
        if r.spec.secretKeyField in data {
          used := data[r.spec.secretKeyField];
        }
      }
    }

    method TakeOver(id: Id, r: Resource, key: string, secret: Secret) returns (e: Option<Error>, site: Site)
      requires api.Valid() && Current(api.w, id, r) && Target(id, r) in api.w.secrets
      requires ClientFor(api.w, id.namespace, r.spec.s3InstanceRef).Client?
      modifies api`w, api`log, api`faults
      ensures api.Valid() && api.w.resources == old(api.w).resources
      ensures api.Made(
        old(api.log), old(api.faults),
        TakeOverCalls(id, r, cfg, key, secret, old(api.w).secrets[Target(id, r)].data), e)
    {
      var at := Target(id, r);
      var data := api.w.secrets[at].data;
      ghost var log0, faults0 := api.log, api.faults;
      var used := ChooseKey(r, key, data);
      ghost var create, grant := [CreateUser(r.spec.accessKey, used)], GrantCalls(r.spec);
      ghost var overwrite := if cfg.overrideExistingSecret then [UpdateSecret(at, secret)] else [];
      e := api.Do(CreateUser(r.spec.accessKey, used));
      site := CreateUserSite;
      if e.Some? {
        api.MadeStopped(log0, create, overwrite + grant, faults0, e);
        assert create + (overwrite + grant) == create + overwrite + grant;
        return;
      }
      e := OverwriteSecret(at, secret);
      api.MadeThen(log0, create, faults0, overwrite, e);
      site := UpdateSecretSite;
      if e.Some? {
        api.MadeStopped(log0, create + overwrite, grant, faults0, e);
        return;
      }
      e := AddPoliciesToUser(id, r);
      api.MadeThen(log0, create + overwrite, faults0, grant, e);
      site := UpdatePoliciesSite;
    }

    /** An S3User owner other than this one is recorded on the existing Secret. */
    method OwnerConflict(existing: Secret, uid: string) returns (conflict: bool)
      ensures conflict == OwnedElsewhere(existing, uid)
    {
      for i := 0 to |existing.owners|
        invariant forall m :: 0 <= m < i ==>
          !(existing.owners[m].kind == S3UserOwner && existing.owners[m].uid != uid)
      {
        if existing.owners[i].kind == S3UserOwner {
          if existing.owners[i].uid != uid {
            return true;
          }
        }
      }
      return false;
    }

    /** What follows the calls of a creation: a report of their failure, or of success. */
    method Conclude(id: Id, r: Resource, e: Option<Error>, site: Site, ghost log0: seq<Action>,
                    ghost faults0: nat, ghost calls: seq<Action>) returns (out: Outcome)
      requires api.Valid() && Current(api.w, id, r) && api.Made(log0, faults0, calls, e)
      modifies api`w, api`log, api`faults
      ensures api.Valid()
      ensures api.Ran(
        log0, faults0, After(calls, Report(id, r, Reconciled, Success, None, cfg.reconcilePeriod)),
        id, {Unreachable}, out)
    {
      ghost var done := Report(id, r, Reconciled, Success, None, cfg.reconcilePeriod);
      if e.Some? {
        out := Fail(api, cfg.reconcilePeriod, id, r, Unreachable, site, e.value,
                    log0, api.log[|log0|..], faults0, After(calls, done), {Unreachable});
      } else {
        out := SetReconciledCondition(api, id, r, Reconciled, Success, None, cfg.reconcilePeriod);
        api.RanAfter(log0, calls, faults0, done, id, {}, out);
      }
    }

    /** The part of HandleCreate after the secret key was generated. */
    method CreateWith(id: Id, r: Resource, config: S3Config, key: string) returns (out: Outcome)
      requires api.Valid() && Current(api.w, id, r)
      requires ClientFor(api.w, id.namespace, r.spec.s3InstanceRef).Client?
      modifies api`w, api`log, api`faults
      ensures api.Valid()
      ensures api.Ran(old(api.log), old(api.faults), HandleCreatePlan(old(api.w), id, r, cfg, config, key),
                      id, {Unreachable}, out)
    {
      ghost var w0, log0, faults0 := api.w, api.log, api.faults;
      ghost var p := HandleCreatePlan(w0, id, r, cfg, config, key);
      var at := Target(id, r);
      var secret := NewSecretForCR(id, r, key, config);
      var e := api.Ask();
      if e.Some? {
        out := Fail(api, cfg.reconcilePeriod, id, r, Unreachable, CheckSecretSite, e.value,
                    log0, [], faults0, p, {Unreachable});
        return;
      }
      var site: Site;
      if at !in api.w.secrets {
        e, site := MakeFresh(id, r, key, secret);
        out := Conclude(id, r, e, site, log0, faults0, FreshCalls(id, r, key, secret));
        return;
      }
      var existing := api.w.secrets[at];
      var conflict := OwnerConflict(existing, r.uid);
      if conflict {
        out := SetReconciledCondition(
          api, id, r, CreationFailure, OwnedElsewhereSite, Some(OwnedByOtherUser), cfg.reconcilePeriod);
      } else if cfg.overrideExistingSecret || cfg.readExistingSecret {
        e, site := TakeOver(id, r, key, secret);
        out := Conclude(id, r, e, site, log0, faults0, TakeOverCalls(id, r, cfg, key, secret, existing.data));
      } else {
        out := SetReconciledCondition(
          api, id, r, CreationFailure, KeptSecretSite, Some(SecretExists), cfg.reconcilePeriod);
      }
    }

    // ---------- update ----------

    /** Delete the owned Secrets that are not the target, and say whether the target was among them. */
    method DeleteStale(owned: seq<Key>, at: Key) returns (e: Option<Error>, found: bool)
      requires api.Valid() && NoDuplicates(owned) && forall k :: k in owned ==> k in api.w.secrets
      modifies api`w, api`log, api`faults
      ensures api.Valid() && api.w.resources == old(api.w).resources && api.w.users == old(api.w).users
      ensures api.Made(old(api.log), old(api.faults), Deletions(Without(owned, at)), e)
      ensures e.None? ==> found == (at in owned)
    {
      ghost var log0, faults0 := api.log, api.faults;
      found := false;
      e := None;
      for i := 0 to |owned|
        invariant e.None?
        invariant api.Valid() && api.w.resources == old(api.w).resources && api.w.users == old(api.w).users
        invariant api.log == log0 + Deletions(Without(owned[..i], at)) && api.faults == faults0
        invariant forall j :: i <= j < |owned| ==> owned[j] in api.w.secrets
        invariant found == (at in owned[..i])
      {
        StaleStep(owned, i, at);
        ghost var before := Deletions(Without(owned[..i], at));
        if owned[i] != at {
          e := api.Do(DeleteSecret(owned[i]));
          api.MadeThen(log0, before, faults0, [DeleteSecret(owned[i])], e);
          if e.Some? {
            api.MadePrefix(log0, before + [DeleteSecret(owned[i])], Deletions(Without(owned, at)), faults0, e);
            return;
          }
        } else {
          found := true;
        }
      }
      assert owned[..|owned|] == owned;
    }

    method GetUserPolicies(user: string) returns (e: Option<Error>, names: seq<PolicyName>)
      requires api.Valid() && user in api.w.users
      modifies api`faults
      ensures api.Valid() && old(api.faults) <= api.faults
      ensures e.None? ==> api.faults == old(api.faults) && Lists(names, api.w.users[user].policies)
      ensures e.Some? ==> api.faults > old(api.faults)
    {
      names := [];
      e := api.Ask();
      if e.Some? {
        return;
      }
      var order := Enumerate(api.w.users[user].policies);
      var reported := Text.Join(order, ',');
      ParseUndoesJoin(order);
      names := ParsePolicies(reported);
    }

    method RemovePoliciesFromUser(user: string, policies: seq<PolicyName>) returns (e: Option<Error>)
      requires api.Valid() && user in api.w.users
      modifies api`w, api`log, api`faults
      ensures api.Valid() && OnlyPoliciesChange(old(api.w), api.w)
      ensures api.Made(
        old(api.log), old(api.faults),
        if SetOf(policies) != {} then [DetachPolicies(user, SetOf(policies))] else [], e)
    {
      e := None;
      assert policies != [] ==> policies[0] in SetOf(policies);
      if |policies| > 0 {
        e := api.Do(DetachPolicies(user, SetOf(policies)));
      }
    }

    method AddMissingPolicies(user: string, policies: seq<PolicyName>) returns (e: Option<Error>)
      requires api.Valid() && user in api.w.users
      modifies api`w, api`log, api`faults
      ensures api.Valid() && OnlyPoliciesChange(old(api.w), api.w)
      ensures api.Made(
        old(api.log), old(api.faults),
        if SetOf(policies) != {} then [AttachPolicies(user, SetOf(policies))] else [], e)
    {
      e := None;
      assert policies != [] ==> policies[0] in SetOf(policies);
      if |policies| > 0 {
        e := api.Do(AttachPolicies(user, SetOf(policies)));
      }
    }

    /** Detach and attach what separates the user's policies from the spec. */
    method UpdatePolicies(r: Resource, current: seq<PolicyName>) returns (e: Option<Error>)
      requires api.Valid() && r.spec.UserSpec? && r.spec.accessKey in api.w.users
      requires Lists(current, api.w.users[r.spec.accessKey].policies)
      modifies api`w, api`log, api`faults
      ensures api.Valid() && OnlyPoliciesChange(old(api.w), api.w)
      ensures api.Made(
        old(api.log), old(api.faults),
        PolicyCalls(r.spec.accessKey, old(api.w).users[r.spec.accessKey].policies, SetOf(r.spec.policies)), e)
    {
      ghost var log0, faults0 := api.log, api.faults;
      var user := r.spec.accessKey;
      ghost var have, want := api.w.users[user].policies, SetOf(r.spec.policies);
      var policyToDelete, policyToAdd := PolicyDifference(current, r.spec.policies);
      ghost var detach := if have - want != {} then [DetachPolicies(user, have - want)] else [];
      ghost var attach := if want - have != {} then [AttachPolicies(user, want - have)] else [];
      e := RemovePoliciesFromUser(user, policyToDelete);
      if e.Some? {
        api.MadeStopped(log0, detach, attach, faults0, e);
        return;
      }
      e := AddMissingPolicies(user, policyToAdd);
      api.MadeThen(log0, detach, faults0, attach, e);
    }

    /** Delete the user and create it anew, after the calls `first`. */
    method Recreate(id: Id, r: Resource, tape: Tape, ghost w0: World, ghost log0: seq<Action>, ghost faults0: nat,
                    ghost first: seq<Action>) returns (out: Outcome)
      requires api.Valid() && Current(api.w, id, r)
      requires ClientFor(api.w, id.namespace, r.spec.s3InstanceRef).Client?
      requires api.w == Exec(w0, first) && api.log == log0 + first && api.faults == faults0
      modifies api`w, api`log, api`faults
      ensures api.Valid()
      ensures
        var config := ClientFor(old(api.w), id.namespace, r.spec.s3InstanceRef).instance.config;
        api.Ran(log0, faults0, RecreatePlan(w0, id, r, cfg, config, KeyOf(tape), first), id, {Unreachable}, out)
    {
      ghost var config := ClientFor(api.w, id.namespace, r.spec.s3InstanceRef).instance.config;
      ghost var calls := first + [DeleteUser(r.spec.accessKey)];
      ExecSnoc(w0, first, DeleteUser(r.spec.accessKey));
      var e := api.Do(DeleteUser(r.spec.accessKey));
      if e.Some? {
        assert api.log == log0 + first || api.log == log0 + calls;
        out := Fail(api, cfg.reconcilePeriod, id, r, Unreachable, DeleteUserSite, e.value, log0,
                    if api.log == log0 + first then first else calls, faults0,
                    RecreatePlan(w0, id, r, cfg, config, KeyOf(tape), first), {Unreachable});
        return;
      }
      assert api.log == log0 + calls;
      out := HandleCreate(id, r, tape);
      api.RanAfter(log0, calls, faults0, HandleCreatePlan(Exec(w0, calls), id, r, cfg, config, KeyOf(tape)),
                   id, {Unreachable}, out);
    }

    /** Read the user's policies and bring them in line with the spec. */
    method SyncPolicies(r: Resource) returns (e: Option<Error>, site: Site)
      requires api.Valid() && r.spec.UserSpec? && r.spec.accessKey in api.w.users
      modifies api`w, api`log, api`faults
      ensures api.Valid() && OnlyPoliciesChange(old(api.w), api.w)
      ensures api.Made(
        old(api.log), old(api.faults),
        PolicyCalls(r.spec.accessKey, old(api.w).users[r.spec.accessKey].policies, SetOf(r.spec.policies)), e)
    {
      var policies;
      e, policies := GetUserPolicies(r.spec.accessKey);
      site := ReadPoliciesSite;
      if e.None? {
        e := UpdatePolicies(r, policies);
        site := UpdatePoliciesSite;
      }
    }

    /** The part of HandleUpdate that has found the Secret to compare with. */
    method CheckUser(id: Id, r: Resource, current: Key, owned: bool, tape: Tape) returns (out: Outcome)
      requires api.Valid() && Current(api.w, id, r)
      requires r.spec.accessKey in api.w.users && current in api.w.secrets
      requires ClientFor(api.w, id.namespace, r.spec.s3InstanceRef).Client?
      modifies api`w, api`log, api`faults
      ensures api.Valid()
      ensures
        var config := ClientFor(old(api.w), id.namespace, r.spec.s3InstanceRef).instance.config;
        api.Ran(old(api.log), old(api.faults), CheckPlan(old(api.w), id, r, cfg, config, KeyOf(tape), current, owned),
                id, {Unreachable}, out)
    {
      ghost var w0, log0, faults0 := api.w, api.log, api.faults;
      ghost var config := ClientFor(w0, id.namespace, r.spec.s3InstanceRef).instance.config;
      var data := api.w.secrets[current].data;
      ghost var fix := PolicyCalls(r.spec.accessKey, w0.users[r.spec.accessKey].policies, SetOf(r.spec.policies));
      var e, site := SyncPolicies(r);
      if e.None? {
        ExecAppend(api.start, log0, fix);
        e := api.Ask();
        site := CredentialsSite;
      }
      if e.Some? {
        ghost var done := api.log[|log0|..];
        CheckPlanStarts(w0, id, r, cfg, config, KeyOf(tape), current, owned);
        out := Fail(api, cfg.reconcilePeriod, id, r, Unreachable, site, e.value, log0, done, faults0,
                    CheckPlan(w0, id, r, cfg, config, KeyOf(tape), current, owned), {Unreachable});
        return;
      }
      var credentialsValid := CredentialsValid(api.w, r.spec, data);
      assert credentialsValid == CredentialsValid(w0, r.spec, data);
      if credentialsValid {
        out := Conclude(id, r, None, Success, log0, faults0, fix);
      } else {
        out := Replace(id, r, current, owned, tape, w0, log0, faults0, fix);
      }
    }

    /** The credentials are not valid: an owned Secret goes, then the user, and both are created anew. */
    method Replace(id: Id, r: Resource, current: Key, owned: bool, tape: Tape, ghost w0: World, ghost log0: seq<Action>,
                   ghost faults0: nat, ghost fix: seq<Action>) returns (out: Outcome)
      requires api.Valid() && Current(api.w, id, r) && current in api.w.secrets
      requires ClientFor(api.w, id.namespace, r.spec.s3InstanceRef).Client?
      requires api.w == Exec(w0, fix) && api.log == log0 + fix && api.faults == faults0
      modifies api`w, api`log, api`faults
      ensures api.Valid()
      ensures
        var config := ClientFor(old(api.w), id.namespace, r.spec.s3InstanceRef).instance.config;
        api.Ran(
          log0, faults0,
          RecreatePlan(w0, id, r, cfg, config, KeyOf(tape), fix + if owned then [DeleteSecret(current)] else []),
          id, {Unreachable}, out)
    {
      ghost var config := ClientFor(api.w, id.namespace, r.spec.s3InstanceRef).instance.config;
      ghost var first := fix + if owned then [DeleteSecret(current)] else [];
      if owned {
        ExecSnoc(w0, fix, DeleteSecret(current));
        var e := api.Do(DeleteSecret(current));
        if e.Some? {
          assert api.log == log0 + fix || api.log == log0 + first;
          out := Fail(api, cfg.reconcilePeriod, id, r, Unreachable, DeleteSecretSite, e.value, log0,
                      if api.log == log0 + fix then fix else first, faults0,
                      RecreatePlan(w0, id, r, cfg, config, KeyOf(tape), first), {Unreachable});
          return;
        }
      } else {
        assert fix + [] == fix;
      }
      out := Recreate(id, r, tape, w0, log0, faults0, first);
    }

    /** Secrets are owned and none is unlinked: the stale ones go, then the target is checked or made anew. */
    method HandleOwned(id: Id, r: Resource, owned: seq<Key>, tape: Tape) returns (out: Outcome)
      requires api.Valid() && Current(api.w, id, r) && r.spec.accessKey in api.w.users
      requires ClientFor(api.w, id.namespace, r.spec.s3InstanceRef).Client?
      requires Lists(owned, OwnedKeys(api.w, id.namespace, r.uid)) && owned != []
      requires UnlinkedSecret(api.w, id, r).None?
      modifies api`w, api`log, api`faults
      ensures api.Valid()
      ensures
        var config := ClientFor(old(api.w), id.namespace, r.spec.s3InstanceRef).instance.config;
        api.Ran(old(api.log), old(api.faults),
                HandleUpdatePlan(old(api.w), id, r, cfg, config, Chance(KeyOf(tape), owned)), id, {Unreachable}, out)
    {
      ghost var w0, log0, faults0 := api.w, api.log, api.faults;
      ghost var config := ClientFor(w0, id.namespace, r.spec.s3InstanceRef).instance.config;
      var at := Target(id, r);
      ghost var stale := Deletions(Without(owned, at));
      assert forall k :: k in owned <==> k in SetOf(owned);
      assert owned[0] in OwnedKeys(w0, id.namespace, r.uid);
      DeletionsKeep(w0, Without(owned, at));
      var e, found := DeleteStale(owned, at);
      if e.Some? {
        ghost var done := api.log[|log0|..];
        ghost var p := HandleUpdatePlan(w0, id, r, cfg, config, Chance(KeyOf(tape), owned));
        assert stale <= p.actions;
        out := Fail(api, cfg.reconcilePeriod, id, r, Unreachable, DeleteSecretSite, e.value,
                    log0, done, faults0, p, {Unreachable});
        return;
      }
      ExecAppend(api.start, log0, stale);
      assert api.w == Exec(w0, stale);
      if found {
        out := CheckUser(id, r, at, true, tape);
        api.RanAfter(log0, stale, faults0, CheckPlan(Exec(w0, stale), id, r, cfg, config, KeyOf(tape), at, true),
                     id, {Unreachable}, out);
      } else {
        out := Recreate(id, r, tape, w0, log0, faults0, stale);
      }
    }

    method HandleUpdate(id: Id, r: Resource, tape: Tape) returns (out: Outcome, ghost ch: Chance)
      requires api.Valid() && Current(api.w, id, r) && r.spec.accessKey in api.w.users
      requires ClientFor(api.w, id.namespace, r.spec.s3InstanceRef).Client?
      modifies api`w, api`log, api`faults
      ensures api.Valid() && Lists(ch.order, OwnedKeys(old(api.w), id.namespace, r.uid)) && ch.key == KeyOf(tape)
      ensures
        var config := ClientFor(old(api.w), id.namespace, r.spec.s3InstanceRef).instance.config;
        api.Ran(old(api.log), old(api.faults), HandleUpdatePlan(old(api.w), id, r, cfg, config, ch),
                id, {Unreachable}, out)
    {
      ghost var w0, log0, faults0 := api.w, api.log, api.faults;
      ghost var config := ClientFor(w0, id.namespace, r.spec.s3InstanceRef).instance.config;
      ghost var order := ListingExists(OwnedKeys(w0, id.namespace, r.uid));
      ch := Chance(KeyOf(tape), order);

      var client := GetS3ClientForRessource(api, id.namespace, r.spec.s3InstanceRef);
      if client.Unavailable? {
        out := Fail(api, cfg.reconcilePeriod, id, r, Unreachable, ClientSite, client.error, log0, [], faults0,
                    HandleUpdatePlan(w0, id, r, cfg, config, ch), {Unreachable});
        return;
      }
      var e, owned, unlinked := GetUserLinkedSecrets(id, r);
      if e.Some? {
        out := Fail(api, cfg.reconcilePeriod, id, r, Unreachable, ListSecretsSite, e.value, log0, [], faults0,
                    HandleUpdatePlan(w0, id, r, cfg, config, ch), {Unreachable});
        return;
      }
      assert forall k :: k in owned <==> k in SetOf(owned);
      assert OwnedKeys(w0, id.namespace, r.uid) == {} <==> owned == [] by {
        assert owned != [] ==> owned[0] in SetOf(owned);
      }
      if |owned| == 0 && unlinked.None? {
        out := Recreate(id, r, tape, w0, log0, faults0, []);
      } else if unlinked.Some? {
        out := CheckUser(id, r, unlinked.value, false, tape);
      } else {
        out := HandleOwned(id, r, owned, tape);
      }
      ch := Chance(KeyOf(tape), owned);
    }

    method HandleReconciliation(id: Id, r: Resource, tape: Tape) returns (out: Outcome, ghost ch: Chance)
      requires api.Valid() && Current(api.w, id, r)
      modifies api`w, api`log, api`faults
      ensures api.Valid() && Lists(ch.order, OwnedKeys(old(api.w), id.namespace, r.uid)) && ch.key == KeyOf(tape)
      ensures api.Ran(old(api.log), old(api.faults), HandleReconciliationPlan(old(api.w), id, r, cfg, ch),
                      id, {Unreachable}, out)
    {
      ghost var w0, log0, faults0 := api.w, api.log, api.faults;
      ghost var order := ListingExists(OwnedKeys(w0, id.namespace, r.uid));
      ch := Chance(KeyOf(tape), order);
      ghost var p := HandleReconciliationPlan(w0, id, r, cfg, ch);

      var client := GetS3ClientForRessource(api, id.namespace, r.spec.s3InstanceRef);
      if client.Panicked? {
        return Errored, ch;
      }
      if client.Unavailable? {
        out := ReportUnavailable(api, cfg.reconcilePeriod, id, r, client.error, log0, faults0, p, {Unreachable});
        return;
      }
      var e := api.Ask();
      if e.Some? {
        out := Fail(api, cfg.reconcilePeriod, id, r, Unreachable, ExistenceSite, e.value,
                    log0, [], faults0, p, {Unreachable});
        return;
      }
      if r.spec.accessKey !in api.w.users {
        out := HandleCreate(id, r, tape);
        ch := Chance(KeyOf(tape), order);
      } else {
        out, ch := HandleUpdate(id, r, tape);
      }
    }

    // ---------- deletion ----------

    method FinalizeS3User(id: Id, r: Resource) returns (e: Option<Error>, panicked: bool)
      requires api.Valid() && Current(api.w, id, r)
      modifies api`w, api`log, api`faults
      ensures api.Valid() && old(api.faults) <= api.faults
      ensures
        var client := ClientFor(old(api.w), id.namespace, r.spec.s3InstanceRef);
        && api.w.resources == old(api.w).resources && api.w.secrets == old(api.w).secrets
        && (panicked ==> client.Panicked? && api.log == old(api.log) && api.faults == old(api.faults))
        && (!panicked && api.faults == old(api.faults) ==>
             !client.Panicked? && (if client.Unavailable? then e == Some(client.error) else e.None?))
        && (!panicked && client.Client? ==>
             api.Made(old(api.log), old(api.faults),
                      if client.instance.userDeletionEnabled then [DeleteUser(r.spec.accessKey)] else [], e))
        && (!client.Client? ==> api.log == old(api.log))
        && (api.faults > old(api.faults) ==> e.Some?)
    {
      e, panicked := None, false;
      var client := GetS3ClientForRessource(api, id.namespace, r.spec.s3InstanceRef);
      match client {
        case Panicked =>
          panicked := true;
        case Unavailable(error) =>
          e := Some(error);
        case Client(instance) =>
          if instance.userDeletionEnabled {
            e := api.Do(DeleteUser(r.spec.accessKey));
          }
      }
    }

    method DeleteOwned(owned: seq<Key>) returns (e: Option<Error>)
      requires api.Valid() && NoDuplicates(owned) && forall k :: k in owned ==> k in api.w.secrets
      modifies api`w, api`log, api`faults
      ensures api.Valid() && api.w.resources == old(api.w).resources
      ensures api.Made(old(api.log), old(api.faults), Deletions(owned), e)
    {
      ghost var log0, faults0 := api.log, api.faults;
      e := None;
      for i := 0 to |owned|
        invariant e.None?
        invariant api.Valid() && api.w.resources == old(api.w).resources
        invariant api.log == log0 + Deletions(owned[..i]) && api.faults == faults0
        invariant forall j :: i <= j < |owned| ==> owned[j] in api.w.secrets
      {
        assert Deletions(owned[..i + 1]) == Deletions(owned[..i]) + [DeleteSecret(owned[i])];
        assert Deletions(owned[..i]) <= Deletions(owned[..i + 1]) <= Deletions(owned);
        e := api.Do(DeleteSecret(owned[i]));
        if e.Some? {
          assert api.log[|log0|..] == Deletions(owned[..i]) || api.log[|log0|..] == Deletions(owned[..i + 1]);
          return;
        }
      }
      assert owned[..|owned|] == owned;
    }

    /** The part of HandleDeletion after the S3 user is gone: the owned Secrets, then the finalizer. */
    method RemoveOwnedAndFinalizer(id: Id, r: Resource, ghost log0: seq<Action>, ghost faults0: nat,
                                   ghost first: seq<Action>, ghost order0: seq<Key>)
      returns (out: Outcome, ghost order: seq<Key>)
      requires api.Valid() && Current(api.w, id, r) && Operator in r.finalizers
      requires api.log == log0 + first && api.faults == faults0
      requires Lists(order0, OwnedKeys(api.w, id.namespace, r.uid))
      modifies api`w, api`log, api`faults
      ensures api.Valid() && Lists(order, OwnedKeys(old(api.w), id.namespace, r.uid))
      ensures api.Ran(
        log0, faults0, Plan(first + Deletions(order) + [RemoveFinalizer(id)], Finished(0)), id, {DeletionFailure}, out)
    {
      order := order0;
      ghost var w0 := api.w;
      var e, owned, unlinked := GetUserLinkedSecrets(id, r);
      if e.Some? {
        out := Fail(api, cfg.reconcilePeriod, id, r, DeletionFailure, ListSecretsSite, e.value,
                    log0, first, faults0,
                    Plan(first + Deletions(order) + [RemoveFinalizer(id)], Finished(0)), {DeletionFailure});
        return;
      }
      order := owned;
      assert forall k :: k in owned <==> k in SetOf(owned);
      ghost var p := Plan(first + Deletions(owned) + [RemoveFinalizer(id)], Finished(0));
      e := DeleteOwned(owned);
      api.MadeThen(log0, first, faults0, Deletions(owned), e);
      if e.Some? {
        ghost var done := api.log[|log0|..];
        out := Fail(api, cfg.reconcilePeriod, id, r, DeletionFailure, DeleteSecretSite, e.value,
                    log0, done, faults0, p, {DeletionFailure});
        return;
      }
      e := api.Do(RemoveFinalizer(id));
      api.MadeThen(log0, first + Deletions(owned), faults0, [RemoveFinalizer(id)], e);
      if e.Some? {
        return Errored, order;
      }
      return Finished(0), order;
    }

    /** The part of HandleDeletion for a resource that still has the finalizer. */
    method TearDown(id: Id, r: Resource) returns (out: Outcome, ghost ch: Chance)
      requires api.Valid() && Current(api.w, id, r) && Operator in r.finalizers
      modifies api`w, api`log, api`faults
      ensures api.Valid() && Lists(ch.order, OwnedKeys(old(api.w), id.namespace, r.uid))
      ensures api.Ran(old(api.log), old(api.faults), HandleDeletionPlan(old(api.w), id, r, cfg, ch),
                      id, {DeletionFailure}, out)
    {
      ghost var w0, log0, faults0 := api.w, api.log, api.faults;
      ghost var order := ListingExists(OwnedKeys(w0, id.namespace, r.uid));
      ch := Chance(KeyOf([]), order);
      ghost var p := HandleDeletionPlan(w0, id, r, cfg, ch);
      ghost var client := ClientFor(w0, id.namespace, r.spec.s3InstanceRef);
      var e, panicked := FinalizeS3User(id, r);
      if panicked {
        return Errored, ch;
      }
      if e.Some? {
        assert client.Client? ==> api.log[|log0|..] <= p.actions;
        out := ObjectDeletion.ReportFailure(api, cfg, id, r, e.value, log0, faults0, p);
        return;
      }
      ghost var first := if client.instance.userDeletionEnabled then [DeleteUser(r.spec.accessKey)] else [];
      assert OwnedKeys(api.w, id.namespace, r.uid) == OwnedKeys(w0, id.namespace, r.uid);
      out, order := RemoveOwnedAndFinalizer(id, r, log0, faults0, first, order);
      ch := Chance(KeyOf([]), order);
    }

    method HandleDeletion(id: Id, r: Resource) returns (out: Outcome, ghost ch: Chance)
      requires api.Valid() && Current(api.w, id, r)
      modifies api`w, api`log, api`faults
      ensures api.Valid() && Lists(ch.order, OwnedKeys(old(api.w), id.namespace, r.uid))
      ensures api.Ran(old(api.log), old(api.faults), HandleDeletionPlan(old(api.w), id, r, cfg, ch),
                      id, {DeletionFailure}, out)
    {
      if Operator in r.finalizers {
        out, ch := TearDown(id, r);
      } else {
        ghost var order := ListingExists(OwnedKeys(api.w, id.namespace, r.uid));
        out, ch := Finished(0), Chance(KeyOf([]), order);
      }
    }

    // ---------- the whole reconcile ----------

    /**
     * Under any failures the calls made are an interruption of the plan, with the key the source leads to;
     * when no call fails they are the plan, and the outcome is the plan's.
     */
    method Reconcile(id: Id, tape: Tape) returns (out: Outcome, ghost ch: Chance)
      requires api.Valid()
      modifies api`w, api`log, api`faults
      ensures api.Valid()
      ensures HasUser(old(api.w), id) ==> ValidChance(old(api.w), id, ch)
      ensures ch.key == KeyOf(tape)
      ensures api.Ran(
        old(api.log), old(api.faults), ReconcilePlan(old(api.w), id, cfg, ch), id,
        if HasUser(old(api.w), id) then FailureReasons(old(api.w).resources[id]) else {}, out)
    {
      ghost var w0, log0, faults0 := api.w, api.log, api.faults;
      ch := Chance(KeyOf(tape), []);
      KeyIsPassword(tape);
      if HasUser(w0, id) {
        ghost var order := ListingExists(OwnedKeys(w0, id.namespace, w0.resources[id].uid));
        ch := Chance(KeyOf(tape), order);
      }
      var e := api.Ask();
      if e.Some? {
        return Errored, ch;
      }
      if id !in api.w.resources || !api.w.resources[id].spec.UserSpec? {
        return Finished(0), ch;
      }
      ghost var r0 := w0.resources[id];
      var r: Resource;
      e, r := Start(api, id);
      if e.Some? {
        ghost var body :=
          if r0.deleting then HandleDeletionPlan(WithResource(w0, id, Started(r0)), id, Started(r0), cfg, ch)
          else HandleReconciliationPlan(WithResource(w0, id, Started(r0)), id, Started(r0), cfg, ch);
        StoppedEarlyRan(api, log0, faults0, id, r0, body, FailureReasons(r0));
        return Errored, ch;
      }
      assert OwnedKeys(api.w, id.namespace, r.uid) == OwnedKeys(w0, id.namespace, r.uid);
      ghost var v := api.w;
      if r.deleting {
        out, ch := HandleDeletion(id, r);
        ch := Chance(KeyOf(tape), ch.order);
        api.RanAfter(log0, StartCalls(id, r0), faults0, HandleDeletionPlan(v, id, r, cfg, ch),
                     id, {DeletionFailure}, out);
      } else {
        out, ch := HandleReconciliation(id, r, tape);
        api.RanAfter(log0, StartCalls(id, r0), faults0, HandleReconciliationPlan(v, id, r, cfg, ch),
                     id, {Unreachable}, out);
      }
    }
  }
}
