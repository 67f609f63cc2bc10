/**
 * The per-kind merge rules the reconciler's CreateOrUpdate<Kind> closures
 * implement (controller/controller.go:233-339), stated as properties of
 * Engine.Apply, together with secret stability and the idempotence of the
 * closures that do not go through MergeSpecs.
 */
module MergePolicy {
  import opened Wrappers
  import opened K8s
  import opened ApiServer
  import opened Engine

  /** A stored object has the kind its key names. */
  lemma StoredKind(objects: Store, key: Key)
    requires WellKeyed(objects) && key in objects
    ensures KindOf(objects[key].body) == key.kind
  {
  }

  /** After a Service apply the stored port list is the desired one, whatever MergeSpecs did. */
  lemma ServiceTakesDesiredPorts(objects: Store, failing: set<Key>, owner: Request, svc: ServiceObj,
                                 annotations: Option<StrMap>, merge: MergeFn)
    requires WellKeyed(objects)
    requires Converged(Apply(objects, failing, owner, svc, false, false,
                             MergeWithPorts(svc.body, annotations), merge))
    ensures var stored := Apply(objects, failing, owner, svc, false, false,
                                MergeWithPorts(svc.body, annotations), merge).objects[KeyOf(svc)];
            stored.body.ServiceBody? && stored.body.ports == svc.body.ports
  {
    var m := MergeWithPorts(svc.body, annotations);
    ConvergedStoresOutcome(objects, failing, owner, svc, false, m, merge);
    if KeyOf(svc) in objects { StoredKind(objects, KeyOf(svc)); }
  }

  /**
   * After a StatefulSet apply the stored claim templates are those of the
   * live object before the merge (the desired ones when it is created).
   */
  lemma StatefulSetKeepsClaims(objects: Store, failing: set<Key>, owner: Request, ss: StatefulSetObj,
                               merge: MergeFn)
    requires WellKeyed(objects)
    requires Converged(Apply(objects, failing, owner, ss, false, false, MergeKeepingClaims(ss.body), merge))
    ensures var stored := Apply(objects, failing, owner, ss, false, false, MergeKeepingClaims(ss.body), merge).objects[KeyOf(ss)];
            && stored.body.StatefulSetBody?
            && stored.body.volumeClaimTemplates ==
                 (if KeyOf(ss) in objects then objects[KeyOf(ss)].body.volumeClaimTemplates
                  else ss.body.volumeClaimTemplates)
  {
    ConvergedStoresOutcome(objects, failing, owner, ss, false, MergeKeepingClaims(ss.body), merge);
    if KeyOf(ss) in objects { StoredKind(objects, KeyOf(ss)); }
  }

  /** After a ConfigMap apply the stored binary data is the desired one. */
  lemma ConfigMapTakesDesiredBinaryData(objects: Store, failing: set<Key>, owner: Request, cm: ConfigMapObj,
                                        merge: MergeFn)
    requires WellKeyed(objects)
    requires Converged(Apply(objects, failing, owner, cm, false, false, RestoreBinaryData(cm.body.binaryData), merge))
    ensures var stored := Apply(objects, failing, owner, cm, false, false, RestoreBinaryData(cm.body.binaryData), merge).objects[KeyOf(cm)];
            && stored.body.ConfigMapBody?
            && stored.body.binaryData == cm.body.binaryData
            && stored.body.data == (if KeyOf(cm) in objects then objects[KeyOf(cm)].body.data else cm.body.data)
  {
    ConvergedStoresOutcome(objects, failing, owner, cm, false, RestoreBinaryData(cm.body.binaryData), merge);
    if KeyOf(cm) in objects { StoredKind(objects, KeyOf(cm)); }
  }

  /** After a Role or ClusterRole apply the stored rules are the desired ones. */
  lemma RoleTakesDesiredRules(objects: Store, failing: set<Key>, owner: Request, role: Object,
                              retain: bool, merge: MergeFn)
    requires WellKeyed(objects)
    requires role.body.RoleBody? || role.body.ClusterRoleBody?
    requires Converged(Apply(objects, failing, owner, role, false, retain, RestoreRules(role.body.rules), merge))
    ensures var r := Apply(objects, failing, owner, role, false, retain, RestoreRules(role.body.rules), merge);
            && KeyOf(role) in r.objects
            && var stored := r.objects[KeyOf(role)];
            && KindOf(stored.body) == KindOf(role.body)
            && (stored.body.RoleBody? || stored.body.ClusterRoleBody?)
            && stored.body.rules == role.body.rules
  {
    ConvergedStoresOutcome(objects, failing, owner, role, retain, RestoreRules(role.body.rules), merge);
    if KeyOf(role) in objects { StoredKind(objects, KeyOf(role)); }
  }

  /**
   * The cluster agent's ClusterRole and ClusterRoleBinding are always applied with
   * retain: although they are cluster-scoped and the instance is namespaced, a
   * converged apply leaves the instance as their controller in no case.
   */
  lemma RetainedClusterScopedReleased(objects: Store, failing: set<Key>, owner: Request, desired: Object,
                                      m: Mutation, merge: MergeFn)
    requires WellKeyed(objects) && ValidMutation(m)
    requires desired.body.ClusterRoleBody? || desired.body.ClusterRoleBindingBody?
    requires Converged(Apply(objects, failing, owner, desired, false, true, m, merge))
    ensures var r := Apply(objects, failing, owner, desired, false, true, m, merge);
            KeyOf(desired) in r.objects && r.objects[KeyOf(desired)].meta.controller != Some(owner.name)
  {
    OwnershipFollowsRetain(objects, failing, owner, desired, true, m, merge);
  }

  /**
   * After a Secret apply every key the secret already held keeps its value,
   * every requested key is present, and no other key is added.
   */
  lemma SecretKeepsExistingKeys(objects: Store, failing: set<Key>, owner: Request, s: Object,
                                keys: seq<string>, randoms: seq<string>, retain: bool, merge: MergeFn)
    requires WellKeyed(objects) && s.body.SecretBody? && |randoms| == |keys|
    requires Converged(Apply(objects, failing, owner, s, false, retain, FillSecret(keys, randoms), merge))
    ensures var before := SecretDataOf(Base(objects, s));
            var after := Apply(objects, failing, owner, s, false, retain, FillSecret(keys, randoms), merge).objects[KeyOf(s)];
            && after.body.SecretBody?
            && after.body.secretData.Keys == before.Keys + KeySet(keys)
            && (forall k | k in before :: after.body.secretData[k] == before[k])
            && (forall k | k in after.body.secretData && k !in before :: after.body.secretData[k] in randoms)
  {
    ConvergedStoresOutcome(objects, failing, owner, s, retain, FillSecret(keys, randoms), merge);
    if KeyOf(s) in objects { StoredKind(objects, KeyOf(s)); }
  }

  /** A data map that already holds every requested key is left as it is. */
  lemma FillMissingNoop(data: StrMap, keys: seq<string>, randoms: seq<string>)
    requires |randoms| == |keys| && KeySet(keys) <= data.Keys
    ensures FillMissing(data, keys, randoms) == data
  {
    var r := FillMissing(data, keys, randoms);
    assert r.Keys == data.Keys;
  }

  lemma OwnIdempotent(o: Object, owner: Request, retain: bool)
    ensures Own(Own(o, owner, retain), owner, retain) == Own(o, owner, retain)
  {
  }

  /** The closures that do not call MergeSpecs. */
  predicate MergeFree(m: Mutation) {
    m.NoMutation? || m.RestoreBinaryData? || m.RestoreRules? || m.FillSecret?
  }

  /**
   * A second mutate step over what the first one stored changes nothing:
   * for Secret even with other random values, so a stored password is never
   * regenerated.
   */
  lemma MutateStable(o: Object, owner: Request, retain: bool, m: Mutation, m2: Mutation, merge: MergeFn)
    requires ValidMutation(m) && ValidMutation(m2) && MergeFree(m)
    requires m2 == m || (m.FillSecret? && m2.FillSecret? && m2.keys == m.keys)
    requires Mutate(Own(o, owner, retain), m, merge).Ok?
    ensures var stored := Mutate(Own(o, owner, retain), m, merge).value;
            Mutate(Own(stored, owner, retain), m2, merge) == Ok(stored)
  {
    var base := Own(o, owner, retain);
    var stored := Mutate(base, m, merge).value;
    OwnIdempotent(o, owner, retain);
    assert Own(stored, owner, retain) == stored;
    if m.FillSecret? {
      if base.body.SecretBody? {
        FillMissingNoop(stored.body.secretData, m2.keys, m2.randoms);
      }
    }
  }

  /**
   * Applying the same descriptor twice against an otherwise unmodified store
   * writes nothing the second time and leaves the store as the first left it.
   */
  lemma ApplyTwiceUnchanged(objects: Store, failing: set<Key>, owner: Request, desired: Object,
                            retain: bool, m: Mutation, m2: Mutation, merge: MergeFn)
    requires WellKeyed(objects) && ValidMutation(m) && ValidMutation(m2) && MergeFree(m)
    requires m2 == m || (m.FillSecret? && m2.FillSecret? && m2.keys == m.keys)
    requires Converged(Apply(objects, failing, owner, desired, false, retain, m, merge))
    ensures var r1 := Apply(objects, failing, owner, desired, false, retain, m, merge);
            var r2 := Apply(r1.objects, failing, owner, desired, false, retain, m2, merge);
            r2.writes == [] && r2.result == OpUnchanged && r2.objects == r1.objects
  {
    ConvergedStoresOutcome(objects, failing, owner, desired, retain, m, merge);
    MutateStable(Base(objects, desired), owner, retain, m, m2, merge);
  }
}
