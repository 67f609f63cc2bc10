/**
 * The apply engine: `controllerutil.CreateOrUpdate` as the reconciler uses it
 * (controller/controller.go, CreateOrUpdate and the per-kind mutate
 * closures), stated as a function of the store before the call.
 *
 * Fetch the object by key; if absent keep the desired values, if present
 * take the live object; set or remove the controller reference; run the
 * kind's mutate step; create when absent, update only when the result
 * differs from the live object. With `delete` set only a delete is issued.
 */
module Engine {
  import opened Wrappers
  import opened K8s
  import opened ApiServer

  /** What `MergeSpecs` hands back: the object's new annotations and kind-specific part. */
  datatype Merged = Merged(annotations: StrMap, body: Body)

  /**
   * `MergeSpecs(obj, &obj.Spec, desired, annotations)`, which is not part of
   * this model: any function of the current object, the desired spec and the
   * desired annotations (None for a nil map) that may fail.
   */
  type MergeFn = (Object, Body, Option<StrMap>) -> Result<Merged>

  /** The mutate closure each CreateOrUpdate<Kind> passes, with the desired values it captured. */
  datatype Mutation =
    | NoMutation                                                  // ServiceAccount, RoleBinding, ClusterRoleBinding
    | MergeSpecs(desired: Body, annotations: Option<StrMap>)      // Deployment, DaemonSet, PVC, Ingress
    | MergeKeepingClaims(desired: Body)                           // StatefulSet
    | MergeWithPorts(desired: Body, annotations: Option<StrMap>)  // Service
    | RestoreBinaryData(binaryData: map<string, Bytes>)           // ConfigMap
    | RestoreRules(rules: seq<PolicyRule>)                        // Role, ClusterRole
    | FillSecret(keys: seq<string>, randoms: seq<string>)         // Secret; randoms[i] is RandomString's value for keys[i]

  predicate ValidMutation(m: Mutation) {
    m.FillSecret? ==> |m.randoms| == |m.keys|
  }

  datatype OpResult = OpCreated | OpUpdated | OpUnchanged | OpDeleted | OpFailed

  datatype Applied = Applied(objects: Store, writes: seq<Write>, result: OpResult)

  // ---------------------------------------------------------------- ownership

  /** `validateOwner`: a namespaced owner may only own objects of its own namespace. */
  predicate OwnerAllowed(owner: Request, m: Meta) {
    owner.namespace == "" || m.namespace == owner.namespace
  }

  /** `controllerutil.SetControllerReference`; its errors leave the object unchanged. */
  function SetControllerReference(owner: Request, m: Meta): (r: Meta)
    ensures r.(controller := m.controller) == m
    ensures r.controller == Some(owner.name) <==>
              m.controller == Some(owner.name) || (OwnerAllowed(owner, m) && m.controller.None?)
  {
    if !OwnerAllowed(owner, m) then m                                      // ns mismatch
    else if m.controller.Some? && m.controller.value != owner.name then m  // AlreadyOwnedError
    else m.(controller := Some(owner.name))
  }

  /**
   * `controllerutil.RemoveControllerReference`: it matches the owner reference by
   * kind and name, with no namespace check; its errors leave the object unchanged.
   */
  function RemoveControllerReference(owner: Request, m: Meta): (r: Meta)
    ensures r.(controller := m.controller) == m
    ensures r.controller != Some(owner.name)
    ensures m.controller != Some(owner.name) ==> r == m
  {
    if m.controller == Some(owner.name) then m.(controller := None) else m
  }

  function Own(o: Object, owner: Request, retain: bool): (r: Object)
    ensures KeyOf(r) == KeyOf(o) && r.body == o.body
  {
    o.(meta := if retain then RemoveControllerReference(owner, o.meta) else SetControllerReference(owner, o.meta))
  }

  // ------------------------------------------------------------ mutate steps

  /** Run MergeSpecs and adopt its annotations and spec; the model refuses a spec of another kind. */
  function MergeStep(o: Object, desired: Body, annotations: Option<StrMap>, merge: MergeFn): (r: Result<Object>)
    ensures r.Ok? ==> KeyOf(r.value) == KeyOf(o) && r.value.meta.(annotations := o.meta.annotations) == o.meta
  {
    match merge(o, desired, annotations)
    case Err(e) => Err(e)
    case Ok(mg) =>
      if KindOf(mg.body) == KindOf(o.body) then Ok(Object(o.meta.(annotations := mg.annotations), mg.body))
      else Err("MergeSpecs returned a spec of another kind")
  }

  function ClaimsOf(b: Body): seq<ClaimTemplate> {
    if b.StatefulSetBody? then b.volumeClaimTemplates else []
  }

  function WithClaims(o: Object, claims: seq<ClaimTemplate>): Object {
    if o.body.StatefulSetBody? then o.(body := o.body.(volumeClaimTemplates := claims)) else o
  }

  function PortsOf(b: Body): seq<ServicePort> {
    if b.ServiceBody? then b.ports else []
  }

  function WithPorts(o: Object, ports: seq<ServicePort>): Object {
    if o.body.ServiceBody? then o.(body := o.body.(ports := ports)) else o
  }

  function WithBinaryData(o: Object, binaryData: map<string, Bytes>): Object {
    if o.body.ConfigMapBody? then o.(body := o.body.(binaryData := binaryData)) else o
  }

  function WithRules(o: Object, rules: seq<PolicyRule>): Object {
    if o.body.RoleBody? || o.body.ClusterRoleBody? then o.(body := o.body.(rules := rules)) else o
  }

  function SecretDataOf(o: Object): StrMap {
    if o.body.SecretBody? then o.body.secretData else map[]
  }

  function WithSecretData(o: Object, data: StrMap): Object {
    if o.body.SecretBody? then o.(body := SecretBody(data)) else o
  }

  /** Set of the keys listed in `keys`. */
  function KeySet(keys: seq<string>): set<string> {
    set i | 0 <= i < |keys| :: keys[i]
  }

  /**
   * The secret closure: every requested key that is missing gets its random
   * value; a key already present keeps its value.
   */
  function FillMissing(data: StrMap, keys: seq<string>, randoms: seq<string>): (r: StrMap)
    requires |randoms| == |keys|
    ensures r.Keys == data.Keys + KeySet(keys)
    ensures forall k | k in data :: r[k] == data[k]
    ensures forall k | k in r && k !in data :: r[k] in randoms
    decreases |keys|
  {
    if keys == [] then data
    else
      var step := if keys[0] in data then data else data[keys[0] := randoms[0]];
      var r := FillMissing(step, keys[1..], randoms[1..]);
      assert KeySet(keys) == {keys[0]} + KeySet(keys[1..]) by {
        forall k | k in KeySet(keys) ensures k in {keys[0]} + KeySet(keys[1..]) {
          var i :| 0 <= i < |keys| && keys[i] == k;
          if i > 0 { assert keys[1..][i - 1] == k; }
        }
      }
      r
  }

  /** The mutate closure's effect on the fetched (or desired) object. */
  function Mutate(o: Object, m: Mutation, merge: MergeFn): (r: Result<Object>)
    requires ValidMutation(m)
    ensures r.Ok? ==> KeyOf(r.value) == KeyOf(o) && r.value.meta.controller == o.meta.controller
  {
    match m
    case NoMutation => Ok(o)
    case MergeSpecs(desired, annotations) => MergeStep(o, desired, annotations, merge)
    case MergeKeepingClaims(desired) =>
      var claims := ClaimsOf(o.body);   // snapshot taken from the fetched object
      (match MergeStep(o, desired, None, merge)
       case Err(e) => Err(e)
       case Ok(merged) => Ok(WithClaims(merged, claims)))
    case MergeWithPorts(desired, annotations) =>
      (match MergeStep(o, desired, annotations, merge)
       case Err(e) => Err(e)
       case Ok(merged) => Ok(WithPorts(merged, PortsOf(desired))))
    case RestoreBinaryData(binaryData) => Ok(WithBinaryData(o, binaryData))
    case RestoreRules(rules) => Ok(WithRules(o, rules))
    case FillSecret(keys, randoms) => Ok(WithSecretData(o, FillMissing(SecretDataOf(o), keys, randoms)))
  }

  // ------------------------------------------------------------------- apply

  /** The object the mutate step starts from: the live one when present, else the desired one. */
  function Base(objects: Store, desired: Object): Object {
    if KeyOf(desired) in objects then objects[KeyOf(desired)] else desired
  }

  /** One CreateOrUpdate call of the reconciler, from the store it starts on. */
  function Apply(objects: Store, failing: set<Key>, owner: Request, desired: Object,
                 delete: bool, retain: bool, m: Mutation, merge: MergeFn): (r: Applied)
    requires ValidMutation(m)
  {
    var key := KeyOf(desired);
    if delete then
      Applied(AfterDelete(objects, failing, key), [Deleted(key)],
              if DeleteError(objects, failing, key).None? then OpDeleted else OpFailed)
    else
      match Lookup(objects, failing, key)
      case FetchFailed => Applied(objects, [], OpFailed)
      case Missing =>
        (match Mutate(Own(desired, owner, retain), m, merge)
         case Err(_) => Applied(objects, [], OpFailed)
         case Ok(o) =>
           Applied(AfterCreate(objects, failing, o), [Created(KeyOf(o))],
                   if CreateError(objects, failing, o).None? then OpCreated else OpFailed))
      case Found(live) =>
        (match Mutate(Own(live, owner, retain), m, merge)
         case Err(_) => Applied(objects, [], OpFailed)
         case Ok(o) =>
           if o == live then Applied(objects, [], OpUnchanged)
           else Applied(AfterUpdate(objects, failing, o), [Updated(KeyOf(o))],
                        if UpdateError(objects, failing, o).None? then OpUpdated else OpFailed))
  }

  /** The apply left the object in the state the engine computed (no failed or skipped write). */
  predicate Converged(r: Applied) {
    r.result == OpCreated || r.result == OpUpdated || r.result == OpUnchanged
  }

  /** What the mutate step produced on a converged apply. */
  function Outcome(objects: Store, owner: Request, desired: Object, retain: bool, m: Mutation, merge: MergeFn): Result<Object>
    requires ValidMutation(m)
  {
    Mutate(Own(Base(objects, desired), owner, retain), m, merge)
  }

  // ------------------------------------------------------- sequences of calls

  /** One CreateOrUpdate call of a pass: the descriptor, the delete and retain flags, and the closure. */
  datatype Step = Step(desired: Object, delete: bool, retain: bool, m: Mutation)

  type Call = s: Step | ValidMutation(s.m)
    witness Step(Object(Meta("", "", map[], map[], None), ServiceAccountBody), false, false, NoMutation)

  datatype Ran = Ran(objects: Store, writes: seq<Write>)

  /** The store and the writes after the calls of `steps`, one after the other. */
  function Run(objects: Store, failing: set<Key>, owner: Request, steps: seq<Call>, merge: MergeFn): Ran
    decreases |steps|
  {
    if steps == [] then Ran(objects, [])
    else
      var r := Run(objects, failing, owner, steps[..|steps| - 1], merge);
      var s := steps[|steps| - 1];
      var a := Apply(r.objects, failing, owner, s.desired, s.delete, s.retain, s.m, merge);
      Ran(a.objects, r.writes + a.writes)
  }

  /** The keys of the descriptors of `steps`. */
  function StepKeys(steps: seq<Call>): set<Key> {
    set i | 0 <= i < |steps| :: KeyOf(steps[i].desired)
  }

  /** The keys of the delete steps, in order. */
  function StepDeletes(steps: seq<Call>): seq<Key> {
    if steps == [] then []
    else (if steps[0].delete then [KeyOf(steps[0].desired)] else []) + StepDeletes(steps[1..])
  }

  // ------------------------------------------------------------------ lemmas

  /** A converged apply stores exactly what the mutate step produced from the live (or desired) object. */
  lemma ConvergedStoresOutcome(objects: Store, failing: set<Key>, owner: Request, desired: Object,
                               retain: bool, m: Mutation, merge: MergeFn)
    requires WellKeyed(objects) && ValidMutation(m)
    requires Converged(Apply(objects, failing, owner, desired, false, retain, m, merge))
    ensures var r := Apply(objects, failing, owner, desired, false, retain, m, merge);
            var out := Outcome(objects, owner, desired, retain, m, merge);
            KeyOf(desired) in r.objects && out.Ok? && r.objects[KeyOf(desired)] == out.value
  {
  }

  /** With `delete` set, the call issues one delete and nothing else, whatever the closure or retain flag. */
  lemma DeleteShortCircuits(objects: Store, failing: set<Key>, owner: Request, desired: Object,
                            retain: bool, m: Mutation, merge: MergeFn)
    requires ValidMutation(m)
    ensures var r := Apply(objects, failing, owner, desired, true, retain, m, merge);
            var key := KeyOf(desired);
            && r.writes == [Deleted(key)]
            && r.objects == (if key in objects && key !in failing then objects - {key} else objects)
            && (r.result == OpDeleted <==> key in objects && key !in failing)
            && (r.result == OpFailed <==> key !in objects || key in failing)
  {
  }

  /** Apply never touches any object but the one named by the descriptor. */
  lemma ApplyFrame(objects: Store, failing: set<Key>, owner: Request, desired: Object,
                   delete: bool, retain: bool, m: Mutation, merge: MergeFn, k: Key)
    requires WellKeyed(objects) && ValidMutation(m)
    requires k != KeyOf(desired)
    ensures var r := Apply(objects, failing, owner, desired, delete, retain, m, merge);
            (k in r.objects <==> k in objects) && (k in objects ==> r.objects[k] == objects[k])
  {
  }

  /**
   * Without `delete`, at most one write is issued: a create only when the
   * object is absent, an update only when present and the merge changed it.
   */
  lemma ApplyWrites(objects: Store, failing: set<Key>, owner: Request, desired: Object,
                    retain: bool, m: Mutation, merge: MergeFn)
    requires WellKeyed(objects) && ValidMutation(m)
    ensures var r := Apply(objects, failing, owner, desired, false, retain, m, merge);
            var key := KeyOf(desired);
            var out := Outcome(objects, owner, desired, retain, m, merge);
            && DeletedKeys(r.writes) == []
            && (r.writes == [] || r.writes == [Created(key)] || r.writes == [Updated(key)])
            && (r.writes == [Created(key)] <==> key !in failing && key !in objects && out.Ok?)
            && (r.writes == [Updated(key)] <==>
                  key !in failing && key in objects && out.Ok? && out.value != objects[key])
            && (r.result == OpUnchanged <==>
                  key !in failing && key in objects && out.Ok? && out.value == objects[key])
  {
  }

  /** Every write of an apply is for the descriptor's own key; the only delete is the short-circuit one. */
  lemma ApplyLog(objects: Store, failing: set<Key>, owner: Request, desired: Object,
                 delete: bool, retain: bool, m: Mutation, merge: MergeFn)
    requires WellKeyed(objects) && ValidMutation(m)
    ensures var r := Apply(objects, failing, owner, desired, delete, retain, m, merge);
            && (forall w | w in r.writes :: w.key == KeyOf(desired))
            && DeletedKeys(r.writes) == (if delete then [KeyOf(desired)] else [])
  {
    if !delete {
      ApplyWrites(objects, failing, owner, desired, retain, m, merge);
    }
  }

  /** Owner references follow `retain`: removed from a retained object, set on any other. */
  lemma OwnershipFollowsRetain(objects: Store, failing: set<Key>, owner: Request, desired: Object,
                               retain: bool, m: Mutation, merge: MergeFn)
    requires WellKeyed(objects) && ValidMutation(m)
    requires Converged(Apply(objects, failing, owner, desired, false, retain, m, merge))
    ensures var r := Apply(objects, failing, owner, desired, false, retain, m, merge);
            var base := Base(objects, desired);
            var stored := r.objects[KeyOf(desired)];
            && (retain ==> stored.meta.controller != Some(owner.name))
            && (retain && base.meta.controller != Some(owner.name) ==> stored.meta.controller == base.meta.controller)
            && (!retain && OwnerAllowed(owner, base.meta) && base.meta.controller in {None, Some(owner.name)} ==>
                  stored.meta.controller == Some(owner.name))
            && (!retain && !OwnerAllowed(owner, base.meta) ==> stored.meta.controller == base.meta.controller)
  {
    ConvergedStoresOutcome(objects, failing, owner, desired, retain, m, merge);
  }

  // -------------------------------------------------- lemmas about sequences

  /** Every apply keeps each object under its own key. */
  lemma ApplyKeepsKeys(objects: Store, failing: set<Key>, owner: Request, desired: Object,
                       delete: bool, retain: bool, m: Mutation, merge: MergeFn)
    requires WellKeyed(objects) && ValidMutation(m)
    ensures WellKeyed(Apply(objects, failing, owner, desired, delete, retain, m, merge).objects)
  {
  }

  lemma {:induction false} RunKeepsKeys(objects: Store, failing: set<Key>, owner: Request, steps: seq<Call>, merge: MergeFn)
    requires WellKeyed(objects)
    ensures WellKeyed(Run(objects, failing, owner, steps, merge).objects)
    decreases |steps|
  {
    if steps != [] {
      var front := steps[..|steps| - 1];
      var s := steps[|steps| - 1];
      RunKeepsKeys(objects, failing, owner, front, merge);
      ApplyKeepsKeys(Run(objects, failing, owner, front, merge).objects, failing, owner, s.desired, s.delete, s.retain, s.m, merge);
    }
  }

  /** One more call after `steps`. */
  lemma RunSnoc(objects: Store, failing: set<Key>, owner: Request, steps: seq<Call>, s: Call, merge: MergeFn)
    ensures var r := Run(objects, failing, owner, steps, merge);
            var a := Apply(r.objects, failing, owner, s.desired, s.delete, s.retain, s.m, merge);
            Run(objects, failing, owner, steps + [s], merge) == Ran(a.objects, r.writes + a.writes)
  {
    assert (steps + [s])[..|steps|] == steps;
  }

  /** Two sequences of calls one after the other. */
  lemma {:induction false} RunConcat(objects: Store, failing: set<Key>, owner: Request, a: seq<Call>, b: seq<Call>, merge: MergeFn)
    ensures var ra := Run(objects, failing, owner, a, merge);
            var rb := Run(ra.objects, failing, owner, b, merge);
            Run(objects, failing, owner, a + b, merge) == Ran(rb.objects, ra.writes + rb.writes)
    decreases |b|
  {
    var ra := Run(objects, failing, owner, a, merge);
    if b == [] {
      assert a + b == a;
    } else {
      var front := b[..|b| - 1];
      var s := b[|b| - 1];
      assert a + b == (a + front) + [s];
      RunConcat(objects, failing, owner, a, front, merge);
      RunSnoc(objects, failing, owner, a + front, s, merge);
      assert b == front + [s];
      RunSnoc(ra.objects, failing, owner, front, s, merge);
      ConcatStep(Run(objects, failing, owner, a + front, merge), ra, Run(ra.objects, failing, owner, front, merge),
                 Apply(Run(ra.objects, failing, owner, front, merge).objects, failing, owner, s.desired, s.delete, s.retain, s.m, merge).writes);
    }
  }

  lemma ConcatStep(whole: Ran, ra: Ran, rf: Ran, ws: seq<Write>)
    requires whole == Ran(rf.objects, ra.writes + rf.writes)
    ensures whole.writes + ws == ra.writes + (rf.writes + ws)
  {
  }

  lemma {:induction false} StepDeletesConcat(a: seq<Call>, b: seq<Call>)
    ensures StepDeletes(a + b) == StepDeletes(a) + StepDeletes(b)
  {
    if a == [] {
      assert a + b == b;
    } else {
      assert (a + b)[0] == a[0];
      assert (a + b)[1..] == a[1..] + b;
      StepDeletesConcat(a[1..], b);
    }
  }

  /** Steps none of which deletes issue no delete. */
  lemma {:induction false} StepDeletesNone(steps: seq<Call>)
    requires forall i | 0 <= i < |steps| :: !steps[i].delete
    ensures StepDeletes(steps) == []
  {
    if steps != [] {
      assert forall i | 0 <= i < |steps[1..]| :: steps[1..][i] == steps[i + 1];
      StepDeletesNone(steps[1..]);
    }
  }

  lemma StepKeysSnoc(front: seq<Call>, s: Call)
    ensures StepKeys(front + [s]) == StepKeys(front) + {KeyOf(s.desired)}
  {
    var steps := front + [s];
    forall k | k in StepKeys(steps) ensures k in StepKeys(front) + {KeyOf(s.desired)} {
      var i :| 0 <= i < |steps| && KeyOf(steps[i].desired) == k;
      if i < |front| { assert front[i] == steps[i]; }
    }
    forall k | k in StepKeys(front) ensures k in StepKeys(steps) {
      var i :| 0 <= i < |front| && KeyOf(front[i].desired) == k;
      assert steps[i] == front[i];
    }
    assert steps[|front|] == s;
  }

  lemma StepDeletesSnoc(front: seq<Call>, s: Call)
    ensures StepDeletes(front + [s]) == StepDeletes(front) + (if s.delete then [KeyOf(s.desired)] else [])
  {
    StepDeletesConcat(front, [s]);
    assert [s][1..] == [];
  }

  /** The writes of a sequence of calls are for its descriptors' keys, and its deletes are exactly its delete steps. */
  lemma {:induction false} RunLogged(objects: Store, failing: set<Key>, owner: Request, steps: seq<Call>, merge: MergeFn,
                                     before: seq<Write>)
    requires WellKeyed(objects)
    ensures Logged(before, before + Run(objects, failing, owner, steps, merge).writes, StepKeys(steps), StepDeletes(steps))
    decreases |steps|
  {
    if steps == [] {
      assert before + [] == before;
    } else {
      var front := steps[..|steps| - 1];
      var s := steps[|steps| - 1];
      assert steps == front + [s];
      var r := Run(objects, failing, owner, front, merge);
      RunLogged(objects, failing, owner, front, merge, before);
      RunKeepsKeys(objects, failing, owner, front, merge);
      RunSnoc(objects, failing, owner, front, s, merge);
      LoggedSnoc(r.objects, failing, owner, s, merge, before, r.writes, StepKeys(front), StepDeletes(front));
      StepKeysSnoc(front, s);
      StepDeletesSnoc(front, s);
    }
  }

  /** The step case of RunLogged: one more apply extends what was logged by its key and its delete. */
  lemma LoggedSnoc(objects: Store, failing: set<Key>, owner: Request, s: Call, merge: MergeFn,
                   before: seq<Write>, ws: seq<Write>, keys: set<Key>, deleted: seq<Key>)
    requires WellKeyed(objects)
    requires Logged(before, before + ws, keys, deleted)
    ensures var a := Apply(objects, failing, owner, s.desired, s.delete, s.retain, s.m, merge);
            Logged(before, before + (ws + a.writes), keys + {KeyOf(s.desired)},
                   deleted + (if s.delete then [KeyOf(s.desired)] else []))
  {
    var a := Apply(objects, failing, owner, s.desired, s.delete, s.retain, s.m, merge);
    var key := KeyOf(s.desired);
    var d := if s.delete then [key] else [];
    ApplyLog(objects, failing, owner, s.desired, s.delete, s.retain, s.m, merge);
    LoggedAppend(before + ws, a.writes, key, d);
    LoggedTrans(before, before + ws, before + ws + a.writes, keys, {key}, deleted, d);
    ConcatAssoc(before, ws, a.writes);
  }

  /** Calls on other keys leave an object as it is. */
  lemma {:induction false} RunFrame(objects: Store, failing: set<Key>, owner: Request, steps: seq<Call>, merge: MergeFn, k: Key)
    requires WellKeyed(objects) && k !in StepKeys(steps)
    ensures var r := Run(objects, failing, owner, steps, merge);
            (k in r.objects <==> k in objects) && (k in objects ==> r.objects[k] == objects[k])
    decreases |steps|
  {
    if steps != [] {
      var front := steps[..|steps| - 1];
      var s := steps[|steps| - 1];
      assert steps == front + [s];
      StepKeysSnoc(front, s);
      RunFrame(objects, failing, owner, front, merge, k);
      RunKeepsKeys(objects, failing, owner, front, merge);
      var r := Run(objects, failing, owner, front, merge);
      ApplyFrame(r.objects, failing, owner, s.desired, s.delete, s.retain, s.m, merge, k);
    }
  }

  /**
   * The object a call leaves behind stays in the store when no later call
   * names its key: after the whole sequence, the descriptor's entry is what
   * that one apply made of the store it met.
   */
  lemma RunLast(objects: Store, failing: set<Key>, owner: Request, steps: seq<Call>, merge: MergeFn, i: nat)
    requires WellKeyed(objects) && i < |steps|
    requires KeyOf(steps[i].desired) !in StepKeys(steps[i + 1..])
    ensures var met := Run(objects, failing, owner, steps[..i], merge).objects;
            var s := steps[i];
            var a := Apply(met, failing, owner, s.desired, s.delete, s.retain, s.m, merge);
            var k := KeyOf(s.desired);
            var r := Run(objects, failing, owner, steps, merge);
            (k in r.objects <==> k in a.objects) && (k in a.objects ==> r.objects[k] == a.objects[k])
  {
    var s := steps[i];
    assert steps == steps[..i + 1] + steps[i + 1..];
    assert steps[..i + 1] == steps[..i] + [s];
    RunConcat(objects, failing, owner, steps[..i + 1], steps[i + 1..], merge);
    RunSnoc(objects, failing, owner, steps[..i], s, merge);
    RunKeepsKeys(objects, failing, owner, steps[..i + 1], merge);
    RunFrame(Run(objects, failing, owner, steps[..i + 1], merge).objects, failing, owner, steps[i + 1..], merge, KeyOf(s.desired));
  }

  /** A single call. */
  lemma RunOne(objects: Store, failing: set<Key>, owner: Request, s: Call, merge: MergeFn)
    ensures var a := Apply(objects, failing, owner, s.desired, s.delete, s.retain, s.m, merge);
            Run(objects, failing, owner, [s], merge) == Ran(a.objects, a.writes)
  {
    assert [s][..0] == [];
  }

  /** What `steps` made of a store and log, followed by one more apply, is what `steps + [s]` makes of them. */
  lemma RunThenApply(objects0: Store, writes0: seq<Write>, failing: set<Key>, owner: Request, merge: MergeFn,
                     steps: seq<Call>, s: Call, mid: Store, midWrites: seq<Write>, objects: Store, writes: seq<Write>)
    requires var r := Run(objects0, failing, owner, steps, merge);
             mid == r.objects && midWrites == writes0 + r.writes
    requires var a := Apply(mid, failing, owner, s.desired, s.delete, s.retain, s.m, merge);
             objects == a.objects && writes == midWrites + a.writes
    ensures var r := Run(objects0, failing, owner, steps + [s], merge);
            objects == r.objects && writes == writes0 + r.writes
  {
    RunSnoc(objects0, failing, owner, steps, s, merge);
    var r := Run(objects0, failing, owner, steps, merge);
    ConcatAssoc(writes0, r.writes, Apply(mid, failing, owner, s.desired, s.delete, s.retain, s.m, merge).writes);
  }

  /** What `steps` made of a store and log, followed by the calls of `more`, is what `steps + more` makes of them. */
  lemma RunThenRun(objects0: Store, writes0: seq<Write>, failing: set<Key>, owner: Request, merge: MergeFn,
                   steps: seq<Call>, more: seq<Call>, mid: Store, midWrites: seq<Write>, objects: Store, writes: seq<Write>)
    requires var r := Run(objects0, failing, owner, steps, merge);
             mid == r.objects && midWrites == writes0 + r.writes
    requires var b := Run(mid, failing, owner, more, merge);
             objects == b.objects && writes == midWrites + b.writes
    ensures var r := Run(objects0, failing, owner, steps + more, merge);
            objects == r.objects && writes == writes0 + r.writes
  {
    var ra := Run(objects0, failing, owner, steps, merge);
    var rb := Run(mid, failing, owner, more, merge);
    RunConcat(objects0, failing, owner, steps, more, merge);
    ConcatAssoc(writes0, ra.writes, rb.writes);
  }

  lemma ConcatAssoc<T>(a: seq<T>, b: seq<T>, c: seq<T>)
    ensures a + b + c == a + (b + c)
  {
  }

  /** The deletes of a sequence of calls whose first part deletes nothing. */
  lemma RunDeletes(objects: Store, failing: set<Key>, owner: Request, a: seq<Call>, b: seq<Call>, merge: MergeFn,
                   writes: seq<Write>, deleted: seq<Key>)
    requires WellKeyed(objects) && StepDeletes(a) == [] && StepDeletes(b) == deleted
    ensures var r := Run(objects, failing, owner, a + b, merge);
            writes <= writes + r.writes && DeletedKeys(writes + r.writes) == DeletedKeys(writes) + deleted
  {
    RunLogged(objects, failing, owner, a + b, merge, writes);
    StepDeletesConcat(a, b);
  }

  /** The deletes of three sequences of calls one after the other, the first of which deletes nothing. */
  lemma DeletesAfter(a: seq<Call>, b: seq<Call>, c: seq<Call>)
    requires StepDeletes(a) == []
    ensures StepDeletes(a + b + c) == StepDeletes(b) + StepDeletes(c)
  {
    StepDeletesConcat(a, b);
    StepDeletesConcat(a + b, c);
  }

  lemma StepDeletesOne(s: Call)
    ensures StepDeletes([s]) == if s.delete then [KeyOf(s.desired)] else []
  {
    assert [s][1..] == [];
  }

  /** Two sequences of calls neither of which deletes. */
  lemma NoDeletesConcat(a: seq<Call>, b: seq<Call>)
    requires StepDeletes(a) == [] && StepDeletes(b) == []
    ensures StepDeletes(a + b) == []
  {
    StepDeletesConcat(a, b);
  }

  /** The loop step: what the first `i` calls made, followed by call `i`, is what the first `i + 1` calls make. */
  lemma RunPrefixThenApply(objects0: Store, writes0: seq<Write>, failing: set<Key>, owner: Request, merge: MergeFn,
                           steps: seq<Call>, i: nat, mid: Store, midWrites: seq<Write>, objects: Store, writes: seq<Write>)
    requires i < |steps|
    requires var r := Run(objects0, failing, owner, steps[..i], merge);
             mid == r.objects && midWrites == writes0 + r.writes
    requires var s := steps[i];
             var a := Apply(mid, failing, owner, s.desired, s.delete, s.retain, s.m, merge);
             objects == a.objects && writes == midWrites + a.writes
    ensures var r := Run(objects0, failing, owner, steps[..i + 1], merge);
            objects == r.objects && writes == writes0 + r.writes
  {
    assert steps[..i + 1] == steps[..i] + [steps[i]];
    RunThenApply(objects0, writes0, failing, owner, merge, steps[..i], steps[i], mid, midWrites, objects, writes);
  }
}
