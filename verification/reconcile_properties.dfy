/**
 * What the reconciler promises, proved about the specification functions that its
 * methods are verified against: deterministic, collision-free child naming;
 * create-only-if-absent; nothing written for a missing parent; errors returned
 * before the next step; convergence, idempotence and no rollback for `Reconcile`;
 * and the true/false result of the config-map drift helper.
 */
module ReconcileProperties {

  import opened Wrappers
  import opened Meta
  import opened ApiV1
  import opened CoreV1
  import opened ResourceStore
  import opened Controllers

  // ---------------------------------------------------------------------------
  // Child naming

  /** Appending the same suffix to two strings keeps them apart. */
  lemma {:induction false} SuffixCancels(a: string, b: string, suffix: string)
    requires a + suffix == b + suffix
    ensures a == b
  {
    assert |a| == |b|;
    assert a == (a + suffix)[..|a|];
    assert b == (b + suffix)[..|b|];
  }

  /** Distinct parents never share a pod key or a config map key: reconciliations of different keys address disjoint children. */
  lemma ChildKeysInjective(p: NamespacedName, q: NamespacedName)
    ensures PodKey(p) == PodKey(q) <==> p == q
    ensures ConfigMapKey(p) == ConfigMapKey(q) <==> p == q
  {
    if PodKey(p) == PodKey(q) {
      SuffixCancels(p.name, q.name, PodSuffix);
    }
    if ConfigMapKey(p) == ConfigMapKey(q) {
      SuffixCancels(p.name, q.name, ConfigSuffix);
    }
  }

  /** The pod's credential variables carry exactly the config map's credential entries. */
  lemma PodEnvMirrorsConfigMap(instance: SampleOperator, data: map<string, string>)
    ensures var pod := NewPodForCR(instance, data);
            var cm := NewConfigMapForCr(instance, data);
            && EnvValue(pod.spec.containers[0].env, UserEnvName) == Some(Lookup(cm.data, UsernameKey))
            && EnvValue(pod.spec.containers[0].env, PasswordEnvName) == Some(Lookup(cm.data, PasswordKey))
  {
  }

  /** The builders only look at the parent's name and namespace: spec, status and uid do not matter. */
  lemma BuildersIgnoreSpecAndStatus(p: SampleOperator, q: SampleOperator, data: map<string, string>)
    requires KeyOf(p.meta) == KeyOf(q.meta)
    ensures NewPodForCR(p, data) == NewPodForCR(q, data)
    ensures NewConfigMapForCr(p, data) == NewConfigMapForCr(q, data)
  {
  }

  // ---------------------------------------------------------------------------
  // ensureLatestPod

  /**
   * The pod step creates the owned pod only when the lookup says NotFound; an existing
   * pod is never touched; every failure is returned with nothing written.
   */
  lemma EnsureLatestPodCreatesOnlyWhenAbsent(c: Cluster, faults: Faults, scheme: Scheme,
                                             instance: SampleOperator, data: map<string, string>)
    ensures var (c', err) := EnsureLatestPodSpec(c, faults, scheme, instance, data);
            var key := PodKey(KeyOf(instance.meta));
            && c'.parents == c.parents && c'.configMaps == c.configMaps
            && (c'.pods == c.pods || (key !in c.pods && c'.pods == c.pods[key := OwnedPod(instance, data)]))
            && (c'.pods != c.pods <==>
                  key !in c.pods && PodKind !in scheme.linkFaults
                  && Op.GetPod !in faults && Op.CreatePod !in faults)
            && (err.Some? ==> c' == c)
            && (err == None <==>
                  PodKind !in scheme.linkFaults && Op.GetPod !in faults
                  && (key in c.pods || Op.CreatePod !in faults))
            && (PodKind in scheme.linkFaults ==> err == Some(Injected(scheme.linkFaults[PodKind])))
            && (PodKind !in scheme.linkFaults && Op.GetPod in faults ==> err == Some(Injected(faults[Op.GetPod])))
            && ((PodKind !in scheme.linkFaults && Op.GetPod !in faults && key !in c.pods && Op.CreatePod in faults) ==>
                  err == Some(Injected(faults[Op.CreatePod])))
            && (WellKeyed(c) ==> WellKeyed(c'))
  {
  }

  // ---------------------------------------------------------------------------
  // The config-map block of Reconcile

  /**
   * The config-map block creates the owned config map only when it is absent, never
   * modifies an existing one, and on success points the stored parent's status at
   * `<name>config`; each failure is returned, and a failing status write keeps the
   * config map it created.
   */
  lemma ReconcileConfigMapStep(c: Cluster, faults: Faults, scheme: Scheme,
                               instance: SampleOperator, data: map<string, string>)
    requires WellKeyed(c)
    ensures var (c', err) := ReconcileConfigMapSpec(c, faults, scheme, instance, data);
            var pk := KeyOf(instance.meta);
            var key := ConfigMapKey(pk);
            var fetched := ConfigMapKind !in scheme.linkFaults && Op.GetConfigMap !in faults
                           && (key in c.configMaps || Op.CreateConfigMap !in faults);
            && c'.pods == c.pods
            && WellKeyed(c')
            && (fetched ==> c'.configMaps == if key in c.configMaps then c.configMaps
                                             else c.configMaps[key := OwnedConfigMap(instance, data)])
            && (!fetched ==> c'.configMaps == c.configMaps)
            && (err == None <==> fetched && Op.UpdateParentStatus !in faults && pk in c.parents)
            && (err == None ==> c'.parents == c.parents[pk := WithStatus(c.parents[pk], key.name)])
            && (err != None ==> c'.parents == c.parents)
            && (ConfigMapKind in scheme.linkFaults ==> err == Some(Injected(scheme.linkFaults[ConfigMapKind])))
            && ((ConfigMapKind !in scheme.linkFaults && Op.GetConfigMap in faults) ==>
                  err == Some(Injected(faults[Op.GetConfigMap])))
            && ((ConfigMapKind !in scheme.linkFaults && Op.GetConfigMap !in faults
                 && key !in c.configMaps && Op.CreateConfigMap in faults) ==>
                  err == Some(Injected(faults[Op.CreateConfigMap])))
            && ((fetched && Op.UpdateParentStatus in faults) ==> err == Some(Injected(faults[Op.UpdateParentStatus])))
  {
    var pk := KeyOf(instance.meta);
    var key := ConfigMapKey(pk);
    var owned := OwnedConfigMap(instance, data);
    if ConfigMapKind in scheme.linkFaults || Op.GetConfigMap in faults {
    } else if key in c.configMaps {
      assert c.configMaps[key].meta.name == key.name;
      UpdateStatusKeepsWellKeyed(c, faults, WithStatus(instance, key.name));
      assert ReconcileConfigMapSpec(c, faults, scheme, instance, data)
          == UpdateStatusIn(c, faults, WithStatus(instance, key.name));
    } else if Op.CreateConfigMap in faults {
    } else {
      var c1 := c.(configMaps := c.configMaps[key := owned]);
      assert CreateConfigMapIn(c, faults, owned) == (c1, None);
      CreateConfigMapKeepsWellKeyed(c, faults, owned);
      UpdateStatusKeepsWellKeyed(c1, faults, WithStatus(instance, key.name));
      assert ReconcileConfigMapSpec(c, faults, scheme, instance, data)
          == UpdateStatusIn(c1, faults, WithStatus(instance, key.name));
    }
  }

  // ---------------------------------------------------------------------------
  // Reconcile

  /** A missing parent is success with nothing written; any other lookup failure is returned with nothing written. */
  lemma ReconcileParentLookup(c: Cluster, faults: Faults, scheme: Scheme, req: NamespacedName)
    ensures Op.GetParent !in faults && req !in c.parents ==> ReconcileSpec(c, faults, scheme, req) == (c, None)
    ensures Op.GetParent in faults
            ==> ReconcileSpec(c, faults, scheme, req) == (c, Some(Injected(faults[Op.GetParent])))
  {
  }

  /** A failing pod step ends the pass with its error, before the config map is looked at: nothing is written. */
  lemma ReconcileStopsAtPodFailure(c: Cluster, faults: Faults, scheme: Scheme, req: NamespacedName)
    requires Op.GetParent !in faults && req in c.parents
    requires EnsureLatestPodSpec(c, faults, scheme, c.parents[req], Credentials()).1.Some?
    ensures ReconcileSpec(c, faults, scheme, req) == (c, EnsureLatestPodSpec(c, faults, scheme, c.parents[req], Credentials()).1)
  {
    EnsureLatestPodCreatesOnlyWhenAbsent(c, faults, scheme, c.parents[req], Credentials());
  }

  /** A failing config-map owner link ends the pass with its error; the pod step's effect stays, nothing else is written. */
  lemma ReconcileStopsAtConfigMapLinkFailure(c: Cluster, faults: Faults, scheme: Scheme, req: NamespacedName)
    requires Op.GetParent !in faults && req in c.parents
    requires EnsureLatestPodSpec(c, faults, scheme, c.parents[req], Credentials()).1.None?
    requires ConfigMapKind in scheme.linkFaults
    ensures var (c', err) := ReconcileSpec(c, faults, scheme, req);
            && err == Some(Injected(scheme.linkFaults[ConfigMapKind]))
            && c' == EnsureLatestPodSpec(c, faults, scheme, c.parents[req], Credentials()).0
            && c'.configMaps == c.configMaps && c'.parents == c.parents
  {
    EnsureLatestPodCreatesOnlyWhenAbsent(c, faults, scheme, c.parents[req], Credentials());
  }

  /**
   * Whatever the outcome, a pass only ever adds the parent's own owned children where
   * they are absent: existing children are never modified, whatever the parent's spec,
   * and of the parents only the status of `req` may change.
   */
  lemma ReconcileCreatesOnlyMissingChildren(c: Cluster, faults: Faults, scheme: Scheme, req: NamespacedName)
    requires WellKeyed(c)
    ensures var c' := ReconcileSpec(c, faults, scheme, req).0;
            && WellKeyed(c')
            && (c'.pods == c.pods
                || (req in c.parents && PodKey(req) !in c.pods
                    && c'.pods == c.pods[PodKey(req) := OwnedPod(c.parents[req], Credentials())]))
            && (c'.configMaps == c.configMaps
                || (req in c.parents && ConfigMapKey(req) !in c.configMaps
                    && c'.configMaps == c.configMaps[ConfigMapKey(req) := OwnedConfigMap(c.parents[req], Credentials())]))
            && (c'.parents == c.parents
                || (req in c.parents && c'.parents == c.parents[req := WithStatus(c.parents[req], req.name + ConfigSuffix)]))
  {
    if Op.GetParent !in faults && req in c.parents {
      var instance := c.parents[req];
      EnsureLatestPodCreatesOnlyWhenAbsent(c, faults, scheme, instance, Credentials());
      var (c1, podErr) := EnsureLatestPodSpec(c, faults, scheme, instance, Credentials());
      if podErr.None? {
        ReconcileConfigMapStep(c1, faults, scheme, instance, Credentials());
      }
    }
  }

  /**
   * An existing pod is never updated, however the parent's spec has changed since it
   * was created; an existing config map is never updated by a pass either.
   */
  lemma ReconcileKeepsExistingChildren(c: Cluster, faults: Faults, scheme: Scheme, req: NamespacedName)
    requires WellKeyed(c)
    ensures var c' := ReconcileSpec(c, faults, scheme, req).0;
            && (PodKey(req) in c.pods ==> c'.pods == c.pods)
            && (ConfigMapKey(req) in c.configMaps ==> c'.configMaps == c.configMaps)
  {
    ReconcileCreatesOnlyMissingChildren(c, faults, scheme, req);
  }

  /**
   * A pass accepts whatever already sits under the children's keys: a pod or config
   * map that another controller (or nobody) owns keeps its controller reference, even
   * when the pass succeeds, so only children the reconciler created are owned by it.
   */
  lemma ReconcileAcceptsForeignChildren(c: Cluster, faults: Faults, scheme: Scheme, req: NamespacedName)
    requires WellKeyed(c)
    ensures var c' := ReconcileSpec(c, faults, scheme, req).0;
            && (PodKey(req) in c.pods ==>
                  c'.pods[PodKey(req)].meta.controllerRef == c.pods[PodKey(req)].meta.controllerRef)
            && (ConfigMapKey(req) in c.configMaps ==>
                  c'.configMaps[ConfigMapKey(req)].meta.controllerRef
                    == c.configMaps[ConfigMapKey(req)].meta.controllerRef)
  {
    ReconcileKeepsExistingChildren(c, faults, scheme, req);
  }

  /** The parent, pod and config map of any other key come out of a pass exactly as they went in. */
  lemma ReconcileLeavesOtherKeysAlone(c: Cluster, faults: Faults, scheme: Scheme, req: NamespacedName,
                                      other: NamespacedName)
    requires WellKeyed(c)
    requires other != req
    ensures var c' := ReconcileSpec(c, faults, scheme, req).0;
            && (other in c'.parents <==> other in c.parents)
            && (other in c.parents ==> c'.parents[other] == c.parents[other])
            && (PodKey(other) in c'.pods <==> PodKey(other) in c.pods)
            && (PodKey(other) in c.pods ==> c'.pods[PodKey(other)] == c.pods[PodKey(other)])
            && (ConfigMapKey(other) in c'.configMaps <==> ConfigMapKey(other) in c.configMaps)
            && (ConfigMapKey(other) in c.configMaps ==>
                  c'.configMaps[ConfigMapKey(other)] == c.configMaps[ConfigMapKey(other)])
  {
    ReconcileCreatesOnlyMissingChildren(c, faults, scheme, req);
    ChildKeysInjective(req, other);
  }

  /** A parent that is stored, both children that exist under its keys, and its status pointing at its config map. */
  ghost predicate Converged(c: Cluster, req: NamespacedName)
  {
    && req in c.parents
    && PodKey(req) in c.pods
    && ConfigMapKey(req) in c.configMaps
    && c.parents[req].status.sampleConfigMap == req.name + ConfigSuffix
  }

  /**
   * A successful pass over a stored parent leaves it converged: both children exist
   * (the ones it created owned by the parent), and the status names `<name>config`.
   */
  lemma ReconcileConverges(c: Cluster, faults: Faults, scheme: Scheme, req: NamespacedName)
    requires WellKeyed(c)
    requires req in c.parents
    requires ReconcileSpec(c, faults, scheme, req).1 == None
    ensures var c' := ReconcileSpec(c, faults, scheme, req).0;
            && Converged(c', req)
            && WellKeyed(c')
            && c'.parents == c.parents[req := WithStatus(c.parents[req], req.name + ConfigSuffix)]
            && (PodKey(req) !in c.pods ==>
                  c'.pods[PodKey(req)].meta.controllerRef == Some(ControllerRef(c.parents[req])))
            && (ConfigMapKey(req) !in c.configMaps ==>
                  c'.configMaps[ConfigMapKey(req)].meta.controllerRef == Some(ControllerRef(c.parents[req])))
  {
    var instance := c.parents[req];
    EnsureLatestPodCreatesOnlyWhenAbsent(c, faults, scheme, instance, Credentials());
    var (c1, podErr) := EnsureLatestPodSpec(c, faults, scheme, instance, Credentials());
    ReconcileConfigMapStep(c1, faults, scheme, instance, Credentials());
  }

  /** A second pass after a successful one writes nothing and succeeds again. */
  lemma ReconcileIdempotent(c: Cluster, faults: Faults, scheme: Scheme, req: NamespacedName)
    requires WellKeyed(c)
    requires ReconcileSpec(c, faults, scheme, req).1 == None
    ensures var c' := ReconcileSpec(c, faults, scheme, req).0;
            ReconcileSpec(c', faults, scheme, req) == (c', None)
  {
    if Op.GetParent !in faults && req in c.parents {
      var instance := c.parents[req];
      var data := Credentials();
      EnsureLatestPodCreatesOnlyWhenAbsent(c, faults, scheme, instance, data);
      var (c1, podErr) := EnsureLatestPodSpec(c, faults, scheme, instance, data);
      assert podErr == None;
      ReconcileConfigMapStep(c1, faults, scheme, instance, data);
      var c' := ReconcileSpec(c, faults, scheme, req).0;
      assert c' == ReconcileConfigMapSpec(c1, faults, scheme, instance, data).0;
      var again := c'.parents[req];
      assert again == WithStatus(instance, req.name + ConfigSuffix);
      EnsureLatestPodCreatesOnlyWhenAbsent(c', faults, scheme, again, data);
      assert EnsureLatestPodSpec(c', faults, scheme, again, data) == (c', None);
      assert KeyOf(again.meta) == req;
      ReconcileConfigMapStep(c', faults, scheme, again, data);
      assert WithStatus(again, req.name + ConfigSuffix) == again;
      assert c'.parents[req := again] == c'.parents;
      assert ReconcileConfigMapSpec(c', faults, scheme, again, data) == (c', None);
    }
  }

  /**
   * When only the status write fails, the pass returns that error and the children it
   * created stay; a later pass without the fault finds them and only writes the status.
   */
  lemma ReconcileDoesNotRollBack(c: Cluster, faults: Faults, scheme: Scheme, req: NamespacedName)
    requires WellKeyed(c)
    requires req in c.parents
    requires scheme.linkFaults == map[]
    requires Op.GetParent !in faults && Op.GetPod !in faults && Op.GetConfigMap !in faults
    requires Op.CreatePod !in faults && Op.CreateConfigMap !in faults
    requires Op.UpdateParentStatus in faults
    ensures var (c', err) := ReconcileSpec(c, faults, scheme, req);
            && err == Some(Injected(faults[Op.UpdateParentStatus]))
            && c'.parents == c.parents
            && PodKey(req) in c'.pods && ConfigMapKey(req) in c'.configMaps
            && var (c'', err') := ReconcileSpec(c', faults - {Op.UpdateParentStatus}, scheme, req);
               && err' == None
               && c''.pods == c'.pods && c''.configMaps == c'.configMaps
               && Converged(c'', req)
  {
    var instance := c.parents[req];
    EnsureLatestPodCreatesOnlyWhenAbsent(c, faults, scheme, instance, Credentials());
    var (c1, podErr) := EnsureLatestPodSpec(c, faults, scheme, instance, Credentials());
    ReconcileConfigMapStep(c1, faults, scheme, instance, Credentials());
    var (c', err) := ReconcileSpec(c, faults, scheme, req);
    var retry := faults - {Op.UpdateParentStatus};
    EnsureLatestPodCreatesOnlyWhenAbsent(c', retry, scheme, instance, Credentials());
    ReconcileConfigMapStep(c', retry, scheme, instance, Credentials());
  }

  // ---------------------------------------------------------------------------
  // ensureLatestConfigMap

  /**
   * The `user` value the helper compares against: the stored one when the config map
   * exists, and "" when it had to be created, because the code then compares against
   * the zero-valued object it never filled in.
   */
  function ObservedUser(c: Cluster, key: NamespacedName): string
  {
    if key in c.configMaps then Lookup(c.configMaps[key].data, UsernameKey) else ""
  }

  /**
   * Once the config map is fetched or created, the helper returns true exactly when the
   * observed `user` differs from the desired one and both the update and the status
   * write succeed. Without drift it returns false and writes nothing beyond the create.
   */
  lemma EnsureLatestConfigMapReportsDrift(c: Cluster, faults: Faults, scheme: Scheme,
                                          instance: SampleOperator, data: map<string, string>)
    requires WellKeyed(c)
    requires ConfigMapKind !in scheme.linkFaults && Op.GetConfigMap !in faults
    requires ConfigMapKey(KeyOf(instance.meta)) in c.configMaps || Op.CreateConfigMap !in faults
    ensures var o := EnsureLatestConfigMapSpec(c, faults, scheme, instance, data);
            var key := ConfigMapKey(KeyOf(instance.meta));
            var created := if key in c.configMaps then c
                           else c.(configMaps := c.configMaps[key := OwnedConfigMap(instance, data)]);
            var drift := ObservedUser(c, key) != Lookup(data, UsernameKey);
            && (o.updated <==> drift && Op.UpdateConfigMap !in faults && Op.UpdateParentStatus !in faults
                               && KeyOf(instance.meta) in c.parents)
            && (!drift ==> o == Convergence(created, instance, false, None))
            && (drift ==> (o.updated <==> o.err == None))
            && WellKeyed(o.cluster)
            && (o.updated ==>
                  && o.err == None
                  && o.cluster.configMaps == created.configMaps[key := OwnedConfigMap(instance, data)]
                  && o.instance == WithStatus(instance, if key in c.configMaps then key.name else "")
                  && o.cluster.parents == c.parents[KeyOf(instance.meta) := WithStatus(c.parents[KeyOf(instance.meta)], o.instance.status.sampleConfigMap)])
  {
  }

  /**
   * The helper's failures: an owner-link, lookup or create failure is returned with
   * nothing written; after drift, an update failure is returned with only the create
   * kept; a failing status write returns false, but the updated config map stays and
   * the caller's instance already names the fetched object.
   */
  lemma EnsureLatestConfigMapErrors(c: Cluster, faults: Faults, scheme: Scheme,
                                    instance: SampleOperator, data: map<string, string>)
    requires WellKeyed(c)
    ensures var o := EnsureLatestConfigMapSpec(c, faults, scheme, instance, data);
            var pk := KeyOf(instance.meta);
            var key := ConfigMapKey(pk);
            var linked := ConfigMapKind !in scheme.linkFaults;
            var fetched := linked && Op.GetConfigMap !in faults
                           && (key in c.configMaps || Op.CreateConfigMap !in faults);
            var created := if key in c.configMaps then c
                           else c.(configMaps := c.configMaps[key := OwnedConfigMap(instance, data)]);
            var drift := ObservedUser(c, key) != Lookup(data, UsernameKey);
            var updated := c.(configMaps := c.configMaps[key := OwnedConfigMap(instance, data)]);
            var named := WithStatus(instance, if key in c.configMaps then key.name else "");
            && (!linked ==>
                  o == Convergence(c, instance, false, Some(Injected(scheme.linkFaults[ConfigMapKind]))))
            && ((linked && Op.GetConfigMap in faults) ==>
                  o == Convergence(c, instance, false, Some(Injected(faults[Op.GetConfigMap]))))
            && ((linked && Op.GetConfigMap !in faults && key !in c.configMaps && Op.CreateConfigMap in faults) ==>
                  o == Convergence(c, instance, false, Some(Injected(faults[Op.CreateConfigMap]))))
            && ((fetched && drift && Op.UpdateConfigMap in faults) ==>
                  o == Convergence(created, instance, false, Some(Injected(faults[Op.UpdateConfigMap]))))
            && ((fetched && drift && Op.UpdateConfigMap !in faults && Op.UpdateParentStatus in faults) ==>
                  o == Convergence(updated, named, false, Some(Injected(faults[Op.UpdateParentStatus]))))
            && ((fetched && drift && Op.UpdateConfigMap !in faults && Op.UpdateParentStatus !in faults
                 && pk !in c.parents) ==>
                  o == Convergence(updated, named, false, Some(NotFound(pk))))
  {
    var key := ConfigMapKey(KeyOf(instance.meta));
    if key in c.configMaps {
      assert c.configMaps[key].meta.name == key.name;
    }
  }

  /**
   * The create path as written: a config map that did not exist is created, then
   * immediately updated, and the status is set to the empty name, with result true.
   */
  lemma EnsureLatestConfigMapCreatePath(c: Cluster, faults: Faults, scheme: Scheme,
                                        instance: SampleOperator, data: map<string, string>)
    requires ConfigMapKind !in scheme.linkFaults
    requires Op.GetConfigMap !in faults && Op.CreateConfigMap !in faults
    requires Op.UpdateConfigMap !in faults && Op.UpdateParentStatus !in faults
    requires ConfigMapKey(KeyOf(instance.meta)) !in c.configMaps
    requires KeyOf(instance.meta) in c.parents
    requires Lookup(data, UsernameKey) != ""
    ensures var o := EnsureLatestConfigMapSpec(c, faults, scheme, instance, data);
            && o.updated && o.err == None
            && o.instance.status.sampleConfigMap == ""
            && o.cluster.parents[KeyOf(instance.meta)].status.sampleConfigMap == ""
            && o.cluster.configMaps[ConfigMapKey(KeyOf(instance.meta))] == OwnedConfigMap(instance, data)
  {
  }

  /** Calling the helper again after a successful call finds no drift: it returns false and writes nothing. */
  lemma EnsureLatestConfigMapSettles(c: Cluster, faults: Faults, scheme: Scheme,
                                     instance: SampleOperator, data: map<string, string>)
    requires WellKeyed(c)
    requires EnsureLatestConfigMapSpec(c, faults, scheme, instance, data).err == None
    ensures var o := EnsureLatestConfigMapSpec(c, faults, scheme, instance, data);
            EnsureLatestConfigMapSpec(o.cluster, faults, scheme, o.instance, data)
              == Convergence(o.cluster, o.instance, false, None)
  {
    var o := EnsureLatestConfigMapSpec(c, faults, scheme, instance, data);
    EnsureLatestConfigMapReportsDrift(c, faults, scheme, instance, data);
    assert KeyOf(o.instance.meta) == KeyOf(instance.meta);
    var key := ConfigMapKey(KeyOf(instance.meta));
    assert key in o.cluster.configMaps;
    assert ObservedUser(o.cluster, key) == Lookup(data, UsernameKey);
    EnsureLatestConfigMapReportsDrift(o.cluster, faults, scheme, o.instance, data);
  }
}
