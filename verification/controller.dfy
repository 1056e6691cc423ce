/**
 * The SampleOperator reconciler: pure builders for the two children, the fallible
 * owner-link step, and the three store-mutating procedures `EnsureLatestPod`,
 * `EnsureLatestConfigMap` and `Reconcile`. Each procedure is a method of
 * `SampleOperatorReconciler` proved against a specification function of the same
 * name with the suffix `Spec`; the properties of those functions are proved in
 * module `ReconcileProperties`.
 */
module Controllers {

  import opened Wrappers
  import opened Meta
  import opened ApiV1
  import opened CoreV1
  import opened ResourceStore

  /** The credential field names. */
  const UsernameKey := "user"
  const PasswordKey := "password"

  const ConfigSuffix := "config"
  const PodSuffix := "-pod"
  const UserEnvName := "SAMPLE_SERVICE_USER"
  const PasswordEnvName := "SAMPLE_SERVICE_PASSWORD"
  const OwnerKind := "SampleOperator"

  /** The credentials every pass synthesises: two literal values, not read from anywhere. */
  function Credentials(): (data: map<string, string>)
    ensures data.Keys == {UsernameKey, PasswordKey}
    ensures Lookup(data, UsernameKey) == "sample-user" && Lookup(data, PasswordKey) == "sample-pwd"
  {
    map[UsernameKey := "sample-user", PasswordKey := "sample-pwd"]
  }

  /** Where the config map of the parent stored under `parent` lives. */
  function ConfigMapKey(parent: NamespacedName): NamespacedName
  {
    NamespacedName(parent.namespace, parent.name + ConfigSuffix)
  }

  /** Where the pod of the parent stored under `parent` lives. */
  function PodKey(parent: NamespacedName): NamespacedName
  {
    NamespacedName(parent.namespace, parent.name + PodSuffix)
  }

  /** The selection label both children carry. */
  function AppLabels(instance: SampleOperator): map<string, string>
  {
    map["app" := instance.meta.name]
  }

  /** The metadata both builders give a child: its name, the parent's namespace, the `app` label, no owner. */
  function ChildMeta(instance: SampleOperator, name: string): ObjectMeta
  {
    ObjectMeta(name, instance.meta.namespace, "", AppLabels(instance), None)
  }

  function NewConfigMapForCr(instance: SampleOperator, data: map<string, string>): (cm: ConfigMap)
    ensures KeyOf(cm.meta) == ConfigMapKey(KeyOf(instance.meta))
    ensures cm.meta.labels == map["app" := instance.meta.name] && cm.meta.controllerRef == None
    ensures cm.data == data
  {
    ConfigMap(ChildMeta(instance, instance.meta.name + ConfigSuffix), data)
  }

  function NewPodForCR(instance: SampleOperator, data: map<string, string>): (pod: Pod)
    ensures KeyOf(pod.meta) == PodKey(KeyOf(instance.meta))
    ensures pod.meta.labels == map["app" := instance.meta.name] && pod.meta.controllerRef == None
    ensures |pod.spec.containers| == 1
    ensures EnvValue(pod.spec.containers[0].env, UserEnvName) == Some(Lookup(data, UsernameKey))
    ensures EnvValue(pod.spec.containers[0].env, PasswordEnvName) == Some(Lookup(data, PasswordKey))
  {
    var env := [EnvVar(UserEnvName, Lookup(data, UsernameKey)), EnvVar(PasswordEnvName, Lookup(data, PasswordKey))];
    Pod(ChildMeta(instance, instance.meta.name + PodSuffix),
        PodSpec([Container("slides", "manueldewald/presentation", env)]))
  }

  /** The child kinds the owner-link step is applied to. */
  datatype ChildKind = PodKind | ConfigMapKind

  /**
   * The runtime scheme, reduced to what decides whether the owner-link step fails:
   * for each child kind in `linkFaults`, linking fails with that reason.
   */
  datatype Scheme = Scheme(linkFaults: map<ChildKind, string>)

  /** The controller reference a child of `owner` carries. */
  function ControllerRef(owner: SampleOperator): OwnerReference
  {
    OwnerReference(OwnerKind, owner.meta.name, owner.meta.uid)
  }

  /** `controllerutil.SetControllerReference`: record `owner` as the child's controller, or fail. */
  function SetControllerReference(owner: SampleOperator, meta: ObjectMeta, kind: ChildKind, scheme: Scheme)
    : (r: Result<ObjectMeta, Error>)
    ensures r.Failure? <==> kind in scheme.linkFaults
    ensures r.Failure? ==> r.error == Injected(scheme.linkFaults[kind])
    ensures r.Success? ==> r.value.controllerRef == Some(ControllerRef(owner))
    ensures r.Success? ==> r.value.(controllerRef := meta.controllerRef) == meta
  {
    if kind in scheme.linkFaults then Failure(Injected(scheme.linkFaults[kind]))
    else Success(meta.(controllerRef := Some(ControllerRef(owner))))
  }

  /** The pod the reconciler creates for `instance`: the built pod with its owner linked. */
  function OwnedPod(instance: SampleOperator, data: map<string, string>): Pod
  {
    var pod := NewPodForCR(instance, data);
    pod.(meta := pod.meta.(controllerRef := Some(ControllerRef(instance))))
  }

  /** The config map the reconciler creates for `instance`: the built config map with its owner linked. */
  function OwnedConfigMap(instance: SampleOperator, data: map<string, string>): ConfigMap
  {
    var cm := NewConfigMapForCr(instance, data);
    cm.(meta := cm.meta.(controllerRef := Some(ControllerRef(instance))))
  }

  /** `instance` with its status pointing at config map `name`. */
  function WithStatus(instance: SampleOperator, name: string): SampleOperator
  {
    instance.(status := instance.status.(sampleConfigMap := name))
  }

  // ---------------------------------------------------------------------------
  // Specification functions: the outcome of each procedure on a cluster snapshot.

  /** `ensureLatestPod`: create the owned pod when the lookup says NotFound, otherwise write nothing. */
  function EnsureLatestPodSpec(c: Cluster, faults: Faults, scheme: Scheme, instance: SampleOperator,
                               data: map<string, string>): (Cluster, Option<Error>)
  {
    var pod := NewPodForCR(instance, data);
    match SetControllerReference(instance, pod.meta, PodKind, scheme)
    case Failure(e) => (c, Some(e))
    case Success(meta) =>
      var owned := pod.(meta := meta);
      match Read(c.pods, faults, Op.GetPod, KeyOf(meta))
      case Failure(NotFound(_)) => CreatePodIn(c, faults, owned)
      case Failure(e) => (c, Some(e))
      case Success(_) => (c, None)
  }

  /** The result of `ensureLatestConfigMap`: the new cluster, the caller's instance as left, the flag and the error. */
  datatype Convergence = Convergence(cluster: Cluster, instance: SampleOperator, updated: bool, err: Option<Error>)

  /**
   * `ensureLatestConfigMap`: link, fetch or create, then compare the `user` entry of the
   * fetched object with the desired one. On the create path the fetched object is
   * the zero-valued `EmptyConfigMap`, exactly as the code leaves `foundMap`.
   */
  function EnsureLatestConfigMapSpec(c: Cluster, faults: Faults, scheme: Scheme, instance: SampleOperator,
                                     data: map<string, string>): Convergence
  {
    var cm := NewConfigMapForCr(instance, data);
    match SetControllerReference(instance, cm.meta, ConfigMapKind, scheme)
    case Failure(e) => Convergence(c, instance, false, Some(e))
    case Success(meta) =>
      var owned := cm.(meta := meta);
      match Read(c.configMaps, faults, Op.GetConfigMap, KeyOf(meta))
      case Failure(NotFound(_)) =>
        var (c1, err) := CreateConfigMapIn(c, faults, owned);
        if err.Some? then Convergence(c1, instance, false, err)
        else CompareAndUpdateSpec(c1, faults, instance, owned, EmptyConfigMap)
      case Failure(e) => Convergence(c, instance, false, Some(e))
      case Success(found) => CompareAndUpdateSpec(c, faults, instance, owned, found)
  }

  /** The drift check of `ensureLatestConfigMap`: on a different `user` entry, update the map, then the status. */
  function CompareAndUpdateSpec(c: Cluster, faults: Faults, instance: SampleOperator,
                                desired: ConfigMap, found: ConfigMap): Convergence
  {
    if Lookup(found.data, "user") == Lookup(desired.data, "user") then Convergence(c, instance, false, None)
    else
      var (c1, err) := UpdateConfigMapIn(c, faults, desired);
      if err.Some? then Convergence(c1, instance, false, err)
      else
        var after := WithStatus(instance, found.meta.name);
        var (c2, err2) := UpdateStatusIn(c1, faults, after);
        Convergence(c2, after, err2.None?, err2)
  }

  /** `Reconcile`: fetch the parent, converge the pod, then the config map and the status. */
  function ReconcileSpec(c: Cluster, faults: Faults, scheme: Scheme, req: NamespacedName): (Cluster, Option<Error>)
  {
    match Read(c.parents, faults, Op.GetParent, req)
    case Failure(NotFound(_)) => (c, None)
    case Failure(e) => (c, Some(e))
    case Success(instance) =>
      var (c1, podErr) := EnsureLatestPodSpec(c, faults, scheme, instance, Credentials());
      if podErr.Some? then (c1, podErr)
      else ReconcileConfigMapSpec(c1, faults, scheme, instance, Credentials())
  }

  /**
   * The config-map block of `Reconcile`: link, fetch or create (the created object then
   * counts as found), point the status at the found object's name and persist it.
   */
  function ReconcileConfigMapSpec(c: Cluster, faults: Faults, scheme: Scheme, instance: SampleOperator,
                                  data: map<string, string>): (Cluster, Option<Error>)
  {
    var cm := NewConfigMapForCr(instance, data);
    match SetControllerReference(instance, cm.meta, ConfigMapKind, scheme)
    case Failure(e) => (c, Some(e))
    case Success(meta) =>
      var owned := cm.(meta := meta);
      match Read(c.configMaps, faults, Op.GetConfigMap, KeyOf(meta))
      case Failure(NotFound(_)) =>
        var (c1, err) := CreateConfigMapIn(c, faults, owned);
        if err.Some? then (c1, err)
        else UpdateStatusIn(c1, faults, WithStatus(instance, owned.meta.name))
      case Failure(e) => (c, Some(e))
      case Success(found) => UpdateStatusIn(c, faults, WithStatus(instance, found.meta.name))
  }

  /** `ctrl.Result`: whether the caller should requeue the key. */
  datatype CtrlResult = CtrlResult(requeue: bool)

  class SampleOperatorReconciler {
    const client: Store
    const scheme: Scheme

    constructor (client: Store, scheme: Scheme)
      ensures this.client == client && this.scheme == scheme
    {
      this.client := client;
      this.scheme := scheme;
    }

    method Reconcile(req: NamespacedName) returns (res: CtrlResult, err: Option<Error>)
      requires client.Valid()
      modifies client
      ensures client.Valid() && client.faults == old(client.faults)
      ensures !res.requeue
      ensures (client.State(), err) == ReconcileSpec(old(client.State()), client.faults, scheme, req)
    {
      res := CtrlResult(false);
      var data := Credentials();

      var got := client.GetParent(req);
      if got.Failure? {
        if got.error.NotFound? {
          return res, None;
        }
        return res, Some(got.error);
      }
      var instance := got.value;

      err := EnsureLatestPod(instance, data);
      if err.Some? {
        return res, err;
      }

      var configMap := NewConfigMapForCr(instance, data);
      var link := SetControllerReference(instance, configMap.meta, ConfigMapKind, scheme);
      if link.Failure? {
        return res, Some(link.error);
      }
      configMap := configMap.(meta := link.value);
      var configMapFound;
      var found := client.GetConfigMap(KeyOf(configMap.meta));
      if found.Failure? && found.error.NotFound? {
        err := client.CreateConfigMap(configMap);
        if err.Some? {
          return res, err;
        }
        configMapFound := configMap;
      } else if found.Failure? {
        return res, Some(found.error);
      } else {
        configMapFound := found.value;
      }
      instance := WithStatus(instance, configMapFound.meta.name);
      err := client.UpdateStatus(instance);
      if err.Some? {
        return res, err;
      }
      return res, None;
    }

    method EnsureLatestConfigMap(instance: SampleOperator, data: map<string, string>)
      returns (updated: bool, err: Option<Error>, after: SampleOperator)
      requires client.Valid()
      modifies client
      ensures client.Valid() && client.faults == old(client.faults)
      ensures Convergence(client.State(), after, updated, err)
           == EnsureLatestConfigMapSpec(old(client.State()), client.faults, scheme, instance, data)
    {
      after := instance;
      var configMap := NewConfigMapForCr(instance, data);
      var link := SetControllerReference(instance, configMap.meta, ConfigMapKind, scheme);
      if link.Failure? {
        return false, Some(link.error), after;
      }
      configMap := configMap.(meta := link.value);
      var foundMap := EmptyConfigMap;
      var got := client.GetConfigMap(KeyOf(configMap.meta));
      if got.Failure? && got.error.NotFound? {
        err := client.CreateConfigMap(configMap);
        if err.Some? {
          return false, err, after;
        }
      } else if got.Failure? {
        return false, Some(got.error), after;
      } else {
        foundMap := got.value;
      }

      if Lookup(foundMap.data, "user") != Lookup(configMap.data, "user") {
        err := client.UpdateConfigMap(configMap);
        if err.Some? {
          return false, err, after;
        }
        after := WithStatus(after, foundMap.meta.name);
        err := client.UpdateStatus(after);
        if err.Some? {
          return false, err, after;
        }
        return true, None, after;
      }
      return false, None, after;
    }

    method EnsureLatestPod(instance: SampleOperator, data: map<string, string>) returns (err: Option<Error>)
      requires client.Valid()
      modifies client
      ensures client.Valid() && client.faults == old(client.faults)
      ensures (client.State(), err) == EnsureLatestPodSpec(old(client.State()), client.faults, scheme, instance, data)
    {
      var pod := NewPodForCR(instance, data);
      var link := SetControllerReference(instance, pod.meta, PodKind, scheme);
      if link.Failure? {
        return Some(link.error);
      }
      pod := pod.(meta := link.value);
      var found := client.GetPod(KeyOf(pod.meta));
      if found.Failure? && found.error.NotFound? {
        err := client.CreatePod(pod);
        if err.Some? {
          return err;
        }
        return None;
      } else if found.Failure? {
        return Some(found.error);
      }
      return None;
    }
  }
}
