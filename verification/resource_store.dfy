/**
 * The resource store the reconciler talks to through its client: three keyed maps
 * (parents, pods, config maps) and a fault plan that makes chosen calls fail.
 * Each call's outcome is defined once, as a function on a `Cluster` value; the
 * `Store` class's methods are proved against those functions.
 */
module ResourceStore {

  import opened Wrappers
  import opened Meta
  import opened ApiV1
  import opened CoreV1

  /** The store calls the reconciler makes. */
  datatype Op =
    | GetParent | GetPod | GetConfigMap
    | CreatePod | CreateConfigMap
    | UpdateConfigMap | UpdateParentStatus

  /** A fault plan: every call of an operation in the domain fails with the given reason. */
  type Faults = map<Op, string>

  /** A snapshot of the three stores. */
  datatype Cluster = Cluster(
    parents: map<NamespacedName, SampleOperator>,
    pods: map<NamespacedName, Pod>,
    configMaps: map<NamespacedName, ConfigMap>)

  /** Every object is stored under its own namespace and name, as the API server keeps them. */
  ghost predicate WellKeyed(c: Cluster)
  {
    && ParentsKeyed(c.parents)
    && PodsKeyed(c.pods)
    && ConfigMapsKeyed(c.configMaps)
  }

  ghost predicate ParentsKeyed(m: map<NamespacedName, SampleOperator>)
  {
    forall k :: k in m ==> KeyOf(m[k].meta) == k
  }

  ghost predicate PodsKeyed(m: map<NamespacedName, Pod>)
  {
    forall k :: k in m ==> KeyOf(m[k].meta) == k
  }

  ghost predicate ConfigMapsKeyed(m: map<NamespacedName, ConfigMap>)
  {
    forall k :: k in m ==> KeyOf(m[k].meta) == k
  }

  /** `Get`: the stored object, NotFound when the key is absent, or the injected fault. */
  function Read<T>(m: map<NamespacedName, T>, faults: Faults, op: Op, key: NamespacedName): Result<T, Error>
  {
    if op in faults then Failure(Injected(faults[op]))
    else if key in m then Success(m[key])
    else Failure(NotFound(key))
  }

  /** `Create`: insert under a fresh key; AlreadyExists when the key is taken. */
  function Insert<T>(m: map<NamespacedName, T>, faults: Faults, op: Op, key: NamespacedName, obj: T)
    : (map<NamespacedName, T>, Option<Error>)
  {
    if op in faults then (m, Some(Injected(faults[op])))
    else if key in m then (m, Some(AlreadyExists(key)))
    else (m[key := obj], None)
  }

  function CreatePodIn(c: Cluster, faults: Faults, pod: Pod): (Cluster, Option<Error>)
  {
    var (pods, err) := Insert(c.pods, faults, Op.CreatePod, KeyOf(pod.meta), pod);
    (c.(pods := pods), err)
  }

  function CreateConfigMapIn(c: Cluster, faults: Faults, cm: ConfigMap): (Cluster, Option<Error>)
  {
    var (cms, err) := Insert(c.configMaps, faults, Op.CreateConfigMap, KeyOf(cm.meta), cm);
    (c.(configMaps := cms), err)
  }

  /** `Update`: replace an existing config map; NotFound when there is none. */
  function UpdateConfigMapIn(c: Cluster, faults: Faults, cm: ConfigMap): (Cluster, Option<Error>)
  {
    var key := KeyOf(cm.meta);
    if Op.UpdateConfigMap in faults then (c, Some(Injected(faults[Op.UpdateConfigMap])))
    else if key !in c.configMaps then (c, Some(NotFound(key)))
    else (c.(configMaps := c.configMaps[key := cm]), None)
  }

  /** `Status().Update`: only the status of the stored parent changes; its metadata and spec stay. */
  function UpdateStatusIn(c: Cluster, faults: Faults, parent: SampleOperator): (Cluster, Option<Error>)
  {
    var key := KeyOf(parent.meta);
    if Op.UpdateParentStatus in faults then (c, Some(Injected(faults[Op.UpdateParentStatus])))
    else if key !in c.parents then (c, Some(NotFound(key)))
    else (c.(parents := c.parents[key := c.parents[key].(status := parent.status)]), None)
  }

  /** Every store write keeps each object under its own key. */
  lemma CreatePodKeepsWellKeyed(c: Cluster, faults: Faults, pod: Pod)
    requires WellKeyed(c)
    ensures WellKeyed(CreatePodIn(c, faults, pod).0)
  {
  }

  lemma CreateConfigMapKeepsWellKeyed(c: Cluster, faults: Faults, cm: ConfigMap)
    requires WellKeyed(c)
    ensures WellKeyed(CreateConfigMapIn(c, faults, cm).0)
  {
  }

  lemma UpdateConfigMapKeepsWellKeyed(c: Cluster, faults: Faults, cm: ConfigMap)
    requires WellKeyed(c)
    ensures WellKeyed(UpdateConfigMapIn(c, faults, cm).0)
  {
  }

  lemma UpdateStatusKeepsWellKeyed(c: Cluster, faults: Faults, parent: SampleOperator)
    requires WellKeyed(c)
    ensures WellKeyed(UpdateStatusIn(c, faults, parent).0)
  {
  }

  class Store {
    var parents: map<NamespacedName, SampleOperator>
    var pods: map<NamespacedName, Pod>
    var configMaps: map<NamespacedName, ConfigMap>
    var faults: Faults

    ghost function State(): Cluster
      reads this
    {
      Cluster(parents, pods, configMaps)
    }

    ghost predicate Valid()
      reads this
    {
      WellKeyed(State())
    }

    constructor (initial: Cluster, faults: Faults)
      requires WellKeyed(initial)
      ensures Valid() && State() == initial && this.faults == faults
    {
      parents, pods, configMaps := initial.parents, initial.pods, initial.configMaps;
      this.faults := faults;
    }

    method GetParent(key: NamespacedName) returns (r: Result<SampleOperator, Error>)
      ensures r == Read(parents, faults, Op.GetParent, key)
    {
      if Op.GetParent in faults {
        r := Failure(Injected(faults[Op.GetParent]));
      } else if key in parents {
        r := Success(parents[key]);
      } else {
        r := Failure(NotFound(key));
      }
    }

    method GetPod(key: NamespacedName) returns (r: Result<Pod, Error>)
      ensures r == Read(pods, faults, Op.GetPod, key)
    {
      if Op.GetPod in faults {
        r := Failure(Injected(faults[Op.GetPod]));
      } else if key in pods {
        r := Success(pods[key]);
      } else {
        r := Failure(NotFound(key));
      }
    }

    method GetConfigMap(key: NamespacedName) returns (r: Result<ConfigMap, Error>)
      ensures r == Read(configMaps, faults, Op.GetConfigMap, key)
    {
      if Op.GetConfigMap in faults {
        r := Failure(Injected(faults[Op.GetConfigMap]));
      } else if key in configMaps {
        r := Success(configMaps[key]);
      } else {
        r := Failure(NotFound(key));
      }
    }

    method CreatePod(pod: Pod) returns (err: Option<Error>)
      requires Valid()
      modifies this
      ensures Valid() && faults == old(faults)
      ensures (State(), err) == CreatePodIn(old(State()), faults, pod)
    {
      var key := KeyOf(pod.meta);
      if Op.CreatePod in faults {
        err := Some(Injected(faults[Op.CreatePod]));
      } else if key in pods {
        err := Some(AlreadyExists(key));
      } else {
        pods := pods[key := pod];
        err := None;
      }
    }

    method CreateConfigMap(cm: ConfigMap) returns (err: Option<Error>)
      requires Valid()
      modifies this
      ensures Valid() && faults == old(faults)
      ensures (State(), err) == CreateConfigMapIn(old(State()), faults, cm)
    {
      var key := KeyOf(cm.meta);
      if Op.CreateConfigMap in faults {
        err := Some(Injected(faults[Op.CreateConfigMap]));
      } else if key in configMaps {
        err := Some(AlreadyExists(key));
      } else {
        configMaps := configMaps[key := cm];
        err := None;
      }
    }

    method UpdateConfigMap(cm: ConfigMap) returns (err: Option<Error>)
      requires Valid()
      modifies this
      ensures Valid() && faults == old(faults)
      ensures (State(), err) == UpdateConfigMapIn(old(State()), faults, cm)
    {
      var key := KeyOf(cm.meta);
      if Op.UpdateConfigMap in faults {
        err := Some(Injected(faults[Op.UpdateConfigMap]));
      } else if key !in configMaps {
        err := Some(NotFound(key));
      } else {
        configMaps := configMaps[key := cm];
        err := None;
      }
    }

    method UpdateStatus(parent: SampleOperator) returns (err: Option<Error>)
      requires Valid()
      modifies this
      ensures Valid() && faults == old(faults)
      ensures (State(), err) == UpdateStatusIn(old(State()), faults, parent)
    {
      var key := KeyOf(parent.meta);
      if Op.UpdateParentStatus in faults {
        err := Some(Injected(faults[Op.UpdateParentStatus]));
      } else if key !in parents {
        err := Some(NotFound(key));
      } else {
        parents := parents[key := parents[key].(status := parent.status)];
        err := None;
      }
    }
  }
}
