/** The two child kinds: a config map and a pod with one container. */
module CoreV1 {

  import opened Wrappers
  import opened Meta

  datatype EnvVar = EnvVar(name: string, value: string)

  datatype Container = Container(name: string, image: string, env: seq<EnvVar>)

  datatype PodSpec = PodSpec(containers: seq<Container>)

  datatype Pod = Pod(meta: ObjectMeta, spec: PodSpec)

  datatype ConfigMap = ConfigMap(meta: ObjectMeta, data: map<string, string>)

  /** `&corev1.ConfigMap{}`: the zero-valued config map, with no name and no data. */
  const EmptyConfigMap := ConfigMap(ObjectMeta("", "", "", map[], None), map[])

  /** The value a container sees for environment variable `name`: the first entry with that name. */
  function EnvValue(env: seq<EnvVar>, name: string): Option<string>
  {
    if env == [] then None
    else if env[0].name == name then Some(env[0].value)
    else EnvValue(env[1..], name)
  }
}
