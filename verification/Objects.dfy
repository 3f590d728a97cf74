/** The parts of the cluster's objects that the operator reads or writes. */
module Objects {
  import opened Text

  datatype EnvSource =
    | Literal(value: string)
    | FieldRef(path: string)
    | SecretKeyRef(secret: string, key: string)
    | ConfigMapKeyRef(configMap: string, key: string)

  datatype EnvVar = EnvVar(name: string, source: EnvSource)

  datatype Container = Container(name: string, image: string, env: seq<EnvVar>, alwaysRestart: bool)

  datatype Volume = Volume(name: string, secretName: Option<string>)

  type Uid = nat

  datatype Key = Key(namespace: string, name: string)

  datatype Pod = Pod(
    namespace: string, name: string, generateName: string, uid: Uid,
    labels: map<string, string>, annotations: map<string, string>,
    initContainers: seq<Container>, containers: seq<Container>, volumes: seq<Volume>)

  function PodKey(p: Pod): Key {
    Key(p.namespace, p.name)
  }
}
