/** A pod, as far as giving it a token and checking it for one goes. */
module Pods {
  import opened Options

  /** A token projected into a volume. kubelet mints it for this audience, at this path. */
  datatype Token = Token(path: string, audience: string, expirationSeconds: int)

  /** A field of the pod, copied into a file. */
  datatype Item = Item(path: string, fieldPath: string)

  /** One source of a projected volume. contents is whatever else one may project. */
  datatype Source = ServiceAccountToken(token: Token) | DownwardAPI(items: seq<Item>) | Other(contents: string)

  /** contents is whatever a volume holds besides what it projects. */
  datatype Volume = Volume(name: string, projected: Option<seq<Source>>, contents: string)

  datatype Mount = Mount(volume: string, path: string, readOnly: bool)

  datatype Variable = Variable(name: string, value: string)

  datatype Container = Container(mounts: seq<Mount>, env: seq<Variable>)

  datatype Phase = Pending | Running | Succeeded | Failed | Unknown

  datatype Pod = Pod(
    name: string,
    namespace: string,
    uid: string,
    resourceVersion: string,
    deleting: bool,
    serviceAccountName: string,
    phase: Phase,
    annotations: map<string, string>,
    volumes: seq<Volume>,
    initContainers: seq<Container>,
    containers: seq<Container>)
}
