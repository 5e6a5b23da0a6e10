/** The three kinds of configuration directory that are re-encrypted, each with its path
    under the IS home and the property whose value is re-encrypted. */
module ConfigPaths {
  import opened Wrappers

  const Repository: string := "repository"
  const Deployment: string := "deployment"
  const Server: string := "server"
  const Tenants: string := "tenants"
  const Userstores: string := "userstores"
  const EventPublishers: string := "eventpublishers"

  /** The property names searched for in the files; their text is not part of this model. */
  datatype Property = UserstoreProperty | PublisherProperty

  /** Super-tenant user stores, one tenant's user stores, or the event publishers. */
  datatype ConfigKind = SuperTenant | Tenant(tenant: string) | EventPublisher

  /** The path components below the IS home that hold the kind's configuration files. */
  function Paths(kind: ConfigKind): seq<string> {
    match kind
    case SuperTenant => [Repository, Deployment, Server, Userstores]
    case Tenant(t) => [Repository, Tenants, t, Userstores]
    case EventPublisher => [Repository, Deployment, Server, EventPublishers]
  }

  function PropertyOf(kind: ConfigKind): Property {
    if kind.EventPublisher? then PublisherProperty else UserstoreProperty
  }

  /** The kind whose configuration lives under `paths`, if any. */
  function KindOf(paths: seq<string>): Option<ConfigKind> {
    if paths == [Repository, Deployment, Server, Userstores] then Some(SuperTenant)
    else if paths == [Repository, Deployment, Server, EventPublishers] then Some(EventPublisher)
    else if |paths| == 4 && paths[0] == Repository && paths[1] == Tenants && paths[3] == Userstores then
      Some(Tenant(paths[2]))
    else None
  }

  /** Each kind's directory identifies the kind, so no two kinds, and no two tenants,
      share a configuration directory; and user-store directories, and only those, are
      searched for the user-store property. */
  lemma PathsIdentifyKind(kind: ConfigKind)
    ensures KindOf(Paths(kind)) == Some(kind)
    ensures PropertyOf(kind) == UserstoreProperty <==> Paths(kind)[3] == Userstores
  {
  }
}
