// The outcomes of the calls that leave the cell, as the code looks at them, and the record of
// the calls made. pulp-cell/idempotent_create.go decides what a lookup means.
module Docker {
  import opened Text

  // isDockerNotFound and isDockerNameConflict both read the error text: one error may be either,
  // both or neither.
  datatype DockerError = DockerError(notFound: bool, nameConflict: bool)

  datatype Result<+T> = Ok(value: T) | Err(error: DockerError)

  datatype Server = Server(
    id: string, name: string, status: string, ip: string, ports: map<string, int>, cpuLimit: real, memoryLimit: int)

  datatype PortSpec = PortSpec(host: int, container: int, protocol: string, name: string, range: string)

  datatype CreateRequest = CreateRequest(
    name: string, network: string, ip: string, environment: map<string, string>,
    ports: seq<PortSpec>, cpuLimit: real, memoryLimit: int, memorySwap: int)

  datatype Call =
    | Get(name: string)
    | GetOwned(name: string)
    | Hook(url: string)
    | CreateContainer(request: CreateRequest)
    | Destroy(id: string)

  // What the two lookups answer, should they be made. A reply may carry no server.
  datatype Lookup = Lookup(get: Result<Option<Server>>, owned: Result<Option<Server>>)

  datatype Resolved = Unclear | Absent | Present(server: Server)

  function TrimSlash(name: string): string {
    if name != "" && name[0] == '/' then name[1..] else name
  }

  predicate AsksOwned(l: Lookup) {
    l.get.Err? && l.get.error.notFound
  }

  // existingServerForRequestedID: a direct hit must bear the name, a scoped hit is taken as it is.
  function Resolve(serverID: string, l: Lookup): Resolved {
    match l.get
    case Err(e) =>
      if !e.notFound then Unclear
      else
        (match l.owned
         case Err(e2) => if e2.notFound then Absent else Unclear
         case Ok(None) => Unclear
         case Ok(Some(server)) => Present(server))
    case Ok(None) => Unclear
    case Ok(Some(server)) => if TrimSlash(server.name) != serverID then Unclear else Present(server)
  }

  lemma TrimSlashIff(name: string, serverID: string)
    ensures TrimSlash(name) == serverID <==> name == "/" + serverID || (name == serverID && !("/" <= name))
  {
  }

  // The three ways to a settled lookup: the ID's name, with or without one leading slash, found
  // directly; found in the scope; or missing in both.
  lemma ResolvesIff(serverID: string, l: Lookup, server: Server)
    ensures Resolve(serverID, l) == Present(server) <==>
            || (l.get == Ok(Some(server)) && (server.name == "/" + serverID || (server.name == serverID && !("/" <= server.name))))
            || (l.get.Err? && l.get.error.notFound && l.owned == Ok(Some(server)))
    ensures Resolve(serverID, l) == Absent <==>
            l.get.Err? && l.get.error.notFound && l.owned.Err? && l.owned.error.notFound
  {
    if l.get.Ok? && l.get.value.Some? {
      TrimSlashIff(l.get.value.value.name, serverID);
    }
  }

  function LookupCalls(serverID: string, l: Lookup): seq<Call> {
    if AsksOwned(l) then [Get(serverID), GetOwned(serverID)] else [Get(serverID)]
  }
}
