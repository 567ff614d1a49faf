// pulp-cell/recreate_core.go: a replacement is made first, then the old container is destroyed,
// and a receipt is kept under the idempotency key.
module Recreate {
  import opened Text
  import opened Tokens
  import opened Ips
  import opened Docker
  import opened Creation
  import Core = CreationCore

  // The immutable part of a request. Its digest is the hash of an encoding of it; hash and
  // encoding are taken to be injective, so a digest is the value itself.
  datatype Digest = Digest(version: int, key: string, receiptID: string, replacement: ServerRequest)

  // claim is what the caller's digest text is a digest of, if of anything.
  datatype Request = Request(version: int, key: string, receiptID: string, replacement: ServerRequest, claim: Option<Digest>)

  datatype Receipt = Receipt(version: int, key: string, receiptID: string, oldID: string, replacement: PublicServer)

  datatype Replay = Replay(digest: Digest, receipt: Receipt)

  // What a recreate core holds: the ledgers it shares with the create core, and its receipts.
  datatype State = State(ledger: Ledger, replays: map<string, Replay>)

  datatype RecreateReply = Refused(status: int) | Receipted(receipt: Receipt)

  datatype RecreateResult = RecreateResult(state: State, reply: RecreateReply, calls: seq<Call>)

  // What the outside answers to the create, and to the destroy that follows it.
  datatype Answers = Answers(create: Outcomes, destroy: Option<DockerError>)

  const VERSION := 1

  function DigestOf(req: Request): Digest {
    Digest(req.version, req.key, req.receiptID, req.replacement)
  }

  predicate WellFormed(oldID: string, req: Request) {
    && ValidIdentity(oldID)
    && req.version == VERSION
    && ValidToken(req.key) && ValidToken(req.receiptID)
    && ValidIdentity(req.replacement.serverID) && req.replacement.serverID != oldID
    && req.claim == Some(DigestOf(req))
  }

  function ReceiptFor(oldID: string, req: Request, server: PublicServer): Receipt {
    Receipt(VERSION, req.key, req.receiptID, oldID, server)
  }

  // Nothing new has to be done: the request is refused, or it is a replay.
  predicate Settles(s: State, oldID: string, req: Request) {
    !WellFormed(oldID, req) || req.key in s.replays
  }

  function SettledReply(s: State, oldID: string, req: Request): RecreateReply
    requires Settles(s, oldID, req)
  {
    if !WellFormed(oldID, req) then Refused(400)
    else if s.replays[req.key].digest != DigestOf(req) then Refused(409)
    else Receipted(s.replays[req.key].receipt)
  }

  ghost function Replacing(setup: Setup, s: State, req: Request, o: Answers): CreateResult
    requires s.ledger.ips.Valid()
  {
    CreateSpec(setup, s.ledger, req.replacement, "", "", o.create, None)
  }

  // From the destroy of the old container on.
  function Retirement(s: State, oldID: string, req: Request, server: PublicServer, destroy: Option<DockerError>,
                      freed: Option<string>): (State, RecreateReply)
  {
    if DestroyFails(destroy) then (s, Refused(500))
    else
      var receipt := ReceiptFor(oldID, req, server);
      (State(Retired(s.ledger, oldID, false, "", freed), s.replays[req.key := Replay(DigestOf(req), receipt)]), Receipted(receipt))
  }

  // Recreate; freed is the old container's address that the IP pool happens to give back.
  ghost function RecreateSpec(setup: Setup, s: State, oldID: string, req: Request, o: Answers, freed: Option<string>)
    : RecreateResult
    requires s.ledger.ips.Valid()
  {
    if Settles(s, oldID, req) then RecreateResult(s, SettledReply(s, oldID, req), [])
    else
      var made := Replacing(setup, s, req, o);
      var s1 := s.(ledger := made.ledger);
      if made.reply.Failed? then RecreateResult(s1, Refused(made.reply.status), made.calls)
      else
        var (s2, reply) := Retirement(s1, oldID, req, made.reply.server, o.destroy, freed);
        RecreateResult(s2, reply, made.calls + [Destroy(oldID)])
  }

  class RecreateCore {
    const create: Core.CreationCore
    var replays: map<string, Replay>

    constructor (create: Core.CreationCore)
      ensures this.create == create && replays == map[]
    {
      this.create, replays := create, map[];
    }

    ghost predicate Valid()
      reads create.portPools, create.portPools.fallback, create.portPools.pools.Values,
            create.ipp, create.ipp.start, create.ipp.end
    {
      create.Valid()
    }

    ghost function View(): State
      reads this, create.capacity, create.portPools, create.ipp, create.ipp.start, create.ipp.end
    {
      State(create.View(), replays)
    }

    method GiveUp(id: string) returns (freed: Option<string>)
      requires Valid()
      modifies create.capacity, create.ipp, create.portPools, create.portPools.fallback, create.portPools.pools.Values
      ensures Valid() && create.portPools.pools == old(create.portPools.pools)
      ensures Frees(old(create.ipp.View()), id, freed)
      ensures create.View() == Retired(old(create.View()), id, false, "", freed)
    {
      create.capacity.Release(id);
      freed := Core.GiveBack(id, create.portPools, create.ipp);
    }

    // Destroys the old container and, if that is done or was already so, gives its shares back.
    method RetireOld(oldContainerID: string, request: Request, server: PublicServer, destroy: Option<DockerError>)
      returns (reply: RecreateReply, freed: Option<string>)
      requires Valid()
      modifies this, create.capacity, create.ipp, create.portPools, create.portPools.fallback, create.portPools.pools.Values
      ensures Valid() && create.portPools.pools == old(create.portPools.pools)
      ensures !DestroyFails(destroy) ==> Frees(old(create.ipp.View()), oldContainerID, freed)
      ensures (View(), reply) == Retirement(old(View()), oldContainerID, request, server, destroy, freed)
    {
      freed := None;
      if DestroyFails(destroy) {
        return Refused(500), None;
      }
      freed := GiveUp(oldContainerID);
      var receipt := ReceiptFor(oldContainerID, request, server);
      replays := replays[request.key := Replay(DigestOf(request), receipt)];
      reply := Receipted(receipt);
    }

    // RetireOld, with the templates as they were.
    method RetireOldKeeping(oldContainerID: string, request: Request, server: PublicServer, destroy: Option<DockerError>,
                            setup: Setup)
      returns (reply: RecreateReply, freed: Option<string>)
      requires Valid() && create.Loaded() && setup == create.Settings()
      modifies this, create.capacity, create.ipp, create.portPools, create.portPools.fallback, create.portPools.pools.Values
      ensures Valid() && create.portPools.pools == old(create.portPools.pools)
      ensures create.Loaded() && create.Settings() == setup
      ensures (View(), reply) == Retirement(old(View()), oldContainerID, request, server, destroy, freed)
    {
      hide Retirement, RecreateCore.View, RecreateCore.Valid, Core.CreationCore.Settings, Core.CreationCore.Loaded;
      reply, freed := RetireOld(oldContainerID, request, server, destroy);
      create.SettingsKept();
    }

    method Recreate(oldContainerID: string, request: Request, o: Answers)
      returns (reply: RecreateReply, calls: seq<Call>, freed: Option<string>)
      requires Valid() && create.Loaded()
      modifies this, create.capacity, create.ipp, create.portPools, create.portPools.fallback, create.portPools.pools.Values
      ensures Valid() && fresh(create.portPools.pools.Values - old(create.portPools.pools.Values))
      ensures create.Loaded() && create.Settings() == old(create.Settings())
      ensures RecreateResult(View(), reply, calls) ==
              RecreateSpec(old(create.Settings()), old(View()), oldContainerID, request, o, freed)
    {
      hide CreateSpec, Retirement, Core.CreationCore.Settings, Core.CreationCore.Loaded;
      calls, freed := [], None;
      var setup := create.Settings();
      if !WellFormed(oldContainerID, request) {
        return Refused(400), calls, freed;
      }
      if request.key in replays {
        var replay := replays[request.key];
        if replay.digest != DigestOf(request) {
          return Refused(409), calls, freed;
        }
        return Receipted(replay.receipt), calls, freed;
      }
      var created;
      created, calls, freed := create.Create(request.replacement, o.create);
      if created.Failed? {
        return Refused(created.status), calls, freed;
      }
      reply, freed := RetireOldKeeping(oldContainerID, request, created.server, o.destroy, setup);
      calls := calls + [Destroy(oldContainerID)];
    }
  }
}
