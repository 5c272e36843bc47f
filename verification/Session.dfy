/** Session state on the server: two inverse maps of connections, and which
    entity belongs to whom, across handshakes, kicks, disconnects and timeouts. */
module Session {
  import opened Serial
  import opened Protocol
  import opened Entities
  import opened World

  /** A socket address. */
  type Addr = nat

  type ClientId = nat

  datatype ConnectionState = Connecting | Connected

  /** What the server keeps about one connection, apart from its channels. */
  datatype Client = Client(
    addr: Addr,
    clientId: ClientId,
    state: ConnectionState,
    clientSalt: Salt,
    serverSalt: Salt,
    lastAckedTick: u32,
    lastReceiveTime: nat,
    entityId: Option<EntityId>)
  {
    function CombinedSalt(): Salt { Xor(clientSalt, serverSalt) }
  }

  datatype Connections = Connections(
    byAddr: map<Addr, ClientId>,
    clients: map<ClientId, Client>,
    nextClientId: ClientId,
    maxClients: nat)

  datatype Session = Session(connections: Connections, world: WorldState)

  function NewClient(addr: Addr, id: ClientId, clientSalt: Salt, serverSalt: Salt, now: nat): Client {
    Client(addr, id, Connecting, clientSalt, serverSalt, 0, now, None)
  }

  /** Finds the connection of an address or creates one; `None` when full. */
  function GetOrCreate(c: Connections, addr: Addr, clientSalt: Salt, serverSalt: Salt, now: nat): Option<Connections> {
    if addr in c.byAddr then Some(c)
    else if |c.clients| >= c.maxClients then None
    else
      var id := c.nextClientId;
      Some(c.(clients := c.clients[id := NewClient(addr, id, clientSalt, serverSalt, now)],
              byAddr := c.byAddr[addr := id],
              nextClientId := id + 1))
  }

  function Removed(c: Connections, id: ClientId): Connections {
    if id in c.clients then c.(clients := c.clients - {id}, byAddr := c.byAddr - {c.clients[id].addr}) else c
  }

  function RemovedByAddr(c: Connections, addr: Addr): Connections {
    if addr in c.byAddr then c.(byAddr := c.byAddr - {addr}, clients := c.clients - {c.byAddr[addr]}) else c
  }

  function RemovedAll(c: Connections, ids: seq<ClientId>): Connections {
    if ids == [] then c else Removed(RemovedAll(c, ids[..|ids| - 1]), ids[|ids| - 1])
  }

  function ClientAt(c: Connections, addr: Addr): Option<Client> {
    if addr in c.byAddr && c.byAddr[addr] in c.clients then Some(c.clients[c.byAddr[addr]]) else None
  }

  // -------------------------------------------------------------------- steps

  datatype Step =
    | Request(addr: Addr, clientSalt: Salt, serverSalt: Salt, now: nat)
    | Respond(addr: Addr, combinedSalt: Salt)
    | Ack(addr: Addr, tick: u32)
    | Touch(addr: Addr, now: nat)
    | Kick(id: ClientId)
    | Leave(addr: Addr)
    | TimeOut(ids: seq<ClientId>)
    | Play(world: WorldState)

  function DespawnOwned(w: WorldState, client: Client): WorldState {
    if client.entityId.Some? then DespawnEntity(w, client.entityId.value) else w
  }

  /** The response comes from a known address and matches its challenge. */
  predicate ValidResponse(c: Connections, addr: Addr, combinedSalt: Salt) {
    ClientAt(c, addr).Some? && combinedSalt == ClientAt(c, addr).value.CombinedSalt()
  }

  function Update(c: Connections, client: Client): Connections {
    c.(clients := c.clients[client.clientId := client])
  }

  predicate Enabled(s: Session, step: Step) {
    // gameplay moves entities; only the handlers spawn and despawn them
    step.Play? ==> step.world.entities.Keys == s.world.entities.Keys && step.world.nextEntityId == s.world.nextEntityId
                   && (forall id :: id in step.world.entities ==>
                         step.world.entities[id].id == id
                         && step.world.entities[id].entityType == s.world.entities[id].entityType)
  }

  function NextConnections(s: Session, step: Step): Connections {
    var c := s.connections;
    match step
    case Request(addr, clientSalt, serverSalt, now) =>
      (match GetOrCreate(c, addr, clientSalt, serverSalt, now)
       case Some(created) => created
       case None => c)
    case Respond(addr, combinedSalt) =>
      if ValidResponse(c, addr, combinedSalt) then
        Update(c, ClientAt(c, addr).value.(state := Connected, entityId := Some(s.world.nextEntityId)))
      else c
    case Ack(addr, tick) =>
      var client := ClientAt(c, addr);
      if client.Some? && tick > client.value.lastAckedTick then Update(c, client.value.(lastAckedTick := tick)) else c
    case Touch(addr, now) =>
      var client := ClientAt(c, addr);
      if client.Some? then Update(c, client.value.(lastReceiveTime := now)) else c
    case Kick(id) => Removed(c, id)
    case Leave(addr) => RemovedByAddr(c, addr)
    case TimeOut(ids) => RemovedAll(c, ids)
    case Play(_) => c
  }

  /** A valid response spawns a player for the client; leaving or being kicked
      despawns it; a timeout does not. */
  function NextWorld(s: Session, step: Step): WorldState {
    match step
    case Respond(addr, combinedSalt) =>
      if ValidResponse(s.connections, addr, combinedSalt) then SpawnEntity(s.world, PLAYER, SPAWN_POINT) else s.world
    case Kick(id) =>
      if id in s.connections.clients then DespawnOwned(s.world, s.connections.clients[id]) else s.world
    case Leave(addr) =>
      var client := ClientAt(s.connections, addr);
      if client.Some? then DespawnOwned(s.world, client.value) else s.world
    case Play(w) => w
    case _ => s.world
  }

  const SPAWN_POINT: Vec3 := Vec3(0.0, 2.0, 0.0)

  function Next(s: Session, step: Step): Session {
    Session(NextConnections(s, step), NextWorld(s, step))
  }

  function Start(maxClients: nat, world: WorldState): Session {
    Session(Connections(map[], map[], 1, maxClients), world)
  }

  ghost predicate IsRun(states: seq<Session>, steps: seq<Step>, maxClients: nat, world: WorldState) {
    && |states| == |steps| + 1
    && states[0] == Start(maxClients, world)
    && forall i :: 0 <= i < |steps| ==> Enabled(states[i], steps[i]) && states[i + 1] == Next(states[i], steps[i])
  }

  // ---------------------------------------------------------------- invariant

  ghost predicate ConnectionsInv(c: Connections) {
    && (forall a :: a in c.byAddr ==> c.byAddr[a] in c.clients && c.clients[c.byAddr[a]].addr == a)
    && (forall id :: id in c.clients ==>
          && c.clients[id].clientId == id && id < c.nextClientId
          && c.clients[id].addr in c.byAddr && c.byAddr[c.clients[id].addr] == id)
    && |c.clients| <= c.maxClients
  }

  /** Connected exactly with an entity; entities live and not shared. */
  ghost predicate OwnershipInv(s: Session) {
    var clients := s.connections.clients;
    && (forall id :: id in clients ==> (clients[id].state == Connected <==> clients[id].entityId.Some?))
    && (forall id :: id in clients && clients[id].entityId.Some? ==> clients[id].entityId.value in s.world.entities)
    && (forall i, j | i in clients && j in clients && clients[i].entityId.Some? ::
          clients[i].entityId == clients[j].entityId ==> i == j)
  }

  ghost predicate Inv(s: Session) {
    ConnectionsInv(s.connections) && WellFormed(s.world) && OwnershipInv(s)
  }

  lemma CreateKeeps(c: Connections, addr: Addr, clientSalt: Salt, serverSalt: Salt, now: nat)
    requires ConnectionsInv(c)
    ensures var r := GetOrCreate(c, addr, clientSalt, serverSalt, now);
            && (r.None? <==> addr !in c.byAddr && |c.clients| >= c.maxClients)
            && (r.Some? ==> ConnectionsInv(r.value) && ClientAt(r.value, addr).Some?)
  {
    if addr !in c.byAddr && |c.clients| < c.maxClients {
      assert c.nextClientId !in c.clients;
    }
  }

  lemma RemovedKeeps(c: Connections, id: ClientId)
    requires ConnectionsInv(c)
    ensures ConnectionsInv(Removed(c, id))
    ensures Removed(c, id).clients == c.clients - {id}
    ensures forall a :: a in Removed(c, id).byAddr <==> a in c.byAddr && c.byAddr[a] != id
  {
    if id in c.clients {
      assert (c.clients - {id}).Keys == c.clients.Keys - {id};
    }
  }

  lemma RemovedByAddrKeeps(c: Connections, addr: Addr)
    requires ConnectionsInv(c)
    ensures RemovedByAddr(c, addr) == if addr in c.byAddr then Removed(c, c.byAddr[addr]) else c
    ensures ConnectionsInv(RemovedByAddr(c, addr))
  {
    if addr in c.byAddr { RemovedKeeps(c, c.byAddr[addr]); }
  }

  function IdSet(ids: seq<ClientId>): set<ClientId> { set id | id in ids }

  lemma {:induction false} RemovedAllClients(c: Connections, ids: seq<ClientId>)
    ensures RemovedAll(c, ids).clients == c.clients - IdSet(ids)
    ensures RemovedAll(c, ids).maxClients == c.maxClients
  {
    if ids == [] {
    } else {
      var front, last := ids[..|ids| - 1], ids[|ids| - 1];
      RemovedAllClients(c, front);
      assert ids == front + [last];
      assert IdSet(ids) == IdSet(front) + {last};
    }
  }

  lemma {:induction false} RemovedAllKeeps(c: Connections, ids: seq<ClientId>)
    requires ConnectionsInv(c)
    ensures ConnectionsInv(RemovedAll(c, ids))
  {
    if ids == [] {
    } else {
      var front := ids[..|ids| - 1];
      RemovedAllKeeps(c, front);
      RemovedKeeps(RemovedAll(c, front), ids[|ids| - 1]);
    }
  }

  lemma UpdateKeeps(c: Connections, client: Client)
    requires ConnectionsInv(c) && client.clientId in c.clients && client.addr == c.clients[client.clientId].addr
    ensures ConnectionsInv(Update(c, client))
  {
    assert Update(c, client).clients.Keys == c.clients.Keys;
    assert |Update(c, client).clients| == |Update(c, client).clients.Keys|;
  }

  /** A client of `s'` is a client of `s` with the same standing, or a new one. */
  predicate SameStanding(s: Session, s': Session, id: ClientId)
    requires id in s'.connections.clients
  {
    var client := s'.connections.clients[id];
    || (id in s.connections.clients && client.state == s.connections.clients[id].state
        && client.entityId == s.connections.clients[id].entityId)
    || (client.state == Connecting && client.entityId == None)
  }

  ghost predicate AllStand(s: Session, s': Session) {
    forall id :: id in s'.connections.clients ==> SameStanding(s, s', id)
  }

  /** No client loses its entity. */
  ghost predicate OwnersStay(s: Session, s': Session) {
    forall id :: id in s.connections.clients ==>
      id in s'.connections.clients && s'.connections.clients[id].entityId == s.connections.clients[id].entityId
  }

  lemma KeepOwnership(s: Session, s': Session)
    requires OwnershipInv(s) && AllStand(s, s')
    requires forall id :: id in s'.connections.clients && s'.connections.clients[id].entityId.Some? ==>
               s'.connections.clients[id].entityId.value in s'.world.entities
    ensures OwnershipInv(s')
  {
    var clients := s'.connections.clients;
    forall id | id in clients ensures clients[id].state == Connected <==> clients[id].entityId.Some? {
      assert SameStanding(s, s', id);
    }
    forall i, j | i in clients && j in clients && clients[i].entityId.Some?
                  && clients[i].entityId == clients[j].entityId
      ensures i == j
    {
      assert SameStanding(s, s', i) && SameStanding(s, s', j);
    }
  }

  lemma DespawnKeeps(s: Session, id: ClientId)
    requires Inv(s) && id in s.connections.clients
    ensures var s' := Session(Removed(s.connections, id), DespawnOwned(s.world, s.connections.clients[id]));
            Inv(s') && AllStand(s, s')
  {
    var s' := Session(Removed(s.connections, id), DespawnOwned(s.world, s.connections.clients[id]));
    RemovedKeeps(s.connections, id);
    forall other | other in s'.connections.clients
      ensures other in s.connections.clients && other != id
      ensures s'.connections.clients[other] == s.connections.clients[other]
    {
    }
    DespawnLeavesOthers(s, id);
    KeepOwnership(s, s');
  }

  lemma DespawnLeavesOthers(s: Session, id: ClientId)
    requires Inv(s) && id in s.connections.clients
    ensures WellFormed(DespawnOwned(s.world, s.connections.clients[id]))
    ensures forall other ::
              other in s.connections.clients && other != id && s.connections.clients[other].entityId.Some? ==>
              s.connections.clients[other].entityId.value in DespawnOwned(s.world, s.connections.clients[id]).entities
  {
  }

  lemma RequestKeeps(s: Session, step: Step)
    requires step.Request? && Inv(s)
    ensures Inv(Next(s, step)) && AllStand(s, Next(s, step)) && OwnersStay(s, Next(s, step))
  {
    var s' := Next(s, step);
    CreateKeeps(s.connections, step.addr, step.clientSalt, step.serverSalt, step.now);
    KeepOwnership(s, s');
  }

  /** Replacing a client by one with the same address and standing. */
  lemma RefreshKeeps(s: Session, client: Client)
    requires Inv(s) && client.clientId in s.connections.clients
    requires var before := s.connections.clients[client.clientId];
             client.addr == before.addr && client.state == before.state && client.entityId == before.entityId
    ensures var s' := s.(connections := Update(s.connections, client)); Inv(s') && AllStand(s, s') && OwnersStay(s, s')
  {
    var s' := s.(connections := Update(s.connections, client));
    UpdateKeeps(s.connections, client);
    KeepOwnership(s, s');
  }

  /** Removing connections and nothing else. */
  lemma ShrinkKeeps(s: Session, s': Session, gone: set<ClientId>)
    requires Inv(s) && ConnectionsInv(s'.connections) && s'.world == s.world
    requires s'.connections.clients == s.connections.clients - gone
    ensures Inv(s') && AllStand(s, s')
  {
    forall id | id in s'.connections.clients
      ensures id in s.connections.clients && s'.connections.clients[id] == s.connections.clients[id] {}
    KeepOwnership(s, s');
  }

  /** A client answers a challenge with its own salt combined with the server's; that
      is the right answer exactly if its own salt is the one it asked with. */
  lemma AnswerExactly(ownSalt: Salt, client: Client)
    ensures Xor(ownSalt, client.serverSalt) == client.CombinedSalt() <==> ownSalt == client.clientSalt
  {
    if ownSalt != client.clientSalt {
      var i :| 0 <= i < 64 && ownSalt[i] != client.clientSalt[i];
      assert Xor(ownSalt, client.serverSalt)[i] != client.CombinedSalt()[i];
    }
  }

  /** Combining twice with one salt gives back the other, and zero changes nothing. */
  lemma XorCancels(a: Salt, b: Salt)
    ensures Xor(Xor(a, b), b) == a && Xor(a, NoSalt()) == a && Xor(a, a) == NoSalt()
  {
  }

  lemma RequestIs(s: Session, addr: Addr, clientSalt: Salt, serverSalt: Salt, now: nat)
    ensures var r := GetOrCreate(s.connections, addr, clientSalt, serverSalt, now);
            && Next(s, Request(addr, clientSalt, serverSalt, now))
               == Session(if r.Some? then r.value else s.connections, s.world)
            && (r.None? <==> addr !in s.connections.byAddr && |s.connections.clients| >= s.connections.maxClients)
  {
  }

  lemma LeaveIs(s: Session, addr: Addr)
    ensures var client := ClientAt(s.connections, addr);
            Next(s, Leave(addr)) == Session(RemovedByAddr(s.connections, addr),
                                            if client.Some? then DespawnOwned(s.world, client.value) else s.world)
  {
  }

  lemma TimeOutIs(s: Session, ids: seq<ClientId>)
    ensures Next(s, TimeOut(ids)) == Session(RemovedAll(s.connections, ids), s.world)
  {
  }

  lemma TimeOutKeeps(s: Session, ids: seq<ClientId>)
    requires Inv(s)
    ensures Inv(Next(s, TimeOut(ids))) && AllStand(s, Next(s, TimeOut(ids)))
  {
    RemovedAllKeeps(s.connections, ids);
    RemovedAllClients(s.connections, ids);
    ShrinkKeeps(s, Session(RemovedAll(s.connections, ids), s.world), IdSet(ids));
  }

  lemma RespondKeeps(s: Session, addr: Addr, combinedSalt: Salt)
    requires Inv(s)
    ensures Inv(Next(s, Respond(addr, combinedSalt)))
  {
    if ValidResponse(s.connections, addr, combinedSalt) {
      var entity := s.world.nextEntityId;
      var client := ClientAt(s.connections, addr).value.(state := Connected, entityId := Some(entity));
      UpdateKeeps(s.connections, client);
      SpawnIsFresh(s.world, PLAYER, SPAWN_POINT);
      HandOverKeeps(s, client, Next(s, Respond(addr, combinedSalt)));
    }
  }

  /** Giving a client an entity that nobody has yet. */
  lemma HandOverKeeps(s: Session, client: Client, s': Session)
    requires OwnershipInv(s) && client.clientId in s.connections.clients
    requires client.state == Connected && client.entityId.Some? && client.entityId.value !in s.world.entities
    requires s'.connections == Update(s.connections, client)
    requires s'.world.entities.Keys == s.world.entities.Keys + {client.entityId.value}
    ensures OwnershipInv(s')
  {
    var before, after := s.connections.clients, s'.connections.clients;
    forall id | id in after && id != client.clientId ensures id in before && after[id] == before[id] {}
  }

  lemma PlayKeeps(s: Session, step: Step)
    requires step.Play? && Enabled(s, step) && Inv(s)
    ensures Inv(Next(s, step)) && AllStand(s, Next(s, step))
  {
    KeepOwnership(s, Next(s, step));
  }

  lemma NoteKeeps(s: Session, step: Step)
    requires (step.Ack? || step.Touch?) && Inv(s)
    ensures Inv(Next(s, step)) && AllStand(s, Next(s, step)) && OwnersStay(s, Next(s, step))
  {
    var client := ClientAt(s.connections, step.addr);
    if client.None? {
      assert Next(s, step) == s;
    } else if step.Touch? {
      RefreshKeeps(s, client.value.(lastReceiveTime := step.now));
    } else if step.tick > client.value.lastAckedTick {
      RefreshKeeps(s, client.value.(lastAckedTick := step.tick));
    } else {
      assert Next(s, step) == s;
    }
  }

  lemma DepartKeeps(s: Session, step: Step)
    requires (step.Kick? || step.Leave?) && Inv(s)
    ensures Inv(Next(s, step)) && AllStand(s, Next(s, step))
  {
    if step.Kick? {
      if step.id in s.connections.clients { DespawnKeeps(s, step.id); }
    } else {
      RemovedByAddrKeeps(s.connections, step.addr);
      if step.addr in s.connections.byAddr { DespawnKeeps(s, s.connections.byAddr[step.addr]); }
    }
  }

  lemma StepKeepsInv(s: Session, step: Step)
    requires Enabled(s, step) && Inv(s)
    ensures Inv(Next(s, step))
    ensures !step.Respond? ==> AllStand(s, Next(s, step))
  {
    match step
    case Request(_, _, _, _) => RequestKeeps(s, step);
    case Respond(addr, combinedSalt) => RespondKeeps(s, addr, combinedSalt);
    case Ack(_, _) => NoteKeeps(s, step);
    case Touch(_, _) => NoteKeeps(s, step);
    case Kick(_) => DepartKeeps(s, step);
    case Leave(_) => DepartKeeps(s, step);
    case TimeOut(ids) => TimeOutKeeps(s, ids);
    case Play(_) => PlayKeeps(s, step);
  }

  /** The session invariant. In every run the two maps are mutually inverse, the
      number of clients is bounded, a client is Connected exactly when it has an
      entity, and that entity is live and nobody else's. */
  lemma {:induction false} SessionInvariant(
    states: seq<Session>, steps: seq<Step>, maxClients: nat, world: WorldState, i: nat)
    requires IsRun(states, steps, maxClients, world) && WellFormed(world) && i <= |steps|
    ensures Inv(states[i]) && states[i].connections.maxClients == maxClients
  {
    if i == 0 {
      assert Inv(Start(maxClients, world));
    } else {
      SessionInvariant(states, steps, maxClients, world, i - 1);
      RunStepKeeps(states, steps, maxClients, world, i - 1);
    }
  }

  lemma RunStepKeeps(states: seq<Session>, steps: seq<Step>, maxClients: nat, world: WorldState, i: nat)
    requires IsRun(states, steps, maxClients, world) && i < |steps| && Inv(states[i])
    ensures Inv(states[i + 1]) && states[i + 1].connections.maxClients == states[i].connections.maxClients
  {
    assert Enabled(states[i], steps[i]) && states[i + 1] == Next(states[i], steps[i]);
    StepKeepsInv(states[i], steps[i]);
    StepKeepsLimit(states[i], steps[i]);
  }

  lemma StepKeepsLimit(s: Session, step: Step)
    ensures Next(s, step).connections.maxClients == s.connections.maxClients
  {
    if step.TimeOut? { RemovedAllClients(s.connections, step.ids); }
  }

  // ------------------------------------------------------------------ orphans

  ghost predicate Owned(s: Session, entity: EntityId) {
    exists id :: id in s.connections.clients && s.connections.clients[id].entityId == Some(entity)
  }

  /** Every player in the world belongs to a client. */
  ghost predicate NoOrphans(s: Session) {
    forall e :: e in s.world.entities && s.world.entities[e].entityType == PLAYER ==> Owned(s, e)
  }

  /** A step that abandons an entity: it times out a connected client, or a
      connected client answers the challenge once more. */
  predicate Abandons(s: Session, step: Step) {
    match step
    case TimeOut(ids) =>
      exists id :: id in ids && id in s.connections.clients && s.connections.clients[id].entityId.Some?
    case Respond(addr, combinedSalt) =>
      var client := ClientAt(s.connections, addr);
      client.Some? && combinedSalt == client.value.CombinedSalt() && client.value.entityId.Some?
    case _ => false
  }

  /** What clients own are players. */
  ghost predicate OwnsPlayers(s: Session) {
    forall id :: id in s.connections.clients && s.connections.clients[id].entityId.Some? ==>
      IsPlayer(s.world, s.connections.clients[id].entityId.value)
  }

  predicate IsPlayer(w: WorldState, e: EntityId) { e in w.entities && w.entities[e].entityType == PLAYER }

  lemma KeepPlayers(s: Session, s': Session)
    requires OwnsPlayers(s) && AllStand(s, s')
    requires forall e :: e in s'.world.entities && e in s.world.entities ==>
               s'.world.entities[e].entityType == s.world.entities[e].entityType
    requires forall id :: id in s'.connections.clients && s'.connections.clients[id].entityId.Some? ==>
               s'.connections.clients[id].entityId.value in s'.world.entities
    ensures OwnsPlayers(s')
  {
    forall id | id in s'.connections.clients && s'.connections.clients[id].entityId.Some?
      ensures IsPlayer(s'.world, s'.connections.clients[id].entityId.value)
    {
      assert SameStanding(s, s', id);
    }
  }

  lemma StepKeepsPlayers(s: Session, step: Step)
    requires Enabled(s, step) && Inv(s) && OwnsPlayers(s)
    ensures OwnsPlayers(Next(s, step))
  {
    if step.Respond? {
      RespondKeepsPlayers(s, step.addr, step.combinedSalt);
    } else {
      StepKeepsInv(s, step);
      TypesStay(s, step);
      KeepPlayers(s, Next(s, step));
    }
  }

  lemma TypesStay(s: Session, step: Step)
    requires Enabled(s, step) && !step.Respond?
    ensures forall e :: e in NextWorld(s, step).entities && e in s.world.entities ==>
              NextWorld(s, step).entities[e].entityType == s.world.entities[e].entityType
  {
  }

  lemma RespondKeepsPlayers(s: Session, addr: Addr, combinedSalt: Salt)
    requires Inv(s) && OwnsPlayers(s)
    ensures OwnsPlayers(Next(s, Respond(addr, combinedSalt)))
  {
    var s' := Next(s, Respond(addr, combinedSalt));
    forall id | id in s'.connections.clients && s'.connections.clients[id].entityId.Some?
      ensures IsPlayer(s'.world, s'.connections.clients[id].entityId.value)
    {
      if id in s.connections.clients && s'.connections.clients[id] == s.connections.clients[id] {
        assert IsPlayer(s.world, s.connections.clients[id].entityId.value);
      }
    }
  }

  /** Exactly these two steps leave a player behind that nobody owns. */
  lemma OrphansExactly(s: Session, step: Step)
    requires Enabled(s, step) && Inv(s) && OwnsPlayers(s) && NoOrphans(s)
    ensures NoOrphans(Next(s, step)) <==> !Abandons(s, step)
  {
    match step
    case TimeOut(ids) => TimeOutOrphans(s, ids);
    case Respond(addr, combinedSalt) => RespondOrphans(s, addr, combinedSalt);
    case Kick(id) => if id in s.connections.clients { RemoveOrphansNothing(s, id); }
    case Leave(addr) =>
      RemovedByAddrKeeps(s.connections, addr);
      if addr in s.connections.byAddr { RemoveOrphansNothing(s, s.connections.byAddr[addr]); }
    case _ => OthersKeepOwners(s, step);
  }

  lemma OthersKeepOwners(s: Session, step: Step)
    requires Enabled(s, step) && Inv(s) && NoOrphans(s)
    requires step.Request? || step.Ack? || step.Touch? || step.Play?
    ensures NoOrphans(Next(s, step))
  {
    var s' := Next(s, step);
    match step {
      case Request(_, _, _, _) => RequestKeeps(s, step);
      case Play(_) =>
      case _ => NoteKeeps(s, step);
    }
    forall e | e in s'.world.entities && s'.world.entities[e].entityType == PLAYER ensures Owned(s', e) {
      assert Owned(s, e);
      var id :| id in s.connections.clients && s.connections.clients[id].entityId == Some(e);
      assert id in s'.connections.clients && s'.connections.clients[id].entityId == Some(e);
    }
  }

  lemma RemoveOrphansNothing(s: Session, id: ClientId)
    requires Inv(s) && NoOrphans(s) && id in s.connections.clients
    ensures NoOrphans(Session(Removed(s.connections, id), DespawnOwned(s.world, s.connections.clients[id])))
  {
    var s' := Session(Removed(s.connections, id), DespawnOwned(s.world, s.connections.clients[id]));
    RemovedKeeps(s.connections, id);
    forall e | e in s'.world.entities && s'.world.entities[e].entityType == PLAYER ensures Owned(s', e) {
      assert Owned(s, e);
      var owner :| owner in s.connections.clients && s.connections.clients[owner].entityId == Some(e);
      assert owner != id && owner in s'.connections.clients;
    }
  }

  lemma TimeOutOrphans(s: Session, ids: seq<ClientId>)
    requires Inv(s) && OwnsPlayers(s) && NoOrphans(s)
    ensures NoOrphans(Next(s, TimeOut(ids))) <==> !Abandons(s, TimeOut(ids))
  {
    var s' := Next(s, TimeOut(ids));
    RemovedAllClients(s.connections, ids);
    if Abandons(s, TimeOut(ids)) {
      var id :| id in ids && id in s.connections.clients && s.connections.clients[id].entityId.Some?;
      var e := s.connections.clients[id].entityId.value;
      assert IsPlayer(s.world, e);
      forall owner | owner in s'.connections.clients ensures s'.connections.clients[owner].entityId != Some(e) {
        assert owner in s.connections.clients && owner != id;
      }
      assert !Owned(s', e);
    } else {
      forall e | e in s'.world.entities && s'.world.entities[e].entityType == PLAYER ensures Owned(s', e) {
        assert Owned(s, e);
        var owner :| owner in s.connections.clients && s.connections.clients[owner].entityId == Some(e);
        assert owner !in ids && owner in s'.connections.clients;
      }
    }
  }

  lemma RespondOrphans(s: Session, addr: Addr, combinedSalt: Salt)
    requires Inv(s) && OwnsPlayers(s) && NoOrphans(s)
    ensures NoOrphans(Next(s, Respond(addr, combinedSalt))) <==> !Abandons(s, Respond(addr, combinedSalt))
  {
    var s' := Next(s, Respond(addr, combinedSalt));
    var client := ClientAt(s.connections, addr);
    if client.Some? && combinedSalt == client.value.CombinedSalt() {
      var id, fresh' := client.value.clientId, s.world.nextEntityId;
      assert s'.connections.clients[id].entityId == Some(fresh');
      assert Owned(s', fresh');
      if client.value.entityId.Some? {
        var e := client.value.entityId.value;
        assert IsPlayer(s.world, e);
        forall owner | owner in s'.connections.clients ensures s'.connections.clients[owner].entityId != Some(e) {}
        assert !Owned(s', e);
      } else {
        forall e | e in s'.world.entities && s'.world.entities[e].entityType == PLAYER ensures Owned(s', e) {
          if e != fresh' {
            assert Owned(s, e);
            var owner :| owner in s.connections.clients && s.connections.clients[owner].entityId == Some(e);
            assert s'.connections.clients[owner].entityId == Some(e);
          }
        }
      }
    }
  }

  function NoSalt(): Salt { seq(64, i => false) }

  /** A client asks: its request creates connection 1. */
  function OneAsked(): Session { Next(Start(1, FreshWorld()), Request(7, NoSalt(), NoSalt(), 0)) }

  lemma OneAskedState()
    ensures var s := OneAsked();
            && Inv(s) && OwnsPlayers(s) && NoOrphans(s) && s.world == FreshWorld()
            && s.connections == Connections(map[7 := 1], map[1 := NewClient(7, 1, NoSalt(), NoSalt(), 0)], 2, 1)
  {
    StepKeepsInv(Start(1, FreshWorld()), Request(7, NoSalt(), NoSalt(), 0));
  }

  /** It answers: its response creates player 1. */
  function OneConnected(): Session { Next(OneAsked(), Respond(7, NoSalt())) }

  lemma OneConnectedState()
    ensures var s := OneConnected();
            && Inv(s) && OwnsPlayers(s) && NoOrphans(s)
            && s.connections.byAddr == map[7 := 1] && 1 in s.connections.clients
            && s.connections.clients[1] == Client(7, 1, Connected, NoSalt(), NoSalt(), 0, 0, Some(1))
  {
    OneAskedState();
    assert Xor(NoSalt(), NoSalt()) == NoSalt();
    StepKeepsInv(OneAsked(), Respond(7, NoSalt()));
    RespondKeepsPlayers(OneAsked(), 7, NoSalt());
    RespondOrphans(OneAsked(), 7, NoSalt());
  }

  /** Its timeout leaves the player behind. */
  lemma TimeOutOrphansPlayer()
    ensures !NoOrphans(Next(OneConnected(), TimeOut([1])))
  {
    OneConnectedState();
    assert 1 in [1];
    OrphansExactly(OneConnected(), TimeOut([1]));
  }

  /** So does a second copy of its response. */
  lemma SecondResponseOrphansPlayer()
    ensures !NoOrphans(Next(OneConnected(), Respond(7, NoSalt())))
  {
    OneConnectedState();
    OrphansExactly(OneConnected(), Respond(7, NoSalt()));
  }

  predicate Challenges(reply: PacketType, client: Option<Client>) {
    client.Some? && reply == ConnectionChallenge(client.value.serverSalt, client.value.CombinedSalt())
  }

  /** `ids` are the clients not heard from for longer than the timeout, each once. */
  ghost predicate ListsSilent(ids: seq<ClientId>, clients: map<ClientId, Client>, now: nat, timeout: nat) {
    && (forall id :: id in ids <==> id in clients && now - clients[id].lastReceiveTime > timeout)
    && (forall i, j :: 0 <= i < j < |ids| ==> ids[i] != ids[j])
  }

  /** The entity of a client, if it has one. */
  function OwnedBy(clients: map<ClientId, Client>, id: ClientId): set<EntityId> {
    if id in clients && clients[id].entityId.Some? then {clients[id].entityId.value} else {}
  }

  // ------------------------------------------------------------------ classes

  class ConnectionManager {
    var clientsByAddr: map<Addr, ClientId>
    var clients: map<ClientId, Client>
    var nextClientId: ClientId
    const maxClients: nat
    const timeout: nat

    ghost function Value(): Connections
      reads this
    {
      Connections(clientsByAddr, clients, nextClientId, maxClients)
    }

    constructor (maxClients: nat, timeout: nat)
      ensures Value() == Connections(map[], map[], 1, maxClients) && ConnectionsInv(Value())
      ensures this.timeout == timeout
    {
      clientsByAddr, clients, nextClientId := map[], map[], 1;
      this.maxClients, this.timeout := maxClients, timeout;
    }

    method GetOrCreatePending(addr: Addr, clientSalt: Salt, serverSalt: Salt, now: nat) returns (client: Option<Client>)
      requires ConnectionsInv(Value())
      modifies this
      ensures ConnectionsInv(Value())
      ensures match GetOrCreate(old(Value()), addr, clientSalt, serverSalt, now)
              case Some(c) => Value() == c && client == ClientAt(c, addr) && client.Some?
              case None => Value() == old(Value()) && client == None
      ensures addr in old(clientsByAddr) || |old(clients)| >= maxClients ==>
                clients == old(clients) && clientsByAddr == old(clientsByAddr)
      ensures addr !in old(clientsByAddr) && |old(clients)| < maxClients ==>
                var id := old(nextClientId);
                && clientsByAddr == old(clientsByAddr)[addr := id] && nextClientId == id + 1
                && clients == old(clients)[id := Client(addr, id, Connecting, clientSalt, serverSalt, 0, now, None)]
                && client == Some(Client(addr, id, Connecting, clientSalt, serverSalt, 0, now, None))
    {
      CreateKeeps(Value(), addr, clientSalt, serverSalt, now);
      if addr in clientsByAddr {
        return Some(clients[clientsByAddr[addr]]);
      }
      if |clients| >= maxClients {
        return None;
      }
      var id := nextClientId;
      nextClientId := nextClientId + 1;
      clients := clients[id := NewClient(addr, id, clientSalt, serverSalt, now)];
      clientsByAddr := clientsByAddr[addr := id];
      return Some(clients[id]);
    }

    method GetByAddr(addr: Addr) returns (client: Option<Client>)
      ensures client == ClientAt(Value(), addr)
    {
      if addr in clientsByAddr && clientsByAddr[addr] in clients {
        client := Some(clients[clientsByAddr[addr]]);
      } else {
        client := None;
      }
    }

    method Store(client: Client)
      modifies `clients
      ensures Value() == Update(old(Value()), client)
    {
      clients := clients[client.clientId := client];
    }

    method Remove(id: ClientId) returns (client: Option<Client>)
      modifies `clients, `clientsByAddr
      ensures Value() == Removed(old(Value()), id)
      ensures client == if id in old(clients) then Some(old(clients)[id]) else None
      ensures clients == old(clients) - {id}
    {
      if id in clients {
        client := Some(clients[id]);
        clientsByAddr := clientsByAddr - {clients[id].addr};
        clients := clients - {id};
      } else {
        client := None;
      }
    }

    method RemoveByAddr(addr: Addr) returns (client: Option<Client>)
      modifies `clients, `clientsByAddr
      ensures Value() == RemovedByAddr(old(Value()), addr)
      ensures client == old(ClientAt(Value(), addr))
    {
      client := GetByAddr(addr);
      if addr in clientsByAddr {
        var id := clientsByAddr[addr];
        clientsByAddr := clientsByAddr - {addr};
        clients := clients - {id};
      }
    }

    /** Removes every connection that has been silent too long; the ids come in
        the map's iteration order. */
    method CleanupTimedOut(now: nat) returns (ids: seq<ClientId>)
      requires ConnectionsInv(Value())
      modifies `clients, `clientsByAddr
      ensures ConnectionsInv(Value()) && Value() == RemovedAll(old(Value()), ids)
      ensures ListsSilent(ids, old(clients), now, timeout)
      ensures clients == old(clients) - IdSet(ids)
    {
      ids := ListTimedOut(now);
      for i := 0 to |ids|
        invariant Value() == RemovedAll(old(Value()), ids[..i])
      {
        assert ids[..i + 1][..i] == ids[..i];
        var _ := Remove(ids[i]);
      }
      assert ids[..|ids|] == ids;
      RemovedAllKeeps(old(Value()), ids);
      RemovedAllClients(old(Value()), ids);
    }

    method ListTimedOut(now: nat) returns (ids: seq<ClientId>)
      ensures ListsSilent(ids, clients, now, timeout)
    {
      ids := [];
      var left := clients.Keys;
      while left != {}
        invariant left <= clients.Keys
        invariant forall id :: id in ids <==>
                    id in clients && id !in left && now - clients[id].lastReceiveTime > timeout
        invariant forall i, j :: 0 <= i < j < |ids| ==> ids[i] != ids[j]
        decreases left
      {
        var id :| id in left;
        if now - clients[id].lastReceiveTime > timeout {
          ids := ids + [id];
        }
        left := left - {id};
      }
    }
  }

  class SessionServer {
    const connections: ConnectionManager
    const world: GameWorld

    ghost function Value(): Session
      reads this, connections, world
    {
      Session(connections.Value(), world.Value())
    }

    constructor (maxClients: nat, timeout: nat)
      ensures Value() == Start(maxClients, FreshWorld()) && Inv(Value())
      ensures connections.maxClients == maxClients && connections.timeout == timeout
      ensures fresh(connections) && fresh(world)
    {
      connections := new ConnectionManager(maxClients, timeout);
      world := new GameWorld();
    }

    method HandleConnectionRequest(addr: Addr, clientSalt: Salt, serverSalt: Salt, now: nat) returns (reply: PacketType)
      requires Inv(Value())
      modifies connections
      ensures Value() == Next(old(Value()), Request(addr, clientSalt, serverSalt, now)) && Inv(Value())
      ensures if addr !in old(connections.clientsByAddr) && |old(connections.clients)| >= connections.maxClients
              then reply == ConnectionDenied("Server full")
              else Challenges(reply, ClientAt(connections.Value(), addr))
      ensures addr !in old(connections.clientsByAddr) && |old(connections.clients)| < connections.maxClients ==>
                reply.ConnectionChallenge? && reply.serverSalt == serverSalt
    {
      ghost var before := Value();
      StepKeepsInv(before, Request(addr, clientSalt, serverSalt, now));
      RequestIs(before, addr, clientSalt, serverSalt, now);
      var client := connections.GetOrCreatePending(addr, clientSalt, serverSalt, now);
      if client.None? {
        return ConnectionDenied("Server full");
      }
      return ConnectionChallenge(client.value.serverSalt, client.value.CombinedSalt());
    }

    method HandleChallengeResponse(addr: Addr, combinedSalt: Salt) returns (reply: Option<PacketType>)
      requires Inv(Value())
      modifies connections, world
      ensures Value() == Next(old(Value()), Respond(addr, combinedSalt)) && Inv(Value())
      ensures match old(ClientAt(connections.Value(), addr))
              case Some(client) =>
                if combinedSalt == client.CombinedSalt() then
                  var entity := old(world.nextEntityId);
                  && reply == Some(ConnectionAccepted(client.clientId, entity))
                  && connections.clients == old(connections.clients)[client.clientId :=
                       client.(state := Connected, entityId := Some(entity))]
                  && entity in world.entities && world.entities.Keys == old(world.entities).Keys + {entity}
                  && world.entities[entity].entityType == PLAYER
                  && world.entities[entity].position == Vec3(0.0, 2.0, 0.0)
                else reply == None && Value() == old(Value())
              case None => reply == None && Value() == old(Value())
    {
      StepKeepsInv(Value(), Respond(addr, combinedSalt));
      var found := connections.GetByAddr(addr);
      if found.None? {
        return None;
      }
      var client := found.value;
      if combinedSalt != client.CombinedSalt() {
        return None;
      }
      var entityId := world.SpawnPlayer(SPAWN_POINT);
      connections.Store(client.(state := Connected, entityId := Some(entityId)));
      return Some(ConnectionAccepted(client.clientId, entityId));
    }

    method HandleSnapshotAck(addr: Addr, receivedTick: u32)
      requires Inv(Value())
      modifies connections
      ensures Value() == Next(old(Value()), Ack(addr, receivedTick)) && Inv(Value())
      ensures connections.clients.Keys == old(connections.clients).Keys
      ensures forall id :: id in connections.clients ==>
                var before := old(connections.clients)[id];
                connections.clients[id] == if before.addr == addr && receivedTick > before.lastAckedTick
                                           then before.(lastAckedTick := receivedTick) else before
    {
      StepKeepsInv(Value(), Ack(addr, receivedTick));
      var found := connections.GetByAddr(addr);
      if found.Some? && receivedTick > found.value.lastAckedTick {
        connections.Store(found.value.(lastAckedTick := receivedTick));
      }
    }

    method KickClient(id: ClientId)
      requires Inv(Value())
      modifies connections, world
      ensures Value() == Next(old(Value()), Kick(id)) && Inv(Value())
      ensures connections.clients == old(connections.clients) - {id}
      ensures world.entities == old(world.entities) - OwnedBy(old(connections.clients), id)
    {
      if id !in connections.clients {
        return;
      }
      DespawnKeeps(Value(), id);
      var client := connections.Remove(id);
      DespawnOf(client.value);
    }

    method DespawnOf(client: Client)
      modifies world
      ensures world.Value() == DespawnOwned(old(world.Value()), client)
      ensures world.entities == old(world.entities) - (if client.entityId.Some? then {client.entityId.value} else {})
    {
      if client.entityId.Some? {
        var _ := world.Despawn(client.entityId.value);
      }
    }

    method HandleDisconnect(addr: Addr)
      requires Inv(Value())
      modifies connections, world
      ensures Value() == Next(old(Value()), Leave(addr)) && Inv(Value())
      ensures addr !in old(connections.clientsByAddr) ==> Value() == old(Value())
      ensures addr in old(connections.clientsByAddr) ==>
                var id := old(connections.clientsByAddr)[addr];
                && connections.clients == old(connections.clients) - {id}
                && world.entities == old(world.entities) - OwnedBy(old(connections.clients), id)
    {
      ghost var before := Value();
      StepKeepsInv(before, Leave(addr));
      LeaveIs(before, addr);
      var client := connections.RemoveByAddr(addr);
      if client.Some? {
        DespawnOf(client.value);
      }
    }

    /** The tail of a server tick: silent connections go, their entities stay. */
    method DropSilent(now: nat) returns (ids: seq<ClientId>)
      requires Inv(Value())
      modifies connections
      ensures Value() == Next(old(Value()), TimeOut(ids)) && Inv(Value())
      ensures ListsSilent(ids, old(connections.clients), now, connections.timeout)
      ensures connections.clients == old(connections.clients) - IdSet(ids)
    {
      ghost var before := Value();
      ids := connections.CleanupTimedOut(now);
      TimeOutIs(before, ids);
      TimeOutKeeps(before, ids);
    }
  }
}
