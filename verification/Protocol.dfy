/** The data that crosses the wire. Coordinates are reals; the quantised
    velocity and orientation components are integers. */
module Protocol {
  import opened Serial
  import opened Tracking

  datatype Option<+T> = None | Some(value: T)

  datatype Vec3 = Vec3(x: real, y: real, z: real) {
    function Plus(v: Vec3): Vec3 { Vec3(x + v.x, y + v.y, z + v.z) }

    function Minus(v: Vec3): Vec3 { Vec3(x - v.x, y - v.y, z - v.z) }

    function Scale(k: real): Vec3 { Vec3(x * k, y * k, z * k) }

    function LengthSquared(): real { x * x + y * y + z * z }

    function Lerp(v: Vec3, t: real): Vec3 { Plus(v.Minus(this).Scale(t)) }
  }

  const ORIGIN: Vec3 := Vec3(0.0, 0.0, 0.0)

  /** Entity ids are counted up from 1; they are unbounded here. */
  type EntityId = nat

  datatype EntityState = EntityState(
    entityId: EntityId,
    entityType: u8,
    position: Vec3,
    velocity: (int, int, int),
    orientation: (int, int, int, int),
    animationState: u8,
    animationFrame: u8,
    flags: u16)

  datatype WorldSnapshot = WorldSnapshot(
    tick: u32,
    serverTimeMs: nat,
    lastCommandAck: u32,
    baselineTick: u32,
    isDelta: bool,
    entities: seq<EntityState>,
    removedEntityIds: seq<EntityId>)

  datatype ClientCommand = ClientCommand(
    tick: u32,
    commandSequence: u32,
    moveDirection: (int, int, int),
    viewAngles: (int, int),
    inputFlags: u16)

  /** 64 random bits. */
  type Salt = s: seq<bool> | |s| == 64 witness seq(64, i => false)

  /** `a ^ b`. */
  function Xor(a: Salt, b: Salt): Salt { seq(64, i requires 0 <= i < 64 => a[i] != b[i]) }

  datatype PacketType =
    | ConnectionRequest(clientSalt: Salt)
    | ConnectionChallenge(serverSalt: Salt, challenge: Salt)
    | ChallengeResponse(combinedSalt: Salt)
    | ConnectionAccepted(clientId: nat, entityId: EntityId)
    | ConnectionDenied(reason: string)
    | Command(command: ClientCommand)
    | Snapshot(snapshot: WorldSnapshot)
    | Ping(timestamp: nat)
    | Pong(timestamp: nat)
    | SnapshotAck(receivedTick: u32)
    | Disconnect
    | LobbyMessage(lobbyId: nat)

  const CHANNEL_UNRELIABLE: u8 := 0
  const CHANNEL_RELIABLE: u8 := 1
  const CHANNEL_ORDERED: u8 := 2

  datatype PacketHeader = PacketHeader(sequence: u32, ack: u32, ackBitfield: Word32, channel: u8, channelSeq: u16)

  datatype Packet = Packet(header: PacketHeader, payload: PacketType)
}
