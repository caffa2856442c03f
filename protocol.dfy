// The wire vocabulary of the game (src/network/Protocol.ts) and the game's
// round states (the GameState enum of src/core/Game.ts), as values.

module Protocol {
  import opened Common

  /**
   * The round states. Unset is the sentinel -1 the game starts in, so that the
   * first transition to Title is not a no-op. GameOver exists in the enum but
   * nothing ever enters it.
   */
  datatype GameState = Unset | Title | Lobby | Pick | BuildView | BuildPlace | Countdown | Run | Score | GameOver

  /**
   * A lobby entry. totalScore is the property the game attaches to the entry
   * at run time; an entry that never had one reads as 0.
   */
  datatype PlayerInfo = PlayerInfo(
    id: string,
    nickname: string,
    character: string,
    isHost: bool,
    isReady: bool,
    totalScore: int)

  /** One line of the score screen. */
  datatype ScoreEntry = ScoreEntry(nickname: string, current: int, added: int)

  /** One party-box slot as the host generates and broadcasts it: item id, position, yaw. */
  datatype Slot = Slot(itemId: string, pos: Vec3, rot: real)

  /** The payload of EVENT_PLACE; rot may be missing (or 0), which reads as rotation 0. */
  datatype PlacePayload = PlacePayload(itemId: string, pos: Vec3, rot: Option<int>, playerId: string)

  /** The payload of SNAPSHOT; the orientation quaternion is not part of this model. */
  datatype SnapshotData = SnapshotData(id: string, pos: Vec3, anim: string)

  /** The packets the game handles, one constructor per PacketType it reacts to. */
  datatype Packet =
    | Join(nickname: string)
    | Welcome(players: seq<PlayerInfo>, state: GameState)
    | LobbyUpdate(lobby: seq<PlayerInfo>)
    | CharacterSelect(charId: string)
    | StartGame
    | Snapshot(snapshot: SnapshotData)
    | EventPlace(place: PlacePayload)
    | PartyBoxUpdate(items: seq<Slot>)
    | PickItem(index: int)
    | ItemPicked(index: int, playerId: string)
    | PlayerFinishedRun(won: bool)
    | ShowScore(scores: seq<ScoreEntry>)
      /** INPUT, EVENT_STATE and any unknown type: no handler. */
    | Unhandled

  /** NetworkManager.send(packet, target): no target means every open connection. */
  datatype Envelope = Envelope(packet: Packet, target: Option<string>)

  function Broadcast(p: Packet): (e: Envelope)
    ensures e.packet == p && e.target.None?
  {
    Envelope(p, None)
  }

  function SendTo(p: Packet, id: string): (e: Envelope)
    ensures e.packet == p && e.target == Some(id)
  {
    Envelope(p, Some(id))
  }

  /**
   * The peers NetworkManager.send hands an envelope to, given the peers whose
   * connections are open: a target id that is not empty gets it when its
   * connection is open; no target, or an empty one, means every open
   * connection.
   */
  function Recipients(e: Envelope, open: set<string>): set<string>
  {
    if e.target.Some? && e.target.value != "" then
      (if e.target.value in open then {e.target.value} else {})
    else open
  }

  /**
   * A broadcast reaches every open connection; a send to a peer reaches that
   * peer alone, and only while its connection is open; a send to the empty id
   * is a broadcast.
   */
  lemma DeliveryRules(p: Packet, id: string, open: set<string>)
    ensures Recipients(Broadcast(p), open) == open
    ensures id != "" ==> forall peer :: peer in Recipients(SendTo(p, id), open) <==> peer == id && id in open
    ensures Recipients(SendTo(p, ""), open) == open
  {
  }
}
