// The host-authoritative session and round logic of src/core/Game.ts, as pure
// transitions over a View of the game's discrete state. Each handler of the
// game (network packets, clicks, wheel, keys, the frame update, the lobby and
// score-screen callbacks) is one function from the old View to the new one;
// packets the game sends are appended to an outbox.

module Session {
  import opened Common
  import opened Protocol
  import opened Players
  import Lobby
  import Build
  import Scoring

  /** A generated party-box slot's random position and yaw. */
  datatype Pose = Pose(pos: Vec3, rot: real)

  /**
   * What the game learns from outside its own logic: the random pose of each
   * party-box slot (Math.random), and the final flags of each remote player's
   * replica when a round is scored (physics on the host).
   */
  datatype Env = Env(slotPose: nat -> Pose, replicaResult: string -> Flags)

  /** A spawned party-box item: its item id and whether it is still shown. */
  datatype BoxItem = BoxItem(itemId: string, visible: bool)

  /** The host's pending score-screen callbacks. */
  datatype Dialog = NoDialog | ScoreDialog(entries: seq<ScoreEntry>) | WinDialog(winner: string)

  /**
   * The inputs of one frame: the keys of the bodies the local body touched in
   * this frame's physics step (one per collide event, in the order the world
   * reports them), the movement axes, jump key, ground test, and the height and
   * position of the local body.
   */
  datatype Frame = Frame(touched: seq<nat>, x: real, y: real, jump: bool, grounded: bool, height: real, pos: Vec3)

  datatype View = View(
    /** the keys of the loaded models */
    models: set<string>,
    /** this peer's network id ('' until assigned) */
    myId: string,
    isHost: bool,
    state: GameState,
    lobby: seq<PlayerInfo>,
    /**
     * lobby[0] is this peer's own PlayerInfo object (myPlayerInfo), shared with
     * the list since hosting, so writes to either show in both
     */
    ownEntry: bool,
    /** playersFinishedTurn */
    finished: set<string>,
    selected: Option<string>,
    rotation: int,
    height: int,
    gridPos: Vec3,
    /** the ghost object's position, when there is one */
    preview: Option<Vec3>,
    timer: real,
    boxItems: seq<BoxItem>,
    /** availableItems */
    available: set<int>,
    bodies: seq<Build.Body>,
    nextKey: nat,
    /** remote player id -> the key of its replica's body */
    replicas: map<string, nat>,
    dialog: Dialog,
    /** the local player's flags */
    local: Flags,
    outbox: seq<Envelope>)

  /** The key of the local player's body. */
  const LocalKey: nat := 3

  /** The level built at start-up: start platform, goal platform, goal trigger, local player. */
  const LevelBodies: seq<Build.Body> := [
    Build.Body(Some("ground"), None, Vec3(0.0, -1.0, 0.0), 0, 0),
    Build.Body(Some("ground"), None, Vec3(0.0, 1.0, 25.0), 0, 1),
    Build.Body(Some("goal"), None, Vec3(0.0, 3.0, 25.0), 0, 2),
    Build.Body(Some("player"), None, Vec3(0.0, 5.0, 0.0), 0, LocalKey)
  ]

  /** The game's fields as the constructor leaves them, before the first setState. */
  function Initial(models: set<string>): View
  {
    View(models, "", false, Unset, [], false, {}, None, 0, 0, Origin, None, 0.0, [], {},
         LevelBodies, 4, map[], NoDialog, Fresh, [])
  }

  /** A JavaScript-truthy selection: present and not the empty string. */
  predicate Truthy(s: Option<string>)
  {
    s.Some? && s.value != ""
  }

  function Send(v: View, e: Envelope): View
  {
    v.(outbox := v.outbox + [e])
  }

  // ---------------------------------------------------------------------------
  // Party box

  /** generatePartyBoxItems: n slots, all holding the wood block, at the given poses. */
  function Slots(n: nat, pose: nat -> Pose): (r: seq<Slot>)
    ensures |r| == n
  {
    if n == 0 then [] else Slots(n - 1, pose) + [Slot(Build.Wood, pose(n - 1).pos, pose(n - 1).rot)]
  }

  /** The items spawnPartyBoxItems creates: those whose model is loaded, in order. */
  function Spawned(items: seq<Slot>, models: set<string>): (r: seq<BoxItem>)
    ensures |r| <= |items|
  {
    if |items| == 0 then []
    else
      var last := items[|items| - 1];
      Spawned(items[..|items| - 1], models) + (if last.itemId in models then [BoxItem(last.itemId, true)] else [])
  }

  /** The slot indices spawnPartyBoxItems marks available: those whose model is loaded. */
  function SpawnedIndices(items: seq<Slot>, models: set<string>): set<int>
  {
    set i | 0 <= i < |items| && items[i].itemId in models
  }

  /** spawnPartyBoxItems: replace the box's items and the available set. */
  function SpawnBox(v: View, items: seq<Slot>): View
  {
    v.(boxItems := Spawned(items, v.models), available := SpawnedIndices(items, v.models))
  }

  // ---------------------------------------------------------------------------
  // Bodies

  /** placeObject: only the wood block has a shape, and only when its model is loaded. */
  function PlaceObject(v: View, itemId: string, pos: Vec3, turns: int): View
  {
    if itemId == Build.Wood && Build.Wood in v.models then
      v.(bodies := v.bodies + [Build.Body(Some("block"), Some("local"), pos, turns, v.nextKey)],
         nextKey := v.nextKey + 1)
    else v
  }

  /**
   * spawnRemotePlayer for player id: a kinematic replica body at the spawn
   * point. The previous replica body of the same player is removed first.
   */
  function SpawnReplica(v: View, id: string): View
  {
    var stale := if id in v.replicas then {v.replicas[id]} else {};
    v.(bodies := Build.RemoveKeys(v.bodies, stale) + [Build.Body(Some("player"), None, Vec3(0.0, 5.0, 0.0), 0, v.nextKey)],
       replicas := v.replicas[id := v.nextKey],
       nextKey := v.nextKey + 1)
  }

  /** spawnRemotePlayer exactly as written: the previous replica body stays in the world. */
  function SpawnReplicaAsWritten(v: View, id: string): View
  {
    v.(bodies := v.bodies + [Build.Body(Some("player"), None, Vec3(0.0, 5.0, 0.0), 0, v.nextKey)],
       replicas := v.replicas[id := v.nextKey],
       nextKey := v.nextKey + 1)
  }

  /** startGame's loop: a replica for every listed player other than this peer. */
  function SpawnAll(v: View, ps: seq<PlayerInfo>): View
  {
    if |ps| == 0 then v
    else
      var u := SpawnAll(v, ps[..|ps| - 1]);
      if ps[|ps| - 1].id != u.myId then SpawnReplica(u, ps[|ps| - 1].id) else u
  }

  /** handleSnapshot: a remote player's replica follows its snapshot; this peer's own is ignored. */
  function ApplySnapshot(v: View, d: SnapshotData): View
  {
    if d.id != v.myId && d.id in v.replicas then
      v.(bodies := Build.MoveBody(v.bodies, v.replicas[d.id], d.pos))
    else v
  }

  // ---------------------------------------------------------------------------
  // setState

  /** The round results: each replica's flags, and the local player's flags under this peer's id. */
  function Results(v: View, env: Env): map<string, Flags>
  {
    (map id | id in v.replicas :: env.replicaResult(id))[v.myId := v.local]
  }

  function EnterTitle(w: View): View
  {
    w.(lobby := Lobby.ZeroTotals(w.lobby),
       bodies := Build.RemoveKeys(Build.ClearLevel(w.bodies), w.replicas.Values),
       replicas := map[],
       local := Reset(w.local).(score := 0))
  }

  function EnterPick(w: View, env: Env): View
  {
    var r := w.(local := Reset(w.local), finished := {}, selected := None, rotation := 0);
    if r.isHost then
      var slots := Slots(|r.lobby| + 2, env.slotPose);
      Send(SpawnBox(r, slots), Broadcast(PartyBoxUpdate(slots)))
    else r
  }

  function EnterBuildView(w: View): View
  {
    if Truthy(w.selected) then w.(preview := if w.selected.value in w.models then Some(Origin) else None)
    else w
  }

  function EnterScore(w: View, env: Env): View
  {
    var (ps, entries) := Scoring.Calculate(w.lobby, Results(w, env));
    Send(w.(lobby := ps, dialog := ScoreDialog(entries)), Broadcast(ShowScore(entries)))
  }

  /** setState(s): nothing when already in s; otherwise the entry actions of s. */
  function Enter(v: View, s: GameState, env: Env): View
  {
    if v.state == s then v
    else
      var w := v.(state := s);
      var e :=
        match s
        case Title => EnterTitle(w)
        case Lobby => w.(bodies := Build.ClearLevel(w.bodies))
        case Pick => EnterPick(w, env)
        case BuildView => EnterBuildView(w)
        case BuildPlace => w.(height := 8)
        case Countdown => w.(timer := 3.0, finished := {})
        case Score => if w.isHost then EnterScore(w, env) else w
        case _ => w;
      if s != BuildView && s != BuildPlace then e.(preview := None) else e
  }

  /** The game right after start-up: the first setState, to Title. */
  function Start(models: set<string>, env: Env): View
  {
    Enter(Initial(models), Title, env)
  }

  /** startGame: spawn the replicas, then the pick phase. */
  function StartRound(v: View, env: Env): View
  {
    Enter(SpawnAll(v, v.lobby), Pick, env)
  }

  /** checkAllPlayersFinished: everyone listed has placed, so the countdown starts. */
  function CheckAllFinished(v: View, env: Env): (r: View)
    ensures |v.finished| < |v.lobby| ==> r == v
    ensures |v.finished| >= |v.lobby| ==> r.state == Countdown
    ensures |v.finished| >= |v.lobby| && v.state != Countdown ==>
      r == v.(state := Countdown, timer := 3.0, finished := {}, preview := None)
  {
    if |v.finished| >= |v.lobby| then Enter(v, Countdown, env) else v
  }

  // ---------------------------------------------------------------------------
  // Picks

  /** handleItemPicked: hide the item; if this peer picked it, select it and go to BuildView. */
  function HandleItemPicked(v: View, index: int, playerId: string, env: Env): View
  {
    var u := if 0 <= index < |v.boxItems| then v.(boxItems := v.boxItems[index := v.boxItems[index].(visible := false)]) else v;
    if playerId == u.myId && 0 <= index < |u.boxItems| && u.boxItems[index].itemId != "" then
      Enter(u.(selected := Some(u.boxItems[index].itemId)), BuildView, env)
    else u
  }

  /** processPickRequest at the host: only an available slot can be picked, and only once. */
  function ProcessPick(v: View, index: int, sender: string, env: Env): View
  {
    if index in v.available then
      HandleItemPicked(Send(v.(available := v.available - {index}), Broadcast(ItemPicked(index, sender))), index, sender, env)
    else v
  }

  // ---------------------------------------------------------------------------
  // Network handlers

  /** Where the receiver of EVENT_PLACE puts the block: the position in the payload. */
  function PlacedAt(pl: PlacePayload): Vec3
  {
    pl.pos
  }

  /**
   * The position the EVENT_PLACE handler builds as written: it reads z from the
   * packet rather than from its position, finds no such field, and the vector
   * constructor falls back to 0.
   */
  function PlacedAtAsWritten(pl: PlacePayload): Vec3
  {
    Vec3(pl.pos.x, pl.pos.y, 0.0)
  }

  /** `packet.p.rot || 0`. */
  function RotOrZero(rot: Option<int>): int
  {
    if rot.Some? then rot.value else 0
  }

  /** onPacketReceived for packet p from peer `sender`. */
  function OnPacket(v: View, p: Packet, sender: string, env: Env): View
  {
    match p
    case Join(nickname) =>
      if !v.isHost || Lobby.HasId(v.lobby, sender) then v
      else
        var ps := v.lobby + [Lobby.NewPlayer(sender, nickname)];
        v.(lobby := ps, outbox := v.outbox + [SendTo(Welcome(ps, v.state), sender), Broadcast(LobbyUpdate(ps))])
    case Welcome(ps, _) => Enter(v.(lobby := ps, ownEntry := false), Lobby, env)
    case LobbyUpdate(ps) => v.(lobby := ps, ownEntry := false)
    case CharacterSelect(c) =>
      if v.isHost && Lobby.HasId(v.lobby, sender) then
        var ps := Lobby.Select(v.lobby, sender, c);
        Send(v.(lobby := ps), Broadcast(LobbyUpdate(ps)))
      else v
    case StartGame => if v.isHost then v else StartRound(v, env)
    case Snapshot(d) =>
      var u := ApplySnapshot(v, d);
      if u.isHost then Send(u, Broadcast(p)) else u
    case EventPlace(pl) =>
      if pl.playerId == v.myId then v
      else
        var u := PlaceObject(v, pl.itemId, PlacedAt(pl), RotOrZero(pl.rot));
        var w := CheckAllFinished(u.(finished := u.finished + {pl.playerId}), env);
        if w.isHost then Send(w, Broadcast(p)) else w
    case PartyBoxUpdate(items) => SpawnBox(v, items)
    case PickItem(index) => if v.isHost then ProcessPick(v, index, sender, env) else v
    case ItemPicked(index, playerId) => HandleItemPicked(v, index, playerId, env)
    case PlayerFinishedRun(_) =>
      if !v.isHost || sender == v.myId then v
      else
        var u := v.(finished := v.finished + {sender});
        if |u.finished| >= |u.lobby| then Enter(u, Score, env) else u
    case ShowScore(_) => if v.isHost then v else Enter(v, Score, env)
    case Unhandled => v
  }

  /** onIdAssigned: the id is recorded, and on a host it also renames the shared entry lobby[0]. */
  function IdAssigned(v: View, id: string): View
  {
    if v.ownEntry && |v.lobby| > 0 then v.(myId := id, lobby := v.lobby[0 := v.lobby[0].(id := id)])
    else v.(myId := id)
  }

  // ---------------------------------------------------------------------------
  // Title and lobby screen callbacks

  /** The title screen's host button: this peer becomes host and the only player. */
  function HostGame(v: View, nickname: string, env: Env): View
  {
    if v.state != Title then v
    else Enter(v.(isHost := true, lobby := [PlayerInfo(v.myId, nickname, "", true, false, 0)], ownEntry := true), Lobby, env)
  }

  /** The title screen's join button, once the connection to the host is open: JOIN to the host. */
  function JoinGame(v: View, nickname: string, hostId: string): View
  {
    if v.state != Title then v
    else Send(v.(isHost := false), SendTo(Join(nickname), hostId))
  }

  /**
   * The host's own claim of a free character: written to its own PlayerInfo
   * (which is lobby[0] while the two are shared), then to the first entry
   * carrying its id.
   */
  function ClaimOwn(v: View, c: string): seq<PlayerInfo>
  {
    var l := if v.ownEntry && |v.lobby| > 0 then v.lobby[0 := v.lobby[0].(character := c)] else v.lobby;
    match Lobby.IndexOf(l, v.myId)
    case Some(i) => l[i := l[i].(character := c)]
    case None => l
  }

  /**
   * A character button on the lobby screen: the host claims it directly (and
   * says nothing when it is taken); a client asks the host.
   */
  function SelectCharacter(v: View, c: string): View
  {
    if v.state != Lobby then v
    else if v.isHost then
      if Lobby.IsTaken(v.lobby, c, v.myId) then v
      else
        var ps := ClaimOwn(v, c);
        Send(v.(lobby := ps), Broadcast(LobbyUpdate(ps)))
    else Send(v, Broadcast(CharacterSelect(c)))
  }

  /** The host's start button: only when every player has a character. */
  function RequestStart(v: View, env: Env): View
  {
    if v.state != Lobby || !v.isHost || !Lobby.AllReady(v.lobby) then v
    else StartRound(Send(v, Broadcast(StartGame)), env)
  }

  /** The host's score screen finished: show the winner, or start the next round. */
  function ScoreRevealed(v: View, env: Env): View
  {
    match v.dialog
    case ScoreDialog(entries) =>
      (match Scoring.FindWinner(entries)
       case Some(k) => v.(dialog := WinDialog(entries[k].nickname))
       case None => StartRound(Send(v.(dialog := NoDialog), Broadcast(StartGame)), env))
    case _ => v
  }

  /** The host dismissed the win screen: scores back to 0 and back to the lobby. */
  function WinDismissed(v: View, env: Env): View
  {
    match v.dialog
    case WinDialog(_) => Enter(v.(dialog := NoDialog, lobby := Lobby.ZeroTotals(v.lobby)), Lobby, env)
    case _ => v
  }

  // ---------------------------------------------------------------------------
  // Mouse and keyboard

  /** updateGhostPositionFromMouse, for the point `target` under the pointer on the build plane. */
  function GhostFollow(v: View, target: Vec3): View
  {
    var size := Build.ItemSize(if Truthy(v.selected) then v.selected.value else "", v.rotation);
    var g := Vec3(Build.SnapAxis(size.x, target.x), v.height as real + 0.5, Build.SnapAxis(size.z, target.z));
    v.(gridPos := g, preview := if v.preview.Some? && Truthy(v.selected) then Some(g) else v.preview)
  }

  function MouseMove(v: View, target: Vec3): View
  {
    if v.state == BuildPlace then GhostFollow(v, target) else v
  }

  function Wheel(v: View, deltaY: real): View
  {
    if v.state != BuildPlace then v
    else
      var h := Build.NextHeight(v.height, deltaY);
      var g := v.gridPos.(y := h as real + 0.5);
      v.(height := h, gridPos := g, preview := if v.preview.Some? && Truthy(v.selected) then Some(g) else v.preview)
  }

  /** keydown: Escape leaves placing for viewing; KeyQ turns the item a quarter turn while placing. */
  function KeyDown(v: View, key: string, code: string, target: Vec3, env: Env): View
  {
    if key == "Escape" then
      if v.state == BuildPlace then Enter(v, BuildView, env) else v
    else if code == "KeyQ" && v.state == BuildPlace then
      var u := v.(rotation := Build.NextRotation(v.rotation));
      if u.preview.Some? then GhostFollow(u, target) else u
    else v
  }

  /**
   * click: in Pick, ask for the party-box item under the pointer (`hit`, its
   * index); in BuildView, start placing; in BuildPlace, place the selected item
   * at the ghost when the spot is free (`overlap` is the physics overlap test).
   */
  function Click(v: View, hit: Option<int>, overlap: bool, env: Env): View
  {
    if v.state == Pick then PickClick(v, hit, env)
    else if v.state == BuildView then Enter(v, BuildPlace, env)
    else if v.state == BuildPlace then PlaceClick(v, overlap, env)
    else v
  }

  /** A click in Pick: the host takes the item directly, a client asks the host for it. */
  function PickClick(v: View, hit: Option<int>, env: Env): View
  {
    if hit.Some? && 0 <= hit.value < |v.boxItems| && v.boxItems[hit.value].itemId != "" then
      if v.isHost then ProcessPick(v, hit.value, v.myId, env)
      else Send(v, Broadcast(PickItem(hit.value)))
    else v
  }

  /** A click in BuildPlace: place at the preview, count this peer as finished, announce it, check the barrier. */
  function PlaceClick(v: View, overlap: bool, env: Env): View
  {
    if v.preview.Some? && Truthy(v.selected) && Build.IsValidPlacement(v.selected.value, overlap) then
      var item := v.selected.value;
      var pos := v.preview.value;
      var u := PlaceObject(v, item, pos, v.rotation);
      var w := Send(u.(finished := u.finished + {u.myId}),
                    Broadcast(EventPlace(PlacePayload(item, pos, Some(v.rotation), u.myId))));
      var x := CheckAllFinished(w, env);
      if x.state == BuildPlace then x.(preview := None) else x
    else v
  }

  // ---------------------------------------------------------------------------
  // The frame update

  /** The local player's part of a frame in Countdown or Run. */
  function LocalStep(a: View, f: Frame, env: Env): View
  {
    var c := if a.state == Run && a.myId in a.finished then a
             else a.(local := InputEffect(a.local, f.x, f.y, f.jump, f.grounded));
    if c.state == Run && c.myId !in c.finished then FinishCheck(c, f.height, env) else c
  }

  /** The finish check of a running local player: on death or at the goal it counts itself finished and says so. */
  function FinishCheck(c: View, height: real, env: Env): View
  {
    var (dead, fl) := DeathCheck(c.local, height);
    var d := c.(local := fl);
    if dead || fl.hasWon then
      var e := Send(d.(finished := d.finished + {d.myId}), Broadcast(PlayerFinishedRun(fl.hasWon)));
      if e.isHost && |e.finished| >= |e.lobby| then Enter(e, Score, env) else e
    else d
  }

  /** One frame off the countdown; at zero the run starts. */
  function CountdownStep(v: View, env: Env): View
  {
    var u := v.(timer := v.timer - FrameTime);
    if u.timer <= 0.0 then Enter(u, Run, env) else u
  }

  /**
   * One collide event of the local body: the player's listener on the touched
   * body's user data. Every body the game creates carries user data without a
   * collected flag, so the listener reads it as not collected.
   */
  function Touch(fl: Flags, bodies: seq<Build.Body>, k: nat): Flags
  {
    match Build.BodyWithKey(bodies, k)
    case None => fl
    case Some(b) => Collide(fl, b.tag, b.owner, false).0
  }

  /** The collide events of one physics step, in order, applied to the local player. */
  function Contacts(fl: Flags, bodies: seq<Build.Body>, touched: seq<nat>): Flags
  {
    if |touched| == 0 then fl
    else Touch(Contacts(fl, bodies, touched[..|touched| - 1]), bodies, touched[|touched| - 1])
  }

  /** Some contact of the step is with a goal body. */
  predicate GoalTouched(bodies: seq<Build.Body>, touched: seq<nat>)
  {
    exists i :: 0 <= i < |touched| && Build.BodyWithKey(bodies, touched[i]).Some?
                && Build.BodyWithKey(bodies, touched[i]).value.tag == Some("goal")
  }

  /**
   * update: the physics step's contacts on the local player, the countdown, the
   * local player's input and finish check, and the snapshot.
   */
  function Tick(v: View, f: Frame, env: Env): View
  {
    var t := v.(local := Contacts(v.local, v.bodies, f.touched));
    var a := if t.state == Countdown then CountdownStep(t, env) else t;
    var b := if a.state == Run || a.state == Countdown then LocalStep(a, f, env) else a;
    if (b.state == Run || b.state == Countdown) && b.myId != "" then
      Send(b, Broadcast(Snapshot(SnapshotData(b.myId, f.pos, "idle"))))
    else b
  }

  // ---------------------------------------------------------------------------
  // Everything that can happen to a running game

  /** One thing the game reacts to: a packet, a lifecycle callback, a UI action, or a frame. */
  datatype Event =
    | Received(packet: Packet, sender: string)
    | IdReceived(id: string)
    | HostPressed(nickname: string)
    | JoinPressed(nickname: string, hostId: string)
    | CharacterPressed(charId: string)
    | StartPressed
    | ScoreClosed
    | WinClosed
    | Clicked(hit: Option<int>, overlap: bool)
    | Wheeled(deltaY: real)
    | MouseMoved(target: Vec3)
    | KeyPressed(key: string, code: string, target: Vec3)
    | Ticked(frame: Frame)

  function Step(v: View, e: Event, env: Env): View
  {
    match e
    case Received(p, sender) => OnPacket(v, p, sender, env)
    case IdReceived(id) => IdAssigned(v, id)
    case HostPressed(nickname) => HostGame(v, nickname, env)
    case JoinPressed(nickname, hostId) => JoinGame(v, nickname, hostId)
    case CharacterPressed(c) => SelectCharacter(v, c)
    case StartPressed => RequestStart(v, env)
    case ScoreClosed => ScoreRevealed(v, env)
    case WinClosed => WinDismissed(v, env)
    case Clicked(hit, overlap) => Click(v, hit, overlap, env)
    case Wheeled(deltaY) => Wheel(v, deltaY)
    case MouseMoved(target) => MouseMove(v, target)
    case KeyPressed(key, code, target) => KeyDown(v, key, code, target, env)
    case Ticked(f) => Tick(v, f, env)
  }

  /** The game after a history of events, each with what the outside world supplied at that moment. */
  function Replay(v: View, steps: seq<(Event, Env)>): View
  {
    if |steps| == 0 then v
    else
      var last := steps[|steps| - 1];
      Step(Replay(v, steps[..|steps| - 1]), last.0, last.1)
  }
}
