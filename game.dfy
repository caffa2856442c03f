// The Game object of src/core/Game.ts: the fields its handlers update in place
// and the handlers themselves. Every method is proved to leave the game in the
// state the matching Session function prescribes, so the properties proved in
// SessionProps hold of these methods.

module GameCore {
  import opened Common
  import opened Protocol
  import opened Players
  import Rigging
  import Lobby
  import Build
  import Scoring
  import opened Session

  class Game {
    /** the keys of the loaded models */
    const models: set<string>
    /** the local player */
    const local: Player
    /** the network id, and whether this peer hosts */
    var myId: string
    var isHost: bool
    var state: GameState
    var lobbyPlayers: seq<PlayerInfo>
    /** whether lobbyPlayers[0] is this peer's own PlayerInfo object (true since hosting) */
    var ownEntry: bool
    var playersFinishedTurn: set<string>
    var selectedItem: Option<string>
    var buildRotation: int
    var buildHeight: int
    var buildGridPos: Vec3
    /** the ghost object's position, when there is a ghost */
    var preview: Option<Vec3>
    var countdownTimer: real
    var partyBoxItems: seq<BoxItem>
    var availableItems: set<int>
    /** the physics world's bodies */
    var bodies: seq<Build.Body>
    var nextKey: nat
    /** remote player id -> the key of its replica's body */
    var players: map<string, nat>
    var dialog: Dialog
    /** what NetworkManager.send has been given so far */
    var outbox: seq<Envelope>

    /** The game's state as the Session rules see it. */
    function V(): View
      reads this, local
    {
      View(models, myId, isHost, state, lobbyPlayers, ownEntry, playersFinishedTurn, selectedItem, buildRotation,
           buildHeight, buildGridPos, preview, countdownTimer, partyBoxItems, availableItems, bodies, nextKey,
           players, dialog, local.State(), outbox)
    }

    /** The constructor: the level's fixed bodies and the local player, then the title screen. */
    constructor(models: set<string>, rig: Rigging.CharacterRig, env: Env)
      ensures V() == Start(models, env)
    {
      this.models := models;
      local := new Player(rig);
      myId := "";
      isHost := false;
      state := Unset;
      lobbyPlayers := [];
      ownEntry := false;
      playersFinishedTurn := {};
      selectedItem := None;
      buildRotation := 0;
      buildHeight := 0;
      buildGridPos := Origin;
      preview := None;
      countdownTimer := 0.0;
      partyBoxItems := [];
      availableItems := {};
      bodies := LevelBodies;
      nextKey := 4;
      players := map[];
      dialog := NoDialog;
      outbox := [];
      new;
      SetState(Title, env);
    }

    // -------------------------------------------------------------------------
    // Loops over the level and the lobby

    /** clearLevel: remove every body clearLevel does not keep. */
    method ClearLevel()
      modifies this`bodies
      ensures V() == old(V()).(bodies := Build.ClearLevel(old(bodies)))
    {
      var all := bodies;
      var kept: seq<Build.Body> := [];
      for i := 0 to |all|
        invariant kept == Build.ClearLevel(all[..i])
      {
        assert all[..i + 1][..i] == all[..i];
        if Build.KeptByClear(all[i]) {
          kept := kept + [all[i]];
        }
      }
      assert all[..|all|] == all;
      bodies := kept;
    }

    /** Remove the bodies with the given keys (world.removeBody for each). */
    method RemoveBodies(keys: set<nat>)
      modifies this`bodies
      ensures V() == old(V()).(bodies := Build.RemoveKeys(old(bodies), keys))
    {
      var all := bodies;
      var kept: seq<Build.Body> := [];
      for i := 0 to |all|
        invariant kept == Build.RemoveKeys(all[..i], keys)
      {
        assert all[..i + 1][..i] == all[..i];
        if all[i].key !in keys {
          kept := kept + [all[i]];
        }
      }
      assert all[..|all|] == all;
      bodies := kept;
    }

    /** Every lobby entry's total back to 0, in place. */
    method ZeroTotals()
      modifies this`lobbyPlayers
      ensures V() == old(V()).(lobby := Lobby.ZeroTotals(old(lobbyPlayers)))
    {
      for i := 0 to |lobbyPlayers|
        invariant |lobbyPlayers| == |old(lobbyPlayers)|
        invariant forall k :: 0 <= k < i ==> lobbyPlayers[k] == old(lobbyPlayers)[k].(totalScore := 0)
        invariant forall k :: i <= k < |lobbyPlayers| ==> lobbyPlayers[k] == old(lobbyPlayers)[k]
      {
        lobbyPlayers := lobbyPlayers[i := lobbyPlayers[i].(totalScore := 0)];
      }
    }

    /**
     * calculateScores: add each present player's round points to its lobby
     * entry, in place, and collect the score lines.
     */
    method CalculateScores(results: map<string, Flags>) returns (entries: seq<ScoreEntry>)
      modifies this`lobbyPlayers
      ensures (lobbyPlayers, entries) == Scoring.Calculate(old(lobbyPlayers), results)
      ensures V() == old(V()).(lobby := lobbyPlayers)
    {
      ghost var before := lobbyPlayers;
      entries := [];
      for i := 0 to |lobbyPlayers|
        invariant |lobbyPlayers| == |before|
        invariant (lobbyPlayers[..i], entries) == Scoring.Calculate(before[..i], results)
        invariant lobbyPlayers[i..] == before[i..]
      {
        assert before[..i + 1][..i] == before[..i];
        var p := lobbyPlayers[i];
        assert p == before[i] by {
          assert lobbyPlayers[i..][0] == before[i..][0];
        }
        ghost var done := lobbyPlayers[..i];
        if p.id in results {
          var added := Scoring.RoundPoints(results[p.id]);
          lobbyPlayers := lobbyPlayers[i := p.(totalScore := p.totalScore + added)];
          entries := entries + [ScoreEntry(p.nickname, p.totalScore + added, added)];
        }
        assert lobbyPlayers[..i + 1] == done + [lobbyPlayers[i]];
        assert lobbyPlayers[i + 1..] == before[i..][1..];
      }
      assert lobbyPlayers[..|lobbyPlayers|] == lobbyPlayers;
      assert before[..|before|] == before;
    }

    // -------------------------------------------------------------------------
    // Party box

    /** spawnPartyBoxItems: show the slots whose model is loaded and make their indices available. */
    method SpawnPartyBoxItems(items: seq<Slot>)
      modifies this`partyBoxItems, this`availableItems
      ensures V() == SpawnBox(old(V()), items)
    {
      partyBoxItems := [];
      availableItems := {};
      for i := 0 to |items|
        invariant partyBoxItems == Spawned(items[..i], models)
        invariant availableItems == SpawnedIndices(items[..i], models)
      {
        assert items[..i + 1][..i] == items[..i];
        SpawnedIndicesStep(items, i, models);
        if items[i].itemId in models {
          partyBoxItems := partyBoxItems + [BoxItem(items[i].itemId, true)];
          availableItems := availableItems + {i};
        }
      }
      assert items[..|items|] == items;
    }

    /** generatePartyBoxItems: two more wood blocks than players, spawned here and sent to everyone. */
    method GeneratePartyBoxItems(env: Env)
      modifies this`partyBoxItems, this`availableItems, this`outbox
      ensures var slots := Slots(|old(lobbyPlayers)| + 2, env.slotPose);
        V() == Send(SpawnBox(old(V()), slots), Broadcast(PartyBoxUpdate(slots)))
    {
      var n := |lobbyPlayers| + 2;
      var slots: seq<Slot> := [];
      for i := 0 to n
        invariant slots == Slots(i, env.slotPose)
      {
        slots := slots + [Slot(Build.Wood, env.slotPose(i).pos, env.slotPose(i).rot)];
      }
      SpawnPartyBoxItems(slots);
      outbox := outbox + [Broadcast(PartyBoxUpdate(slots))];
    }

    // -------------------------------------------------------------------------
    // Players

    /** spawnRemotePlayer, with the player's previous replica body removed first. */
    method SpawnRemotePlayer(id: string)
      modifies this`bodies, this`players, this`nextKey
      ensures V() == SpawnReplica(old(V()), id)
    {
      var stale: set<nat> := if id in players then {players[id]} else {};
      RemoveBodies(stale);
      bodies := bodies + [Build.Body(Some("player"), None, Vec3(0.0, 5.0, 0.0), 0, nextKey)];
      players := players[id := nextKey];
      nextKey := nextKey + 1;
    }

    /** startGame: a replica for every other listed player, then the pick phase. */
    method StartGame(env: Env)
      modifies this, local
      ensures V() == StartRound(old(V()), env)
    {
      ghost var before := V();
      var ps := lobbyPlayers;
      for i := 0 to |ps|
        invariant V() == SpawnAll(before, ps[..i])
      {
        assert ps[..i + 1][..i] == ps[..i];
        if ps[i].id != myId {
          SpawnRemotePlayer(ps[i].id);
        }
      }
      assert ps[..|ps|] == ps;
      SetState(Pick, env);
    }

    // -------------------------------------------------------------------------
    // setState

    /** setState: nothing when already in s; otherwise s's entry actions. */
    method SetState(s: GameState, env: Env)
      modifies this, local
      ensures V() == Enter(old(V()), s, env)
    {
      if state == s {
        return;
      }
      match s
      case Title => GoTitle();
      case Lobby => GoLobby();
      case Pick => GoPick(env);
      case BuildView => GoBuildView();
      case BuildPlace => GoBuildPlace();
      case Countdown => GoCountdown();
      case Score => GoScore(env);
      case _ =>
        state := s;
        preview := None;
    }

    method GoTitle()
      requires state != Title
      modifies this, local
      ensures forall env :: V() == Enter(old(V()), Title, env)
    {
      state := Title;
      EnterTitleHere();
      preview := None;
    }

    method GoLobby()
      requires state != Lobby
      modifies this
      ensures forall env :: V() == Enter(old(V()), Lobby, env)
    {
      state := Lobby;
      ClearLevel();
      preview := None;
    }

    method GoPick(env: Env)
      requires state != Pick
      modifies this, local
      ensures V() == Enter(old(V()), Pick, env)
    {
      state := Pick;
      EnterPickHere(env);
      preview := None;
    }

    method GoBuildView()
      requires state != BuildView
      modifies this
      ensures forall env :: V() == Enter(old(V()), BuildView, env)
    {
      state := BuildView;
      if Truthy(selectedItem) {
        preview := if selectedItem.value in models then Some(Origin) else None;
      }
    }

    method GoBuildPlace()
      requires state != BuildPlace
      modifies this
      ensures forall env :: V() == Enter(old(V()), BuildPlace, env)
    {
      state := BuildPlace;
      buildHeight := 8;
    }

    method GoCountdown()
      requires state != Countdown
      modifies this
      ensures forall env :: V() == Enter(old(V()), Countdown, env)
    {
      ghost var w := V();
      state := Countdown;
      countdownTimer := 3.0;
      playersFinishedTurn := {};
      preview := None;
      assert V() == w.(state := Countdown, timer := 3.0, finished := {}, preview := None);
    }

    method GoScore(env: Env)
      requires state != Score
      modifies this
      ensures V() == Enter(old(V()), Score, env)
    {
      state := Score;
      if isHost {
        EnterScoreHere(env);
      }
      preview := None;
    }

    /** TITLE's entry: totals to 0, the level cleared, the replicas removed, the local player reset with no coins. */
    method EnterTitleHere()
      modifies this`lobbyPlayers, this`bodies, this`players, local
      ensures V() == EnterTitle(old(V()))
    {
      ZeroTotals();
      ClearLevel();
      RemoveBodies(players.Values);
      players := map[];
      local.ResetPosition();
      local.score := 0;
    }

    /** PICK's entry: the local player reset, the turn list emptied, no selection, rotation 0; the host fills the party box. */
    method EnterPickHere(env: Env)
      modifies this`playersFinishedTurn, this`selectedItem, this`buildRotation, this`partyBoxItems,
        this`availableItems, this`outbox, local
      ensures V() == EnterPick(old(V()), env)
    {
      local.ResetPosition();
      playersFinishedTurn := {};
      selectedItem := None;
      buildRotation := 0;
      if isHost {
        GeneratePartyBoxItems(env);
      }
    }

    /** The host's score entry: totals, the score lines, SHOW_SCORE to everyone, and the score screen. */
    method EnterScoreHere(env: Env)
      modifies this`lobbyPlayers, this`outbox, this`dialog
      ensures V() == EnterScore(old(V()), env)
    {
      var results := (map id | id in players :: env.replicaResult(id))[myId := local.State()];
      var entries := CalculateScores(results);
      outbox := outbox + [Broadcast(ShowScore(entries))];
      dialog := ScoreDialog(entries);
    }

    /** checkAllPlayersFinished. */
    method CheckAllPlayersFinished(env: Env)
      modifies this, local
      ensures V() == CheckAllFinished(old(V()), env)
    {
      if |playersFinishedTurn| >= |lobbyPlayers| {
        SetState(Countdown, env);
      }
    }

    // -------------------------------------------------------------------------
    // Picks and placement

    /** placeObject: a body for the loaded wood block, tagged as a block. */
    method PlaceObject(itemId: string, pos: Vec3, turns: int)
      modifies this`bodies, this`nextKey
      ensures V() == Session.PlaceObject(old(V()), itemId, pos, turns)
    {
      if itemId == Build.Wood && Build.Wood in models {
        bodies := bodies + [Build.Body(Some("block"), Some("local"), pos, turns, nextKey)];
        nextKey := nextKey + 1;
      }
    }

    /** handleItemPicked. */
    method HandleItemPicked(index: int, playerId: string, env: Env)
      modifies this, local
      ensures V() == Session.HandleItemPicked(old(V()), index, playerId, env)
    {
      if 0 <= index < |partyBoxItems| {
        partyBoxItems := partyBoxItems[index := partyBoxItems[index].(visible := false)];
      }
      if playerId == myId && 0 <= index < |partyBoxItems| && partyBoxItems[index].itemId != "" {
        selectedItem := Some(partyBoxItems[index].itemId);
        SetState(BuildView, env);
      }
    }

    /** processPickRequest. */
    method ProcessPickRequest(index: int, senderId: string, env: Env)
      modifies this, local
      ensures V() == ProcessPick(old(V()), index, senderId, env)
    {
      if index in availableItems {
        availableItems := availableItems - {index};
        outbox := outbox + [Broadcast(ItemPicked(index, senderId))];
        HandleItemPicked(index, senderId, env);
      }
    }

    // -------------------------------------------------------------------------
    // Network handlers

    /** onPacketReceived: dispatch on the packet type. */
    method OnPacket(p: Packet, senderId: string, env: Env)
      modifies this, local
      ensures V() == Session.OnPacket(old(V()), p, senderId, env)
    {
      match p
      case Join(nickname) => OnJoin(nickname, senderId, env);
      case Welcome(ps, s) => OnWelcome(ps, s, senderId, env);
      case LobbyUpdate(ps) =>
        lobbyPlayers := ps;
        ownEntry := false;
      case CharacterSelect(c) => OnCharacterSelect(c, senderId, env);
      case StartGame =>
        if !isHost {
          StartGame(env);
        }
      case Snapshot(d) => OnSnapshot(d, senderId, env);
      case EventPlace(pl) => OnEventPlace(pl, senderId, env);
      case PartyBoxUpdate(items) =>
        SpawnPartyBoxItems(items);
      case PickItem(index) =>
        if isHost {
          ProcessPickRequest(index, senderId, env);
        }
      case ItemPicked(index, playerId) =>
        HandleItemPicked(index, playerId, env);
      case PlayerFinishedRun(won) => OnPlayerFinishedRun(won, senderId, env);
      case ShowScore(scores) =>
        if !isHost {
          SetState(Score, env);
        }
      case Unhandled =>
    }

    /** JOIN: the host appends a new peer, welcomes it and sends everyone the list. */
    method OnJoin(nickname: string, senderId: string, env: Env)
      modifies this`lobbyPlayers, this`outbox
      ensures V() == Session.OnPacket(old(V()), Join(nickname), senderId, env)
    {
      if isHost && !Lobby.HasId(lobbyPlayers, senderId) {
        lobbyPlayers := lobbyPlayers + [Lobby.NewPlayer(senderId, nickname)];
        outbox := outbox + [SendTo(Welcome(lobbyPlayers, state), senderId)];
        outbox := outbox + [Broadcast(LobbyUpdate(lobbyPlayers))];
      }
    }

    /** WELCOME: take the host's list and go to the lobby. */
    method OnWelcome(ps: seq<PlayerInfo>, s: GameState, senderId: string, env: Env)
      modifies this, local
      ensures V() == Session.OnPacket(old(V()), Welcome(ps, s), senderId, env)
    {
      lobbyPlayers := ps;
      ownEntry := false;
      SetState(Lobby, env);
    }

    /** CHARACTER_SELECT: the host grants a free character to a listed sender and always sends the list. */
    method OnCharacterSelect(c: string, senderId: string, env: Env)
      modifies this`lobbyPlayers, this`outbox
      ensures V() == Session.OnPacket(old(V()), CharacterSelect(c), senderId, env)
    {
      if isHost {
        var sender := Lobby.IndexOf(lobbyPlayers, senderId);
        if sender.Some? {
          if !Lobby.IsTaken(lobbyPlayers, c, senderId) {
            lobbyPlayers := lobbyPlayers[sender.value := lobbyPlayers[sender.value].(character := c)];
          }
          outbox := outbox + [Broadcast(LobbyUpdate(lobbyPlayers))];
        }
      }
    }

    /** SNAPSHOT: move the sender's replica; the host relays it to everyone. */
    method OnSnapshot(d: SnapshotData, senderId: string, env: Env)
      modifies this`bodies, this`outbox
      ensures V() == Session.OnPacket(old(V()), Snapshot(d), senderId, env)
    {
      if d.id != myId && d.id in players {
        bodies := Build.MoveBody(bodies, players[d.id], d.pos);
      }
      if isHost {
        outbox := outbox + [Broadcast(Snapshot(d))];
      }
    }

    /** EVENT_PLACE: drop the own echo; otherwise place, mark the turn, check the barrier, and relay on the host. */
    method OnEventPlace(pl: PlacePayload, senderId: string, env: Env)
      modifies this, local
      ensures V() == Session.OnPacket(old(V()), EventPlace(pl), senderId, env)
    {
      if pl.playerId == myId {
        return;
      }
      PlaceRelayed(pl);
      CheckAllPlayersFinished(env);
      if isHost {
        outbox := outbox + [Broadcast(EventPlace(pl))];
      }
    }

    /** Build a relayed block and count its placer as finished. */
    method PlaceRelayed(pl: PlacePayload)
      modifies this`bodies, this`nextKey, this`playersFinishedTurn
      ensures var u := Session.PlaceObject(old(V()), pl.itemId, PlacedAt(pl), RotOrZero(pl.rot));
        V() == u.(finished := u.finished + {pl.playerId})
    {
      PlaceObject(pl.itemId, PlacedAt(pl), RotOrZero(pl.rot));
      playersFinishedTurn := playersFinishedTurn + {pl.playerId};
    }

    /** PLAYER_FINISHED_RUN: the host marks the sender and ends the run once everybody is in. */
    method OnPlayerFinishedRun(won: bool, senderId: string, env: Env)
      modifies this, local
      ensures V() == Session.OnPacket(old(V()), PlayerFinishedRun(won), senderId, env)
    {
      if isHost && senderId != myId {
        playersFinishedTurn := playersFinishedTurn + {senderId};
        if |playersFinishedTurn| >= |lobbyPlayers| {
          SetState(Score, env);
        }
      }
    }

    /** onIdAssigned. */
    method IdAssigned(id: string)
      modifies this`myId, this`lobbyPlayers
      ensures V() == Session.IdAssigned(old(V()), id)
    {
      myId := id;
      if ownEntry && |lobbyPlayers| > 0 {
        lobbyPlayers := lobbyPlayers[0 := lobbyPlayers[0].(id := id)];
      }
    }

    // -------------------------------------------------------------------------
    // Title, lobby and score screen callbacks

    method HostGame(nickname: string, env: Env)
      modifies this, local
      ensures V() == Session.HostGame(old(V()), nickname, env)
    {
      if state == Title {
        isHost := true;
        lobbyPlayers := [PlayerInfo(myId, nickname, "", true, false, 0)];
        ownEntry := true;
        ghost var w := V();
        assert w == old(V()).(isHost := true, lobby := [PlayerInfo(myId, nickname, "", true, false, 0)], ownEntry := true);
        GoLobby();
        assert V() == Enter(w, Lobby, env);
      }
    }

    method JoinGame(nickname: string, hostId: string)
      modifies this`isHost, this`outbox
      ensures V() == Session.JoinGame(old(V()), nickname, hostId)
    {
      if state == Title {
        isHost := false;
        outbox := outbox + [SendTo(Join(nickname), hostId)];
      }
    }

    method SelectCharacter(c: string)
      modifies this`lobbyPlayers, this`outbox
      ensures V() == Session.SelectCharacter(old(V()), c)
    {
      if state != Lobby {
        return;
      }
      if isHost {
        if !Lobby.IsTaken(lobbyPlayers, c, myId) {
          if ownEntry && |lobbyPlayers| > 0 {
            lobbyPlayers := lobbyPlayers[0 := lobbyPlayers[0].(character := c)];
          }
          var me := Lobby.IndexOf(lobbyPlayers, myId);
          if me.Some? {
            lobbyPlayers := lobbyPlayers[me.value := lobbyPlayers[me.value].(character := c)];
          }
          outbox := outbox + [Broadcast(LobbyUpdate(lobbyPlayers))];
        }
      } else {
        outbox := outbox + [Broadcast(CharacterSelect(c))];
      }
    }

    method RequestStart(env: Env)
      modifies this, local
      ensures V() == Session.RequestStart(old(V()), env)
    {
      if state == Lobby && isHost && Lobby.AllReady(lobbyPlayers) {
        outbox := outbox + [Broadcast(Protocol.StartGame)];
        StartGame(env);
      }
    }

    method ScoreRevealed(env: Env)
      modifies this, local
      ensures V() == Session.ScoreRevealed(old(V()), env)
    {
      if dialog.ScoreDialog? {
        var entries := dialog.entries;
        var winner := Scoring.FindWinner(entries);
        if winner.Some? {
          dialog := WinDialog(entries[winner.value].nickname);
        } else {
          dialog := NoDialog;
          outbox := outbox + [Broadcast(Protocol.StartGame)];
          StartGame(env);
        }
      }
    }

    method WinDismissed(env: Env)
      modifies this, local
      ensures V() == Session.WinDismissed(old(V()), env)
    {
      if dialog.WinDialog? {
        dialog := NoDialog;
        ZeroTotals();
        SetState(Lobby, env);
      }
    }

    // -------------------------------------------------------------------------
    // Mouse and keyboard

    method GhostFollow(target: Vec3)
      modifies this`buildGridPos, this`preview
      ensures V() == Session.GhostFollow(old(V()), target)
    {
      var size := Build.ItemSize(if Truthy(selectedItem) then selectedItem.value else "", buildRotation);
      buildGridPos := Vec3(Build.SnapAxis(size.x, target.x), buildHeight as real + 0.5, Build.SnapAxis(size.z, target.z));
      if preview.Some? && Truthy(selectedItem) {
        preview := Some(buildGridPos);
      }
    }

    method MouseMove(target: Vec3)
      modifies this`buildGridPos, this`preview
      ensures V() == Session.MouseMove(old(V()), target)
    {
      if state == BuildPlace {
        GhostFollow(target);
      }
    }

    method Wheel(deltaY: real)
      modifies this`buildHeight, this`buildGridPos, this`preview
      ensures V() == Session.Wheel(old(V()), deltaY)
    {
      if state == BuildPlace {
        buildHeight := Build.NextHeight(buildHeight, deltaY);
        buildGridPos := buildGridPos.(y := buildHeight as real + 0.5);
        if preview.Some? && Truthy(selectedItem) {
          preview := Some(buildGridPos);
        }
      }
    }

    method KeyDown(key: string, code: string, target: Vec3, env: Env)
      modifies this, local
      ensures V() == Session.KeyDown(old(V()), key, code, target, env)
    {
      if key == "Escape" {
        if state == BuildPlace {
          SetState(BuildView, env);
        }
      } else if code == "KeyQ" && state == BuildPlace {
        buildRotation := Build.NextRotation(buildRotation);
        if preview.Some? {
          GhostFollow(target);
        }
      }
    }

    method Click(hit: Option<int>, overlap: bool, env: Env)
      modifies this, local
      ensures V() == Session.Click(old(V()), hit, overlap, env)
    {
      if state == Pick {
        PickClick(hit, env);
      } else if state == BuildView {
        SetState(BuildPlace, env);
      } else if state == BuildPlace {
        PlaceClick(overlap, env);
      }
    }

    /** The click in Pick: the host processes its own pick, a client sends PICK_ITEM. */
    method PickClick(hit: Option<int>, env: Env)
      modifies this, local
      ensures V() == Session.PickClick(old(V()), hit, env)
    {
      if hit.Some? && 0 <= hit.value < |partyBoxItems| && partyBoxItems[hit.value].itemId != "" {
        if isHost {
          ProcessPickRequest(hit.value, myId, env);
        } else {
          outbox := outbox + [Broadcast(PickItem(hit.value))];
        }
      }
    }

    /** The click in BuildPlace. */
    method PlaceClick(overlap: bool, env: Env)
      modifies this, local
      ensures V() == Session.PlaceClick(old(V()), overlap, env)
    {
      if preview.Some? && Truthy(selectedItem) && Build.IsValidPlacement(selectedItem.value, overlap) {
        MarkPlaced(selectedItem.value, preview.value, buildRotation);
        CheckAllPlayersFinished(env);
        if state == BuildPlace {
          preview := None;
        }
      }
    }

    /** Place the block, count this peer as finished and announce the placement. */
    method MarkPlaced(item: string, pos: Vec3, turns: int)
      modifies this`bodies, this`nextKey, this`playersFinishedTurn, this`outbox
      ensures var u := Session.PlaceObject(old(V()), item, pos, turns);
        V() == Send(u.(finished := u.finished + {u.myId}), Broadcast(EventPlace(PlacePayload(item, pos, Some(turns), u.myId))))
    {
      PlaceObject(item, pos, turns);
      playersFinishedTurn := playersFinishedTurn + {myId};
      outbox := outbox + [Broadcast(EventPlace(PlacePayload(item, pos, Some(turns), myId)))];
    }

    // -------------------------------------------------------------------------
    // The frame update

    /** The local player's part of update in Countdown and Run. */
    method LocalStep(f: Frame, env: Env)
      modifies this, local
      ensures V() == Session.LocalStep(old(V()), f, env)
    {
      if !(state == Run && myId in playersFinishedTurn) {
        local.SetInput(f.x, f.y, f.jump, f.grounded);
      }
      if state == Run && myId !in playersFinishedTurn {
        FinishCheck(f.height, env);
      }
    }

    /** The finish check of the running local player. */
    method FinishCheck(height: real, env: Env)
      modifies this, local
      ensures V() == Session.FinishCheck(old(V()), height, env)
    {
      var dead := local.CheckDeath(height);
      if dead || local.hasWon {
        playersFinishedTurn := playersFinishedTurn + {myId};
        outbox := outbox + [Broadcast(PlayerFinishedRun(local.hasWon))];
        if isHost && |playersFinishedTurn| >= |lobbyPlayers| {
          SetState(Score, env);
        }
      }
    }

    /** One frame off the countdown. */
    method CountdownStep(env: Env)
      modifies this, local
      ensures V() == Session.CountdownStep(old(V()), env)
    {
      countdownTimer := countdownTimer - FrameTime;
      if countdownTimer <= 0.0 {
        SetState(Run, env);
      }
    }

    /** The physics step's collide events on the local body, each handled by the player's listener. */
    method Collisions(touched: seq<nat>)
      modifies local
      ensures V() == old(V()).(local := Contacts(old(local.State()), bodies, touched))
    {
      for i := 0 to |touched|
        invariant V() == old(V()).(local := Contacts(old(local.State()), bodies, touched[..i]))
      {
        assert touched[..i + 1][..i] == touched[..i];
        var hit := Build.BodyWithKey(bodies, touched[i]);
        if hit.Some? {
          var data := new BodyUserData(hit.value.tag, hit.value.owner);
          local.OnCollide(data);
        }
      }
      assert touched[..|touched|] == touched;
    }

    /** update: the physics step's contacts, the countdown, the local player, and this frame's snapshot. */
    method Update(f: Frame, env: Env)
      modifies this, local
      ensures V() == Tick(old(V()), f, env)
    {
      Collisions(f.touched);
      if state == Countdown {
        CountdownStep(env);
      }
      if state == Run || state == Countdown {
        LocalStep(f, env);
      }
      if (state == Run || state == Countdown) && myId != "" {
        outbox := outbox + [Broadcast(Snapshot(SnapshotData(myId, f.pos, "idle")))];
      }
    }
  }

  /** One more slot: its index joins the spawned indices exactly when its model is loaded. */
  lemma SpawnedIndicesStep(items: seq<Slot>, i: int, models: set<string>)
    requires 0 <= i < |items|
    ensures SpawnedIndices(items[..i + 1], models)
      == SpawnedIndices(items[..i], models) + (if items[i].itemId in models then {i} else {})
  {
  }
}
