// Properties of the session rules of src/core/Game.ts: what each network
// handler and UI action does to the lobby, the round state and the outbox, the
// invariant every reachable game state keeps, and the two defects of the
// source (where a relayed block lands, and replica bodies that outlive their
// round) with their corrections.

module SessionProps {
  import opened Common
  import opened Protocol
  import opened Players
  import Lobby
  import Build
  import Scoring
  import opened Session

  /** Every body of a remote player other than the local one is a current replica, so TITLE can remove it. */
  predicate Tracked(v: View)
  {
    forall b :: b in v.bodies && b.tag == Some("player") && b.key != LocalKey ==> b.key in v.replicas.Values
  }

  /**
   * What holds in every reachable state: a real round state (neither the
   * start-up sentinel nor the never-entered GameOver), a quarter-turn rotation,
   * a build height in 0..15, only the game's own body tags (so no bomb), and
   * every remote player body tracked.
   */
  predicate Inv(v: View)
  {
    v.state != Unset && v.state != GameOver && Shape(v) && HostEntry(v)
  }

  /** While the host's own PlayerInfo is shared with the list, it is the list's first entry and carries this peer's id. */
  predicate HostEntry(v: View)
  {
    v.ownEntry ==> |v.lobby| > 0 && v.lobby[0].id == v.myId
  }

  /** The part of the invariant that does not depend on the round state. */
  predicate Shape(v: View)
  {
    0 <= v.rotation < 4 && 0 <= v.height <= 15 && Build.KnownTags(v.bodies) && Tracked(v)
  }

  // ---------------------------------------------------------------------------
  // setState

  /** setState always lands in the requested state, and requesting the current one changes nothing. */
  lemma EnterReaches(v: View, s: GameState, env: Env)
    ensures Enter(v, s, env).state == s
    ensures Enter(v, v.state, env) == v
    ensures Enter(v, s, env).isHost == v.isHost && Enter(v, s, env).myId == v.myId
    ensures v.state != s && s != BuildView && s != BuildPlace ==> Enter(v, s, env).preview.None?
  {
  }

  /**
   * Entering the pick phase starts a fresh round: the local player is reset,
   * nobody has placed, nothing is selected, the rotation is 0; the host offers
   * two more items than there are players, all of them the wood block, and
   * sends them to everyone.
   */
  lemma PickResets(v: View, env: Env)
    requires v.state != Pick
    ensures var r := Enter(v, Pick, env);
      r.local == Reset(v.local) && r.finished == {} && r.selected.None? && r.rotation == 0
      && r.lobby == v.lobby && r.bodies == v.bodies
      && (!v.isHost ==> r.outbox == v.outbox)
      && (v.isHost ==>
            |r.outbox| == |v.outbox| + 1 && r.outbox[..|v.outbox|] == v.outbox
            && r.outbox[|v.outbox|].target.None?
            && r.outbox[|v.outbox|].packet.PartyBoxUpdate?
            && |r.outbox[|v.outbox|].packet.items| == |v.lobby| + 2
            && (forall k :: 0 <= k < |v.lobby| + 2 ==> r.outbox[|v.outbox|].packet.items[k].itemId == Build.Wood)
            && |r.boxItems| <= |v.lobby| + 2)
  {
    if v.isHost {
      SlotsAreWood(|v.lobby| + 2, env.slotPose);
    }
  }

  lemma {:induction false} SlotsAreWood(n: nat, pose: nat -> Pose)
    ensures forall k :: 0 <= k < n ==> Slots(n, pose)[k].itemId == Build.Wood && Slots(n, pose)[k].pos == pose(k).pos
  {
    if n > 0 {
      SlotsAreWood(n - 1, pose);
    }
  }

  /** Entering the countdown: three seconds on the clock and an empty finish list for the run. */
  lemma CountdownResets(v: View, env: Env)
    requires v.state != Countdown
    ensures var r := Enter(v, Countdown, env);
      r.timer == 3.0 && r.finished == {} && r.outbox == v.outbox && r.bodies == v.bodies && r.lobby == v.lobby
  {
  }

  // ---------------------------------------------------------------------------
  // Lobby packets and buttons

  /**
   * JOIN is for the host: a peer already listed is ignored; a new one is
   * appended, welcomed with the list and the current state, and everybody gets
   * the new list. Player ids stay unique.
   */
  lemma JoinRules(v: View, nickname: string, sender: string, env: Env)
    ensures var r := OnPacket(v, Join(nickname), sender, env);
      (!v.isHost || Lobby.HasId(v.lobby, sender) ==> r == v)
      && (v.isHost && !Lobby.HasId(v.lobby, sender) ==>
            r.lobby == Lobby.Admit(v.lobby, sender, nickname) && r.state == v.state
            && r.outbox == v.outbox + [SendTo(Welcome(r.lobby, v.state), sender), Broadcast(LobbyUpdate(r.lobby))])
      && (Lobby.UniqueIds(v.lobby) ==> Lobby.UniqueIds(r.lobby))
  {
    Lobby.AdmitRules(v.lobby, sender, nickname);
  }

  /**
   * CHARACTER_SELECT at the host: the listed sender's request goes through the
   * lobby's rules and the resulting list is broadcast whether it was granted or
   * not; clients and unknown senders ignore it. Unique ids and distinct
   * characters are kept.
   */
  lemma CharacterSelectRules(v: View, c: string, sender: string, env: Env)
    ensures var r := OnPacket(v, CharacterSelect(c), sender, env);
      (v.isHost && Lobby.HasId(v.lobby, sender) ==>
         r == v.(lobby := Lobby.Select(v.lobby, sender, c),
                 outbox := v.outbox + [Broadcast(LobbyUpdate(Lobby.Select(v.lobby, sender, c)))]))
      && (!v.isHost || !Lobby.HasId(v.lobby, sender) ==> r == v)
      && (Lobby.UniqueIds(v.lobby) && Lobby.DistinctCharacters(v.lobby) ==>
            Lobby.UniqueIds(r.lobby) && Lobby.DistinctCharacters(r.lobby))
  {
    if Lobby.UniqueIds(v.lobby) && Lobby.DistinctCharacters(v.lobby) {
      Lobby.SelectKeepsDistinct(v.lobby, sender, c);
    }
  }

  /**
   * While the host's PlayerInfo is shared with lobby[0], the two writes of
   * the host's claim land on the same entry, so the claim is the same update
   * a client's request gets.
   */
  lemma ClaimOwnIsSelect(v: View, c: string)
    requires HostEntry(v) && !Lobby.IsTaken(v.lobby, c, v.myId)
    ensures ClaimOwn(v, c) == Lobby.Select(v.lobby, v.myId, c)
  {
    if v.ownEntry {
      var l := v.lobby[0 := v.lobby[0].(character := c)];
      assert Lobby.IndexOf(v.lobby, v.myId) == Some(0);
      assert Lobby.IndexOf(l, v.myId) == Some(0);
    }
  }

  /**
   * The host picking its own character: a character somebody else holds
   * changes nothing and sends nothing; a free one is taken (on the shared
   * entry lobby[0] while there is one) and the list sent. A client only asks
   * the host.
   */
  lemma HostSelectRules(v: View, c: string)
    requires v.state == Lobby
    ensures var r := SelectCharacter(v, c);
      (v.isHost && Lobby.IsTaken(v.lobby, c, v.myId) ==> r == v)
      && (v.isHost && !Lobby.IsTaken(v.lobby, c, v.myId) ==>
            r.outbox == v.outbox + [Broadcast(LobbyUpdate(r.lobby))]
            && (v.ownEntry && |v.lobby| > 0 ==> r.lobby[0].character == c)
            && (HostEntry(v) ==> r.lobby == Lobby.Select(v.lobby, v.myId, c))
            && (HostEntry(v) && Lobby.HasId(v.lobby, v.myId) ==>
                  r.lobby[Lobby.IndexOf(v.lobby, v.myId).value].character == c))
      && (!v.isHost ==> r.lobby == v.lobby && r.outbox == v.outbox + [Broadcast(CharacterSelect(c))])
      && (HostEntry(v) && Lobby.UniqueIds(v.lobby) && Lobby.DistinctCharacters(v.lobby) ==>
            Lobby.UniqueIds(r.lobby) && Lobby.DistinctCharacters(r.lobby))
  {
    if v.isHost && !Lobby.IsTaken(v.lobby, c, v.myId) {
      if HostEntry(v) {
        ClaimOwnIsSelect(v, c);
        Lobby.SelectRules(v.lobby, v.myId, c);
        if Lobby.UniqueIds(v.lobby) && Lobby.DistinctCharacters(v.lobby) {
          Lobby.SelectKeepsDistinct(v.lobby, v.myId, c);
        }
      }
    }
  }

  /**
   * onIdAssigned records the id. On a host whose own PlayerInfo is still
   * shared with the list, the shared entry lobby[0] is renamed with it and
   * nothing else in the list changes; otherwise the list is untouched.
   */
  lemma IdAssignedRules(v: View, id: string)
    ensures var r := IdAssigned(v, id);
      r.myId == id && r.(myId := v.myId, lobby := v.lobby) == v && |r.lobby| == |v.lobby|
      && (v.ownEntry && |v.lobby| > 0 ==> r.lobby[0] == v.lobby[0].(id := id) && r.lobby[1..] == v.lobby[1..])
      && (!v.ownEntry ==> r.lobby == v.lobby)
      && (HostEntry(v) ==> HostEntry(r))
  {
  }

  /**
   * The host button on the title screen: this peer becomes the host and the
   * only player, listed under its current id with its nickname and no
   * character, that entry shared with its own PlayerInfo; nothing is sent.
   * Off the title screen the button does nothing.
   */
  lemma HostGameRules(v: View, nickname: string, env: Env)
    ensures var r := HostGame(v, nickname, env);
      (v.state != Title ==> r == v)
      && (v.state == Title ==>
            r.state == Lobby && r.isHost && r.myId == v.myId
            && r.lobby == [PlayerInfo(v.myId, nickname, "", true, false, 0)]
            && r.ownEntry && HostEntry(r) && r.outbox == v.outbox)
  {
  }

  /**
   * The join button on the title screen: the one packet sent is JOIN with the
   * nickname, addressed to the host; this peer is not the host, and the list,
   * the state and the id are unchanged. Off the title screen it does nothing.
   */
  lemma JoinGameRules(v: View, nickname: string, hostId: string)
    ensures var r := JoinGame(v, nickname, hostId);
      (v.state != Title ==> r == v)
      && (v.state == Title ==>
            r.outbox == v.outbox + [SendTo(Join(nickname), hostId)] && !r.isHost
            && r.lobby == v.lobby && r.state == v.state && r.myId == v.myId
            && r.(isHost := v.isHost, outbox := v.outbox) == v)
  {
  }

  /**
   * Hosting before the peer id has arrived: the id, when it comes, renames the
   * host's own entry, so the host's character claim lands on it and the start
   * button then starts the round.
   */
  lemma HostBeforeId(models: set<string>, env: Env)
    ensures var v1 := HostGame(Start(models, env), "n", env);
      var v3 := SelectCharacter(IdAssigned(v1, "h"), "chicken");
      v3.lobby == [PlayerInfo("h", "n", "chicken", true, false, 0)]
      && RequestStart(v3, env).state == Pick
  {
    StartInv(models, env);
    var v0 := Start(models, env);
    var v1 := HostGame(v0, "n", env);
    HostGameRules(v0, "n", env);
    var v2 := IdAssigned(v1, "h");
    assert v2.lobby == [PlayerInfo("h", "n", "", true, false, 0)];
    var v3 := SelectCharacter(v2, "chicken");
    assert !Lobby.IsTaken(v2.lobby, "chicken", "h");
    assert Lobby.IndexOf(v2.lobby[0 := v2.lobby[0].(character := "chicken")], "h") == Some(0);
    assert v3.lobby == [PlayerInfo("h", "n", "chicken", true, false, 0)];
    assert Lobby.AllReady(v3.lobby);
    StartRoundFrame(Send(v3, Broadcast(StartGame)), env);
  }

  lemma {:induction false} SpawnAllFrame(v: View, ps: seq<PlayerInfo>)
    ensures var u := SpawnAll(v, ps);
      u.state == v.state && u.outbox == v.outbox && u.lobby == v.lobby && u.isHost == v.isHost
      && u.myId == v.myId && u.models == v.models && u.rotation == v.rotation && u.height == v.height
      && u.dialog == v.dialog
    ensures Inv(v) ==> Inv(SpawnAll(v, ps))
  {
    if |ps| > 0 {
      SpawnAllFrame(v, ps[..|ps| - 1]);
      var u := SpawnAll(v, ps[..|ps| - 1]);
      if ps[|ps| - 1].id != u.myId && Inv(v) {
        SpawnReplicaKeepsInv(u, ps[|ps| - 1].id);
      }
    }
  }

  /**
   * The host's start button works only in the lobby, and only once every
   * player has a character: then START_GAME goes out first and the host enters
   * the pick phase.
   */
  lemma StartGating(v: View, env: Env)
    ensures var r := RequestStart(v, env);
      (v.state == Lobby && v.isHost && Lobby.AllReady(v.lobby) ==>
         r.state == Pick && |r.outbox| > |v.outbox| && r.outbox[..|v.outbox| + 1] == v.outbox + [Broadcast(StartGame)])
      && (!(v.state == Lobby && v.isHost && Lobby.AllReady(v.lobby)) ==> r == v)
  {
    if v.state == Lobby && v.isHost && Lobby.AllReady(v.lobby) {
      var w := Send(v, Broadcast(StartGame));
      SpawnAllFrame(w, w.lobby);
      EnterKeepsOutbox(SpawnAll(w, w.lobby), Pick, env);
    }
  }

  /** startGame ends in the pick phase, after whatever was already sent, and keeps the dialog. */
  lemma StartRoundFrame(v: View, env: Env)
    ensures var r := StartRound(v, env);
      r.state == Pick && |r.outbox| >= |v.outbox| && r.outbox[..|v.outbox|] == v.outbox && r.dialog == v.dialog
  {
    SpawnAllFrame(v, v.lobby);
    EnterKeepsOutbox(SpawnAll(v, v.lobby), Pick, env);
  }

  /** setState only ever appends to the outbox. */
  lemma EnterKeepsOutbox(v: View, s: GameState, env: Env)
    ensures |Enter(v, s, env).outbox| >= |v.outbox| && Enter(v, s, env).outbox[..|v.outbox|] == v.outbox
  {
  }

  // ---------------------------------------------------------------------------
  // Rounds

  /**
   * The host ends the run once everybody listed has reported: a report is
   * recorded under its sender, the host ignores its own (it has already counted
   * itself), and clients ignore them all.
   */
  lemma FinishBarrier(v: View, won: bool, sender: string, env: Env)
    ensures sender in v.finished ==> |v.finished + {sender}| == |v.finished|
    ensures var r := OnPacket(v, PlayerFinishedRun(won), sender, env);
      (!v.isHost || sender == v.myId ==> r == v)
      && (v.isHost && sender != v.myId ==>
            r.finished == v.finished + {sender}
            && (r.state == Score <==> v.state == Score || |v.finished + {sender}| >= |v.lobby|)
            && (|v.finished + {sender}| < |v.lobby| ==> r == v.(finished := v.finished + {sender})))
  {
    if sender in v.finished {
      assert v.finished + {sender} == v.finished;
    }
  }

  /**
   * EVENT_PLACE: a peer drops its own echo; otherwise the block is placed where
   * and as turned as the payload says (only the loaded wood block has a body),
   * the placer counts as finished, the countdown starts once everybody has
   * placed, and the host relays the packet unchanged.
   */
  lemma EventPlaceRules(v: View, pl: PlacePayload, sender: string, env: Env)
    ensures var r := OnPacket(v, EventPlace(pl), sender, env);
      var done := v.finished + {pl.playerId};
      (pl.playerId == v.myId ==> r == v)
      && (pl.playerId != v.myId ==>
            (pl.itemId == Build.Wood && Build.Wood in v.models ==>
               r.bodies == v.bodies + [Build.Body(Some("block"), Some("local"), pl.pos, RotOrZero(pl.rot), v.nextKey)])
            && (!(pl.itemId == Build.Wood && Build.Wood in v.models) ==> r.bodies == v.bodies)
            && (|done| < |v.lobby| ==> r.finished == done && r.state == v.state)
            && (|done| >= |v.lobby| ==> r.state == Countdown)
            && (|done| >= |v.lobby| && v.state != Countdown ==> r.finished == {} && r.timer == 3.0)
            && (v.isHost ==> r.outbox == v.outbox + [Broadcast(EventPlace(pl))])
            && (!v.isHost ==> r.outbox == v.outbox))
  {
  }

  /** WELCOME and LOBBY_UPDATE replace this peer's list wholesale; WELCOME also moves it to the lobby. */
  lemma ListReplaced(v: View, ps: seq<PlayerInfo>, s: GameState, sender: string, env: Env)
    ensures OnPacket(v, LobbyUpdate(ps), sender, env) == v.(lobby := ps, ownEntry := false)
    ensures !OnPacket(v, Welcome(ps, s), sender, env).ownEntry
    ensures OnPacket(v, Welcome(ps, s), sender, env).lobby == ps
    ensures OnPacket(v, Welcome(ps, s), sender, env).state == Lobby
    ensures OnPacket(v, Welcome(ps, s), sender, env).outbox == v.outbox
  {
  }

  /**
   * SNAPSHOT: a peer's own snapshot never moves anything here; another
   * player's moves exactly its replica body; the host relays every snapshot,
   * the sender's own included.
   */
  lemma SnapshotRules(v: View, d: SnapshotData, sender: string, env: Env)
    ensures var r := OnPacket(v, Snapshot(d), sender, env);
      (d.id == v.myId || d.id !in v.replicas ==> r.bodies == v.bodies)
      && (d.id != v.myId && d.id in v.replicas ==>
            forall i :: 0 <= i < |v.bodies| ==>
              r.bodies[i] == if v.bodies[i].key == v.replicas[d.id] then v.bodies[i].(pos := d.pos) else v.bodies[i])
      && |r.bodies| == |v.bodies|
      && r.outbox == (if v.isHost then v.outbox + [Broadcast(Snapshot(d))] else v.outbox)
      && r.state == v.state && r.lobby == v.lobby
  {
  }

  /**
   * After the party box is spawned the available set is exactly the indices of
   * the spawned slots; when every slot's model is loaded, the shown items line
   * up with the slots one for one, so an index means the same item everywhere.
   */
  lemma SpawnBoxRules(v: View, items: seq<Slot>)
    ensures var r := SpawnBox(v, items);
      (forall i :: i in r.available <==> 0 <= i < |items| && items[i].itemId in v.models)
      && ((forall k :: 0 <= k < |items| ==> items[k].itemId in v.models) ==>
            |r.boxItems| == |items|
            && (forall k :: 0 <= k < |items| ==> r.boxItems[k] == BoxItem(items[k].itemId, true)))
  {
    if forall k :: 0 <= k < |items| ==> items[k].itemId in v.models {
      SpawnedAllLoaded(items, v.models);
    }
  }

  lemma {:induction false} SpawnedAllLoaded(items: seq<Slot>, models: set<string>)
    requires forall k :: 0 <= k < |items| ==> items[k].itemId in models
    ensures |Spawned(items, models)| == |items|
    ensures forall k :: 0 <= k < |items| ==> Spawned(items, models)[k] == BoxItem(items[k].itemId, true)
  {
    if |items| > 0 {
      SpawnedAllLoaded(items[..|items| - 1], models);
    }
  }

  /**
   * Clicks outside picking: viewing the level moves on to placing at height
   * 8; a click while placing with no preview, no selection, or an invalid spot
   * changes nothing.
   */
  lemma BuildClickRules(v: View, hit: Option<int>, overlap: bool, env: Env)
    ensures v.state == BuildView ==>
      Click(v, hit, overlap, env).state == BuildPlace && Click(v, hit, overlap, env).height == 8
    ensures v.state == BuildPlace && !(v.preview.Some? && Truthy(v.selected) && Build.IsValidPlacement(v.selected.value, overlap)) ==>
      Click(v, hit, overlap, env) == v
    ensures v.state != Pick && v.state != BuildView && v.state != BuildPlace ==> Click(v, hit, overlap, env) == v
  {
  }

  /**
   * A valid placing click counts this peer as finished; the countdown starts
   * exactly when everybody listed has placed, and otherwise the preview goes.
   */
  lemma PlaceClickBarrier(v: View, overlap: bool, env: Env)
    requires v.state == BuildPlace && v.preview.Some? && Truthy(v.selected)
    requires Build.IsValidPlacement(v.selected.value, overlap)
    ensures var r := Click(v, None, overlap, env);
      (r.state == Countdown <==> |v.finished + {v.myId}| >= |v.lobby|)
      && (|v.finished + {v.myId}| < |v.lobby| ==>
            r.state == BuildPlace && r.finished == v.finished + {v.myId} && r.preview.None?)
  {
  }

  /**
   * The end of the local run (death or goal) in Run: this peer counts itself
   * finished and reports it; only the host ends the run, once everybody is in,
   * and a client keeps running until SHOW_SCORE arrives.
   */
  lemma RunFinishRules(a: View, f: Frame, env: Env)
    requires a.state == Run && a.myId !in a.finished
    ensures var c := a.(local := InputEffect(a.local, f.x, f.y, f.jump, f.grounded));
      var (dead, fl) := DeathCheck(c.local, f.height);
      var r := LocalStep(a, f, env);
      (dead || fl.hasWon ==>
         a.myId in r.finished
         && |r.outbox| >= |a.outbox| + 1 && r.outbox[|a.outbox|] == Broadcast(PlayerFinishedRun(fl.hasWon))
         && (r.state == Score <==> a.isHost && |a.finished + {a.myId}| >= |a.lobby|))
      && (!(dead || fl.hasWon) ==> r == c.(local := fl))
  {
    var c := a.(local := InputEffect(a.local, f.x, f.y, f.jump, f.grounded));
    var (dead, fl) := DeathCheck(c.local, f.height);
    var d := c.(local := fl);
    var e := Send(d.(finished := d.finished + {d.myId}), Broadcast(PlayerFinishedRun(fl.hasWon)));
    EnterKeepsOutbox(e, Score, env);
  }

  /**
   * The physics step's contacts: a goal contact makes the player win, and no
   * contact revives, un-wins or takes coins away. In a level of the game's own
   * body tags (ground, goal, player and block) reaching the goal is the only
   * effect a contact can have.
   */
  lemma {:induction false} ContactsRules(fl: Flags, bodies: seq<Build.Body>, touched: seq<nat>)
    ensures var r := Contacts(fl, bodies, touched);
      (GoalTouched(bodies, touched) ==> r.hasWon)
      && (fl.hasWon ==> r.hasWon) && (fl.isDead ==> r.isDead) && r.score >= fl.score
      && (Build.KnownTags(bodies) ==> r == fl.(hasWon := fl.hasWon || GoalTouched(bodies, touched)))
  {
    if |touched| > 0 {
      var n := |touched| - 1;
      var init := touched[..n];
      ContactsRules(fl, bodies, init);
      var g := Contacts(fl, bodies, init);
      var hit := Build.BodyWithKey(bodies, touched[n]);
      if hit.Some? {
        CollideEffects(g, hit.value.tag, hit.value.owner, false);
      }
      var lastGoal := hit.Some? && hit.value.tag == Some("goal");
      if GoalTouched(bodies, touched) {
        var i :| 0 <= i < |touched| && Build.BodyWithKey(bodies, touched[i]).Some?
                 && Build.BodyWithKey(bodies, touched[i]).value.tag == Some("goal");
        if i < n {
          assert init[i] == touched[i];
        }
      }
      if GoalTouched(bodies, init) {
        var i :| 0 <= i < |init| && Build.BodyWithKey(bodies, init[i]).Some?
                 && Build.BodyWithKey(bodies, init[i]).value.tag == Some("goal");
        assert touched[i] == init[i];
      }
      assert GoalTouched(bodies, touched) <==> GoalTouched(bodies, init) || lastGoal;
    }
  }

  /**
   * Reaching the goal while running: the goal contact of the frame's physics
   * step makes the local player win, so in the same frame it counts itself
   * finished and announces a won run. When that completes the host's barrier
   * the round is scored at once, with the local player's winning flags as the
   * host's own result.
   */
  lemma GoalContactFinishesRun(v: View, f: Frame, env: Env)
    requires v.state == Run && v.myId !in v.finished && GoalTouched(v.bodies, f.touched)
    ensures var r := Tick(v, f, env);
      r.local.hasWon && v.myId in r.finished
      && |r.outbox| > |v.outbox| && r.outbox[|v.outbox|] == Broadcast(PlayerFinishedRun(true))
      && (r.state == Score <==> v.isHost && |v.finished + {v.myId}| >= |v.lobby|)
      && (r.state != Score ==> r.state == Run)
      && Results(r, env)[v.myId] == r.local
      && (r.state == Score ==> r.dialog == ScoreDialog(Scoring.Lines(v.lobby, Results(r, env))))
  {
    ContactsRules(v.local, v.bodies, f.touched);
    var t := v.(local := Contacts(v.local, v.bodies, f.touched));
    WonRunFinishes(t, f, env);
  }

  /** A local player that has already won finishes its run in the next frame's finish check. */
  lemma WonRunFinishes(a: View, f: Frame, env: Env)
    requires a.state == Run && a.myId !in a.finished && a.local.hasWon
    ensures var r := LocalStep(a, f, env);
      r.local.hasWon && a.myId in r.finished
      && |r.outbox| > |a.outbox| && r.outbox[|a.outbox|] == Broadcast(PlayerFinishedRun(true))
      && (r.state == Score <==> a.isHost && |a.finished + {a.myId}| >= |a.lobby|)
      && (r.state != Score ==> r.state == Run)
      && Results(r, env)[a.myId] == r.local
      && (r.state == Score ==> r.dialog == ScoreDialog(Scoring.Lines(a.lobby, Results(r, env))))
  {
    var c := a.(local := InputEffect(a.local, f.x, f.y, f.jump, f.grounded));
    var (dead, fl) := DeathCheck(c.local, f.height);
    assert c.local == a.local;
    RunFinishRules(a, f, env);
    var d := c.(local := fl);
    var e := Send(d.(finished := d.finished + {d.myId}), Broadcast(PlayerFinishedRun(true)));
    if e.isHost && |e.finished| >= |e.lobby| {
      ScoreRules(e, env);
    }
  }

  /**
   * Back on the title screen: every total is 0 with the same players, the
   * local score is 0, no placed block is left, and no replica is known.
   */
  lemma TitleResets(v: View, env: Env)
    requires v.state != Title && Build.KnownTags(v.bodies)
    ensures var r := Enter(v, Title, env);
      Lobby.SameRoster(v.lobby, r.lobby) && (forall i :: 0 <= i < |r.lobby| ==> r.lobby[i].totalScore == 0)
      && r.local.score == 0 && !r.local.isDead && !r.local.hasWon
      && (forall b :: b in r.bodies ==> b.tag != Some("block"))
      && r.replicas == map[] && r.outbox == v.outbox
  {
    Lobby.ZeroTotalsKeepsRoster(v.lobby);
    Build.ClearLevelLeavesFixtures(v.bodies);
    Build.RemoveKeysSpec(Build.ClearLevel(v.bodies), v.replicas.Values);
  }

  /** Clicking an item in the pick phase: the host handles its own pick directly, a client asks the host. */
  lemma PickClickRules(v: View, i: int, env: Env)
    requires v.state == Pick && 0 <= i < |v.boxItems| && v.boxItems[i].itemId != ""
    ensures v.isHost ==> Click(v, Some(i), false, env) == ProcessPick(v, i, v.myId, env)
    ensures !v.isHost ==> Click(v, Some(i), false, env) == v.(outbox := v.outbox + [Broadcast(PickItem(i))])
  {
  }

  /** ITEM_PICKED hides the item on every peer; only the picker selects it and moves on to viewing the level. */
  lemma ItemPickedRules(v: View, i: int, pid: string, env: Env)
    ensures var r := HandleItemPicked(v, i, pid, env);
      |r.boxItems| == |v.boxItems| && r.available == v.available && r.outbox == v.outbox
      && (forall k :: 0 <= k < |v.boxItems| ==>
            r.boxItems[k] == if k == i then v.boxItems[k].(visible := false) else v.boxItems[k])
      && (pid != v.myId ==> r.state == v.state && r.selected == v.selected)
      && (pid == v.myId && 0 <= i < |v.boxItems| && v.boxItems[i].itemId != "" ==>
            r.state == BuildView && r.selected == Some(v.boxItems[i].itemId))
  {
  }

  /**
   * Picks are exclusive: the first request for an available item takes it and
   * announces it once; any later request for it, from anybody, changes nothing
   * and sends nothing.
   */
  lemma PickOnce(v: View, i: int, a: string, b: string, env: Env)
    ensures i !in v.available ==> ProcessPick(v, i, b, env) == v
    ensures i in v.available ==>
      var r := ProcessPick(v, i, a, env);
      i !in r.available && r.outbox == v.outbox + [Broadcast(ItemPicked(i, a))]
      && ProcessPick(r, i, b, env) == r
  {
    if i in v.available {
      var u := Send(v.(available := v.available - {i}), Broadcast(ItemPicked(i, a)));
      ItemPickedRules(u, i, a, env);
    }
  }

  /**
   * Entering the score phase: the host adds each present player's round points
   * to the totals, shows and broadcasts the score lines; a client only changes
   * state (its score screen shows the lines the host sent).
   */
  lemma ScoreRules(v: View, env: Env)
    requires v.state != Score
    ensures var r := Enter(v, Score, env);
      var (ps, entries) := Scoring.Calculate(v.lobby, Results(v, env));
      (v.isHost ==>
         r.lobby == ps && r.dialog == ScoreDialog(entries)
         && r.outbox == v.outbox + [Broadcast(ShowScore(entries))]
         && r.bodies == v.bodies && r.finished == v.finished
         && entries == Scoring.Lines(v.lobby, Results(v, env)))
      && (!v.isHost ==> r == v.(state := Score, preview := None))
  {
    Scoring.CalculateInLobbyOrder(v.lobby, Results(v, env));
  }

  /** The round results hold the local player's flags under this peer's id and every replica's final flags. */
  lemma ResultsCover(v: View, env: Env)
    ensures var m := Results(v, env);
      v.myId in m && m[v.myId] == v.local
      && (forall id :: id in v.replicas && id != v.myId ==> id in m && m[id] == env.replicaResult(id))
      && (forall id :: id in m ==> id == v.myId || id in v.replicas)
  {
  }

  /**
   * Closing the host's score screen: if a score line reached GOAL_SCORE its
   * player is shown as the winner and the state stays Score; otherwise the next
   * round starts, with START_GAME sent first.
   */
  lemma ScoreRevealedRules(v: View, entries: seq<ScoreEntry>, env: Env)
    requires v.dialog == ScoreDialog(entries) && v.state == Score
    ensures var r := ScoreRevealed(v, env);
      (forall k :: 0 <= k < |entries| ==> entries[k].current < Scoring.GoalScore) ==>
        r.state == Pick && r.dialog == NoDialog && |r.outbox| > |v.outbox| && r.outbox[|v.outbox|] == Broadcast(StartGame)
    ensures var r := ScoreRevealed(v, env);
      (exists k :: 0 <= k < |entries| && entries[k].current >= Scoring.GoalScore) ==>
        r.state == Score && r.outbox == v.outbox && r.dialog.WinDialog?
        && exists k :: 0 <= k < |entries| && entries[k].current >= Scoring.GoalScore && r.dialog.winner == entries[k].nickname
                       && forall j :: 0 <= j < k ==> entries[j].current < Scoring.GoalScore
  {
    var w := Scoring.FindWinner(entries);
    if w.None? {
      var u := Send(v.(dialog := NoDialog), Broadcast(StartGame));
      StartRoundFrame(u, env);
      assert StartRound(u, env).outbox[|v.outbox|] == u.outbox[|v.outbox|];
    }
  }

  /**
   * A round scored on the host ends, once the score screen closes, with the
   * first player in lobby order whose new total reaches GOAL_SCORE named
   * winner; when nobody reaches it the next round starts.
   */
  lemma HostNamesFirstToReach(v: View, env: Env)
    requires v.isHost && v.state != Score
    ensures var u := Enter(v, Score, env);
      var r := ScoreRevealed(u, env);
      var results := Results(v, env);
      ((forall i :: 0 <= i < |v.lobby| ==> !Scoring.Reaches(v.lobby[i], results)) ==> r.state == Pick)
      && (forall i :: Scoring.FirstToReach(v.lobby, results, i) ==> r.dialog == WinDialog(v.lobby[i].nickname))
  {
    var results := Results(v, env);
    var u := Enter(v, Score, env);
    ScoreRules(v, env);
    var entries := Scoring.Lines(v.lobby, results);
    assert u.dialog == ScoreDialog(entries) && u.state == Score;
    Scoring.NoWinnerIffNobodyReaches(v.lobby, results);
    if Scoring.FindWinner(entries).None? {
      ScoreRevealedRules(u, entries, env);
    } else {
      Scoring.WinnerIsFirstInLobby(v.lobby, results);
    }
  }

  /**
   * Dismissing the win screen: every total back to 0, same players and
   * characters, back to the lobby. Nothing is sent, so the clients stay on
   * their score screens.
   */
  lemma WinDismissedRules(v: View, winner: string, env: Env)
    requires v.dialog == WinDialog(winner) && v.state == Score
    ensures var r := WinDismissed(v, env);
      r.state == Lobby && r.dialog == NoDialog && r.outbox == v.outbox
      && Lobby.SameRoster(v.lobby, r.lobby)
      && (forall i :: 0 <= i < |r.lobby| ==> r.lobby[i].totalScore == 0)
  {
    Lobby.ZeroTotalsKeepsRoster(v.lobby);
  }

  /**
   * The keyboard while building: Escape leaves placing for viewing, KeyQ turns
   * the item a quarter turn, and neither does anything in another phase.
   */
  lemma KeyDownRules(v: View, key: string, code: string, target: Vec3, env: Env)
    ensures v.state != BuildPlace ==> KeyDown(v, key, code, target, env) == v
    ensures v.state == BuildPlace && key == "Escape" ==>
      KeyDown(v, key, code, target, env).state == BuildView && KeyDown(v, key, code, target, env).rotation == v.rotation
    ensures v.state == BuildPlace && key != "Escape" && code == "KeyQ" ==>
      KeyDown(v, key, code, target, env).state == BuildPlace
      && KeyDown(v, key, code, target, env).rotation == Build.NextRotation(v.rotation)
      && KeyDown(v, key, code, target, env).height == v.height
  {
  }

  /**
   * The preview follows the pointer on the grid: at the build height plus half
   * a cell, within half a cell of the pointer on x and z, with the item's edges
   * on grid lines.
   */
  lemma PreviewSnaps(v: View, target: Vec3)
    ensures var r := GhostFollow(v, target);
      var size := Build.ItemSize(if Truthy(v.selected) then v.selected.value else "", v.rotation);
      r.gridPos.y == v.height as real + 0.5
      && -0.5 < r.gridPos.x - target.x <= 0.5 && -0.5 < r.gridPos.z - target.z <= 0.5
      && r.gridPos.x - size.x as real / 2.0 == (r.gridPos.x - size.x as real / 2.0).Floor as real
      && r.gridPos.z - size.z as real / 2.0 == (r.gridPos.z - size.z as real / 2.0).Floor as real
      && (v.preview.Some? && Truthy(v.selected) ==> r.preview == Some(r.gridPos))
  {
    var size := Build.ItemSize(if Truthy(v.selected) then v.selected.value else "", v.rotation);
    Build.SnapAligns(size.x, target.x);
    Build.SnapAligns(size.z, target.z);
  }

  // ---------------------------------------------------------------------------
  // Placement: where a relayed block lands (the first defect)

  /**
   * A valid click places the selected wood block at the preview with the
   * current rotation and announces exactly that; every other peer that
   * receives the announcement builds the same block at the same place with the
   * same turns.
   */
  lemma PlacementAgrees(v: View, overlap: bool, env: Env, w: View, sender: string, env2: Env)
    requires v.state == BuildPlace && v.preview.Some? && Truthy(v.selected)
    requires Build.IsValidPlacement(v.selected.value, overlap) && Build.Wood in v.models
    requires w.myId != v.myId && Build.Wood in w.models
    ensures var r := Click(v, None, overlap, env);
      var pl := PlacePayload(v.selected.value, v.preview.value, Some(v.rotation), v.myId);
      r.bodies == v.bodies + [Build.Body(Some("block"), Some("local"), v.preview.value, v.rotation, v.nextKey)]
      && |r.outbox| == |v.outbox| + 1 && r.outbox[|v.outbox|] == Broadcast(EventPlace(pl))
      && var q := OnPacket(w, EventPlace(pl), sender, env2);
         q.bodies == w.bodies + [Build.Body(Some("block"), Some("local"), v.preview.value, v.rotation, w.nextKey)]
  {
    var pl := PlacePayload(v.selected.value, v.preview.value, Some(v.rotation), v.myId);
    EventPlaceRules(w, pl, sender, env2);
  }

  /**
   * As written, the receiver puts every relayed block at z = 0, so whenever
   * the placer built off that line the peers' levels disagree.
   */
  lemma PlacementAsWrittenDisagrees(pl: PlacePayload)
    ensures pl.pos.z != 0.0 ==> PlacedAtAsWritten(pl) != PlacedAt(pl)
    ensures PlacedAtAsWritten(PlacePayload(Build.Wood, Vec3(0.5, 8.5, 12.0), Some(0), "p1")) == Vec3(0.5, 8.5, 0.0)
  {
  }

  // ---------------------------------------------------------------------------
  // Replica bodies (the second defect)

  lemma RemoveKeysKeeps(bodies: seq<Build.Body>, keys: set<nat>, b: Build.Body)
    ensures b in Build.RemoveKeys(bodies, keys) <==> b in bodies && b.key !in keys
  {
    Build.RemoveKeysSpec(bodies, keys);
  }

  /** Spawning a replica removes the player's previous replica body, so every remote body stays tracked. */
  lemma SpawnReplicaKeepsInv(v: View, id: string)
    requires Inv(v)
    ensures Inv(SpawnReplica(v, id))
  {
    var r := SpawnReplica(v, id);
    var stale := if id in v.replicas then {v.replicas[id]} else {};
    Build.RemoveKeysSpec(v.bodies, stale);
    forall b | b in r.bodies && b.tag == Some("player") && b.key != LocalKey
      ensures b.key in r.replicas.Values
    {
      if b.key == v.nextKey {
        assert r.replicas[id] == b.key;
      } else {
        assert b in v.bodies && b.key !in stale;
        var other :| other in v.replicas && v.replicas[other] == b.key;
        assert other != id;
        assert r.replicas[other] == b.key;
      }
    }
  }

  /** With every remote body tracked, returning to the title screen leaves only the local player's body. */
  lemma TitleLeavesOnlyLocalPlayer(v: View, env: Env)
    requires Inv(v) && v.state != Title
    ensures forall b :: b in Enter(v, Title, env).bodies && b.tag == Some("player") ==> b.key == LocalKey
    ensures Enter(v, Title, env).replicas == map[]
  {
    var cleared := Build.ClearLevel(v.bodies);
    Build.ClearLevelKeeps(v.bodies);
    Build.RemoveKeysSpec(cleared, v.replicas.Values);
  }

  /** The lobby of host "a" with a remote player "b", before any round. */
  function TwoPlayerLobby(): (v: View)
    ensures Inv(v)
  {
    var v := Initial({}).(state := Lobby, myId := "a", isHost := true,
                          lobby := [PlayerInfo("a", "a", "chicken", true, false, 0), PlayerInfo("b", "b", "horse", false, false, 0)]);
    assert forall b :: b in v.bodies && b.tag == Some("player") ==> b.key == LocalKey;
    v
  }

  /** The stale body of the as-written respawn, from any state holding only the level's own bodies. */
  lemma StaleReplicaSurvives(v: View, env: Env)
    requires v.bodies == LevelBodies && v.nextKey == 4 && v.replicas == map[] && v.state == Lobby
    ensures var v2 := SpawnReplicaAsWritten(SpawnReplicaAsWritten(v, "b"), "b");
      !Tracked(v2)
      && Build.Body(Some("player"), None, Vec3(0.0, 5.0, 0.0), 0, 4) in Enter(v2, Title, env).bodies
  {
    var v1 := SpawnReplicaAsWritten(v, "b");
    var v2 := SpawnReplicaAsWritten(v1, "b");
    var stale := Build.Body(Some("player"), None, Vec3(0.0, 5.0, 0.0), 0, 4);
    assert v1.bodies == LevelBodies + [stale] && v1.nextKey == 5;
    assert v2.replicas == map["b" := 5];
    assert v2.replicas.Keys == {"b"};
    assert 4 !in v2.replicas.Values;
    assert v2.bodies == LevelBodies + [stale, stale.(key := 5)];
    assert stale in v2.bodies;
    Build.ClearLevelKeeps(v2.bodies);
    RemoveKeysKeeps(Build.ClearLevel(v2.bodies), v2.replicas.Values, stale);
    assert Enter(v2, Title, env).bodies == Build.RemoveKeys(Build.ClearLevel(v2.bodies), v2.replicas.Values);
  }

  /**
   * As written, the second round's replica for "b" leaves the first one's body
   * (key 4) in the world, untracked. Nothing removes it later: clearLevel keeps
   * player bodies, and even the title screen's clean-up, which only runs at
   * start-up, would not find it.
   */
  lemma ReplicaLeakAsWritten(env: Env)
    ensures var v2 := SpawnReplicaAsWritten(SpawnReplicaAsWritten(TwoPlayerLobby(), "b"), "b");
      !Tracked(v2)
      && Build.Body(Some("player"), None, Vec3(0.0, 5.0, 0.0), 0, 4) in Enter(v2, Title, env).bodies
  {
    StaleReplicaSurvives(TwoPlayerLobby(), env);
  }

  /** Corrected, the same two rounds leave only the current replica, and the title screen removes it. */
  lemma ReplicaRespawnNoLeak(env: Env)
    ensures var v2 := SpawnReplica(SpawnReplica(TwoPlayerLobby(), "b"), "b");
      Tracked(v2)
      && forall b :: b in Enter(v2, Title, env).bodies && b.tag == Some("player") ==> b.key == LocalKey
  {
    var v0 := TwoPlayerLobby();
    SpawnReplicaKeepsInv(v0, "b");
    SpawnReplicaKeepsInv(SpawnReplica(v0, "b"), "b");
    TitleLeavesOnlyLocalPlayer(SpawnReplica(SpawnReplica(v0, "b"), "b"), env);
  }

  // ---------------------------------------------------------------------------
  // The invariant

  lemma EnterTitleKeepsInv(v: View, env: Env)
    requires Shape(v) && HostEntry(v) && v.state != Title
    ensures Inv(Enter(v, Title, env))
  {
    var cleared := Build.ClearLevel(v.bodies);
    Build.ClearLevelKeeps(v.bodies);
    Build.RemoveKeysSpec(cleared, v.replicas.Values);
    Lobby.ZeroTotalsKeepsRoster(v.lobby);
  }

  lemma EnterScoreKeepsInv(v: View, env: Env)
    requires Shape(v) && HostEntry(v) && v.state != Score
    ensures Inv(Enter(v, Score, env))
  {
    Scoring.CalculateUpdatesTotals(v.lobby, Results(v.(state := Score), env));
  }

  lemma EnterKeepsInv(v: View, s: GameState, env: Env)
    requires Shape(v) && HostEntry(v) && (v.state == s ==> Inv(v)) && s != Unset && s != GameOver
    ensures Inv(Enter(v, s, env))
  {
    if v.state != s && s == Title {
      EnterTitleKeepsInv(v, env);
    } else if v.state != s && s == Lobby {
      Build.ClearLevelKeeps(v.bodies);
    } else if v.state != s && s == Score {
      EnterScoreKeepsInv(v, env);
    }
  }

  lemma PlaceObjectKeepsInv(v: View, itemId: string, pos: Vec3, turns: int)
    requires Inv(v)
    ensures Inv(PlaceObject(v, itemId, pos, turns))
  {
  }

  lemma SnapshotKeepsInv(v: View, d: SnapshotData)
    requires Inv(v)
    ensures Inv(ApplySnapshot(v, d))
  {
    if d.id != v.myId && d.id in v.replicas {
      var r := Build.MoveBody(v.bodies, v.replicas[d.id], d.pos);
      forall b | b in r
        ensures b.tag == Some("ground") || b.tag == Some("goal") || b.tag == Some("player") || b.tag == Some("block")
        ensures b.tag == Some("player") && b.key != LocalKey ==> b.key in v.replicas.Values
      {
        var i :| 0 <= i < |r| && r[i] == b;
        assert v.bodies[i] in v.bodies;
      }
    }
  }

  lemma HandleItemPickedKeepsInv(v: View, i: int, pid: string, env: Env)
    requires Inv(v)
    ensures Inv(HandleItemPicked(v, i, pid, env))
  {
    var u := if 0 <= i < |v.boxItems| then v.(boxItems := v.boxItems[i := v.boxItems[i].(visible := false)]) else v;
    EnterKeepsInv(u.(selected := if 0 <= i < |u.boxItems| then Some(u.boxItems[i].itemId) else None), BuildView, env);
  }

  lemma ProcessPickKeepsInv(v: View, i: int, sender: string, env: Env)
    requires Inv(v)
    ensures Inv(ProcessPick(v, i, sender, env))
  {
    HandleItemPickedKeepsInv(Send(v.(available := v.available - {i}), Broadcast(ItemPicked(i, sender))), i, sender, env);
  }

  lemma StartRoundKeepsInv(v: View, env: Env)
    requires Inv(v)
    ensures Inv(StartRound(v, env))
  {
    SpawnAllFrame(v, v.lobby);
    EnterKeepsInv(SpawnAll(v, v.lobby), Pick, env);
  }

  lemma EventPlaceKeepsInv(v: View, pl: PlacePayload, sender: string, env: Env)
    requires Inv(v)
    ensures Inv(OnPacket(v, EventPlace(pl), sender, env))
  {
    if pl.playerId != v.myId {
      var u := PlaceObject(v, pl.itemId, PlacedAt(pl), RotOrZero(pl.rot));
      PlaceObjectKeepsInv(v, pl.itemId, PlacedAt(pl), RotOrZero(pl.rot));
      var w := u.(finished := u.finished + {pl.playerId});
      assert Inv(w);
      EnterKeepsInv(w, Countdown, env);
      assert Inv(CheckAllFinished(w, env));
    }
  }

  lemma FinishedRunKeepsInv(v: View, won: bool, sender: string, env: Env)
    requires Inv(v)
    ensures Inv(OnPacket(v, PlayerFinishedRun(won), sender, env))
  {
    EnterKeepsInv(v.(finished := v.finished + {sender}), Score, env);
  }

  lemma OnPacketKeepsInv(v: View, p: Packet, sender: string, env: Env)
    requires Inv(v)
    ensures Inv(OnPacket(v, p, sender, env))
  {
    match p
    case Welcome(ps, _) => EnterKeepsInv(v.(lobby := ps, ownEntry := false), Lobby, env);
    case StartGame => if !v.isHost { StartRoundKeepsInv(v, env); }
    case Snapshot(d) => SnapshotKeepsInv(v, d);
    case EventPlace(pl) => EventPlaceKeepsInv(v, pl, sender, env);
    case PickItem(i) => ProcessPickKeepsInv(v, i, sender, env);
    case ItemPicked(i, pid) => HandleItemPickedKeepsInv(v, i, pid, env);
    case PlayerFinishedRun(won) => FinishedRunKeepsInv(v, won, sender, env);
    case ShowScore(_) => EnterKeepsInv(v, Score, env);
    case _ =>
  }

  lemma PlaceClickKeepsInv(v: View, overlap: bool, env: Env)
    requires Inv(v) && v.state == BuildPlace
    ensures Inv(PlaceClick(v, overlap, env))
  {
    if v.preview.Some? && Truthy(v.selected) {
      var u := PlaceObject(v, v.selected.value, v.preview.value, v.rotation);
      PlaceObjectKeepsInv(v, v.selected.value, v.preview.value, v.rotation);
      var w := Send(u.(finished := u.finished + {u.myId}),
                    Broadcast(EventPlace(PlacePayload(v.selected.value, v.preview.value, Some(v.rotation), u.myId))));
      EnterKeepsInv(w, Countdown, env);
    }
  }

  lemma ClickKeepsInv(v: View, hit: Option<int>, overlap: bool, env: Env)
    requires Inv(v)
    ensures Inv(Click(v, hit, overlap, env))
  {
    if v.state == Pick && hit.Some? {
      ProcessPickKeepsInv(v, hit.value, v.myId, env);
    } else if v.state == BuildView {
      EnterKeepsInv(v, BuildPlace, env);
    } else if v.state == BuildPlace {
      PlaceClickKeepsInv(v, overlap, env);
    }
  }

  lemma KeyDownKeepsInv(v: View, key: string, code: string, target: Vec3, env: Env)
    requires Inv(v)
    ensures Inv(KeyDown(v, key, code, target, env))
  {
    EnterKeepsInv(v, BuildView, env);
    Build.RotationCycles(v.rotation);
  }

  lemma LocalStepKeepsInv(a: View, f: Frame, env: Env)
    requires Inv(a)
    ensures Inv(LocalStep(a, f, env))
  {
    var c := if a.state == Run && a.myId in a.finished then a
             else a.(local := InputEffect(a.local, f.x, f.y, f.jump, f.grounded));
    var (dead, fl) := DeathCheck(c.local, f.height);
    var d := c.(local := fl);
    EnterKeepsInv(Send(d.(finished := d.finished + {d.myId}), Broadcast(PlayerFinishedRun(fl.hasWon))), Score, env);
  }

  lemma CountdownStepKeepsInv(v: View, env: Env)
    requires Inv(v)
    ensures Inv(CountdownStep(v, env))
  {
    EnterKeepsInv(v.(timer := v.timer - FrameTime), Run, env);
  }

  lemma TickKeepsInv(v: View, f: Frame, env: Env)
    requires Inv(v)
    ensures Inv(Tick(v, f, env))
  {
    var t := v.(local := Contacts(v.local, v.bodies, f.touched));
    var a := if t.state == Countdown then CountdownStep(t, env) else t;
    CountdownStepKeepsInv(t, env);
    LocalStepKeepsInv(a, f, env);
  }

  /** Every event keeps the invariant. */
  lemma StepKeepsInv(v: View, e: Event, env: Env)
    requires Inv(v)
    ensures Inv(Step(v, e, env))
  {
    match e
    case Received(p, sender) => OnPacketKeepsInv(v, p, sender, env);
    case HostPressed(nickname) =>
      EnterKeepsInv(v.(isHost := true, lobby := [PlayerInfo(v.myId, nickname, "", true, false, 0)], ownEntry := true), Lobby, env);
    case StartPressed =>
      if v.state == Lobby && v.isHost && Lobby.AllReady(v.lobby) {
        StartRoundKeepsInv(Send(v, Broadcast(StartGame)), env);
      }
    case ScoreClosed =>
      if v.dialog.ScoreDialog? {
        StartRoundKeepsInv(Send(v.(dialog := NoDialog), Broadcast(StartGame)), env);
      }
    case WinClosed =>
      Lobby.ZeroTotalsKeepsRoster(v.lobby);
      EnterKeepsInv(v.(dialog := NoDialog, lobby := Lobby.ZeroTotals(v.lobby)), Lobby, env);
    case Clicked(hit, overlap) => ClickKeepsInv(v, hit, overlap, env);
    case Wheeled(deltaY) => Build.HeightStaysInRange(v.height, deltaY);
    case KeyPressed(key, code, target) => KeyDownKeepsInv(v, key, code, target, env);
    case Ticked(f) => TickKeepsInv(v, f, env);
    case _ =>
  }

  /** The game right after start-up is on the title screen and satisfies the invariant. */
  lemma StartInv(models: set<string>, env: Env)
    ensures Start(models, env).state == Title && Inv(Start(models, env))
  {
    var v := Initial(models);
    assert Shape(v) by {
      assert forall b :: b in v.bodies && b.tag == Some("player") ==> b.key == LocalKey;
    }
    EnterKeepsInv(v, Title, env);
  }

  /**
   * Every state the game can reach from start-up satisfies the invariant: in
   * particular it never enters GameOver, and no body is ever a bomb.
   */
  lemma {:induction false} ReachableInv(models: set<string>, env: Env, steps: seq<(Event, Env)>)
    ensures Inv(Replay(Start(models, env), steps))
  {
    if |steps| == 0 {
      StartInv(models, env);
    } else {
      ReachableInv(models, env, steps[..|steps| - 1]);
      StepKeepsInv(Replay(Start(models, env), steps[..|steps| - 1]), steps[|steps| - 1].0, steps[|steps| - 1].1);
    }
  }
}
