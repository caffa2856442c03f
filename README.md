# 3D Ultimate Chicken Horse: the game core in Dafny

This project models the logic of a small peer-to-peer party game in the style of
Ultimate Chicken Horse. One peer hosts and the others join it. The players pick
characters in a lobby. Each round then runs the same cycle:

- every player picks an item from a party box;
- every player places that item in a shared level;
- after a countdown, everybody runs the level;
- the host scores the round;
- the first player whose total reaches 50 wins the match.

The model covers the following parts of the game:

- **`Session` (session.dfy)**: the round and session rules of `src/core/Game.ts`.
  - A `View` holds the game's discrete state. That is the round state, the lobby list, the turn barrier, the build cursor, the party box, the physics bodies as the game logic sees them, the replica table, the local player's flags, and the packets sent so far (the outbox).
  - Every handler is a function from the old `View` to the new one. That covers each network packet, each click, the wheel, the keys, the per-frame update and the title, lobby and score screen callbacks.
  - `Replay` runs a whole history of such events.
- **`GameCore.Game` (game.dfy)**: the same game as a class whose fields the methods update in place.
  - `Game.V()` reads the fields as a `View`.
  - Every method is proved to produce exactly the new `View` that the `Session` function prescribes.
  - The source's loops stay loops: clearing the level, resetting totals, scoring, spawning the party box and spawning the replicas.
- **`SessionProps` (session_props.dfy)**: the properties of those rules.
  - The host-authoritative lobby, with unique ids and distinct characters.
  - Exclusive picks.
  - The placement and finish barriers.
  - Scoring and the win check.
  - An invariant that holds in every state reachable from start-up (`ReachableInv`).
  - The two defects listed under Findings.
- **Supporting modules**:
  - `Lobby`, `Build` and `Scoring`: the pure rules `Game.ts` applies.
  - `Players` (`src/objects/Player.ts`): the player's flags and the player class.
  - `Rigging` (`src/objects/character/CharacterRig.ts`): which animation action a rig plays.
  - `CharacterRegistry`, `Appearance`, `Input` (`src/core/InputManager.ts`) and `MathHelpers`.
  - `Palette` (`gen_palette.py`): the 32 x 32 colour atlas script.
  - `Protocol`: the packet vocabulary.

The model follows the code, including these points of its behaviour:

- The turn list `playersFinishedTurn` is cleared on entering PICK and COUNTDOWN, and not when placing starts.
- Nothing ever enters `GAME_OVER`. The win screen is shown while the host stays in SCORE, and dismissing it goes back to LOBBY. The host sends nothing to the clients at that point, so the clients stay on their score screens.
- The host relays every SNAPSHOT to all connections, the sender's own included. Each peer ignores its own snapshot.
- The host ignores the `won` field of PLAYER_FINISHED_RUN. It scores remote players from its own replicas.
- On the host, the first lobby entry is the very object that holds the host's own player info. A peer id that arrives after hosting therefore renames that entry too, and the host's character claim is written through it (`ownEntry` in the model).

## Model

| member | source | states |
|---|---|---|
| MathHelpers.Lerp | src/utils/MathHelpers.ts:2-4 | lerp gives start at t = 0 and end at t = 1, and moves from start by (end - start) * t |
| MathHelpers.LerpBetween | src/utils/MathHelpers.ts:2-4 | for t in [0, 1] the interpolated value lies between the endpoints, in either order |
| MathHelpers.Clamp | src/utils/MathHelpers.ts:6-8 | clamp lies in [min, max] when min <= max; it is the identity inside, min below, max above; with inverted bounds it is max |
| MathHelpers.ClampIdempotent | src/utils/MathHelpers.ts:6-8 | clamping twice with the same bounds equals clamping once |
| MathHelpers.ClampMonotone | src/utils/MathHelpers.ts:6-8 | a larger input never clamps to a smaller output |
| Appearance.StateNameInjective | src/objects/character/CharacterAppearance.ts:1-7 | distinct animation states have distinct names |
| CharacterRegistry.Find | src/objects/character/CharacterRegistry.ts:31 | `find` returns the first definition with the id, or none exactly when no definition has it |
| CharacterRegistry.GetCharacterAppearance | src/objects/character/CharacterRegistry.ts:28-33 | a known id gives its own definition; an unknown, null or undefined id gives the first (chicken) |
| CharacterRegistry.ListCharacterAppearances | src/objects/character/CharacterRegistry.ts:35-37 | the three definitions chicken, horse and raccoon in order, each with its model key equal to its id |
| CharacterRegistry.ListedAreFound | src/objects/character/CharacterRegistry.ts:28-37 | looking up any listed appearance by its id returns that appearance |
| CharacterRegistry.DefinitionIdsDistinct | src/objects/character/CharacterRegistry.ts:4-26 | the definitions' ids are pairwise distinct |
| Input.InputManager.constructor | src/core/InputManager.ts:2-3 | no key is known and there is no mouse movement |
| Input.InputManager.KeyDown | src/core/InputManager.ts:6-8 | the key reads as pressed and every other key is unchanged |
| Input.InputManager.KeyUp | src/core/InputManager.ts:10-12 | the key reads as released and every other key is unchanged |
| Input.InputManager.MouseMove | src/core/InputManager.ts:14-17 | the delta is overwritten (not accumulated) with the movement, a missing field counting as 0 |
| Input.InputManager.IsKeyPressed | src/core/InputManager.ts:24-26 | pressed exactly when the key was seen and is held; a key never seen is released |
| Input.InputManager.GetAxis | src/core/InputManager.ts:20-22 | +1 when only the positive key is held, -1 when only the negative one is, 0 when both or neither are |
| Input.InputManager.GetMouseDelta | src/core/InputManager.ts:28-33 | returns the pending delta and resets it to zero, so each movement is read once |
| Players.CollideEffects | src/objects/Player.ts:26-52 | a trap, black hole or turret kills and records the owner; the goal wins; contacts never revive, un-win or remove coins; the score rises only for an uncollected coin, by one |
| Players.CoinCountedOnce | src/objects/Player.ts:39-47 | touching the same coin twice adds exactly one point and marks it collected |
| Players.SetInputRules | src/objects/Player.ts:99-192 | once dead or won nothing changes; on the ground the animation is run or idle; a grounded jump starts the hold at 0; releasing jump ends it; airborne without a hold the animation is fall |
| Players.JumpTimeBounded | src/objects/Player.ts:178-184 | the jump-hold timer never passes MAX_JUMP_TIME plus one frame |
| Players.CheckDeathAgrees | src/objects/Player.ts:218-226 | checkDeath answers dead exactly when already dead or below y = -5, and marks that as dead, changing nothing else |
| Players.ResetIdempotent | src/objects/Player.ts:228-236 | resetPosition leaves the player alive, not won, with coins kept; resetting twice is resetting once |
| Players.Player.constructor | src/objects/Player.ts:8-20 | a new player is not jumping, alive, not won, with 0 coins and idle |
| Players.Player.OnCollide | src/objects/Player.ts:26-52 | the collide listener changes the player and the coin flag exactly as the contact rules say; a contact without user data changes nothing |
| Players.Player.SetInput | src/objects/Player.ts:99-192 | the player's new flags are the input rules applied to the old ones |
| Players.Player.CheckDeath | src/objects/Player.ts:218-226 | returns the death answer and leaves the flags the death check prescribes |
| Players.Player.ResetPosition | src/objects/Player.ts:228-236 | the flags become the reset of the old ones |
| Players.Player.Update | src/objects/Player.ts:57-60 | the rig plays the target action of the player's animation state, or keeps its current one when there is none |
| Rigging.SetIf | src/objects/character/CharacterRig.ts:80-89 | `if (cond) actions.set(key, k)`: the key is added or overwritten exactly when cond holds, and the other entries are kept |
| Rigging.Register | src/objects/character/CharacterRig.ts:76-89 | after one clip every name it is stored under maps to it, and every other entry is kept |
| Rigging.AddClip | src/objects/character/CharacterRig.ts:74-90 | the same for a clip name, lower-cased and scanned for the run, walk, jump, idle and die/death aliases |
| Rigging.ActionsLastWins | src/objects/character/CharacterRig.ts:74-90 | a name is registered exactly when some clip is stored under it, and then it names the last such clip |
| Rigging.RegisterClipActions | src/objects/character/CharacterRig.ts:74-90 | the registration loop builds that action map |
| Rigging.FirstPresent | src/objects/character/CharacterRig.ts:207-221 | the first registered name of a list and its action; none exactly when no name is registered |
| Rigging.TargetIsFirstOfChain | src/objects/character/CharacterRig.ts:207-221 | updateAnimation's target is the first registered name of the state's fallback chain, ending in the state's own name |
| Rigging.Candidates | src/objects/character/CharacterRig.ts:207-221 | every state's fallback chain ends in the state's own name |
| Rigging.OwnNameFound | src/objects/character/CharacterRig.ts:207-221 | a rig with an action registered under a state's own name always has a target for that state |
| Rigging.CharacterRig.CreateFromAppearance | src/objects/character/CharacterRig.ts:40-194 | a mixer exists exactly when a model with clips is loaded, and its actions are the registered map; procedural parts are built exactly when there is no mixer and no body node |
| Rigging.CharacterRig.UpdateAnimation | src/objects/character/CharacterRig.ts:201-231 | time advances by delta; with a mixer and a target the target becomes current, otherwise the current action is kept |
| Palette.HexDigit | gen_palette.py:20 | the value of a base-16 digit, below 16; the exact value is what HexRoundTrip uses |
| Palette.StripSpace | gen_palette.py:20 | int() trims whitespace: the result starts and ends with a non-space |
| Palette.HexValue | gen_palette.py:20 | a non-empty run of hex digits has a value below 16 to the power of its length; exact values are stated by ByteToHexValue and HexRoundTrip |
| Palette.ParseInt16 | gen_palette.py:20 | int(s, 16) of at most two characters lies in -15..255 when it succeeds; exact values are stated by ByteToHexValue |
| Palette.StripHashes | gen_palette.py:19 | lstrip('#') leaves no leading '#' |
| Palette.Slice | gen_palette.py:20 | a Python slice is at most j - i long; the slices hex2rgb reads are fixed by HexRoundTrip |
| Palette.Hex2Rgb | gen_palette.py:17-20 | every channel hex2rgb reads lies in -15..255 |
| Palette.ShortCodesRejected | gen_palette.py:17-20 | fewer than five characters after the '#'s make hex2rgb fail |
| Palette.ByteToHexValue | gen_palette.py:20 | two hex digits of a byte read back as that byte |
| Palette.HexRoundTrip | gen_palette.py:17-20 | writing a byte colour as #rrggbb and reading it with hex2rgb gives the colour back |
| Palette.HexCodeParses | gen_palette.py:17-20 | a # followed by six hex digits always reads as a colour of bytes |
| Palette.CodeColour | gen_palette.py:64 | a custom material's colour is hex2rgb of its code and lies in byte range |
| Palette.CellRect | gen_palette.py:22-28 | draw_cell's rectangle has corners CELL_SIZE apart in both directions, both inclusive as PIL draws them |
| Palette.PixelOwner | gen_palette.py:22-28 | every pixel is covered by cell (y / 32, x / 32), and every other cell covering it is drawn earlier, so that cell's colour wins |
| Palette.CustomMaterialsWellFormed | gen_palette.py:42-55 | six rows of 8 to 12 well-formed colour codes |
| Palette.LayoutFillsGrid | gen_palette.py:78-93 | 6 custom rows, 22 spectrum rows and 4 grey rows fill the 32 rows exactly |
| Palette.CustomRowPadding | gen_palette.py:65-68 | a custom row is padded to the edge with its last colour |
| Palette.GrayRamp | gen_palette.py:104 | the grey ramp runs from 0 to 255 and never decreases |
| Palette.SolidCellsAreBytes | gen_palette.py:101-119 | every solid cell, the warm and cool ramps with their capped channels included, is a valid 8-bit colour |
| Palette.DrawCell | gen_palette.py:22-28 | the cell gets the paint and no other cell changes |
| Palette.DrawCustomRow | gen_palette.py:60-69 | a custom row is drawn as the atlas prescribes, earlier rows kept |
| Palette.DrawSpectrum | gen_palette.py:80-93 | the spectrum rows are drawn, earlier rows kept |
| Palette.DrawRamps | gen_palette.py:101-119 | the two neutral, the warm and the cool rows are drawn, earlier rows kept |
| Palette.DrawPalette | gen_palette.py:42-119 | every cell of the 32 x 32 atlas ends up with the atlas's paint |
| Protocol.DeliveryRules | src/network/NetworkManager.ts:62-76 | a broadcast reaches every open connection; a send to a non-empty peer id reaches that peer alone and only over an open connection; a send to the empty id falls into the broadcast branch |
| Lobby.IndexOf | src/core/Game.ts:220 | the position of the first entry with the id; none exactly when no entry has it |
| Lobby.AdmitRules | src/core/Game.ts:176-203 | a listed peer's JOIN changes nothing; a new peer is appended with no character; ids stay unique |
| Lobby.SelectRules | src/core/Game.ts:217-236 | a request is granted exactly when the requester is listed and nobody else holds the character; only the requester's entry changes |
| Lobby.SelectKeepsDistinct | src/core/Game.ts:224-227 | granting requests never lets two players share a character |
| Lobby.FirstRequestWins | src/core/Game.ts:217-236 | of two requests for the same free character, the first is granted and the second refused |
| Lobby.ZeroTotalsKeepsRoster | src/core/Game.ts:736-738 | resetting totals keeps every player, in order, with their characters and readiness, and every total is 0 |
| Build.QuarterTurnSwapsSides | src/core/Game.ts:439-450 | a quarter turn swaps the wood block's footprint sides; two quarter turns restore it |
| Build.SnapAligns | src/core/Game.ts:464-465 | the snapped centre is within half a cell of the pointer and the item's edges fall on grid lines |
| Build.HalfExtentsShrinkFootprint | src/core/Game.ts:694-703 | the overlap box is the footprint shrunk by 0.05 per side, so touching neighbours do not overlap |
| Build.RotationCycles | src/core/Game.ts:583 | KeyQ keeps the rotation in 0..3 and four presses come back to the start |
| Build.HeightStaysInRange | src/core/Game.ts:559-565 | scrolling down lowers and scrolling up raises the build height by one, within 0..15 |
| Build.ClearLevelKeeps | src/core/Game.ts:960-974 | clearLevel keeps exactly the untagged, ground, goal and player bodies |
| Build.ClearLevelIdempotent | src/core/Game.ts:960-974 | clearing a cleared level changes nothing |
| Build.AllKeptUnchanged | src/core/Game.ts:960-974 | a level with only kept bodies is left as it is |
| Build.RemoveKeysSpec | src/core/Game.ts:743-747 | removing bodies by key keeps exactly the bodies with other keys |
| Build.MoveBody | src/core/Game.ts:420-431 | the body with the key lands at the position keeping its tag, owner, turns and key; every other body is unchanged |
| Build.ClearLevelLeavesFixtures | src/core/Game.ts:960-974 | after clearLevel no placed block is left |
| Build.BodyWithKey | src/objects/Player.ts:27-28 | the body a collide event names: a body of the world with that key, or none exactly when no body has it |
| Scoring.RoundPoints | src/core/Game.ts:1057-1059 | 10 for the goal plus 2 per coin: even, at least twice the coins |
| Scoring.Calculate | src/core/Game.ts:1048-1081 | one lobby entry per player and at most one score line each (the lines' order is stated by CalculateInLobbyOrder) |
| Scoring.CalculateUpdatesTotals | src/core/Game.ts:1051-1070 | each present player's total grows by its round points and an absent one's is unchanged, so totals never decrease |
| Scoring.LineHasOwner | src/core/Game.ts:1056-1077 | every score line belongs to a present player, with its nickname, new total and added points |
| Scoring.OwnerHasLine | src/core/Game.ts:1056-1077 | every present player has such a score line |
| Scoring.CalculateInLobbyOrder | src/core/Game.ts:1048-1081 | the score lines are exactly one per present player, in lobby order, absent players skipped |
| Scoring.NoWinnerIffNobodyReaches | src/core/Game.ts:924 | no winner exactly when no present player's new total reaches GOAL_SCORE |
| Scoring.WinnerIsFirstInLobby | src/core/Game.ts:924 | the winner's line is that of the first player in lobby order whose new total reaches GOAL_SCORE |
| Scoring.FindWinner | src/core/Game.ts:924 | the first line at or above GOAL_SCORE; none exactly when no line reaches it |
| Session.Slots | src/core/Game.ts:1384-1399 | generatePartyBoxItems makes lobby size + 2 slots |
| Session.Spawned | src/core/Game.ts:1417-1431 | no more items are shown than slots sent |
| Session.CheckAllFinished | src/core/Game.ts:312-316 | below the lobby size nothing changes; at or above it the countdown starts with 3 s, an empty turn list and no preview |
| SessionProps.EnterReaches | src/core/Game.ts:725-729 | setState lands in the requested state, is a no-op for the current one, and drops the preview outside the build phases |
| SessionProps.PickResets | src/core/Game.ts:795-818 | PICK resets the local player, the turn list, the selection and the rotation; the host broadcasts lobby size + 2 wood-block slots |
| SessionProps.SlotsAreWood | src/core/Game.ts:1382-1399 | every generated slot is the wood block at its own random position |
| SessionProps.CountdownResets | src/core/Game.ts:857-904 | COUNTDOWN sets the timer to 3 and empties the turn list for the run |
| SessionProps.JoinRules | src/core/Game.ts:176-203 | only the host admits a new peer, welcomes it with the list and state, and broadcasts the list; ids stay unique |
| SessionProps.CharacterSelectRules | src/core/Game.ts:217-236 | the host applies a listed sender's request and always broadcasts the list; ids and characters stay distinct |
| SessionProps.HostSelectRules | src/core/Game.ts:332-349 | the host takes a free character (writing the shared first entry when there is one) and broadcasts, or does nothing for a taken one; with the shared entry carrying its id this is exactly a client request's update, and characters stay distinct; a client only sends CHARACTER_SELECT |
| SessionProps.ClaimOwnIsSelect | src/core/Game.ts:335-339 | while the host's shared entry carries its id, the two writes of its claim land on one entry, the same update a granted request makes |
| SessionProps.IdAssignedRules | src/core/Game.ts:167-172 | the id is recorded; on a host whose info is shared with the first entry, that entry is renamed and nothing else in the list changes; otherwise the list is untouched |
| SessionProps.HostGameRules | src/core/Game.ts:761-772 | from the title screen hosting gives LOBBY, host, a list holding only this peer under its current id with its nickname and no character, shared with its own info, and sends nothing; elsewhere it does nothing |
| SessionProps.JoinGameRules | src/core/Game.ts:773-787 | from the title screen joining sends exactly JOIN with the nickname to the host, clears host, and changes nothing else; elsewhere it does nothing |
| SessionProps.HostBeforeId | src/core/Game.ts:167-172 | hosting before the peer id arrives, then the id, then a character: the host's entry carries the id and the character, and the start button starts the round |
| SessionProps.SpawnAllFrame | src/core/Game.ts:364-376 | spawning replicas changes no state, lobby, outbox or dialog, and keeps the invariant |
| SessionProps.StartGating | src/core/Game.ts:350-358 | the start button works only for the host in the lobby once everybody has a character, sending START_GAME first |
| SessionProps.StartRoundFrame | src/core/Game.ts:364-378 | startGame ends in PICK after whatever was already sent |
| SessionProps.EnterKeepsOutbox | src/core/Game.ts:725-958 | setState only appends to what was sent |
| SessionProps.FinishBarrier | src/core/Game.ts:285-299 | the host records a finished sender and enters SCORE exactly once everybody listed has finished; it ignores its own report; clients ignore all reports |
| SessionProps.EventPlaceRules | src/core/Game.ts:255-268 | a peer drops its own echo; otherwise it places the block, counts the placer, starts the countdown at the barrier, and the host relays the packet |
| SessionProps.ListReplaced | src/core/Game.ts:205-215 | WELCOME and LOBBY_UPDATE replace the list wholesale, so it no longer holds this peer's own info object; WELCOME moves to LOBBY |
| SessionProps.SnapshotRules | src/core/Game.ts:243-253 | a snapshot moves exactly the sender's replica, never this peer's own, and the host relays every snapshot |
| SessionProps.SpawnBoxRules | src/core/Game.ts:1411-1432 | the available set is exactly the indices of loaded slots; with all models loaded the shown items match the slots one for one |
| SessionProps.SpawnedAllLoaded | src/core/Game.ts:1417-1431 | with every model loaded each slot is shown, in order |
| SessionProps.BuildClickRules | src/core/Game.ts:623-670 | a click in BUILD_VIEW moves to placing at height 8; an invalid placing click, or a click in another phase, changes nothing |
| SessionProps.PlaceClickBarrier | src/core/Game.ts:626-665 | a valid placement counts this peer; the countdown starts exactly when everybody has placed, otherwise the preview goes |
| SessionProps.RunFinishRules | src/core/Game.ts:1312-1339 | death or the goal counts the local player finished and broadcasts it; only the host at the barrier enters SCORE |
| SessionProps.ContactsRules | src/objects/Player.ts:26-52 | the physics step's contacts: a goal contact wins; no contact revives, un-wins or takes coins; in a level of the game's own tags (ground, goal, player, block) the goal is the only contact with an effect |
| SessionProps.GoalContactFinishesRun | src/core/Game.ts:1210-1339 | a goal contact in RUN before finishing makes the local player win, counts it finished and broadcasts PLAYER_FINISHED_RUN(won = true) in the same frame; if that completes the host's barrier, SCORE is entered and the host's score lines use the winning flags as its own result |
| SessionProps.WonRunFinishes | src/core/Game.ts:1312-1339 | a local player that has won finishes in the next finish check, announcing a won run |
| SessionProps.TitleResets | src/core/Game.ts:731-758 | TITLE zeroes every total and the local score, removes every placed block, and forgets every replica |
| SessionProps.PickClickRules | src/core/Game.ts:593-622 | the host processes its own pick directly; a client sends PICK_ITEM |
| SessionProps.ItemPickedRules | src/core/Game.ts:1450-1465 | ITEM_PICKED hides the item everywhere; only the picker selects it and enters BUILD_VIEW |
| SessionProps.PickOnce | src/core/Game.ts:1434-1448 | the first request for an available item takes it and is announced once; later requests change nothing |
| SessionProps.ScoreRules | src/core/Game.ts:906-941 | the host updates the totals, shows and broadcasts the score lines, which are one per present player in lobby order; a client only changes state |
| SessionProps.ResultsCover | src/core/Game.ts:1051-1056 | round results hold the local flags under this peer's id and every replica's final flags |
| SessionProps.ScoreRevealedRules | src/core/Game.ts:922-939 | with a line at GOAL_SCORE the first such line's player is shown as winner and nothing is sent; otherwise START_GAME is sent and the next round starts |
| SessionProps.HostNamesFirstToReach | src/core/Game.ts:906-939 | a round the host scores ends, when the score screen closes, with the first player in lobby order whose new total reaches GOAL_SCORE named winner, or with the next round when nobody reaches it |
| SessionProps.WinDismissedRules | src/core/Game.ts:928-934 | dismissing the win screen zeroes the totals, keeps the players and returns to LOBBY without sending anything |
| SessionProps.KeyDownRules | src/core/Game.ts:576-590 | Escape leaves placing for viewing; KeyQ turns the item a quarter turn; neither acts outside placing |
| SessionProps.PreviewSnaps | src/core/Game.ts:452-476 | the preview sits at the build height plus half a cell, within half a cell of the pointer, edges on grid lines |
| SessionProps.PlacementAgrees | src/core/Game.ts:626-652 | a valid click places the block at the preview and announces exactly that; a receiving peer builds the same block at the same place |
| SessionProps.PlacementAsWrittenDisagrees | src/core/Game.ts:259 | as written the receiver puts every relayed block at z = 0 |
| SessionProps.RemoveKeysKeeps | src/core/Game.ts:743-747 | a body survives removal by key exactly when its key is not removed |
| SessionProps.SpawnReplicaKeepsInv | src/core/Game.ts:380-405 | spawning a replica (old body removed) keeps every remote body tracked |
| SessionProps.TitleLeavesOnlyLocalPlayer | src/core/Game.ts:743-758 | with every remote body tracked, TITLE leaves only the local player's body |
| SessionProps.ReplicaLeakAsWritten | src/core/Game.ts:380-405 | as written a second round's replica leaves the first's body in the world untracked, and nothing removes it: clearLevel keeps it, and even the title screen's clean-up would not |
| SessionProps.ReplicaRespawnNoLeak | src/core/Game.ts:380-405 | corrected, two rounds leave only the current replica, which TITLE removes |
| SessionProps.EnterKeepsInv | src/core/Game.ts:725-958 | setState into a real state keeps the invariant |
| SessionProps.EnterTitleKeepsInv | src/core/Game.ts:731-758 | entering TITLE keeps the invariant: totals are zeroed without renaming anyone, and only tracked or fixed bodies remain |
| SessionProps.EnterScoreKeepsInv | src/core/Game.ts:906-941 | entering SCORE keeps the invariant: scoring changes totals only |
| SessionProps.PlaceObjectKeepsInv | src/core/Game.ts:982-1046 | placing a block keeps the invariant |
| SessionProps.SnapshotKeepsInv | src/core/Game.ts:420-431 | moving a replica keeps the invariant |
| SessionProps.HandleItemPickedKeepsInv | src/core/Game.ts:1450-1465 | handling a pick keeps the invariant |
| SessionProps.ProcessPickKeepsInv | src/core/Game.ts:1434-1448 | processing a pick request keeps the invariant |
| SessionProps.StartRoundKeepsInv | src/core/Game.ts:364-378 | startGame keeps the invariant |
| SessionProps.EventPlaceKeepsInv | src/core/Game.ts:255-268 | EVENT_PLACE keeps the invariant |
| SessionProps.FinishedRunKeepsInv | src/core/Game.ts:285-299 | PLAYER_FINISHED_RUN keeps the invariant |
| SessionProps.OnPacketKeepsInv | src/core/Game.ts:174-309 | every packet keeps the invariant |
| SessionProps.ClickKeepsInv | src/core/Game.ts:592-676 | every click keeps the invariant |
| SessionProps.PlaceClickKeepsInv | src/core/Game.ts:626-670 | a placing click keeps the invariant |
| SessionProps.KeyDownKeepsInv | src/core/Game.ts:576-590 | every key keeps the invariant |
| SessionProps.LocalStepKeepsInv | src/core/Game.ts:1248-1339 | the local player's frame keeps the invariant |
| SessionProps.CountdownStepKeepsInv | src/core/Game.ts:1229-1245 | a countdown frame keeps the invariant |
| SessionProps.TickKeepsInv | src/core/Game.ts:1210-1380 | every frame keeps the invariant |
| SessionProps.StepKeepsInv | src/core/Game.ts:166-676 | every packet, callback, input and frame keeps the invariant |
| SessionProps.StartInv | src/core/Game.ts:155 | start-up ends on the title screen in a state satisfying the invariant |
| SessionProps.ReachableInv | src/core/Game.ts:14-24 | every reachable state is a real round state (never GAME_OVER), with rotation in 0..3, height in 0..15, no bomb body, every remote body tracked, and the host's shared first entry carrying this peer's id |
| GameCore.Game.constructor | src/core/Game.ts:1120-1205 | the level's fixed bodies and the local player, then the title screen, as the start-up rules prescribe |
| GameCore.Game.ClearLevel | src/core/Game.ts:960-974 | the loop removes exactly the bodies clearLevel does not keep |
| GameCore.Game.RemoveBodies | src/core/Game.ts:743-747 | the loop removes exactly the bodies with the given keys |
| GameCore.Game.ZeroTotals | src/core/Game.ts:736-738 | every total set to 0 in place |
| GameCore.Game.CalculateScores | src/core/Game.ts:1048-1081 | the in-place loop yields the scoring function's totals and score lines |
| GameCore.Game.SpawnPartyBoxItems | src/core/Game.ts:1411-1432 | the loop shows the loaded slots and makes their indices available |
| GameCore.Game.GeneratePartyBoxItems | src/core/Game.ts:1382-1409 | the loop generates lobby size + 2 slots, spawns them and broadcasts them |
| GameCore.Game.SpawnRemotePlayer | src/core/Game.ts:380-405 | a new replica body for the player, its previous one removed |
| GameCore.Game.StartGame | src/core/Game.ts:364-378 | the loop spawns a replica for every other listed player, then PICK |
| GameCore.Game.SetState | src/core/Game.ts:725-958 | setState's effect is the state rules' entry actions for the new state |
| GameCore.Game.GoTitle | src/core/Game.ts:731-758 | TITLE's entry actions |
| GameCore.Game.GoLobby | src/core/Game.ts:790-793 | LOBBY's entry actions |
| GameCore.Game.GoPick | src/core/Game.ts:795-818 | PICK's entry actions |
| GameCore.Game.GoBuildView | src/core/Game.ts:820-848 | BUILD_VIEW's entry actions |
| GameCore.Game.GoBuildPlace | src/core/Game.ts:850-855 | BUILD_PLACE's entry actions |
| GameCore.Game.GoCountdown | src/core/Game.ts:857-904 | COUNTDOWN's entry actions |
| GameCore.Game.GoScore | src/core/Game.ts:906-941 | SCORE's entry actions |
| GameCore.Game.EnterTitleHere | src/core/Game.ts:736-758 | totals zeroed, level cleared, replicas removed, local player reset with no coins |
| GameCore.Game.EnterPickHere | src/core/Game.ts:798-818 | local player reset, turn list emptied, no selection, rotation 0, the host's party box |
| GameCore.Game.EnterScoreHere | src/core/Game.ts:915-922 | the host's totals, score lines, SHOW_SCORE and score screen |
| GameCore.Game.CheckAllPlayersFinished | src/core/Game.ts:312-316 | the barrier check |
| GameCore.Game.PlaceObject | src/core/Game.ts:982-1046 | a block body for the loaded wood block, nothing otherwise |
| GameCore.Game.HandleItemPicked | src/core/Game.ts:1450-1465 | handleItemPicked |
| GameCore.Game.ProcessPickRequest | src/core/Game.ts:1434-1448 | processPickRequest |
| GameCore.Game.OnPacket | src/core/Game.ts:174-309 | the packet dispatch |
| GameCore.Game.OnJoin | src/core/Game.ts:176-203 | JOIN |
| GameCore.Game.OnWelcome | src/core/Game.ts:205-210 | WELCOME |
| GameCore.Game.OnCharacterSelect | src/core/Game.ts:217-236 | CHARACTER_SELECT |
| GameCore.Game.OnSnapshot | src/core/Game.ts:243-253 | SNAPSHOT |
| GameCore.Game.OnEventPlace | src/core/Game.ts:255-268 | EVENT_PLACE, with the block at the payload's position |
| GameCore.Game.OnPlayerFinishedRun | src/core/Game.ts:285-299 | PLAYER_FINISHED_RUN |
| GameCore.Game.IdAssigned | src/core/Game.ts:167-172 | the assigned id is recorded, and the host's shared first entry renamed with it |
| GameCore.Game.HostGame | src/core/Game.ts:761-772 | the host button |
| GameCore.Game.JoinGame | src/core/Game.ts:773-787 | the join button |
| GameCore.Game.SelectCharacter | src/core/Game.ts:332-349 | the character button: the host's claim through its shared entry and by id, or a client's request |
| GameCore.Game.RequestStart | src/core/Game.ts:350-358 | the start button |
| GameCore.Game.ScoreRevealed | src/core/Game.ts:922-939 | the score screen's callback |
| GameCore.Game.WinDismissed | src/core/Game.ts:928-934 | the win screen's callback |
| GameCore.Game.GhostFollow | src/core/Game.ts:452-476 | the preview follows the snapped pointer |
| GameCore.Game.MouseMove | src/core/Game.ts:501-502 | mousemove while placing |
| GameCore.Game.Wheel | src/core/Game.ts:558-574 | the wheel |
| GameCore.Game.KeyDown | src/core/Game.ts:576-590 | the keys |
| GameCore.Game.Click | src/core/Game.ts:592-676 | the click |
| GameCore.Game.PickClick | src/core/Game.ts:593-622 | the click in PICK |
| GameCore.Game.PlaceClick | src/core/Game.ts:626-670 | the click in BUILD_PLACE |
| GameCore.Game.MarkPlaced | src/core/Game.ts:631-649 | the block placed, this peer counted, EVENT_PLACE broadcast |
| GameCore.Game.LocalStep | src/core/Game.ts:1248-1339 | the local player's frame |
| GameCore.Game.FinishCheck | src/core/Game.ts:1312-1339 | the run's finish check |
| GameCore.Game.CountdownStep | src/core/Game.ts:1229-1245 | a countdown frame |
| GameCore.Game.Collisions | src/core/Game.ts:1211 | the physics step's collide events on the local body, each passed to the player's listener: the local flags become Contacts of the touched bodies, and nothing else changes |
| GameCore.Game.Update | src/core/Game.ts:1210-1380 | update: the step's contacts, countdown, local player, finish check and snapshot |
| GameCore.SpawnedIndicesStep | src/core/Game.ts:1417-1431 | one more slot's index is available exactly when its model is loaded |

Every `GameCore.Game` method's contract says that its new state is the matching `Session` function of the old state. The properties of those functions are the `SessionProps` rows.

## Left out

- Rendering, cameras, meshes, materials, clouds, messages and the UI screens are left out. Their callbacks are modelled as events.
- Physics is left out: forces, velocities, the step's integration, the collision geometry and the quaternions. The facts the logic reads from physics are parameters: the keys of the bodies the local body touched in the frame's step (`Frame.touched`, whose collide events the player's listener handles), the ground test, the body's height and position, the overlap test of isValidPlacement and each remote replica's final flags (`Env.replicaResult`).
- Session.Touch: every body the game creates carries user data without a `collected` field, so each contact is passed as not collected and `Build.Body` keeps no such flag. No code creates a trap, black hole, turret, spring or coin body, so in every reachable state the goal is the only contact that changes the local player (`ContactsRules`, with the known tags that `ReachableInv` guarantees), and no contact adds a coin.
- The party box's random poses come from a parameter (`Env.slotPose`).
- The raycast that finds the clicked party-box item is the parameter `hit`, its index.
- The mouse ray's point on the build plane is the parameter `target`.
- Floating point is modelled as exact reals. The countdown subtracts exactly 1/60 per frame.
- `updateLocalPlayerModel`, the character meshes and `updateGhostRotation` only change visuals, so they are left out.
- Bombs: no code path creates a body tagged 'bomb', and `ReachableInv` proves that none exists. The COUNTDOWN explosion pass therefore never acts and is left out.
- Spectator free-look and pointer lock are left out.
- The snapshot's orientation quaternion and its `anim` field are left out.
- The `players` map is modelled by the `replicas` map plus the single local player. The local player's entry lives under the key 'local'. A remote peer whose id is 'local' is not modelled.
- Bodies are values with a key standing for object identity.
- GameCore.Game.Update, GameCore.Game.EnterScoreHere: Game.ts builds every player with `new Player(playerGroup, playerBody)` (Game.ts:404 and 1204) and reads and writes `player.mesh` (Game.ts:412-429, 745, 911, 1296), but the Player class of src/objects/Player.ts extends the rig-based Character, whose constructor takes `(rig, body)` and has no `mesh`. As written, `localPlayer.mesh.position` at Game.ts:1296 and `player.mesh.visible` at Game.ts:911 would fail. The model assumes that Player exposes the group Game.ts builds it with, so these visual updates succeed and are left out.
- Session.JoinGame: the connection wait is collapsed, so JOIN is queued as soon as the join button is pressed. The source sends it when the connection opens.
- Session.Tick: the snapshot is recorded whenever the peer has an id. The local player's existence is not checked, because it always exists after start-up.
- Players.Player.SetInput: velocities, wall sliding and orientation are physics and are not part of the contract, which covers the flags only.
- Players.Player.OnCollide: the spring's bounce velocity and the conveyor's push are physics and are not part of the contract.
- Rigging.CharacterRig.CreateFromAppearance: which node becomes the head, wings and legs, and the procedural parts' geometry and colours, are left out. Only the body-node test is modelled.
- Rigging.CharacterRig.UpdateAnimation: the procedural pose of each state (sines of the time) is rendering and is left out. Fades are left out too.
- GameCore.Game.OnEventPlace, GameCore.Game.SpawnRemotePlayer, GameCore.Game.StartGame, Session.OnPacket, Session.SpawnReplica, SessionProps.EventPlaceRules, SessionProps.ReachableInv: these model the game with both Findings corrected (a relayed block at its placer's z, and a replica's previous body removed before respawning). The code as written is modelled beside them by Session.PlacedAtAsWritten and Session.SpawnReplicaAsWritten, and SessionProps.PlacementAsWrittenDisagrees and SessionProps.ReplicaLeakAsWritten show where it differs.
- Rigging.Lower: lower-casing covers ASCII letters only.
- Palette.IsSpace: only ASCII whitespace is recognised, not the Unicode whitespace Python's int() also trims. Likewise Palette.HexDigit accepts ASCII hex digits only, while int(s, 16) also accepts non-ASCII decimal digits (such as Arabic-Indic digits).
- Palette.GrayValue: the ramp uses the integer form 255 * c / 31 of int((c / 31) * 255). The two agree for every column, because 255 * c / 31 is never an integer for 0 < c < 31.
- Palette.DrawSpectrum: the HSV colours stay symbolic (row and column). colorsys is floating point.
- Palette.DrawPalette: the model works at the resolution of cells. PIL's pixel filling and the PNG file are left out.
- Resources, NetworkManager's connection handling, Loop, UIManager, PlaceholderGenerator, ToonUtils, PhysicsWorld and BodyFactory are not part of this model, except where `Protocol.Recipients` describes whom NetworkManager.send reaches.

## Findings

| source | as written | input that shows it | evidently intended | confidence | as-written member | corrected member |
|---|---|---|---|---|---|---|
| src/core/Game.ts:259 | the EVENT_PLACE handler builds the position from `packet.p.z`, a field the payload does not have, so z falls back to 0 | a block placed at (0.5, 8.5, 12) is rebuilt by every other peer at (0.5, 8.5, 0) | use `packet.p.pos.z`, so every peer builds the block where its placer did | not executed | SessionProps.PlacementAsWrittenDisagrees (on Session.PlacedAtAsWritten) | SessionProps.PlacementAgrees (on Session.PlacedAt) |
| src/core/Game.ts:380-405 | spawnRemotePlayer, which startGame calls every round, adds a new replica body and overwrites the map entry without removing the previous body | a lobby of host "a" and remote player "b" playing two rounds: the first replica body (key 4) stays in the world untracked for the rest of the session, since clearLevel keeps player bodies | remove the player's previous replica body before spawning a new one | not executed | SessionProps.ReplicaLeakAsWritten (on Session.SpawnReplicaAsWritten) | SessionProps.ReplicaRespawnNoLeak and SessionProps.SpawnReplicaKeepsInv (on Session.SpawnReplica) |
