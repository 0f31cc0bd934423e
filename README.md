# Imposter party game: verified model of the game-logic core

This project models, in Dafny, the game-logic core of a small multiplayer
social-deduction party game. Players join a session, the host starts the game,
a shuffled subset of the players secretly become imposters, everyone answers a
question (imposters get a different one), everyone votes, results are shown,
and the session returns to its lobby for the next round.

The model has four modules:

- `Game` (`game_info.dfy`, after `backend/data/game_info.py`): the four
  lifecycle states, the `Player` record, the two completion predicates, the
  transition function `Advance`, and the round reset `ResetRoster`. The live
  session is the class `GameInfo`, whose methods `NextState` and `NewRound`
  change it in place and are proved against those two functions. `GameRecord`
  is the value of a session, which is what the session store keeps.
- `SessionId` (`session_id.dfy`, after `backend/main.py`): `rand_xyz` and the
  `xxx-xxx-xxx` session id. The inverse function `DrawOf` shows that ids and
  draws of nine letters correspond one to one.
- `Roles` (`roles.dfy`, after `backend/main.py`): role assignment as a
  function of the roster, the shuffled order and the imposter count. It comes
  with the proof that exactly max(0, min(k, N)) players become imposters,
  whatever the shuffle.
- `Server` (`server.dfy`, after `backend/main.py`): the session store as a
  class wrapping a map from id to session value, with `Get` and `Set`. The
  four commands create, join, start and push state each do get, change in
  place, then set. Each returns the events it emits, with their
  destinations, instead of sending them.

Randomness is taken as input:
- `randint` becomes the letter codes of successive id attempts.
- `shuffle` becomes `order`, any permutation of the roster's player ids.
- `uuid4` becomes the `playerId` parameter.
- The caller's connection handle (`request.sid`) is a parameter too.

The session class declares a field without a default (`imposters`) after one
with a default (`players`), and it names `Player` before `Player` is defined
(`backend/data/game_info.py:14-15`). Python would refuse both when the module
is loaded. The model gives the record the meaning evidently intended: every
field is set by the constructor, `players` starts empty and `current_state`
starts in LOBBY.

## Model

| member | source | states |
|---|---|---|
| `Game.NewPlayer` | backend/data/game_info.py:54-61 | a new player carries the given id, name, role flag and connection handle, and both submission flags start false |
| `Game.NewGame` | backend/data/game_info.py:11-18 | a new session holds its id, imposter count and two questions, has no players and is in LOBBY |
| `Game.AnswersSubmitted` | backend/data/game_info.py:20-21 | true of an empty roster; false if and only if some player has not answered |
| `Game.VotesSubmitted` | backend/data/game_info.py:23-24 | true of an empty roster; false if and only if some player has not voted |
| `Game.Advance` | backend/data/game_info.py:26-45 | a step either keeps the state or moves to the next state of the cycle LOBBY, QUESTION, VOTING, RESULTS; no step changes the session id, the imposter count, either question or the set of player ids |
| `Game.LobbyAdvancesUnguarded` | backend/data/game_info.py:30-31 | from LOBBY the step always reaches QUESTION, with no guard and whatever the roster (even empty), and the roster is kept |
| `Game.QuestionGuard` | backend/data/game_info.py:33-35 | from QUESTION the step reaches VOTING if and only if every player has answered; if any player has not, the session is unchanged |
| `Game.VotingGuard` | backend/data/game_info.py:37-39 | from VOTING the step reaches RESULTS if and only if every player has voted; if any player has not, the session is unchanged |
| `Game.EmptyRosterPassesGuards` | backend/data/game_info.py:20-24 | with no players both completion checks hold vacuously, so two steps from QUESTION reach RESULTS |
| `Game.ResultsStartsNewRound` | backend/data/game_info.py:41-43 | from RESULTS the step returns to LOBBY with the roster reset: the same player ids, names and connection handles, and every role, answer and vote flag false |
| `Game.AdvanceOnlyMovesState` | backend/data/game_info.py:30-39 | in LOBBY, QUESTION and VOTING a step changes the current state and nothing else |
| `Game.ClearedPlayer` | backend/data/game_info.py:49-52 | one player after the reset keeps its id, name and connection handle and has its role, answer and vote flags false |
| `Game.ResetRoster` | backend/data/game_info.py:47-52 | the reset keeps every player id and each player's id, name and connection handle, and clears the three flags of every player |
| `Game.ResetRosterIdempotent` | backend/data/game_info.py:47-52 | resetting twice gives the same roster as resetting once |
| `Game.GameInfo.constructor` | backend/data/game_info.py:11-18 | the object built from an id, an imposter count and two questions holds the new-session value: no players, LOBBY |
| `Game.GameInfo.Load` | backend/main.py:115 | reading a session from the store gives a new object holding exactly the stored value, as every handler does before changing it (also lines 68 and 91) |
| `Game.GameInfo.NewRound` | backend/data/game_info.py:47-52 | after the in-place loop the roster is the reset roster and every other field is unchanged |
| `Game.GameInfo.NextState` | backend/data/game_info.py:26-45 | the in-place step leaves the session equal to the transition table applied to its old value, and returns the state reached whether or not it moved |
| `SessionId.RandXyz` | backend/main.py:30-32 | the result has exactly three characters, each in 'a'..'z', each the character of the code drawn |
| `SessionId.GameId` | backend/main.py:49 | a generated id has length 11, hyphens at positions 3 and 7 and lower-case letters elsewhere |
| `SessionId.DrawOfGameId` | backend/main.py:49 | the nine letter codes can be read back out of the id they formatted |
| `SessionId.GameIdOfDrawOf` | backend/main.py:49 | every string of the id shape is the id of the draw read out of it, so the id space is all such strings |
| `SessionId.GameIdInjective` | backend/main.py:49 | two attempts give the same id if and only if they drew the same nine letters |
| `Roles.FirstImposters` | backend/main.py:100-101 | the player at position i of the shuffled roster is an imposter exactly when i is below the imposter count |
| `Roles.AssignRoles` | backend/main.py:97-101 | every player's role flag is overwritten and nothing else: the player ids are kept and each player differs only in that flag |
| `Roles.ImposterCount` | backend/main.py:97-101 | for any permutation of N players and count k, exactly max(0, min(k, N)) players are imposters; exactly k when 0 <= k <= N |
| `Server.GameCache.Get` | backend/main.py:68 | the store gives back a session exactly when it holds the id, and then the session stored under it (also lines 50, 91 and 115) |
| `Server.GameCache.Set` | backend/main.py:60 | storing a session puts it under its id and leaves every other entry as it was |
| `Server.FreshGameId` | backend/main.py:48-51 | the loop stops at the first attempt whose id the store does not hold; every earlier attempt collided; the id is well formed |
| `Server.HandleCreateGame` | backend/main.py:46-61 | the new id was not in the store; the store gains exactly that entry, a session with no players in LOBBY, imposter count defaulting to 1, questions defaulting to ""; the id is that of the first attempt the store did not hold, and every earlier attempt collided; the id goes back to the caller |
| `Server.CreateTwiceDistinct` | backend/main.py:48-60 | two create_game commands in a row hand out two different ids, both new to the store and both stored afterwards |
| `Server.JoinAddsOnePlayer` | backend/main.py:73-82 | joining under an unused player id adds exactly one player, an innocent with both flags false, and changes no other player or field |
| `Server.WithPlayer` | backend/main.py:73-81 | the session with the new player stored under its id, with no role and nothing submitted; every other player and every other field is kept |
| `Server.HandleJoinGame` | backend/main.py:63-86 | on an unknown game: "Game not found" to the caller and the store unchanged; otherwise the session is stored with the new player (name defaulting to "Player") and the join is announced to the game's room |
| `Server.RoleMessage` | backend/main.py:106-108 | a player is told "imposter" if and only if flagged an imposter, and "innocent" otherwise, with that role's question, on its own connection |
| `Server.RoleMessages` | backend/main.py:105-108 | one role message per player, in the shuffled order |
| `Server.AssignImposters` | backend/main.py:97-101 | the in-place loop over the shuffled roster leaves the roster equal to the role-assignment function, and every other field unchanged |
| `Server.HandleStartGame` | backend/main.py:88-110 | on an unknown game: "Game not found" to the caller and the store unchanged; otherwise the session is stored with roles assigned, each player gets its role message, and the imposter count goes to the room |
| `Server.HandlePushGameState` | backend/main.py:112-124 | on an unknown game: "Game not found" to the caller and the store unchanged; otherwise the session is stored one step on, and the room is told the state that step returned |

## Left out

- The web framework, cross-origin setup, the Socket.IO server and the connect and disconnect log handlers (backend/main.py:12-25, 38-44): transport plumbing.
- Sending events, `join_room` and room fan-out: handlers return the events with their destinations. Who is in a room is not modelled.
- The file-system cache's persistence, its 24-hour timeout and its 10000-entry eviction: the store is a plain map with get and set. Sessions in the model never expire.
- Parsing of the request payload: `game_id` is always a string, and `imposters` is always an integer when present. A request without `game_id` is not modelled.
- The distribution of `randint`, `shuffle` and `uuid4`: their results are inputs, so the fairness of role assignment is not stated.
- Server.FreshGameId: the loop runs over a finite list of attempts, and the random source must yield an unused id among them. The source's `while True` ends only with probability 1.
- Server.HandleJoinGame: a `uuid4` that repeats an existing player id overwrites that player, as the dict assignment does. `JoinAddsOnePlayer` states the fresh case only.
- Concurrent handlers interleaving get, change and set on one session: each handler is one atomic step.
- In Python the shuffled list holds the same Player objects as the session's dict. The model follows the list by player id instead. It therefore assumes each dict key equals its player's id, as join makes it.
- The unused `host_override` parameter of `next_state`.
- Start is not limited to the lobby, and join is allowed in any state. The model keeps this, as the code does.
