/**
 * The session directory and the four game commands of backend/main.py, with the
 * transport stripped off.
 *
 * The session store is a `GameCache` wrapping a map from session id to the stored value
 * of a session. Every handler follows the source's get -> change -> set pattern on a live
 * `GameInfo` object loaded from the store, and returns the events it emits, each with
 * its destination, instead of sending them.
 *
 * Randomness is an input: the letter codes of successive id attempts (`randint`), the
 * shuffled order of the roster (`shuffle`) and the new player's id (`uuid4`). The
 * connection handle of the caller (`request.sid`) is an input too.
 */
module Server {
  import opened Game
  import opened SessionId
  import opened Roles

  datatype Option<T> = None | Some(value: T) {
    function GetOr(default: T): T {
      match this
      case Some(v) => v
      case None => default
    }
  }

  /** The payloads the handlers emit. */
  datatype Event =
    | GameCreated(gameId: string)
    | Error(message: string)
    | PlayerJoined(playerId: string, name: string)
    | RoleAssigned(role: string, question: string)
    | GameStarted(imposters: int)
    | GameStateUpdated(currentState: GameState)

  /** Where an event goes: back to the caller only, to every member of a game's room, or to one connection. */
  datatype Target = Caller | Room(gameId: string) | Channel(sid: string)

  datatype Emit = Emit(event: Event, to: Target)

  /** The reply to any command that names a session id the store does not hold. */
  const NotFound := Emit(Error("Game not found"), Caller)

  /** The session store: get returns nothing for an unknown id, set inserts or overwrites. */
  class GameCache {
    var entries: map<string, GameRecord>

    constructor ()
      ensures entries == map[]
    {
      entries := map[];
    }

    function Get(gameId: string): (r: Option<GameRecord>)
      reads this
      ensures r.Some? <==> gameId in entries
      ensures r.Some? ==> r.value == entries[gameId]
    {
      if gameId in entries then Some(entries[gameId]) else None
    }

    method Set(gameId: string, g: GameRecord)
      modifies this
      ensures entries == old(entries)[gameId := g]
    {
      entries := entries[gameId := g];
    }
  }

  /**
   * The id retry loop of game creation: format one attempt after another and stop at the
   * first id the store does not hold. The random source is assumed to produce an unused id
   * within the attempts given.
   */
  method FreshGameId(taken: map<string, GameRecord>, attempts: seq<seq<int>>) returns (gameId: string, tries: nat)
    requires forall i | 0 <= i < |attempts| :: IsDraw(attempts[i])
    requires exists i | 0 <= i < |attempts| :: GameId(attempts[i]) !in taken
    ensures tries < |attempts| && gameId == GameId(attempts[tries])
    ensures gameId !in taken && IsGameId(gameId)
    ensures forall i | 0 <= i < tries :: GameId(attempts[i]) in taken
  {
    tries := 0;
    while true
      invariant tries < |attempts|
      invariant forall i | 0 <= i < tries :: GameId(attempts[i]) in taken
      invariant exists i | tries <= i < |attempts| :: GameId(attempts[i]) !in taken
      decreases |attempts| - tries
    {
      gameId := GameId(attempts[tries]);
      if gameId !in taken {
        return;
      }
      tries := tries + 1;
    }
  }

  /**
   * create_game: a new session in the lobby with no players under an id the store did not
   * hold; the imposter count defaults to 1 and both questions to the empty string.
   */
  method HandleCreateGame(
    cache: GameCache,
    attempts: seq<seq<int>>,
    imposters: Option<int>,
    innQuestion: Option<string>,
    impQuestion: Option<string>)
    returns (out: seq<Emit>)
    requires forall i | 0 <= i < |attempts| :: IsDraw(attempts[i])
    requires exists i | 0 <= i < |attempts| :: GameId(attempts[i]) !in cache.entries
    modifies cache
    ensures |out| == 1 && out[0].event.GameCreated? && out[0].to == Caller
    ensures var gameId := out[0].event.gameId;
      && IsGameId(gameId)
      && gameId !in old(cache.entries)
      && cache.entries == old(cache.entries)[gameId :=
           NewGame(gameId, imposters.GetOr(1), innQuestion.GetOr(""), impQuestion.GetOr(""))]
    ensures exists t | 0 <= t < |attempts| ::
      && out[0].event.gameId == GameId(attempts[t])
      && forall i | 0 <= i < t :: GameId(attempts[i]) in old(cache.entries)
  {
    var gameId, tries := FreshGameId(cache.entries, attempts);
    var game := new GameInfo(gameId, imposters.GetOr(1), innQuestion.GetOr(""), impQuestion.GetOr(""));
    cache.Set(gameId, game.Record());
    out := [Emit(GameCreated(gameId), Caller)];
    assert out[0].event.gameId == GameId(attempts[tries]);
  }

  /**
   * Two create_game commands in a row hand out different ids: the first id is in the store
   * by the time the second loop probes it. The second command's random source must yield an
   * id that is neither stored already nor one of the first command's attempts.
   */
  method CreateTwiceDistinct(
    cache: GameCache,
    attempts1: seq<seq<int>>,
    attempts2: seq<seq<int>>,
    imposters: Option<int>,
    innQuestion: Option<string>,
    impQuestion: Option<string>)
    returns (id1: string, id2: string)
    requires forall i | 0 <= i < |attempts1| :: IsDraw(attempts1[i])
    requires forall i | 0 <= i < |attempts2| :: IsDraw(attempts2[i])
    requires exists i | 0 <= i < |attempts1| :: GameId(attempts1[i]) !in cache.entries
    requires exists i | 0 <= i < |attempts2| ::
      GameId(attempts2[i]) !in cache.entries &&
      forall j | 0 <= j < |attempts1| :: GameId(attempts2[i]) != GameId(attempts1[j])
    modifies cache
    ensures id1 != id2
    ensures id1 in cache.entries && id2 in cache.entries
    ensures id1 !in old(cache.entries) && id2 !in old(cache.entries)
  {
    var out1 := HandleCreateGame(cache, attempts1, imposters, innQuestion, impQuestion);
    id1 := out1[0].event.gameId;
    ghost var i :| 0 <= i < |attempts2| &&
      GameId(attempts2[i]) !in old(cache.entries) &&
      forall j | 0 <= j < |attempts1| :: GameId(attempts2[i]) != GameId(attempts1[j]);
    assert GameId(attempts2[i]) !in cache.entries;
    var out2 := HandleCreateGame(cache, attempts2, imposters, innQuestion, impQuestion);
    id2 := out2[0].event.gameId;
  }

  /**
   * A session with the new player stored under `playerId`, with no role and nothing
   * submitted; every other player and every other field is as it was.
   */
  function WithPlayer(g: GameRecord, playerId: string, name: string, sid: string): (r: GameRecord)
    ensures r.players.Keys == g.players.Keys + {playerId}
    ensures r.players[playerId] == NewPlayer(playerId, name, false, sid)
    ensures forall k | k in g.players && k != playerId :: r.players[k] == g.players[k]
    ensures r.(players := g.players) == g
  {
    g.(players := g.players[playerId := NewPlayer(playerId, name, false, sid)])
  }

  /**
   * Joining under an id the roster does not hold adds exactly that one player, an innocent
   * with both submission flags clear, and leaves every other player and the rest of the
   * session as it was.
   */
  lemma JoinAddsOnePlayer(g: GameRecord, playerId: string, name: string, sid: string)
    requires playerId !in g.players
    ensures WithPlayer(g, playerId, name, sid).players.Keys == g.players.Keys + {playerId}
    ensures |WithPlayer(g, playerId, name, sid).players| == |g.players| + 1
    ensures var p := WithPlayer(g, playerId, name, sid).players[playerId];
      p.id == playerId && p.name == name && p.sid == sid &&
      !p.isImposter && !p.answerSubmitted && !p.voteSubmitted
    ensures forall k | k in g.players :: WithPlayer(g, playerId, name, sid).players[k] == g.players[k]
    ensures WithPlayer(g, playerId, name, sid).(players := g.players) == g
  {
  }

  /** join_game: add the caller to the session and announce the new player to its room. */
  method HandleJoinGame(cache: GameCache, gameId: string, name: Option<string>, playerId: string, sid: string)
    returns (out: seq<Emit>)
    modifies cache
    ensures gameId !in old(cache.entries) ==> cache.entries == old(cache.entries) && out == [NotFound]
    ensures gameId in old(cache.entries) ==>
      var playerName := name.GetOr("Player");
      && cache.entries == old(cache.entries)[gameId := WithPlayer(old(cache.entries)[gameId], playerId, playerName, sid)]
      && out == [Emit(PlayerJoined(playerId, playerName), Room(gameId))]
  {
    var playerName := name.GetOr("Player");
    var found := cache.Get(gameId);
    if found.None? {
      out := [NotFound];
      return;
    }
    var game := new GameInfo.Load(found.value);
    var player := NewPlayer(playerId, playerName, false, sid);
    game.players := game.players[playerId := player];
    cache.Set(gameId, game.Record());
    out := [Emit(PlayerJoined(playerId, playerName), Room(gameId))];
  }

  /**
   * The private message to one player, on its own connection: "imposter" exactly when
   * flagged an imposter and "innocent" otherwise, with the question of that role.
   */
  function RoleMessage(p: Player, g: GameRecord): (m: Emit)
    ensures m.to == Channel(p.sid) && m.event.RoleAssigned?
    ensures m.event.role == "imposter" <==> p.isImposter
    ensures m.event.role == "innocent" <==> !p.isImposter
    ensures m.event.question == if p.isImposter then g.impQuestion else g.innQuestion
  {
    var role := if p.isImposter then "imposter" else "innocent";
    var question := if p.isImposter then g.impQuestion else g.innQuestion;
    Emit(RoleAssigned(role, question), Channel(p.sid))
  }

  /** The role messages of a started game, one per player in the shuffled order. */
  method RoleMessages(g: GameRecord, order: seq<string>) returns (out: seq<Emit>)
    requires forall i | 0 <= i < |order| :: order[i] in g.players
    ensures |out| == |order|
    ensures forall i | 0 <= i < |order| :: out[i] == RoleMessage(g.players[order[i]], g)
  {
    out := [];
    for i := 0 to |order|
      invariant |out| == i
      invariant forall j | 0 <= j < i :: out[j] == RoleMessage(g.players[order[j]], g)
    {
      out := out + [RoleMessage(g.players[order[i]], g)];
    }
  }

  /**
   * The assignment loop of start_game: walking the shuffled roster, the player at position
   * `i` becomes an imposter exactly when `i` is below the session's imposter count.
   */
  method AssignImposters(game: GameInfo, playerList: seq<string>)
    requires IsShuffle(playerList, game.players)
    modifies game
    ensures game.Record() == old(game.Record()).(players := AssignRoles(old(game.players), playerList, game.imposters))
  {
    ghost var g := game.Record();
    for i := 0 to |playerList|
      invariant game.Record() == g.(players := game.players)
      invariant game.players.Keys == g.players.Keys
      invariant forall j | 0 <= j < i ::
        game.players[playerList[j]] == g.players[playerList[j]].(isImposter := j < g.imposters)
      invariant forall k | k in game.players && k !in playerList[..i] :: game.players[k] == g.players[k]
    {
      var p := game.players[playerList[i]];
      game.players := game.players[playerList[i] := p.(isImposter := i < game.imposters)];
    }
    FirstImposters(g.players, playerList, g.imposters);
    assert game.players == AssignRoles(g.players, playerList, g.imposters) by {
      forall k | k in g.players
        ensures game.players[k] == AssignRoles(g.players, playerList, g.imposters)[k]
      {
        assert k in Elems(playerList);
        var j :| 0 <= j < |playerList| && playerList[j] == k;
      }
    }
  }

  /**
   * start_game: mark the first `imposters` players of the shuffled roster as imposters and
   * the rest as innocents, store the session, tell each player its role and question, and
   * announce the imposter count to the room.
   */
  method HandleStartGame(cache: GameCache, gameId: string, order: seq<string>) returns (out: seq<Emit>)
    requires gameId in cache.entries ==> IsShuffle(order, cache.entries[gameId].players)
    modifies cache
    ensures gameId !in old(cache.entries) ==> cache.entries == old(cache.entries) && out == [NotFound]
    ensures gameId in old(cache.entries) ==>
      var g := old(cache.entries)[gameId];
      var started := g.(players := AssignRoles(g.players, order, g.imposters));
      && cache.entries == old(cache.entries)[gameId := started]
      && |out| == |order| + 1
      && (forall i | 0 <= i < |order| :: order[i] in started.players && out[i] == RoleMessage(started.players[order[i]], started))
      && out[|order|] == Emit(GameStarted(g.imposters), Room(gameId))
  {
    var found := cache.Get(gameId);
    if found.None? {
      out := [NotFound];
      return;
    }
    var game := new GameInfo.Load(found.value);
    // the roster's player ids in the order the shuffle left them
    var playerList := order;
    AssignImposters(game, playerList);
    cache.Set(gameId, game.Record());
    var roles := RoleMessages(game.Record(), playerList);
    out := roles + [Emit(GameStarted(game.imposters), Room(gameId))];
  }

  /** push_game_state: advance the session one step, store it, and announce the state reached. */
  method HandlePushGameState(cache: GameCache, gameId: string) returns (out: seq<Emit>)
    modifies cache
    ensures gameId !in old(cache.entries) ==> cache.entries == old(cache.entries) && out == [NotFound]
    ensures gameId in old(cache.entries) ==>
      var next := Advance(old(cache.entries)[gameId]);
      && cache.entries == old(cache.entries)[gameId := next]
      && out == [Emit(GameStateUpdated(next.currentState), Room(gameId))]
  {
    var found := cache.Get(gameId);
    if found.None? {
      out := [NotFound];
      return;
    }
    var game := new GameInfo.Load(found.value);
    var newState := game.NextState();
    cache.Set(gameId, game.Record());
    out := [Emit(GameStateUpdated(newState), Room(gameId))];
  }
}
