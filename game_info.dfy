/**
 * The round state machine of one game session and the per-round reset of its roster
 * (backend/data/game_info.py).
 *
 * A `GameInfo` object is the live, mutable session that a handler works on; a
 * `GameRecord` is its value, which is what the session store keeps between handlers.
 * The transition function `Advance` and the reset `ResetRoster` are the specifications
 * that the in-place methods `GameInfo.NextState` and `GameInfo.NewRound` are proved against.
 */
module Game {

  /** The closed set of lifecycle states; LOBBY is both the initial state and the one re-entered after a round. */
  datatype GameState = Lobby | Question | Voting | Results

  /** One participant. `sid` is the transport connection handle the player joined from. */
  datatype Player = Player(
    id: string,
    name: string,
    isImposter: bool,
    sid: string,
    answerSubmitted: bool,
    voteSubmitted: bool)

  /** A player as the record's constructor builds it: both submission flags take their default, false. */
  function NewPlayer(id: string, name: string, isImposter: bool, sid: string): (p: Player)
    ensures p.id == id && p.name == name && p.isImposter == isImposter && p.sid == sid
    ensures !p.answerSubmitted && !p.voteSubmitted
  {
    Player(id, name, isImposter, sid, false, false)
  }

  /** Every player has answered; vacuously true of an empty roster. */
  predicate AnswersSubmitted(players: map<string, Player>): (r: bool)
    ensures players == map[] ==> r
    ensures !r <==> exists k :: k in players && !players[k].answerSubmitted
  {
    forall k | k in players :: players[k].answerSubmitted
  }

  /** Every player has voted; vacuously true of an empty roster. */
  predicate VotesSubmitted(players: map<string, Player>): (r: bool)
    ensures players == map[] ==> r
    ensures !r <==> exists k :: k in players && !players[k].voteSubmitted
  {
    forall k | k in players :: players[k].voteSubmitted
  }

  /** The value of a session: the fields of the `GameInfo` record. */
  datatype GameRecord = GameRecord(
    id: string,
    players: map<string, Player>,
    imposters: int,
    innQuestion: string,
    impQuestion: string,
    currentState: GameState)

  /** A session as created: no players yet, in the lobby. */
  function NewGame(id: string, imposters: int, innQuestion: string, impQuestion: string): (g: GameRecord)
    ensures g.id == id && g.imposters == imposters
    ensures g.innQuestion == innQuestion && g.impQuestion == impQuestion
    ensures g.players == map[] && g.currentState == Lobby
  {
    GameRecord(id, map[], imposters, innQuestion, impQuestion, Lobby)
  }

  /** One player after the per-round reset: role and both submission flags cleared. */
  function ClearedPlayer(p: Player): (q: Player)
    ensures q.id == p.id && q.name == p.name && q.sid == p.sid
    ensures !q.isImposter && !q.answerSubmitted && !q.voteSubmitted
  {
    p.(isImposter := false, answerSubmitted := false, voteSubmitted := false)
  }

  /**
   * The roster after the per-round reset: every player id kept, and each player's id, name
   * and connection handle kept with the three per-round flags cleared.
   */
  function ResetRoster(players: map<string, Player>): (r: map<string, Player>)
    ensures r.Keys == players.Keys
    ensures forall k | k in players ::
      r[k].id == players[k].id && r[k].name == players[k].name && r[k].sid == players[k].sid &&
      !r[k].isImposter && !r[k].answerSubmitted && !r[k].voteSubmitted
  {
    map k | k in players :: ClearedPlayer(players[k])
  }

  /** The state after `s` in the cycle LOBBY -> QUESTION -> VOTING -> RESULTS -> LOBBY. */
  function Successor(s: GameState): GameState {
    match s
    case Lobby => Question
    case Question => Voting
    case Voting => Results
    case Results => Lobby
  }

  /**
   * The transition table, the middle two steps guarded. A step either stays put or moves
   * to the next state of the cycle, and never changes the session id, the imposter count,
   * the two questions or the set of player ids.
   */
  function Advance(g: GameRecord): (r: GameRecord)
    ensures r.currentState == g.currentState || r.currentState == Successor(g.currentState)
    ensures r.id == g.id && r.imposters == g.imposters
    ensures r.innQuestion == g.innQuestion && r.impQuestion == g.impQuestion
    ensures r.players.Keys == g.players.Keys
  {
    match g.currentState
    case Lobby => g.(currentState := Question)
    case Question => if AnswersSubmitted(g.players) then g.(currentState := Voting) else g
    case Voting => if VotesSubmitted(g.players) then g.(currentState := Results) else g
    case Results => g.(players := ResetRoster(g.players), currentState := Lobby)
  }

  /** From the lobby the game always moves on to QUESTION, whatever the roster, even an empty one. */
  lemma LobbyAdvancesUnguarded(g: GameRecord)
    requires g.currentState == Lobby
    ensures Advance(g).currentState == Question
    ensures Advance(g).players == g.players
  {
  }

  /** From QUESTION the game reaches VOTING exactly when every player has answered; otherwise nothing changes. */
  lemma QuestionGuard(g: GameRecord)
    requires g.currentState == Question
    ensures Advance(g).currentState == Voting <==> AnswersSubmitted(g.players)
    ensures Advance(g).currentState != Voting ==> Advance(g) == g
    ensures (exists k :: k in g.players && !g.players[k].answerSubmitted) ==> Advance(g) == g
  {
  }

  /** From VOTING the game reaches RESULTS exactly when every player has voted; otherwise nothing changes. */
  lemma VotingGuard(g: GameRecord)
    requires g.currentState == Voting
    ensures Advance(g).currentState == Results <==> VotesSubmitted(g.players)
    ensures Advance(g).currentState != Results ==> Advance(g) == g
    ensures (exists k :: k in g.players && !g.players[k].voteSubmitted) ==> Advance(g) == g
  {
  }

  /** With nobody in the game both guards hold vacuously, so QUESTION passes through VOTING to RESULTS. */
  lemma EmptyRosterPassesGuards(g: GameRecord)
    requires g.players == map[]
    ensures AnswersSubmitted(g.players) && VotesSubmitted(g.players)
    ensures g.currentState == Question ==> Advance(Advance(g)).currentState == Results
  {
  }

  /** From RESULTS the game returns to the lobby with every role and submission flag cleared. */
  lemma ResultsStartsNewRound(g: GameRecord)
    requires g.currentState == Results
    ensures Advance(g).currentState == Lobby
    ensures Advance(g).players == ResetRoster(g.players)
    ensures Advance(g).players.Keys == g.players.Keys
    ensures forall k | k in Advance(g).players ::
      var p := Advance(g).players[k];
      !p.isImposter && !p.answerSubmitted && !p.voteSubmitted
  {
  }

  /** Outside RESULTS a step changes the state only: the roster and the configuration are untouched. */
  lemma AdvanceOnlyMovesState(g: GameRecord)
    requires g.currentState != Results
    ensures Advance(g) == g.(currentState := Advance(g).currentState)
  {
  }

  /** Resetting an already reset roster changes nothing. */
  lemma ResetRosterIdempotent(players: map<string, Player>)
    ensures ResetRoster(ResetRoster(players)) == ResetRoster(players)
  {
  }

  /** The live session object: the handlers load it from the store, change it in place and store it back. */
  class GameInfo {
    var id: string
    var players: map<string, Player>
    var imposters: int
    var innQuestion: string
    var impQuestion: string
    var currentState: GameState

    /** The value of this session, as the store keeps it. */
    function Record(): GameRecord
      reads this
    {
      GameRecord(id, players, imposters, innQuestion, impQuestion, currentState)
    }

    /** The record constructor with its defaults: an empty roster and the lobby state. */
    constructor (id: string, imposters: int, innQuestion: string, impQuestion: string)
      ensures Record() == NewGame(id, imposters, innQuestion, impQuestion)
    {
      this.id := id;
      this.players := map[];
      this.imposters := imposters;
      this.innQuestion := innQuestion;
      this.impQuestion := impQuestion;
      this.currentState := Lobby;
    }

    /** A fresh object holding a stored value (what reading the session store gives back). */
    constructor Load(r: GameRecord)
      ensures Record() == r
    {
      id := r.id;
      players := r.players;
      imposters := r.imposters;
      innQuestion := r.innQuestion;
      impQuestion := r.impQuestion;
      currentState := r.currentState;
    }

    /** Clears each player's role and submission flags, one player at a time. */
    method NewRound()
      modifies this
      ensures Record() == old(Record()).(players := ResetRoster(old(players)))
    {
      var pending := players.Keys;
      while pending != {}
        invariant pending <= players.Keys == old(players).Keys
        invariant forall k | k in players ::
          players[k] == if k in pending then old(players)[k] else ClearedPlayer(old(players)[k])
        invariant Record() == old(Record()).(players := players)
        decreases pending
      {
        var k :| k in pending;
        players := players[k := ClearedPlayer(players[k])];
        pending := pending - {k};
      }
    }

    /** Moves to the next state when its guard holds and returns the state reached, moved or not. */
    method NextState() returns (s: GameState)
      modifies this
      ensures Record() == Advance(old(Record()))
      ensures s == currentState
    {
      if currentState == Lobby {
        currentState := Question;
      } else if currentState == Question {
        if AnswersSubmitted(players) {
          currentState := Voting;
        }
      } else if currentState == Voting {
        if VotesSubmitted(players) {
          currentState := Results;
        }
      } else {
        NewRound();
        currentState := Lobby;
      }
      s := currentState;
    }
  }
}
