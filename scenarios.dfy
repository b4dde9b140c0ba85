/** Concrete event sequences applied to the model, each with its verified
    outcome: a first round, a forfeit, a full server, a self-pairing, and
    a stale deadline timer with and without the single-timer correction. */
module Scenarios {
  import opened Basics
  import opened Rules
  import opened Game
  import opened Server

  /** A fresh game between two sockets: seat 0 plays rock, seat 1 scissors.
      Seat 0 takes the round: score 1, run 1, personal best 1, announced to
      both seats as the new streak of id 0. */
  method FirstRoundScenario() returns (score0: nat, run0: nat, best0: nat, score1: nat, notices: seq<Notice>)
    ensures score0 == 1 && run0 == 1 && best0 == 1 && score1 == 0
    ensures Notice(0, UpdateStreak(0, 1)) in notices && Notice(1, UpdateStreak(0, 1)) in notices
    ensures Notice(0, WinMessage("Ganaste!", "rock", "scissors")) in notices
    ensures Notice(1, WinMessage("Perdiste :(", "rock", "scissors")) in notices
  {
    var ana := new Socket();
    var beto := new Socket();
    var game := new RpsGame(ana, beto);
    var c := game.OnTurn(0, "rock");
    JudgeFollowsRules(Rock, Scissors);
    c := game.OnTurn(1, "scissors");
    score0, run0, best0, score1 := ana.score, ana.onStreak, ana.streak, beto.score;
    notices := game.outbox;
  }

  /** Seat 0 plays paper and seat 1 sends nothing before the deadline: seat 0
      wins by default and gains a point but no run or streak, and the slots
      are empty. */
  method ForfeitScenario() returns (score0: nat, run0: nat, best0: nat, score1: nat, slots: seq<Option<string>>)
    ensures score0 == 1 && run0 == 0 && best0 == 0 && score1 == 0
    ensures slots == [None, None]
  {
    var ana := new Socket();
    var beto := new Socket();
    var game := new RpsGame(ana, beto);
    var c := game.OnTurn(0, "paper");
    game.ChoiceTimerFires();
    score0, run0, best0, score1 := ana.score, ana.onStreak, ana.streak, beto.score;
    slots := game.turns;
  }

  /** A third connection while two are admitted is rejected and leaves the
      counter, the queue and the admitted sockets as they were. */
  method FullServerScenario() returns (accepted: bool, count: int, waiting: Socket?, first: Socket)
    ensures !accepted && count == 2 && waiting == first
  {
    var server := new RpsServer();
    var ana := new Socket();
    var beto := new Socket();
    var carla := new Socket();
    accepted := server.Connection(ana);
    var none := server.PlayerReady(ana, "Ana");
    accepted := server.Connection(beto);
    accepted := server.Connection(carla);
    count, waiting, first := server.connectedClients, server.waitingPlayer, ana;
  }

  /** A socket that sends `playerReady` twice is paired with itself: both
      seats are that socket, whose id ends up 1, and the queue is empty. */
  method SelfPairingScenario() returns (paired: bool, sameSocket: bool, id: nat, queueEmpty: bool)
    ensures paired && sameSocket && id == 1 && queueEmpty
  {
    var server := new RpsServer();
    var ana := new Socket();
    var admitted := server.Connection(ana);
    var none := server.PlayerReady(ana, "Ana");
    var game := server.PlayerReady(ana, "Ana");
    paired := game != null;
    sameSocket := game.players[0] == game.players[1];
    id := ana.id;
    queueEmpty := server.waitingPlayer == null;
  }

  /** As written: seat 0 plays rock and changes its mind to paper (arming a
      second timer and orphaning the first); seat 1 never answers. The first
      timer awards seat 0 the round by default and empties the slots; the
      orphaned timer then fires too, finds seat 1's slot empty again, and
      awards seat 0 a second point for the same round. */
  method StaleTimerScenario() returns (firstAward: nat, secondAward: nat, chose0: bool)
    ensures firstAward == 1 && secondAward == 2 && !chose0
  {
    var ana := new Socket();
    var beto := new Socket();
    var game := new RpsGame(ana, beto);
    var c := game.OnTurn(0, "rock");
    c := game.OnTurn(0, "paper");
    assert game.pending == [Timers.Timer(0, 0), Timers.Timer(1, 0)];
    game.ChoiceTimerFires();
    firstAward, chose0 := ana.score, game.turns[0].Some?;
    game.ChoiceTimerFires();
    secondAward := ana.score;
  }

  /** The same moves with the previous timer cleared before each arming: one
      timer is pending, it awards the single forfeit point, and none is left. */
  method SingleTimerScenario() returns (award: nat, timersLeft: nat)
    ensures award == 1 && timersLeft == 0
  {
    var ana := new Socket();
    var beto := new Socket();
    var game := new RpsGame(ana, beto);
    var c := game.OnTurnSingleTimer(0, "rock");
    c := game.OnTurnSingleTimer(0, "paper");
    game.ChoiceTimerFires();
    award, timersLeft := ana.score, |game.pending|;
  }
}
