/** The round state machine of one pairing (rps-game.js, class `RpsGame`),
    together with the socket objects on which it keeps its bookkeeping. */
module Game {
  import opened Basics
  import opened Rules
  import opened Timers
  import Scoring

  /** A connected client. The server stores the display name on the socket
      object and the game stores `id`, `score`, `streak` and `onStreak` on it,
      so two games, or both seats of one game, may share these fields. */
  class Socket {
    var playerName: string
    var id: nat
    var score: nat
    var streak: nat
    var onStreak: nat

    constructor ()
      ensures playerName == "" && id == 0 && score == 0 && streak == 0 && onStreak == 0
    {
      playerName, id, score, streak, onStreak := "", 0, 0, 0, 0;
    }
  }

  /** The bookkeeping fields of a socket as a value. */
  function StatsOf(p: Socket): Scoring.Stats
    reads p
  {
    Scoring.Stats(p.score, p.streak, p.onStreak)
  }

  /** The seat facing `i`: the source's `(playerIndex === 0) ? 1 : 0`. */
  function Other(i: nat): nat
  {
    if i == 0 then 1 else 0
  }

  /** Picks the value belonging to seat `i`. */
  function Pick<T>(i: nat, v0: T, v1: T): T
  {
    if i == 0 then v0 else v1
  }

  /** Events the game emits to a socket, with their payloads. */
  datatype Event =
    | GameStarts
    | SetEl(slot: nat, name: string)        // '#player<slot> > .name'
    | StartCountdownClient
    | WinMessage(text: string, choice0: string, choice1: string)
    | UpdateStreak(playerId: nat, streak: nat)
    | AddPoint(score: nat, playerIndex: nat)
    | WinByDefault
    | LoseByDefault

  /** One emit, addressed to the socket in seat `to`. */
  datatype Notice = Notice(to: nat, event: Event)

  /** The same event emitted to seat 0 and then to seat 1 (a `forEach` over `_players`). */
  function ToBoth(e: Event): seq<Notice>
  {
    [Notice(0, e), Notice(1, e)]
  }

  /** What the constructor emits: `gameStarts` to both, then to each seat in
      turn the names of both seats. */
  function StartNotices(name0: string, name1: string): seq<Notice>
  {
    ToBoth(GameStarts) +
    [Notice(0, SetEl(0, name0)), Notice(0, SetEl(1, name1)),
     Notice(1, SetEl(0, name0)), Notice(1, SetEl(1, name1))]
  }

  /** What `_postWin` emits for a win by seat `w` whose record was `before`:
      the two win messages, then the new personal best if one was set. */
  function PostWinNotices(w: nat, turn0: string, turn1: string, before: Scoring.Stats, winnerId: nat): seq<Notice>
  {
    [Notice(w, WinMessage("Ganaste!", turn0, turn1)), Notice(Other(w), WinMessage("Perdiste :(", turn0, turn1))] +
    (if Scoring.SetsRecord(before) then ToBoth(UpdateStreak(winnerId, Scoring.ExtendRun(before).streak)) else [])
  }

  /** What the deadline callback emits to the two seats when it awards a forfeit. */
  function ForfeitNotices(i: nat): seq<Notice>
  {
    [Notice(i, WinByDefault), Notice(Other(i), LoseByDefault)]
  }

  /** How a handler returned: normally, or by throwing an Error with a message. */
  datatype Completion = Normal | Thrown(message: string)

  class RpsGame {
    /** `_players`: the two sockets in seat order (possibly the same socket twice). */
    const players: seq<Socket>
    /** `_turns`: the raw choice of each seat in the current round, `None` for null. */
    var turns: seq<Option<string>>
    /** `choiceTimer`: the handle of the most recently armed timer; never reset. */
    var choiceTimer: Option<nat>
    /** Timers armed by this game that have neither fired nor been cleared, oldest first. */
    var pending: seq<Timer>
    /** The handle the runtime gives to the next timer. */
    var nextHandle: nat
    /** Everything emitted so far, in order. */
    var outbox: seq<Notice>

    ghost predicate Valid()
      reads this, players
    {
      |players| == 2 && |turns| == 2 &&
      Scoring.Ranked(StatsOf(players[0])) && Scoring.Ranked(StatsOf(players[1])) &&
      players[1].id == 1 && players[0].id == (if players[0] == players[1] then 1 else 0) &&
      Armed(pending, nextHandle) &&
      choiceTimer == (if nextHandle == 0 then None else Some(nextHandle - 1))
    }

    /** The state right after construction. */
    ghost predicate Opening()
      reads this, players
    {
      Valid() &&
      StatsOf(players[0]) == Scoring.Fresh && StatsOf(players[1]) == Scoring.Fresh &&
      turns == [None, None] && pending == [] && choiceTimer == None && nextHandle == 0 &&
      outbox == StartNotices(players[0].playerName, players[1].playerName)
    }

    /** Neither seat's bookkeeping differs from `before0`, `before1`. */
    ghost predicate StatsAre(before0: Scoring.Stats, before1: Scoring.Stats)
      requires Valid()
      reads this, players
    {
      StatsOf(players[0]) == before0 && StatsOf(players[1]) == before1
    }

    /** Seat `w` took a resolved round from records `before0`, `before1`: the
        winner's run, best and score, the loser's run reset. When both seats are
        one socket, the loser's reset lands on that socket too. */
    ghost predicate WinRecorded(w: nat, before0: Scoring.Stats, before1: Scoring.Stats)
      requires Valid() && w < 2
      reads this, players
    {
      var bw := Pick(w, before0, before1);
      if players[0] == players[1] then
        StatsOf(players[0]) == Scoring.Scored(Scoring.BreakRun(Scoring.ExtendRun(bw)))
      else
        StatsOf(players[w]) == Scoring.Scored(Scoring.ExtendRun(bw)) &&
        StatsOf(players[Other(w)]) == Scoring.BreakRun(Pick(Other(w), before0, before1))
    }

    /** Seat `i` was given one point and nothing else changed. */
    ghost predicate PointRecorded(i: nat, before0: Scoring.Stats, before1: Scoring.Stats)
      requires Valid() && i < 2
      reads this, players
    {
      StatsOf(players[i]) == Scoring.Scored(Pick(i, before0, before1)) &&
      (players[0] != players[1] ==> StatsOf(players[Other(i)]) == Pick(Other(i), before0, before1))
    }

    /** The effect of `_getGameResult` on raw turns `turn0`, `turn1`, starting from
        records `before0`, `before1` and outbox `sent`: a throw changes nothing,
        a tie only emits 'Empate', a win runs `_postWin` then `_addPoint`. */
    ghost predicate Judged(turn0: string, turn1: string, before0: Scoring.Stats, before1: Scoring.Stats,
                           sent: seq<Notice>, c: Completion)
      requires Valid()
      reads this, players
    {
      match Judge(turn0, turn1)
      case Failure(e) =>
        c == Thrown(e) && StatsAre(before0, before1) && outbox == sent
      case Success(Tie) =>
        c == Normal && StatsAre(before0, before1) &&
        outbox == sent + ToBoth(WinMessage("Empate", turn0, turn1))
      case Success(Win(w)) =>
        var bw := Pick(w, before0, before1);
        c == Normal && WinRecorded(w, before0, before1) &&
        outbox == sent + PostWinNotices(w, turn0, turn1, bw, players[w].id) +
                  ToBoth(AddPoint(bw.score + 1, w))
    }

    /** The display names, which the game never writes. */
    ghost function Names(): (string, string)
      requires |players| == 2
      reads players
    {
      (players[0].playerName, players[1].playerName)
    }

    /** `new RpsGame(p1, p2)`: fresh bookkeeping on both sockets, ids in
        argument order (the second write wins when both are one socket),
        empty slots, no timer, and the start notices. */
    constructor (p1: Socket, p2: Socket)
      modifies p1, p2
      ensures players == [p1, p2] && Opening()
      ensures p1.playerName == old(p1.playerName) && p2.playerName == old(p2.playerName)
    {
      p1.score := 0;
      p1.id := 0;
      p2.score := 0;
      p2.id := 1;
      p1.streak := 0;
      p1.onStreak := 0;
      p2.streak := 0;
      p2.onStreak := 0;
      players := [p1, p2];
      turns := [None, None];
      outbox := StartNotices(p1.playerName, p2.playerName);
      choiceTimer := None;
      pending := [];
      nextHandle := 0;
    }

    /** `_startChoiceTimer`: arm a timer tagged with the seat that chose and
        remember its handle in `choiceTimer`, overwriting the previous one. */
    method StartChoiceTimer(playerIndex: nat)
      requires Valid() && playerIndex < 2
      modifies this
      ensures Valid()
      ensures pending == old(pending) + [Timer(old(nextHandle), playerIndex)]
      ensures nextHandle == old(nextHandle) + 1 && choiceTimer == Some(old(nextHandle))
      ensures turns == old(turns) && outbox == old(outbox)
    {
      pending := pending + [Timer(nextHandle, playerIndex)];
      choiceTimer := Some(nextHandle);
      nextHandle := nextHandle + 1;
    }

    /** `clearTimeout(this.choiceTimer)`: only the most recently armed timer
        can go, and only if it is still pending. */
    method ClearChoiceTimer()
      requires Valid()
      modifies this
      ensures Valid()
      ensures pending == Cancelled(old(pending), old(choiceTimer))
      ensures |pending| >= |old(pending)| - 1 && pending == old(pending)[..|pending|]
      ensures nextHandle == old(nextHandle) && choiceTimer == old(choiceTimer)
      ensures turns == old(turns) && outbox == old(outbox)
    {
      if nextHandle > 0 {
        CancelDropsOnlyLastArmed(pending, nextHandle);
        ArmedPrefix(pending, nextHandle, |Cancelled(pending, choiceTimer)|);
      }
      pending := Cancelled(pending, choiceTimer);
    }

    /** `_addPoint`: one point to seat `idx`, announced to both seats. */
    method AddPointTo(idx: nat)
      requires Valid() && idx < 2
      modifies this, players[idx]
      ensures Valid() && turns == old(turns) && Names() == old(Names())
      ensures pending == old(pending) && nextHandle == old(nextHandle) && choiceTimer == old(choiceTimer)
      ensures PointRecorded(idx, old(StatsOf(players[0])), old(StatsOf(players[1])))
      ensures outbox == old(outbox) + ToBoth(AddPoint(old(players[idx].score) + 1, idx))
    {
      var winner := players[idx];
      winner.score := winner.score + 1;
      var score := winner.score;
      outbox := outbox + ToBoth(AddPoint(score, idx));
    }

    /** `_postWin`: win and loss messages, the winner's run extended and its
        personal best raised (and announced) when the run passes it, then the
        loser's run reset. */
    method PostWin(winner: nat, loser: nat, turn0: string, turn1: string)
      requires Valid() && winner < 2 && loser == Other(winner)
      modifies this, players[0], players[1]
      ensures Valid() && turns == old(turns) && Names() == old(Names())
      ensures pending == old(pending) && nextHandle == old(nextHandle) && choiceTimer == old(choiceTimer)
      ensures outbox == old(outbox) + PostWinNotices(winner, turn0, turn1, old(StatsOf(players[winner])), players[winner].id)
      ensures players[0] == players[1] ==>
        StatsOf(players[0]) == Scoring.BreakRun(Scoring.ExtendRun(old(StatsOf(players[0]))))
      ensures players[0] != players[1] ==>
        StatsOf(players[winner]) == Scoring.ExtendRun(old(StatsOf(players[winner]))) &&
        StatsOf(players[loser]) == Scoring.BreakRun(old(StatsOf(players[loser])))
    {
      outbox := outbox + [Notice(winner, WinMessage("Ganaste!", turn0, turn1)),
                          Notice(loser, WinMessage("Perdiste :(", turn0, turn1))];
      var w := players[winner];
      w.onStreak := w.onStreak + 1;
      if w.onStreak > w.streak {
        w.streak := w.streak + 1;
        outbox := outbox + ToBoth(UpdateStreak(w.id, w.streak));
      }
      var l := players[loser];
      l.onStreak := 0;
    }

    /** `_getGameResult`: decode slot 0, then slot 1 (either may throw), then
        switch on the distance between the two codes. */
    method GetGameResult() returns (c: Completion)
      requires Valid() && turns[0].Some? && turns[1].Some?
      modifies this, players[0], players[1]
      ensures Valid() && turns == old(turns) && Names() == old(Names())
      ensures pending == old(pending) && nextHandle == old(nextHandle) && choiceTimer == old(choiceTimer)
      ensures Judged(turns[0].value, turns[1].value, old(StatsOf(players[0])), old(StatsOf(players[1])), old(outbox), c)
    {
      var turn0, turn1 := turns[0].value, turns[1].value;
      var p0 := DecodeTurn(turn0);
      if p0.Failure? {
        return Thrown(p0.error);
      }
      var p1 := DecodeTurn(turn1);
      if p1.Failure? {
        return Thrown(p1.error);
      }
      var distance := (p1.value - p0.value + 3) % 3;
      if distance == 0 {
        outbox := outbox + ToBoth(WinMessage("Empate", turn0, turn1));
      } else if distance == 1 {
        PostWin(0, 1, turn0, turn1);
        AddPointTo(0);
      } else {
        PostWin(1, 0, turn0, turn1);
        AddPointTo(1);
      }
      c := Normal;
    }

    /** `_checkGameOver`: resolve the round, then empty both slots; a throw
        from the resolution skips the reset. */
    method CheckGameOver() returns (c: Completion)
      requires Valid() && turns[0].Some? && turns[1].Some?
      modifies this, players[0], players[1]
      ensures Valid() && Names() == old(Names())
      ensures pending == old(pending) && nextHandle == old(nextHandle) && choiceTimer == old(choiceTimer)
      ensures Judged(old(turns[0].value), old(turns[1].value), old(StatsOf(players[0])), old(StatsOf(players[1])), old(outbox), c)
      ensures turns == if c == Normal then [None, None] else old(turns)
    {
      c := GetGameResult();
      if c.Thrown? {
        return;
      }
      turns := [None, None];
    }

    /** `_onTurn`: record the choice; if exactly one slot is now filled, start
        the countdown and arm a timer tagged with the chooser; if both are,
        clear `choiceTimer` and resolve the round. */
    method OnTurn(playerIndex: nat, turn: string) returns (c: Completion)
      requires Valid() && playerIndex < 2
      modifies this, players[0], players[1]
      ensures Valid() && Names() == old(Names())
      ensures old(turns[Other(playerIndex)]).None? ==>
        c == Normal && turns == old(turns)[playerIndex := Some(turn)] &&
        pending == old(pending) + [Timer(old(nextHandle), playerIndex)] &&
        nextHandle == old(nextHandle) + 1 && choiceTimer == Some(old(nextHandle)) &&
        outbox == old(outbox) + ToBoth(StartCountdownClient) &&
        StatsAre(old(StatsOf(players[0])), old(StatsOf(players[1])))
      ensures old(turns[Other(playerIndex)]).Some? ==>
        var turn0 := if playerIndex == 0 then turn else old(turns[0].value);
        var turn1 := if playerIndex == 1 then turn else old(turns[1].value);
        pending == Cancelled(old(pending), old(choiceTimer)) &&
        nextHandle == old(nextHandle) && choiceTimer == old(choiceTimer) &&
        Judged(turn0, turn1, old(StatsOf(players[0])), old(StatsOf(players[1])), old(outbox), c) &&
        turns == if c == Normal then [None, None] else [Some(turn0), Some(turn1)]
    {
      turns := turns[playerIndex := Some(turn)];
      if (turns[0].Some? && turns[1].None?) || (turns[0].None? && turns[1].Some?) {
        outbox := outbox + ToBoth(StartCountdownClient);
        StartChoiceTimer(playerIndex);
      }
      if turns[0].Some? && turns[1].Some? {
        ClearChoiceTimer();
        c := CheckGameOver();
      } else {
        c := Normal;
      }
    }

    /** The callback armed by `_startChoiceTimer`, run when the oldest pending
        timer expires (every timer runs 3000 ms, so they expire in arming
        order). It awards the tagged seat a point by default only if the other
        slot is empty, whichever round that slot belongs to; streaks are untouched. */
    method ChoiceTimerFires()
      requires Valid() && pending != []
      modifies this, players[0], players[1]
      ensures Valid() && Names() == old(Names())
      ensures pending == old(pending[1..]) && nextHandle == old(nextHandle) && choiceTimer == old(choiceTimer)
      ensures var i := old(pending[0].tag);
        i < 2 &&
        if old(turns[Other(i)]).None? then
          turns == [None, None] &&
          PointRecorded(i, old(StatsOf(players[0])), old(StatsOf(players[1]))) &&
          outbox == old(outbox) + ForfeitNotices(i) + ToBoth(AddPoint(old(players[i].score) + 1, i))
        else
          turns == old(turns) && outbox == old(outbox) &&
          StatsAre(old(StatsOf(players[0])), old(StatsOf(players[1])))
      ensures old(TimersMatchRound()) ==>
        TimersMatchRound() && old(turns[pending[0].tag]).Some? && old(turns[Other(pending[0].tag)]).None?
    {
      var playerIndex := pending[0].tag;
      pending := pending[1..];
      var otherPlayerIndex := Other(playerIndex);
      if turns[otherPlayerIndex].None? {
        outbox := outbox + ForfeitNotices(playerIndex);
        AddPointTo(playerIndex);
        turns := [None, None];
      }
    }

    /** Every pending timer belongs to the current round: there is at most one,
        it is the one `choiceTimer` names, and it was armed by a seat that has
        chosen against a seat that has not. */
    ghost predicate TimersMatchRound()
      requires Valid()
      reads this, players
    {
      OnlyCurrentTimer() &&
      forall t :: t in pending ==> t.tag < 2 && turns[t.tag].Some? && turns[Other(t.tag)].None?
    }

    /** At most one timer is pending, and it is the one `choiceTimer` names. */
    ghost predicate OnlyCurrentTimer()
      reads this
    {
      |pending| <= 1 && forall t :: t in pending ==> choiceTimer == Some(t.handle)
    }

    /** `_onTurn` with the previous handle cleared before a new timer is armed,
        so that no timer outlives the round that armed it. */
    method OnTurnSingleTimer(playerIndex: nat, turn: string) returns (c: Completion)
      requires Valid() && TimersMatchRound() && playerIndex < 2
      modifies this, players[0], players[1]
      ensures Valid() && TimersMatchRound() && Names() == old(Names())
      ensures old(turns[Other(playerIndex)]).None? ==>
        c == Normal && turns == old(turns)[playerIndex := Some(turn)] &&
        pending == [Timer(old(nextHandle), playerIndex)] &&
        nextHandle == old(nextHandle) + 1 && choiceTimer == Some(old(nextHandle)) &&
        outbox == old(outbox) + ToBoth(StartCountdownClient) &&
        StatsAre(old(StatsOf(players[0])), old(StatsOf(players[1])))
      ensures old(turns[Other(playerIndex)]).Some? ==>
        var turn0 := if playerIndex == 0 then turn else old(turns[0].value);
        var turn1 := if playerIndex == 1 then turn else old(turns[1].value);
        pending == [] && nextHandle == old(nextHandle) && choiceTimer == old(choiceTimer) &&
        Judged(turn0, turn1, old(StatsOf(players[0])), old(StatsOf(players[1])), old(outbox), c) &&
        turns == if c == Normal then [None, None] else [Some(turn0), Some(turn1)]
    {
      turns := turns[playerIndex := Some(turn)];
      if (turns[0].Some? && turns[1].None?) || (turns[0].None? && turns[1].Some?) {
        outbox := outbox + ToBoth(StartCountdownClient);
        RestartChoiceTimer(playerIndex);
      }
      if turns[0].Some? && turns[1].Some? {
        c := SettleRound();
      } else {
        c := Normal;
      }
    }

    /** Both slots filled with at most the current timer pending: clearing
        `choiceTimer` leaves no timer, then the round is resolved. */
    method SettleRound() returns (c: Completion)
      requires Valid() && OnlyCurrentTimer() && turns[0].Some? && turns[1].Some?
      modifies this, players[0], players[1]
      ensures Valid() && Names() == old(Names())
      ensures pending == [] && nextHandle == old(nextHandle) && choiceTimer == old(choiceTimer)
      ensures Judged(old(turns[0].value), old(turns[1].value), old(StatsOf(players[0])), old(StatsOf(players[1])), old(outbox), c)
      ensures turns == if c == Normal then [None, None] else old(turns)
    {
      CancelCurrent(pending, choiceTimer);
      ClearChoiceTimer();
      c := CheckGameOver();
    }

    /** `clearTimeout(this.choiceTimer)` followed by `_startChoiceTimer`: when
        the pending timer (if any) is the current one, a single timer remains. */
    method RestartChoiceTimer(playerIndex: nat)
      requires Valid() && OnlyCurrentTimer() && playerIndex < 2
      modifies this
      ensures Valid() && turns == old(turns) && outbox == old(outbox)
      ensures pending == [Timer(old(nextHandle), playerIndex)]
      ensures nextHandle == old(nextHandle) + 1 && choiceTimer == Some(old(nextHandle))
    {
      CancelCurrent(pending, choiceTimer);
      ClearChoiceTimer();
      StartChoiceTimer(playerIndex);
    }
  }
  /** Whatever a round settles to, no score and no personal best goes down and
      both records stay ranked; a win raises the winner's score by exactly one
      and leaves a distinct loser's score alone, and a tie or a throw changes
      no field at all. */
  lemma {:induction false} RoundOnlyRaises(g: RpsGame, turn0: string, turn1: string,
                                           before0: Scoring.Stats, before1: Scoring.Stats,
                                           sent: seq<Notice>, c: Completion)
    requires g.Valid() && Scoring.Ranked(before0) && Scoring.Ranked(before1)
    requires g.players[0] == g.players[1] ==> before0 == before1
    requires g.Judged(turn0, turn1, before0, before1, sent, c)
    ensures Scoring.Grows(before0, StatsOf(g.players[0])) && Scoring.Grows(before1, StatsOf(g.players[1]))
    ensures Judge(turn0, turn1).Success? && Judge(turn0, turn1).value.Win? ==>
      var w := Judge(turn0, turn1).value.winner;
      StatsOf(g.players[w]).score == Pick(w, before0, before1).score + 1 &&
      (g.players[0] != g.players[1] ==>
        StatsOf(g.players[Other(w)]).score == Pick(Other(w), before0, before1).score)
    ensures Judge(turn0, turn1).Failure? || Judge(turn0, turn1).value == Tie ==>
      StatsOf(g.players[0]) == before0 && StatsOf(g.players[1]) == before1
  {
    match Judge(turn0, turn1)
    case Failure(_) =>
    case Success(Tie) =>
    case Success(Win(w)) =>
      Scoring.UpdatesKeepRanking(Pick(w, before0, before1));
      Scoring.UpdatesKeepRanking(Pick(Other(w), before0, before1));
  }
}
