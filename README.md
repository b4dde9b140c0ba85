# Rock-paper-scissors game server, modelled in Dafny

This project models the server side of a two-player rock-paper-scissors game
played over socket.io.

- `rps-game.js` runs one pairing as a round state machine (class `RpsGame`):
  - it keeps each player's `score`, personal-best `streak` and current run
    `onStreak` on the socket object;
  - it holds the two turn slots `_turns`;
  - it arms a 3000 ms deadline timer when exactly one seat has chosen;
  - once both seats have chosen, it resolves the round by the distance
    `(p1 - p0 + 3) % 3` between the decoded choices.
- `server.js` keeps the admission counter `connectedClients`, capped at two,
  and the single-slot matchmaking queue `waitingPlayer`.

Modules:

- `Basics`: `Option` and `Result`.
- `Rules`: `_decodeTurn` and the outcome of a round, checked against the
  conventional rules of the game for every pair of hands.
- `Scoring`: the three bookkeeping updates as functions on a `Stats` value,
  with the invariant `onStreak <= streak`.
- `Timers`: pending `setTimeout` timers as a sequence of tagged handles, in
  arming order, and `clearTimeout` on it.
- `Game`: the socket objects (class `Socket`) and class `RpsGame`.
  - The methods update the turn slots, the timers and the players'
    fields in place.
  - Emits are appended to an outbox of `Notice`s.
  - A deadline callback is the explicit event `ChoiceTimerFires`.
- `Server`: class `RpsServer` with the three handlers.
- `Scenarios`: concrete event sequences with their required outcomes.

Both seats of a game may be the same socket. This happens when one socket
sends `playerReady` twice. The game model handles that aliasing: ids,
streaks and scores then land on one object.

## Model

| member | source | states |
|---|---|---|
| Rules.DecodeTurn | rps-game.js:188-200 | a turn decodes exactly when it is the name of a hand; the code is below 3; any other value fails with "Could not decode turn " followed by the value |
| Rules.DecodeTurnInvertsName | rps-game.js:190-196 | rock, scissors and paper decode to 0, 1 and 2; a turn that decodes to a hand's code is that hand's name |
| Rules.Resolve | rps-game.js:126-144 | the distance switch gives a tie exactly when the codes are equal; a winner is always seat 0 or 1 |
| Rules.ResolveFollowsRules | rps-game.js:122-145 | for all nine pairs: a tie iff the hands are equal; seat 0 wins iff its hand beats the other by the independent rule (rock>scissors>paper>rock); seat 1 wins iff its hand beats seat 0's; of two different hands exactly one beats the other |
| Rules.ResolveSymmetric | rps-game.js:126-143 | swapping the two codes swaps the winner and keeps a tie a tie |
| Rules.Judge | rps-game.js:122-145 | a round resolves iff both turns decode; slot 0's decode error is the one thrown when it fails; a winner is seat 0 or 1 |
| Rules.JudgeFollowsRules | rps-game.js:122-145 | for turns sent by name, the result is the conventional one |
| Rules.JudgeSymmetric | rps-game.js:122-145 | swapping the turns keeps a failing round failing, swaps the winner and keeps ties |
| Scoring.ExtendRun | rps-game.js:158-166 | the run grows by one; the best stays or grows by one; for a ranked record the new best is max(old best, new run) and the record stays ranked |
| Scoring.BreakRun | rps-game.js:167 | the loser's run becomes 0; score and best are kept; the result is ranked |
| Scoring.Scored | rps-game.js:175-176 | the score grows by exactly one and nothing else changes; ranking is kept |
| Scoring.UpdatesKeepRanking | rps-game.js:154-181 | a win (including the case where one socket is both winner and loser), a loss and a forfeit point each keep `onStreak <= streak`; scores and bests never go down; a win adds exactly one point; a new best is announced exactly when `onStreak + 1 > streak` |
| Timers.Cancelled | rps-game.js:89 | `clearTimeout` never adds a timer |
| Timers.CancelledKeepsOthers | rps-game.js:89 | after clearing handle h, the pending timers are exactly the earlier ones whose handle is not h |
| Timers.CancelDropsOnlyLastArmed | rps-game.js:83-100 | clearing the most recently issued handle removes the last pending timer if it is that one; every older, orphaned timer stays pending |
| Timers.CancelCurrent | rps-game.js:89 | if the only pending timer is the one `choiceTimer` names, clearing it leaves none |
| Game.RpsGame.constructor | rps-game.js:11-48 | scores, bests and runs are 0; ids follow argument order, and the second write wins when one socket takes both seats; slots are null; there is no timer; `gameStarts` goes to both, then each seat's name to each seat |
| Game.RpsGame.StartChoiceTimer | rps-game.js:99-109 | a new timer tagged with the chooser is appended; `choiceTimer` becomes its handle, overwriting the previous one |
| Game.RpsGame.ClearChoiceTimer | rps-game.js:89 | the timers pending afterwards are those left once `choiceTimer`'s handle is cleared; at most the last one goes |
| Game.RpsGame.AddPointTo | rps-game.js:175-181 | one point goes to seat idx and nothing else changes; `addPoint` with the new score goes to both seats |
| Game.RpsGame.PostWin | rps-game.js:154-168 | win and loss messages; the winner's run is extended and its best raised, and the new best is announced to both seats with the winner's id, when the run passes it; then the loser's run is reset, also when the loser is the same socket |
| Game.RpsGame.GetGameResult | rps-game.js:122-145 | the effect is `Judged`: a decode error throws with nothing changed; a tie only emits 'Empate'; a win applies `_postWin`, then `_addPoint` |
| Game.RpsGame.CheckGameOver | rps-game.js:114-117 | the round is resolved; the slots become `[null, null]` unless the resolution threw |
| Game.RpsGame.OnTurn | rps-game.js:74-92 | with the other slot empty: the choice is stored, the countdown starts and a timer tagged with the chooser is armed; with the other slot filled: only `choiceTimer`'s handle is cleared, the round is judged and the slots are reset |
| Game.RpsGame.ChoiceTimerFires | rps-game.js:100-108 | the oldest timer fires; if the other slot is empty, its tag's seat wins by default, gains exactly one point with no run or best change, and the slots are emptied; otherwise nothing changes; when all timers belong to the current round, a firing timer's seat has chosen and the other has not |
| Game.RpsGame.OnTurnSingleTimer | rps-game.js:74-92 | corrected `_onTurn`: the same effects, but clearing before arming keeps at most one pending timer, and that timer belongs to the current round (`TimersMatchRound` is preserved) |
| Game.RpsGame.SettleRound | rps-game.js:87-91 | with only the current timer pending, resolving the round leaves no timer |
| Game.RpsGame.RestartChoiceTimer | rps-game.js:83-100 | clearing then arming leaves exactly one pending timer, the new one |
| Game.RoundOnlyRaises | rps-game.js:129-181 | for any settled round, no score or best goes down; a win raises the winner's score by exactly one and leaves a distinct loser's score unchanged; a tie or a throw changes no field |
| Server.RpsServer.constructor | server.js:23-24 | nobody waits and nobody is connected |
| Server.RpsServer.Connection | server.js:26-35 | at two clients the socket gets "El servidor esta lleno" and is closed, and the counter is unchanged; otherwise the counter rises by exactly one; the counter always equals the number of admitted, still connected sockets and is at most 2 |
| Server.RpsServer.PlayerReady | server.js:37-52 | only this socket's name is stored (a different waiting socket keeps its own); with an empty queue the socket is parked and told to wait, and no game starts; otherwise a game starts with the waiting socket in seat 0 and this one in seat 1, the queue is emptied, and a socket already waiting is paired with itself |
| Server.RpsServer.Disconnect | server.js:58-61 | the counter drops by one; the queue and the outbox are unchanged |
| Scenarios.FirstRoundScenario | rps-game.js:74-181 | rock against scissors in a fresh game: seat 0 ends with score 1, run 1 and best 1, and seat 1 with score 0; the new best is announced with id 0; both win messages are sent |
| Scenarios.ForfeitScenario | rps-game.js:99-108 | a single choice followed by the deadline: one point by default, no run or best change, empty slots |
| Scenarios.FullServerScenario | server.js:28-32 | a third connection is rejected; the counter stays at 2 and the queue is unchanged |
| Scenarios.SelfPairingScenario | server.js:37-51 | one socket sending `playerReady` twice fills both seats, gets id 1, and the queue is left empty |
| Scenarios.StaleTimerScenario | rps-game.js:83-108 | as written: a change of mind leaves two timers, and seat 0 is awarded two forfeit points for one unanswered round |
| Scenarios.SingleTimerScenario | rps-game.js:83-108 | corrected: the same moves leave one timer, one forfeit point and no timer afterwards |

`waitingPlayer` holds at most one socket by its type (`Socket?`).

## Left out

- client/client.js: it is presentation code (DOM updates, countdown
  animation, alerts) and is not part of this model.
- socket.io transport: an emit is a `Notice` in the game's outbox, or a
  `Sent` in the server's outbox.
  - `sock.disconnect()` on a rejected connection is the `Closed` event.
  - A game emits `setEl` with the selector `'#player' + idx + ' > .name'`;
    the model records only the seat index.
- The relay handlers of server.js:54-56 and 62-83 are left out: they forward
  events without logic.
- Web server setup and `console.log` calls (server.js:1-17, 35, 60, 86-89)
  are left out.
- Real time:
  - the 3000 ms delay is not modelled;
  - every timer runs the same delay, so timers fire in arming order, and
    `ChoiceTimerFires` fires the oldest pending one;
  - when a timer fires relative to other events is chosen by the caller.
- Game.RpsGame.ChoiceTimerFires requires a pending timer, because a timer
  that was never armed cannot fire.
- Server.RpsServer.Connection requires a socket not yet admitted, and
  Server.RpsServer.Disconnect requires an admitted one. socket.io delivers
  `connection` once per new socket, and `disconnect` only to sockets whose
  handler was registered.
- Turn payloads are strings. A client that sends `null`, a number or an
  object as its turn is not modelled: the slot tests compare with `null`,
  and the error message interpolates the value.
- A handler that throws returns `Thrown(message)` and leaves the state as it
  was at the throw. By then the timer is already cleared and the slots are
  not reset. What the runtime does with the uncaught error is not modelled.
- With one socket in both seats, one `turn` emit runs the listeners of both
  seats, once each, unless seat 0's listener throws, in which case seat 1's
  listener is not called. The model treats each listener call as its own
  `OnTurn` call.
- Two games sharing one socket are not modelled. The model allows it,
  because sockets are objects, but no contract describes one game's effect
  on the other.
- On disconnect, the code does not refresh the clients, does not clear
  `waitingPlayer` and does not stop a game's timers. The model follows the
  code.

## Findings

| source | as written | input that shows it | evidently intended | confidence | as-written member | corrected member |
|---|---|---|---|---|---|---|
| rps-game.js:83-108 | `_startChoiceTimer` overwrites `choiceTimer` on every single-slot choice, and `clearTimeout` cancels only the latest handle; an older timer stays pending, and its guard checks only that the other slot is empty | seat 0 sends "rock", then "paper", and seat 1 never answers: both timers fire, and seat 0 gets two default wins for one round | at most one deadline timer per round, and no timer outlives the round that armed it | high; not executed | Scenarios.StaleTimerScenario | Game.RpsGame.OnTurnSingleTimer (used by Scenarios.SingleTimerScenario) |
