/** The per-player bookkeeping fields the game keeps on each socket: `score`,
    `streak` (the personal best run of consecutive wins) and `onStreak` (the
    current run), and the three updates applied to them in rps-game.js. */
module Scoring {

  datatype Stats = Stats(score: nat, streak: nat, onStreak: nat)

  /** The fields a fresh game writes (rps-game.js, constructor). */
  const Fresh := Stats(0, 0, 0)

  /** The current run never exceeds the personal best. */
  predicate Ranked(s: Stats)
  {
    s.onStreak <= s.streak
  }

  function Max(a: nat, b: nat): nat
  {
    if a < b then b else a
  }

  /** Winner's side of `_postWin`: the run grows by one and the personal best
      is raised by one when the run has passed it. For a ranked record the best
      becomes the larger of the old best and the new run. */
  function ExtendRun(s: Stats): (r: Stats)
    ensures r.score == s.score && r.onStreak == s.onStreak + 1
    ensures r.streak == s.streak || r.streak == s.streak + 1
    ensures Ranked(s) ==> r.streak == Max(s.streak, r.onStreak) && Ranked(r)
  {
    var run := s.onStreak + 1;
    if run > s.streak then Stats(s.score, s.streak + 1, run)
    else Stats(s.score, s.streak, run)
  }

  /** A new personal best is set (and announced) exactly when the run reaches
      one past the old best; for a ranked record that is when run == best. */
  predicate SetsRecord(s: Stats)
  {
    s.onStreak + 1 > s.streak
  }

  /** Loser's side of `_postWin`: the current run ends. */
  function BreakRun(s: Stats): (r: Stats)
    ensures r.score == s.score && r.streak == s.streak && r.onStreak == 0
    ensures Ranked(r)
  {
    Stats(s.score, s.streak, 0)
  }

  /** `_addPoint`: the score, and nothing else, goes up by one. */
  function Scored(s: Stats): (r: Stats)
    ensures r.score == s.score + 1 && r.streak == s.streak && r.onStreak == s.onStreak
    ensures Ranked(s) ==> Ranked(r)
  {
    Stats(s.score + 1, s.streak, s.onStreak)
  }

  /** Nothing ever lowers a score or a personal best. */
  predicate Grows(before: Stats, after: Stats)
  {
    before.score <= after.score && before.streak <= after.streak
  }

  /** A resolved win, a loss, and a forfeit point each keep the record ranked
      and let score and personal best only grow; a win raises the score by
      exactly one and announces a new best exactly when `SetsRecord` holds. */
  lemma UpdatesKeepRanking(s: Stats)
    requires Ranked(s)
    ensures var w := Scored(ExtendRun(s));
      Ranked(w) && Grows(s, w) && w.score == s.score + 1 &&
      (w.streak != s.streak <==> SetsRecord(s))
    ensures Ranked(BreakRun(s)) && Grows(s, BreakRun(s))
    ensures Ranked(Scored(s)) && Grows(s, Scored(s))
    ensures var a := Scored(BreakRun(ExtendRun(s)));
      Ranked(a) && Grows(s, a) && a.score == s.score + 1
  {
  }
}
