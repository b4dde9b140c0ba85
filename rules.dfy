/** The rules of one round: decoding a submitted turn into its code in the
    cyclic order rock=0, scissors=1, paper=2, and resolving two codes by their
    distance modulo 3 (rps-game.js, `_decodeTurn` and `_getGameResult`). */
module Rules {
  import opened Basics

  /** The three hands, as the conventional game knows them. */
  datatype Hand = Rock | Scissors | Paper

  /** The string a client sends for each hand. */
  function Name(h: Hand): string
  {
    match h
    case Rock => "rock"
    case Scissors => "scissors"
    case Paper => "paper"
  }

  /** Position of a hand in the cycle in which each hand beats the next one. */
  function Code(h: Hand): nat
  {
    match h
    case Rock => 0
    case Scissors => 1
    case Paper => 2
  }

  /** The conventional rule, written independently of any numbering:
      rock beats scissors, scissors beats paper, paper beats rock. */
  predicate Beats(a: Hand, b: Hand)
  {
    (a == Rock && b == Scissors) || (a == Scissors && b == Paper) || (a == Paper && b == Rock)
  }

  /** `_decodeTurn`: the code of a recognised turn; any other value throws. */
  function DecodeTurn(turn: string): (r: Result<nat>)
    ensures r.Success? ==> r.value < 3
    ensures r.Success? <==> exists h: Hand {:trigger Name(h)} :: Name(h) == turn
    ensures r.Failure? ==> r.error == "Could not decode turn " + turn
  {
    if turn == "rock" then assert Name(Rock) == turn; Success(0)
    else if turn == "scissors" then assert Name(Scissors) == turn; Success(1)
    else if turn == "paper" then assert Name(Paper) == turn; Success(2)
    else Failure("Could not decode turn " + turn)
  }

  /** Decoding undoes naming: every hand's name decodes to that hand's code,
      and a turn that decodes is the name of the hand with that code. */
  lemma DecodeTurnInvertsName(h: Hand, turn: string)
    ensures DecodeTurn(Name(h)) == Success(Code(h))
    ensures DecodeTurn(turn).Success? && DecodeTurn(turn).value == Code(h) ==> turn == Name(h)
  {
  }

  /** Who takes a round: nobody, or the player at index `winner` (0 or 1). */
  datatype RoundOutcome = Tie | Win(winner: nat)

  /** The same outcome seen with the two players' seats exchanged. */
  function Mirror(o: RoundOutcome): RoundOutcome
  {
    match o
    case Tie => Tie
    case Win(w) => Win(if w == 0 then 1 else 0)
  }

  /** The switch in `_getGameResult` on `(p1 - p0 + 3) % 3`: 0 is a tie,
      1 a win for player 0, 2 a win for player 1. */
  function Resolve(c0: nat, c1: nat): (r: RoundOutcome)
    requires c0 < 3 && c1 < 3
    ensures r == Tie <==> c0 == c1
    ensures r.Win? ==> r.winner < 2
  {
    var distance := (c1 - c0 + 3) % 3;
    if distance == 0 then Tie
    else if distance == 1 then Win(0)
    else Win(1)
  }

  /** Resolution reproduces the conventional game for all nine pairs: a tie
      exactly when the hands agree, otherwise player 0 wins exactly when its
      hand beats the other, and exactly one of the two hands beats the other. */
  lemma ResolveFollowsRules(a: Hand, b: Hand)
    ensures Resolve(Code(a), Code(b)) == Tie <==> a == b
    ensures Resolve(Code(a), Code(b)) == Win(0) <==> Beats(a, b)
    ensures Resolve(Code(a), Code(b)) == Win(1) <==> Beats(b, a)
    ensures a != b ==> (Beats(a, b) <==> !Beats(b, a))
  {
    match a
    case Rock =>
    case Scissors =>
    case Paper =>
  }

  /** Exchanging the two codes exchanges the winner and keeps a tie a tie. */
  lemma ResolveSymmetric(c0: nat, c1: nat)
    requires c0 < 3 && c1 < 3
    ensures Resolve(c1, c0) == Mirror(Resolve(c0, c1))
  {
    if c0 < c1 {
      assert (c1 - c0 + 3) % 3 == c1 - c0;
      assert (c0 - c1 + 3) % 3 == 3 - (c1 - c0);
    } else if c1 < c0 {
      assert (c0 - c1 + 3) % 3 == c0 - c1;
      assert (c1 - c0 + 3) % 3 == 3 - (c0 - c1);
    }
  }

  /** A whole round from the two raw turns, as `_getGameResult` does it:
      slot 0 is decoded first, so its error is the one thrown when both are bad. */
  function Judge(turn0: string, turn1: string): (r: Result<RoundOutcome>)
    ensures r.Success? <==> DecodeTurn(turn0).Success? && DecodeTurn(turn1).Success?
    ensures DecodeTurn(turn0).Failure? ==> r == Failure(DecodeTurn(turn0).error)
    ensures r.Success? && r.value.Win? ==> r.value.winner < 2
  {
    match DecodeTurn(turn0)
    case Failure(e) => Failure(e)
    case Success(p0) =>
      match DecodeTurn(turn1)
      case Failure(e) => Failure(e)
      case Success(p1) => Success(Resolve(p0, p1))
  }

  /** For hands sent by name, the round's result is the conventional one. */
  lemma JudgeFollowsRules(a: Hand, b: Hand)
    ensures Judge(Name(a), Name(b)) ==
      Success(if a == b then Tie else if Beats(a, b) then Win(0) else Win(1))
  {
    DecodeTurnInvertsName(a, Name(a));
    DecodeTurnInvertsName(b, Name(b));
    ResolveFollowsRules(a, b);
  }

  /** Exchanging the two turns exchanges the winner, keeps ties, and keeps
      a throwing round throwing. */
  lemma JudgeSymmetric(turn0: string, turn1: string)
    ensures Judge(turn1, turn0).Success? == Judge(turn0, turn1).Success?
    ensures Judge(turn0, turn1).Success? ==>
      Judge(turn1, turn0).value == Mirror(Judge(turn0, turn1).value)
  {
    if Judge(turn0, turn1).Success? {
      ResolveSymmetric(DecodeTurn(turn0).value, DecodeTurn(turn1).value);
    }
  }
}
