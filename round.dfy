/**
 * One round of `NumberGuessingGame`, as a function of the configuration,
 * the secret and the tokens the player types: input validation, the
 * proximity hint, and the round itself as a state machine that consumes
 * one token per step. The method `Game.NumberGuessingGame.PlayRound` is
 * proved to compute exactly what `Play` describes.
 */
module Round {
  import opened Wrappers
  import Text

  /** `min_number`, `max_number` and `max_attempts` of a game. */
  datatype Config = Config(minNumber: int, maxNumber: int, maxAttempts: int)

  /** The three distinct complaints `validate_input` can make. */
  datatype Invalid = NotAnInteger | BelowMinimum | AboveMaximum

  /** The `(is_valid, result)` pair of `validate_input`. */
  datatype Validation = Accepted(value: int) | Rejected(reason: Invalid)

  function ValidateInput(cfg: Config, token: string): Validation {
    match Text.ParseInt(token)
    case None => Rejected(NotAnInteger)
    case Some(n) =>
      if n < cfg.minNumber then Rejected(BelowMinimum)
      else if n > cfg.maxNumber then Rejected(AboveMaximum)
      else Accepted(n)
  }

  /**
   * A token is accepted exactly when it parses to a number in
   * `[min_number, max_number]`, and then as that number; otherwise the
   * complaint says which of the three checks failed first.
   */
  lemma ValidateInputCases(cfg: Config, token: string)
    ensures var v := ValidateInput(cfg, token);
            && (v.Accepted? <==> Text.ParseInt(token).Some? && cfg.minNumber <= Text.ParseInt(token).value <= cfg.maxNumber)
            && (v.Accepted? ==> v.value == Text.ParseInt(token).value)
            && (v == Rejected(NotAnInteger) <==> Text.ParseInt(token).None?)
            && (v == Rejected(BelowMinimum) <==> Text.ParseInt(token).Some? && Text.ParseInt(token).value < cfg.minNumber)
            && (v == Rejected(AboveMaximum) <==>
                  Text.ParseInt(token).Some? && cfg.minNumber <= Text.ParseInt(token).value && cfg.maxNumber < Text.ParseInt(token).value)
  {
  }

  /** The four proximity tiers of `get_hint`, nearest first. */
  datatype Tier = Hot | Warm | Cool | Cold

  function Rank(t: Tier): nat {
    match t
    case Hot => 0
    case Warm => 1
    case Cool => 2
    case Cold => 3
  }

  /** `abs(secret - guess)`. */
  function Distance(secret: int, guess: int): nat {
    if secret >= guess then secret - guess else guess - secret
  }

  /** `get_hint`. */
  function Hint(secret: int, guess: int): Tier {
    var difference := Distance(secret, guess);
    if difference <= 5 then Hot
    else if difference <= 10 then Warm
    else if difference <= 20 then Cool
    else Cold
  }

  /** The bounds of `get_hint` are inclusive and the nearest tier that fits wins. */
  lemma HintBands(secret: int, guess: int)
    ensures Hint(secret, guess) == Hot <==> Distance(secret, guess) <= 5
    ensures Hint(secret, guess) == Warm <==> 5 < Distance(secret, guess) <= 10
    ensures Hint(secret, guess) == Cool <==> 10 < Distance(secret, guess) <= 20
    ensures Hint(secret, guess) == Cold <==> 20 < Distance(secret, guess)
  {
  }

  /** The boundary distances: 5 is hot, 6 and 10 warm, 11 and 20 cool, 21 cold, on either side of the secret. */
  lemma HintBoundaries(secret: int)
    ensures Hint(secret, secret + 5) == Hot && Hint(secret, secret - 5) == Hot
    ensures Hint(secret, secret + 6) == Warm && Hint(secret, secret - 6) == Warm
    ensures Hint(secret, secret + 10) == Warm && Hint(secret, secret - 10) == Warm
    ensures Hint(secret, secret + 11) == Cool && Hint(secret, secret - 11) == Cool
    ensures Hint(secret, secret + 20) == Cool && Hint(secret, secret - 20) == Cool
    ensures Hint(secret, secret + 21) == Cold && Hint(secret, secret - 21) == Cold
  {
  }

  /** A closer guess never gets a colder tier, and the hint does not depend on the side. */
  lemma HintMonotone(secret: int, nearer: int, farther: int)
    requires Distance(secret, nearer) <= Distance(secret, farther)
    ensures Rank(Hint(secret, nearer)) <= Rank(Hint(secret, farther))
    ensures Hint(secret, nearer) == Hint(secret, secret + (secret - nearer))
  {
  }

  /** Where the round is: waiting for a guess, or finished one of three ways. */
  datatype Phase = Guessing | Won | Lost | Aborted

  /**
   * The round's state: `attempts` is `self.attempts`, `history` is
   * `guesses_history`. In phase `Guessing` the attempt `attempts` has
   * already been counted and its guess is awaited.
   */
  datatype RoundState = RoundState(phase: Phase, attempts: int, history: seq<int>)

  /** What the round reports to the player, in order. */
  datatype Event =
    | AttemptStarted(attempt: int)
    | ExitRequested
    | InputRejected(reason: Invalid)
    | Guessed(secret: int, attempts: int, guesses: seq<int>)
    | GoHigher
    | GoLower
    | ProximityHint(tier: Tier)
    | AttemptsLeft(remaining: int)
    | EarlierGuesses(guesses: seq<int>)
    | OutOfAttempts(secret: int)

  datatype Transition = Transition(state: RoundState, events: seq<Event>)

  /**
   * The head of `while self.attempts < self.max_attempts`: either the next
   * attempt is counted, or the round is lost and the secret revealed.
   */
  function Advance(cfg: Config, secret: int, attempts: int, history: seq<int>): Transition {
    if attempts < cfg.maxAttempts then
      Transition(RoundState(Guessing, attempts + 1, history), [AttemptStarted(attempts + 1)])
    else
      Transition(RoundState(Lost, attempts, history), [OutOfAttempts(secret)])
  }

  /** The round before any token is read: `self.attempts = 0`, empty history. */
  function Start(cfg: Config, secret: int): Transition {
    Advance(cfg, secret, 0, [])
  }

  /** The messages after a wrong guess: direction, the hint from the third attempt on, attempts left, earlier guesses. */
  function Feedback(cfg: Config, secret: int, attempts: int, history: seq<int>, guess: int): seq<Event> {
    [if guess < secret then GoHigher else GoLower]
    + (if attempts >= 3 then [ProximityHint(Hint(secret, guess))] else [])
    + (if cfg.maxAttempts - attempts > 0 then [AttemptsLeft(cfg.maxAttempts - attempts)] else [])
    + (if |history| > 1 then [EarlierGuesses(history[..|history| - 1])] else [])
  }

  /** One token typed while a guess is awaited. */
  function Step(cfg: Config, secret: int, s: RoundState, token: string): Transition
    requires s.phase == Guessing
  {
    if Text.IsExit(token) then
      Transition(s.(phase := Aborted), [ExitRequested])
    else
      match ValidateInput(cfg, token)
      case Rejected(why) => Transition(s, [InputRejected(why)])
      case Accepted(guess) =>
        var history := s.history + [guess];
        if guess == secret then
          Transition(RoundState(Won, s.attempts, history), [Guessed(secret, s.attempts, history)])
        else
          var next := Advance(cfg, secret, s.attempts, history);
          Transition(next.state, Feedback(cfg, secret, s.attempts, history, guess) + next.events)
  }

  /** The final state, the number of tokens read, and the events of a run. */
  datatype RunResult = RunResult(state: RoundState, used: nat, events: seq<Event>)

  /**
   * Feed tokens to the round until it finishes or the tokens run out; a
   * run that ends in phase `Guessing` is one where `input()` found no more
   * input.
   */
  function Run(cfg: Config, secret: int, s: RoundState, tokens: seq<string>): (r: RunResult)
    ensures r.used <= |tokens|
    ensures r.state.phase == Guessing ==> r.used == |tokens|
    ensures s.phase != Guessing ==> r == RunResult(s, 0, [])
    decreases |tokens|
  {
    if s.phase != Guessing || tokens == [] then RunResult(s, 0, [])
    else
      var t := Step(cfg, secret, s, tokens[0]);
      var rest := Run(cfg, secret, t.state, tokens[1..]);
      RunResult(rest.state, rest.used + 1, t.events + rest.events)
  }

  /** A whole round: `play_round` with the secret given and the player's tokens scripted. */
  function Play(cfg: Config, secret: int, tokens: seq<string>): RunResult {
    var t := Start(cfg, secret);
    var r := Run(cfg, secret, t.state, tokens);
    RunResult(r.state, r.used, t.events + r.events)
  }

  /** Running from position `i` is one step on `tokens[i]` followed by the run from `i + 1`. */
  lemma RunUnfold(cfg: Config, secret: int, s: RoundState, tokens: seq<string>, i: nat)
    requires s.phase == Guessing && i < |tokens|
    ensures var t := Step(cfg, secret, s, tokens[i]);
            var rest := Run(cfg, secret, t.state, tokens[i + 1..]);
            Run(cfg, secret, s, tokens[i..]) == RunResult(rest.state, rest.used + 1, t.events + rest.events)
  {
    assert tokens[i..][0] == tokens[i];
    assert tokens[i..][1..] == tokens[i + 1..];
  }

  /**
   * A round that has read `tokens[..used]`, is in state `s` and has
   * reported `trace` so far will end as `r` describes.
   */
  ghost predicate Reaches(cfg: Config, secret: int, tokens: seq<string>, s: RoundState, used: nat, trace: seq<Event>, r: RunResult)
    requires used <= |tokens|
  {
    var rest := Run(cfg, secret, s, tokens[used..]);
    r == RunResult(rest.state, used + rest.used, trace + rest.events)
  }

  lemma ReachesStart(cfg: Config, secret: int, tokens: seq<string>)
    ensures var t := Start(cfg, secret);
            Reaches(cfg, secret, tokens, t.state, 0, t.events, Play(cfg, secret, tokens))
  {
    assert tokens[0..] == tokens;
  }

  /** Counting the next attempt, as the head of the attempt loop does: the round goes on in state `s'` with `trace'`. */
  lemma ReachesAdvance(cfg: Config, secret: int, tokens: seq<string>, attempts: int, history: seq<int>,
                       used: nat, trace: seq<Event>, r: RunResult, s': RoundState, trace': seq<Event>)
    requires used <= |tokens| && attempts < cfg.maxAttempts
    requires Reaches(cfg, secret, tokens, Advance(cfg, secret, attempts, history).state, used,
                     trace + Advance(cfg, secret, attempts, history).events, r)
    requires s' == RoundState(Guessing, attempts + 1, history) && trace' == trace + [AttemptStarted(attempts + 1)]
    ensures Reaches(cfg, secret, tokens, s', used, trace', r)
  {
  }

  /** Reading one more token. */
  lemma ReachesStep(cfg: Config, secret: int, tokens: seq<string>, s: RoundState, used: nat, trace: seq<Event>, r: RunResult)
    requires s.phase == Guessing && used < |tokens|
    requires Reaches(cfg, secret, tokens, s, used, trace, r)
    ensures var t := Step(cfg, secret, s, tokens[used]);
            Reaches(cfg, secret, tokens, t.state, used + 1, trace + t.events, r)
  {
    RunUnfold(cfg, secret, s, tokens, used);
    var t := Step(cfg, secret, s, tokens[used]);
    var rest := Run(cfg, secret, t.state, tokens[used + 1..]);
    assert trace + (t.events + rest.events) == (trace + t.events) + rest.events;
  }

  /** Reading `exit`: the round ends, aborted. */
  lemma ReachesExit(cfg: Config, secret: int, tokens: seq<string>, s: RoundState, used: nat, trace: seq<Event>, r: RunResult)
    requires s.phase == Guessing && used < |tokens| && Text.IsExit(tokens[used])
    requires Reaches(cfg, secret, tokens, s, used, trace, r)
    ensures r == RunResult(s.(phase := Aborted), used + 1, trace + [ExitRequested])
  {
    ReachesStep(cfg, secret, tokens, s, used, trace, r);
    ReachesEnd(cfg, secret, tokens, s.(phase := Aborted), used + 1, trace + [ExitRequested], r);
  }

  /** Reading a token that `validate_input` refuses: the same attempt goes on. */
  lemma ReachesRejected(cfg: Config, secret: int, tokens: seq<string>, s: RoundState, used: nat, trace: seq<Event>, r: RunResult,
                        why: Invalid)
    requires s.phase == Guessing && used < |tokens| && !Text.IsExit(tokens[used])
    requires ValidateInput(cfg, tokens[used]) == Rejected(why)
    requires Reaches(cfg, secret, tokens, s, used, trace, r)
    ensures Reaches(cfg, secret, tokens, s, used + 1, trace + [InputRejected(why)], r)
  {
    ReachesStep(cfg, secret, tokens, s, used, trace, r);
  }

  /** Reading a valid guess: the round is won, or the feedback is given and the attempt loop goes on. */
  lemma ReachesAccepted(cfg: Config, secret: int, tokens: seq<string>, s: RoundState, used: nat, trace: seq<Event>, r: RunResult,
                        guess: int)
    requires s.phase == Guessing && used < |tokens| && !Text.IsExit(tokens[used])
    requires ValidateInput(cfg, tokens[used]) == Accepted(guess)
    requires Reaches(cfg, secret, tokens, s, used, trace, r)
    ensures guess == secret ==>
              r == RunResult(RoundState(Won, s.attempts, s.history + [guess]), used + 1,
                             trace + [Guessed(secret, s.attempts, s.history + [guess])])
    ensures guess != secret ==>
              var next := Advance(cfg, secret, s.attempts, s.history + [guess]);
              Reaches(cfg, secret, tokens, next.state, used + 1,
                      trace + Feedback(cfg, secret, s.attempts, s.history + [guess], guess) + next.events, r)
  {
    ReachesStep(cfg, secret, tokens, s, used, trace, r);
    var history := s.history + [guess];
    if guess == secret {
      ReachesEnd(cfg, secret, tokens, RoundState(Won, s.attempts, history), used + 1,
                 trace + [Guessed(secret, s.attempts, history)], r);
    } else {
      var next := Advance(cfg, secret, s.attempts, history);
      var feedback := Feedback(cfg, secret, s.attempts, history, guess);
      assert trace + (feedback + next.events) == trace + feedback + next.events;
    }
  }

  /** A finished round, or one whose input ran out, has reached its end. */
  lemma ReachesEnd(cfg: Config, secret: int, tokens: seq<string>, s: RoundState, used: nat, trace: seq<Event>, r: RunResult)
    requires used <= |tokens| && (s.phase != Guessing || used == |tokens|)
    requires Reaches(cfg, secret, tokens, s, used, trace, r)
    ensures r == RunResult(s, used, trace)
  {
    if s.phase == Guessing {
      assert tokens[used..] == [];
    }
  }

  /** The accepted guesses among `tokens`, in order. */
  function AcceptedGuesses(cfg: Config, tokens: seq<string>): seq<int>
    decreases |tokens|
  {
    if tokens == [] then []
    else
      (match ValidateInput(cfg, tokens[0])
       case Accepted(g) => [g]
       case Rejected(_) => [])
      + AcceptedGuesses(cfg, tokens[1..])
  }

  /** The state invariant of a round with secret `secret`. */
  predicate Inv(cfg: Config, secret: int, s: RoundState) {
    && (forall i :: 0 <= i < |s.history| ==> cfg.minNumber <= s.history[i] <= cfg.maxNumber)
    && match s.phase
       case Guessing => s.attempts == |s.history| + 1 <= cfg.maxAttempts && secret !in s.history
       case Aborted => s.attempts == |s.history| + 1 <= cfg.maxAttempts && secret !in s.history
       case Won =>
         && 1 <= s.attempts == |s.history| <= cfg.maxAttempts
         && s.history[|s.history| - 1] == secret
         && secret !in s.history[..|s.history| - 1]
       case Lost =>
         && s.attempts == |s.history| == (if cfg.maxAttempts > 0 then cfg.maxAttempts else 0)
         && secret !in s.history
  }

  lemma StartInv(cfg: Config, secret: int)
    ensures Inv(cfg, secret, Start(cfg, secret).state)
  {
  }

  lemma StepInv(cfg: Config, secret: int, s: RoundState, token: string)
    requires s.phase == Guessing && Inv(cfg, secret, s)
    ensures Inv(cfg, secret, Step(cfg, secret, s, token).state)
  {
    if !Text.IsExit(token) && ValidateInput(cfg, token).Accepted? {
      ValidateInputCases(cfg, token);
      var g := ValidateInput(cfg, token).value;
      var h := s.history + [g];
      assert h[..|h| - 1] == s.history;
    }
  }

  lemma {:induction false} RunInv(cfg: Config, secret: int, s: RoundState, tokens: seq<string>)
    requires Inv(cfg, secret, s)
    ensures Inv(cfg, secret, Run(cfg, secret, s, tokens).state)
    decreases |tokens|
  {
    if s.phase == Guessing && tokens != [] {
      StepInv(cfg, secret, s, tokens[0]);
      RunInv(cfg, secret, Step(cfg, secret, s, tokens[0]).state, tokens[1..]);
    }
  }

  /**
   * Each token read either leaves the history alone (rejected, or `exit`)
   * or appends its guess once, in order: the history is the accepted
   * guesses among the tokens read.
   */
  lemma {:induction false} RunHistory(cfg: Config, secret: int, s: RoundState, tokens: seq<string>)
    ensures Run(cfg, secret, s, tokens).state.history ==
            s.history + AcceptedGuesses(cfg, tokens[..Run(cfg, secret, s, tokens).used])
    decreases |tokens|
  {
    var r := Run(cfg, secret, s, tokens);
    if s.phase == Guessing && tokens != [] {
      var t := Step(cfg, secret, s, tokens[0]);
      RunHistory(cfg, secret, t.state, tokens[1..]);
      var rest := Run(cfg, secret, t.state, tokens[1..]);
      assert tokens[..r.used][0] == tokens[0];
      assert tokens[..r.used][1..] == tokens[1..][..rest.used];
      if Text.IsExit(tokens[0]) {
        Text.ExitIsNotANumber(tokens[0]);
        assert rest.used == 0;
      }
    }
  }

  /**
   * How a round ends. Won: the last guess is the secret, it is the only
   * match, and `attempts` equals the number of guesses (at most
   * `max_attempts`). Lost: `max_attempts` guesses were made, none the
   * secret. Aborted by `exit`, or input ran out: the pending attempt was
   * already counted, so `attempts` is one more than the number of guesses.
   * In every case the history is the accepted guesses among the tokens read.
   */
  lemma PlayEnds(cfg: Config, secret: int, tokens: seq<string>)
    ensures var r := Play(cfg, secret, tokens);
            && r.used <= |tokens|
            && r.state.history == AcceptedGuesses(cfg, tokens[..r.used])
            && (r.state.phase == Won ==>
                  && 1 <= r.state.attempts == |r.state.history| <= cfg.maxAttempts
                  && r.state.history[|r.state.history| - 1] == secret
                  && secret !in r.state.history[..|r.state.history| - 1])
            && (r.state.phase == Lost ==>
                  && r.state.attempts == |r.state.history| == (if cfg.maxAttempts > 0 then cfg.maxAttempts else 0)
                  && secret !in r.state.history)
            && (r.state.phase in {Aborted, Guessing} ==>
                  r.state.attempts == |r.state.history| + 1 <= cfg.maxAttempts)
            && (r.state.phase == Guessing ==> r.used == |tokens|)
  {
    StartInv(cfg, secret);
    RunInv(cfg, secret, Start(cfg, secret).state, tokens);
    RunHistory(cfg, secret, Start(cfg, secret).state, tokens);
  }

  /** Every guess in a round's history was in range. */
  lemma PlayHistoryInRange(cfg: Config, secret: int, tokens: seq<string>)
    ensures var h := Play(cfg, secret, tokens).state.history;
            forall i :: 0 <= i < |h| ==> cfg.minNumber <= h[i] <= cfg.maxNumber
  {
    StartInv(cfg, secret);
    RunInv(cfg, secret, Start(cfg, secret).state, tokens);
  }

  /** A rejected token changes nothing but the error message: no attempt is used up. */
  lemma RejectedTokenKeepsState(cfg: Config, secret: int, s: RoundState, token: string)
    requires s.phase == Guessing
    requires !Text.IsExit(token) && ValidateInput(cfg, token).Rejected?
    ensures Step(cfg, secret, s, token) == Transition(s, [InputRejected(ValidateInput(cfg, token).reason)])
  {
  }

  /** `exit` ends the round at once: the counted attempt stays counted and nothing is added to the history. */
  lemma ExitAbortsRound(cfg: Config, secret: int, s: RoundState, token: string)
    requires s.phase == Guessing && Text.IsExit(token)
    ensures Step(cfg, secret, s, token).state == RoundState(Aborted, s.attempts, s.history)
  {
  }

  /**
   * A proximity hint is given for a token exactly when it is a wrong guess
   * on the third attempt or later, and it is the tier of that guess.
   */
  lemma HintOnlyFromThirdMiss(cfg: Config, secret: int, s: RoundState, token: string, tier: Tier)
    requires s.phase == Guessing
    ensures ProximityHint(tier) in Step(cfg, secret, s, token).events <==>
              && !Text.IsExit(token)
              && ValidateInput(cfg, token).Accepted?
              && ValidateInput(cfg, token).value != secret
              && s.attempts >= 3
              && tier == Hint(secret, ValidateInput(cfg, token).value)
  {
    if !Text.IsExit(token) && ValidateInput(cfg, token).Accepted? && ValidateInput(cfg, token).value != secret {
      var g := ValidateInput(cfg, token).value;
      var h := s.history + [g];
      var fb := Feedback(cfg, secret, s.attempts, h, g);
      var next := Advance(cfg, secret, s.attempts, h);
      assert Step(cfg, secret, s, token).events == fb + next.events;
      assert ProximityHint(tier) !in next.events;
      if s.attempts >= 3 {
        assert fb[1] == ProximityHint(Hint(secret, g));
      } else {
        assert ProximityHint(tier) !in fb;
      }
    }
  }

  /** The scenario of a rejected 200, -5 and abc followed by the secret 50: won on the first attempt. */
  lemma ScenarioWinAfterRejections()
    ensures var r := Play(Config(1, 100, 10), 50, ["200", "-5", "abc", "50"]);
            r.state == RoundState(Won, 1, [50]) && r.used == 4
            && r.events == [AttemptStarted(1), InputRejected(AboveMaximum), InputRejected(BelowMinimum),
                            InputRejected(NotAnInteger), Guessed(50, 1, [50])]
  {
    assert "200"[..2] == "20" && "20"[..1] == "2" && "2"[..0] == "";
    assert Text.DigitsValue("200") == 200;
    assert Text.ParseInt("200") == Some(200);
    assert "-5"[1..] == "5" && "5"[..0] == "";
    assert Text.ParseInt("-5") == Some(-5);
    assert Text.ParseInt("abc") == None;
    assert "50"[..1] == "5";
    assert Text.ParseInt("50") == Some(50);
  }

  /** A token that is an accepted guess other than the secret. */
  predicate Miss(cfg: Config, secret: int, token: string) {
    !Text.IsExit(token) && ValidateInput(cfg, token).Accepted? && ValidateInput(cfg, token).value != secret
  }

  /**
   * Missing on every remaining attempt loses the round after exactly the
   * remaining attempts, with `attempts == max_attempts`.
   */
  lemma {:induction false} MissesLose(cfg: Config, secret: int, s: RoundState, tokens: seq<string>)
    requires s.phase == Guessing && 1 <= s.attempts <= cfg.maxAttempts
    requires cfg.maxAttempts - s.attempts < |tokens|
    requires forall i :: 0 <= i < |tokens| ==> Miss(cfg, secret, tokens[i])
    ensures Run(cfg, secret, s, tokens).state.phase == Lost
    ensures Run(cfg, secret, s, tokens).state.attempts == cfg.maxAttempts
    ensures Run(cfg, secret, s, tokens).used == cfg.maxAttempts - s.attempts + 1
    decreases |tokens|
  {
    assert Miss(cfg, secret, tokens[0]);
    var t := Step(cfg, secret, s, tokens[0]);
    if s.attempts < cfg.maxAttempts {
      assert t.state.phase == Guessing && t.state.attempts == s.attempts + 1;
      forall i | 0 <= i < |tokens[1..]|
        ensures Miss(cfg, secret, tokens[1..][i])
      {
        assert tokens[1..][i] == tokens[i + 1];
      }
      MissesLose(cfg, secret, t.state, tokens[1..]);
    }
  }

  /** The scenario of ten guesses of 1 against the secret 7: lost, with 10 attempts. */
  lemma ScenarioTenMisses()
    ensures var r := Play(Config(1, 100, 10), 7, seq(10, _ => "1"));
            r.state.phase == Lost && r.state.attempts == 10 && r.used == 10
  {
    var cfg := Config(1, 100, 10);
    var tokens := seq(10, _ => "1");
    assert Text.Lower("1") == "1";
    assert Text.ParseInt("1") == Some(1);
    assert Miss(cfg, 7, "1");
    MissesLose(cfg, 7, Start(cfg, 7).state, tokens);
  }
}
