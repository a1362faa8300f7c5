/**
 * `NumberGuessingGame`: the object that plays rounds and sessions. Its
 * methods follow the loops of the game step by step, and each is proved
 * to compute what the functional description in `Round` or `Session`
 * says. The secret that `random.randint` would draw, and the lines that
 * `input()` would read, are parameters.
 */
module Game {
  import opened Wrappers
  import Text
  import Stats
  import Round
  import Session

  /** How `play_round` ends: it returns `won`, or `input()` raises `EOFError`. */
  datatype RoundEnd = Returned(won: bool) | EndOfInput

  /** How the wait for a guess ends: a valid guess, `exit`, or no more input. */
  datatype GuessRead = Guess(value: int) | ExitTyped | NoInput

  class NumberGuessingGame {
    const minNumber: int
    const maxNumber: int
    const maxAttempts: int
    var secretNumber: Option<int>
    var attempts: int
    const stats: Stats.GameStats

    function Config(): Round.Config {
      Round.Config(minNumber, maxNumber, maxAttempts)
    }

    /** `NumberGuessingGame(min_num, max_num, max_attempts)`, with the statistics loaded from `file`. */
    constructor (file: Option<Stats.Document>, minNum: int := 1, maxNum: int := 100, maxAttempts: int := 10)
      ensures minNumber == minNum && maxNumber == maxNum && this.maxAttempts == maxAttempts
      ensures secretNumber == None && attempts == 0
      ensures fresh(stats) && stats.file == file && stats.Snapshot() == Stats.Load(Stats.DEFAULT, file)
    {
      minNumber, maxNumber, this.maxAttempts := minNum, maxNum, maxAttempts;
      secretNumber, attempts := None, 0;
      stats := new Stats.GameStats(file);
    }

    /**
     * `play_round` with the secret `secret` and the player's stripped input
     * lines `tokens`; `used` is how many of them it read.
     */
    method PlayRound(secret: int, tokens: seq<string>) returns (result: RoundEnd, used: nat, trace: seq<Round.Event>)
      requires minNumber <= secret <= maxNumber
      modifies this
      ensures var r := Round.Play(Config(), secret, tokens);
              && used == r.used && trace == r.events && attempts == r.state.attempts
              && result == (if r.state.phase == Round.Guessing then EndOfInput else Returned(r.state.phase == Round.Won))
      ensures secretNumber == Some(secret)
    {
      secretNumber := Some(secret);
      attempts := 0;
      var history: seq<int> := [];
      ghost var cfg := Config();
      ghost var spec := Round.Play(cfg, secret, tokens);
      used, trace := 0, [];
      Round.ReachesStart(cfg, secret, tokens);
      while attempts < maxAttempts
        invariant used <= |tokens|
        invariant secretNumber == Some(secret)
        invariant var t := Round.Advance(cfg, secret, attempts, history);
                  Round.Reaches(cfg, secret, tokens, t.state, used, trace + t.events, spec)
        decreases maxAttempts - attempts
      {
        ghost var traceBefore := trace;
        attempts := attempts + 1;
        trace := trace + [Round.AttemptStarted(attempts)];
        ghost var state := Round.RoundState(Round.Guessing, attempts, history);
        Round.ReachesAdvance(cfg, secret, tokens, attempts - 1, history, used, traceBefore, spec, state, trace);
        var read, next, rejected := ReadGuess(secret, tokens, used, state, trace, spec);
        used, trace := next, trace + rejected;
        match read
        case NoInput =>
          result := EndOfInput;
          return;
        case ExitTyped =>
          trace := trace + [Round.ExitRequested];
          result := Returned(false);
          return;
        case Guess(guess) =>
          history := history + [guess];
          if guess == secret {
            trace := trace + [Round.Guessed(secret, attempts, history)];
            result := Returned(true);
            return;
          }
          var feedback := Round.Feedback(Config(), secret, attempts, history, guess);
          trace := trace + feedback;
      }
      Round.ReachesEnd(cfg, secret, tokens, Round.RoundState(Round.Lost, attempts, history), used, trace + [Round.OutOfAttempts(secret)], spec);
      trace := trace + [Round.OutOfAttempts(secret)];
      result := Returned(false);
    }

    /**
     * The inner loop of `play_round`: read lines from position `from` on
     * until one is `exit` or a valid guess, reporting each invalid one.
     * Relative to a round that will end as `spec`, it is where the round
     * goes next: over on `exit` or the end of input, won on the right guess,
     * and on to the next attempt after the feedback on a wrong one.
     */
    method ReadGuess(secret: int, tokens: seq<string>, from: nat, ghost state: Round.RoundState,
                     ghost traceIn: seq<Round.Event>, ghost spec: Round.RunResult)
      returns (read: GuessRead, used: nat, rejected: seq<Round.Event>)
      requires from <= |tokens| && state.phase == Round.Guessing
      requires Round.Reaches(Config(), secret, tokens, state, from, traceIn, spec)
      ensures from <= used <= |tokens|
      ensures read == NoInput ==> used == |tokens| && spec == Round.RunResult(state, used, traceIn + rejected)
      ensures read == ExitTyped ==>
                spec == Round.RunResult(state.(phase := Round.Aborted), used, traceIn + rejected + [Round.ExitRequested])
      ensures read.Guess? && read.value == secret ==>
                var history := state.history + [read.value];
                spec == Round.RunResult(Round.RoundState(Round.Won, state.attempts, history), used,
                                        traceIn + rejected + [Round.Guessed(secret, state.attempts, history)])
      ensures read.Guess? && read.value != secret ==>
                var history := state.history + [read.value];
                var next := Round.Advance(Config(), secret, state.attempts, history);
                Round.Reaches(Config(), secret, tokens, next.state, used,
                              traceIn + rejected + Round.Feedback(Config(), secret, state.attempts, history, read.value) + next.events,
                              spec)
    {
      ghost var cfg := Config();
      used, rejected := from, [];
      while true
        invariant from <= used <= |tokens|
        invariant Round.Reaches(cfg, secret, tokens, state, used, traceIn + rejected, spec)
        decreases |tokens| - used
      {
        if used == |tokens| {
          Round.ReachesEnd(cfg, secret, tokens, state, used, traceIn + rejected, spec);
          return NoInput, used, rejected;
        }
        var token := tokens[used];
        if Text.IsExit(token) {
          Round.ReachesExit(cfg, secret, tokens, state, used, traceIn + rejected, spec);
          return ExitTyped, used + 1, rejected;
        }
        var v := Round.ValidateInput(Config(), token);
        if v.Accepted? {
          Round.ReachesAccepted(cfg, secret, tokens, state, used, traceIn + rejected, spec, v.value);
          return Guess(v.value), used + 1, rejected;
        }
        Round.ReachesRejected(cfg, secret, tokens, state, used, traceIn + rejected, spec, v.reason);
        Session.Associative(traceIn, rejected, [Round.InputRejected(v.reason)]);
        used, rejected := used + 1, rejected + [Round.InputRejected(v.reason)];
      }
    }

    /** `PlayRound` as the session loop sees it: the round that `engine` describes. */
    method PlayEngineRound(ghost engine: Session.Engine, secret: int, tokens: seq<string>)
      returns (result: RoundEnd, used: nat, trace: seq<Round.Event>, ghost round: Round.RunResult)
      requires forall secret: int, rest: seq<string> {:trigger Round.Play(Config(), secret, rest)} ::
                 engine(secret, rest) == Round.Play(Config(), secret, rest)
      requires minNumber <= secret <= maxNumber
      modifies this
      ensures round == engine(secret, tokens)
      ensures used == round.used && trace == round.events && attempts == round.state.attempts
      ensures result == (if round.state.phase == Round.Guessing then EndOfInput else Returned(round.state.phase == Round.Won))
      ensures secretNumber == Some(secret)
    {
      round := Round.Play(Config(), secret, tokens);
      result, used, trace := PlayRound(secret, tokens);
    }

    /** The replay prompt of `play`: read answers from position `from` on until one is yes or no. */
    method AskReplay(tokens: seq<string>, from: nat) returns (again: Option<bool>, used: nat, trace: seq<Session.SessionEvent>)
      requires from <= |tokens|
      ensures Session.AskReplay(tokens, from) == Session.Reply(again, used, trace)
    {
      used, trace := 0, [];
      while true
        invariant from + used <= |tokens|
        invariant var rest := Session.AskReplay(tokens, from + used);
                  Session.AskReplay(tokens, from) == Session.Reply(rest.again, used + rest.used, trace + rest.events)
        decreases |tokens| - used
      {
        if from + used == |tokens| {
          again := None;
          return;
        }
        var answer := Session.ClassifyReplay(tokens[from + used]);
        used := used + 1;
        if answer == Session.Again {
          again := Some(true);
          return;
        }
        if answer == Session.Stop {
          again := Some(false);
          return;
        }
        trace := trace + [Session.AnswerYesOrNo];
      }
    }

    /**
     * One pass of the loop of `play`: the statistics or the welcome text,
     * round `k` against `draw(k)` on the input from `pos`, its
     * `update_stats` call and the replay prompt. `stop` is how the session
     * ends, if it does; otherwise round `k + 1` starts at `next`. Relative
     * to a session that will end as `spec`, having reported `shown` and
     * recorded `outcomes'`, the session goes on from there or is over.
     */
    method SessionRound(ghost engine: Session.Engine, draw: nat -> int, tokens: seq<string>, k: nat, pos: nat,
                        ghost traceIn: seq<Session.SessionEvent>, ghost outcomes: seq<Stats.Outcome>,
                        ghost file: Option<Stats.Document>, ghost spec: Session.SessionResult)
      returns (stop: Option<Session.SessionEnd>, next: nat, shown: seq<Session.SessionEvent>,
               ghost outcomes': seq<Stats.Outcome>)
      requires forall secret: int, rest: seq<string> {:trigger Round.Play(Config(), secret, rest)} ::
                 engine(secret, rest) == Round.Play(Config(), secret, rest)
      requires minNumber <= draw(k) <= maxNumber
      requires Session.Consumes(engine) && pos <= |tokens|
      requires Session.Reaches(Config(), engine, draw, tokens, k, stats.Snapshot(), pos, traceIn, outcomes, spec)
      requires stats.file == (if outcomes == [] then file else Some(Stats.Encode(stats.Snapshot())))
      modifies this, stats
      ensures stats.file == (if outcomes' == [] then file else Some(Stats.Encode(stats.Snapshot())))
      ensures stop.None? ==>
                && pos < next <= |tokens|
                && Session.Reaches(Config(), engine, draw, tokens, k + 1, stats.Snapshot(), next, traceIn + shown, outcomes', spec)
      ensures stop.Some? ==>
                && spec.record == stats.Snapshot() && spec.end == stop.value && spec.events == traceIn + shown
                && spec.last.attempts == attempts && Some(spec.lastSecret) == secretNumber
                && spec.outcomes == outcomes'
    {
      ghost var cfg := Config();
      ghost var before := stats.Snapshot();
      var secret := draw(k);
      var current := stats.Snapshot();
      shown := [Session.Announce(current)];
      ghost var round;
      var result, used, roundTrace;
      result, used, roundTrace, round := PlayEngineRound(engine, secret, tokens[pos..]);
      shown := shown + [Session.InRound(roundTrace)];
      if result == EndOfInput {
        Session.ReachesInterrupted(cfg, engine, draw, tokens, k, before, pos, traceIn, outcomes, spec, round);
        Session.Associative(traceIn, [Session.Announce(before)], [Session.InRound(round.events)]);
        return Some(Session.Interrupted), pos, shown, outcomes;
      }
      var won := result.won;
      stats.UpdateStats(won, if won then attempts else maxAttempts);
      ghost var record := Stats.Update(before, Session.Recorded(cfg, round.state));
      assert stats.Snapshot() == record;
      current := stats.Snapshot();
      var again, replyUsed, replyTrace := AskReplay(tokens, pos + used);
      ghost var reply := Session.Reply(again, replyUsed, replyTrace);
      outcomes' := outcomes + [Session.Recorded(cfg, round.state)];
      shown := shown + replyTrace;
      next := pos + used + replyUsed;
      ghost var trace := traceIn + [Session.Announce(before)] + [Session.InRound(round.events)] + reply.events;
      Session.ReachesReply(cfg, engine, draw, tokens, k, before, pos, traceIn, outcomes, spec, round, reply,
                           record, next, trace, outcomes');
      Session.Associative(traceIn, [Session.Announce(before)], [Session.InRound(round.events)]);
      Session.Associative(traceIn, [Session.Announce(before), Session.InRound(round.events)], reply.events);
      assert trace == traceIn + shown;
      match again
      case None =>
        stop := Some(Session.Interrupted);
      case Some(false) =>
        Session.Associative(traceIn, shown, [Session.Farewell(current)]);
        shown := shown + [Session.Farewell(current)];
        stop := Some(Session.Declined);
      case Some(true) =>
        stop := None;
    }

    /**
     * `play`: round after round against the secrets `draw(0)`, `draw(1)`,
     * ..., each recorded with `update_stats`, until the player declines
     * or the input runs out. The ghost `engine` names the rounds `PlayRound`
     * plays: it is `Round.Play` on this game's configuration.
     */
    method Play(ghost engine: Session.Engine, draw: nat -> int, tokens: seq<string>)
      returns (end: Session.SessionEnd, trace: seq<Session.SessionEvent>)
      requires forall secret: int, rest: seq<string> {:trigger Round.Play(Config(), secret, rest)} ::
                 engine(secret, rest) == Round.Play(Config(), secret, rest)
      requires forall k: nat :: minNumber <= draw(k) <= maxNumber
      modifies this, stats
      ensures Session.Consumes(engine)
      ensures var s := Session.Session(Config(), engine, draw, old(stats.Snapshot()), tokens);
              && stats.Snapshot() == s.record && end == s.end && trace == s.events
              && attempts == s.last.attempts && secretNumber == Some(s.lastSecret)
              && stats.file == (if s.outcomes == [] then old(stats.file) else Some(Stats.Encode(s.record)))
    {
      ghost var cfg := Config();
      Session.PlaysLikeRounds(cfg, engine);
      ghost var file := stats.file;
      ghost var spec := Session.Session(cfg, engine, draw, stats.Snapshot(), tokens);
      ghost var outcomes: seq<Stats.Outcome> := [];
      var k: nat := 0;
      var pos: nat := 0;
      trace := [];
      Session.ReachesStart(cfg, engine, draw, stats.Snapshot(), tokens);
      while true
        invariant pos <= |tokens|
        invariant Session.Reaches(cfg, engine, draw, tokens, k, stats.Snapshot(), pos, trace, outcomes, spec)
        invariant stats.file == (if outcomes == [] then file else Some(Stats.Encode(stats.Snapshot())))
        decreases |tokens| - pos
      {
        var stop, next, shown;
        stop, next, shown, outcomes := SessionRound(engine, draw, tokens, k, pos, trace, outcomes, file, spec);
        trace := trace + shown;
        if stop.Some? {
          end := stop.value;
          return;
        }
        pos, k := next, k + 1;
      }
    }
  }
}
