/**
 * The session loop of `NumberGuessingGame.play`: announce the statistics
 * (or the welcome text), play a round, record it with `update_stats`, and
 * ask whether to play again. The method `Game.NumberGuessingGame.Play` is
 * proved to compute exactly what `Run` describes.
 */
module Session {
  import opened Wrappers
  import Text
  import Stats
  import Round

  /** The replay answer after `.lower()`: yes, no, or neither (ask again). */
  datatype Answer = Again | Stop | Unclear

  const YES: set<string> := {"да", "yes", "y", "д"}
  const NO: set<string> := {"нет", "no", "n", "н"}

  function ClassifyReplay(token: string): Answer {
    var answer := Text.Lower(token);
    if answer in YES then Again
    else if answer in NO then Stop
    else Unclear
  }

  /** The answer does not depend on letter case: `YES`, `Да` and `N` are understood. */
  lemma ClassifyIgnoresCase(token: string)
    ensures ClassifyReplay(Text.Lower(token)) == ClassifyReplay(token)
  {
    Text.LowerIdempotent(token);
  }

  /**
   * An answer is understood as yes exactly when its lower-case form is in
   * the yes-list, and as no exactly when it is in the no-list; no answer is
   * in both, so the order of the two checks does not matter.
   */
  lemma ClassifyReplayCases(token: string)
    ensures ClassifyReplay(token) == Again <==> Text.Lower(token) in YES
    ensures ClassifyReplay(token) == Stop <==> Text.Lower(token) in NO
    ensures ClassifyReplay(token) == Unclear <==> Text.Lower(token) !in YES + NO
    ensures YES * NO == {}
  {
    assert "да" != "нет" && "да" != "no" && "да" != "n" && "да" != "н";
  }

  /** Answers in capitals are understood: `YES` and `Да` mean yes, `НЕТ` and `N` mean no; `maybe` asks again. */
  lemma ReplayAnswersUnderstood()
    ensures ClassifyReplay("YES") == Again && ClassifyReplay("Да") == Again
    ensures ClassifyReplay("НЕТ") == Stop && ClassifyReplay("N") == Stop
    ensures ClassifyReplay("maybe") == Unclear && ClassifyReplay("") == Unclear
  {
    assert Text.Lower("YES") == "yes";
    assert Text.Lower("Да") == "да";
    assert Text.Lower("НЕТ") == "нет";
    assert Text.Lower("N") == "n";
    assert Text.Lower("maybe") == "maybe";
  }

  /**
   * What the session reports besides the rounds' own events. `StatsShown`
   * and `Farewell` carry the record whose `Stats.Display` is printed.
   */
  datatype SessionEvent =
    | Welcome
    | StatsShown(shown: Stats.Record)
    | InRound(events: seq<Round.Event>)
    | AnswerYesOrNo
    | Farewell(shown: Stats.Record)

  /** The replay prompt's result: `Some(true)` to play again, `Some(false)` to stop, `None` when input ran out. */
  datatype Reply = Reply(again: Option<bool>, used: nat, events: seq<SessionEvent>)

  /** The replay loop on the input from position `from` on: re-prompt on every unclear answer. */
  function AskReplay(tokens: seq<string>, from: nat): (r: Reply)
    requires from <= |tokens|
    ensures from + r.used <= |tokens|
    ensures r.again.Some? ==> 1 <= r.used
    ensures r.again.None? ==> from + r.used == |tokens|
    decreases |tokens| - from
  {
    if from == |tokens| then Reply(None, 0, [])
    else
      match ClassifyReplay(tokens[from])
      case Again => Reply(Some(true), 1, [])
      case Stop => Reply(Some(false), 1, [])
      case Unclear =>
        var r := AskReplay(tokens, from + 1);
        Reply(r.again, r.used + 1, [AnswerYesOrNo] + r.events)
  }

  /**
   * The prompt reads answers up to the first yes or no: every earlier one
   * was unclear, the last one decides, and only running out of input ends
   * it without an answer.
   */
  lemma {:induction false} AskReplayAnswers(tokens: seq<string>, from: nat)
    requires from <= |tokens|
    ensures var r := AskReplay(tokens, from);
            && (r.again.None? <==>
                  from + r.used == |tokens| && forall i :: from <= i < |tokens| ==> ClassifyReplay(tokens[i]) == Unclear)
            && (r.again.Some? ==> ClassifyReplay(tokens[from + r.used - 1]) == (if r.again.value then Again else Stop))
            && (forall i :: from <= i < from + r.used - 1 ==> ClassifyReplay(tokens[i]) == Unclear)
    decreases |tokens| - from
  {
    if from < |tokens| && ClassifyReplay(tokens[from]) == Unclear {
      AskReplayAnswers(tokens, from + 1);
    }
  }

  /**
   * The arguments `play` passes to `update_stats`: the attempts of a won
   * round, and `max_attempts` for every other round, the one left with
   * `exit` included.
   */
  function Recorded(cfg: Round.Config, s: Round.RoundState): (o: Stats.Outcome)
    ensures o.won <==> s.phase == Round.Won
    ensures o.attempts == (if s.phase == Round.Won then s.attempts else cfg.maxAttempts)
  {
    Stats.Outcome(s.phase == Round.Won, if s.phase == Round.Won then s.attempts else cfg.maxAttempts)
  }

  /**
   * How a finished round of the game reaches `update_stats`, with a positive
   * attempt limit: a won round with its own attempt count, a lost one with
   * its count, which is `max_attempts`; only a round left with `exit` is
   * recorded with more attempts than it used, as a loss with `max_attempts`.
   */
  lemma PlayIsRecorded(cfg: Round.Config, secret: int, tokens: seq<string>)
    requires cfg.maxAttempts > 0
    ensures var s := Round.Play(cfg, secret, tokens).state;
            var o := Recorded(cfg, s);
            s.phase != Round.Guessing ==>
              && InRange(cfg, o)
              && (s.phase != Round.Aborted ==> o.attempts == s.attempts)
              && (s.phase == Round.Aborted ==> !o.won && s.attempts <= o.attempts == cfg.maxAttempts)
  {
    Round.PlayEnds(cfg, secret, tokens);
  }

  /** Before each round: the statistics once a game has been played, the welcome text before. */
  function Announce(r: Stats.Record): SessionEvent {
    if r.gamesPlayed > 0 then StatsShown(r) else Welcome
  }

  /** `Declined`: the player answered no. `Interrupted`: `input()` found no more input. */
  datatype SessionEnd = Declined | Interrupted

  /**
   * The result of a session: the final statistics, the outcome recorded for
   * each round, how it ended, what was reported, and the last round's final
   * state and secret (which stay in the game's fields).
   */
  datatype SessionResult = SessionResult(
    record: Stats.Record,
    outcomes: seq<Stats.Outcome>,
    end: SessionEnd,
    events: seq<SessionEvent>,
    last: Round.RoundState,
    lastSecret: int)

  /**
   * What a session needs of `play_round`: the round played against a secret
   * on the remaining input, reading a prefix of it. `RoundEngine` is the one
   * the game uses; the session loop is stated for any engine.
   */
  type Engine = (int, seq<string>) -> Round.RunResult

  function RoundEngine(cfg: Round.Config): Engine {
    (secret: int, tokens: seq<string>) => Round.Play(cfg, secret, tokens)
  }

  /** The engine reads no more input than there is. */
  ghost predicate Consumes(play: Engine) {
    forall secret: int, tokens: seq<string> :: play(secret, tokens).used <= |tokens|
  }

  /** Every finished round is recorded as a win in 1 to `max_attempts` attempts or as a loss with `max_attempts`. */
  ghost predicate Bounded(cfg: Round.Config, play: Engine) {
    forall secret: int, tokens: seq<string> :: play(secret, tokens).state.phase != Round.Guessing ==>
      InRange(cfg, Recorded(cfg, play(secret, tokens).state))
  }

  lemma RoundEngineFits(cfg: Round.Config)
    ensures Consumes(RoundEngine(cfg)) && Bounded(cfg, RoundEngine(cfg))
  {
    forall secret: int, tokens: seq<string>
      ensures RoundEngine(cfg)(secret, tokens).used <= |tokens|
      ensures RoundEngine(cfg)(secret, tokens).state.phase != Round.Guessing ==>
                InRange(cfg, Recorded(cfg, RoundEngine(cfg)(secret, tokens).state))
    {
      Round.PlayEnds(cfg, secret, tokens);
    }
  }

  /** An engine that plays the rounds of `Round.Play` reads no more input than there is. */
  lemma PlaysLikeRounds(cfg: Round.Config, play: Engine)
    requires forall secret: int, rest: seq<string> {:trigger Round.Play(cfg, secret, rest)} ::
               play(secret, rest) == Round.Play(cfg, secret, rest)
    ensures Consumes(play)
  {
    forall secret: int, rest: seq<string>
      ensures play(secret, rest).used <= |rest|
    {
      Round.PlayEnds(cfg, secret, rest);
    }
  }

  /**
   * Rounds `k`, `k + 1`, ... of a session on the input from position `pos`
   * on, round `i` played by `play` against the secret `draw(i)`.
   */
  function Run(cfg: Round.Config, play: Engine, draw: nat -> int, k: nat, r: Stats.Record, tokens: seq<string>, pos: nat)
    : SessionResult
    requires Consumes(play) && pos <= |tokens|
    decreases |tokens| - pos
  {
    var secret := draw(k);
    var round := play(secret, tokens[pos..]);
    var shown := [Announce(r), InRound(round.events)];
    if round.state.phase == Round.Guessing then
      SessionResult(r, [], Interrupted, shown, round.state, secret)
    else
      var o := Recorded(cfg, round.state);
      var updated := Stats.Update(r, o);
      var reply := AskReplay(tokens, pos + round.used);
      match reply.again
      case None => SessionResult(updated, [o], Interrupted, shown + reply.events, round.state, secret)
      case Some(false) =>
        SessionResult(updated, [o], Declined, shown + reply.events + [Farewell(updated)], round.state, secret)
      case Some(true) =>
        var next := Run(cfg, play, draw, k + 1, updated, tokens, pos + round.used + reply.used);
        SessionResult(next.record, [o] + next.outcomes, next.end, shown + reply.events + next.events, next.last, next.lastSecret)
  }

  /** The whole of `play`: round 0 on, from the start of the input. */
  function Session(cfg: Round.Config, play: Engine, draw: nat -> int, r: Stats.Record, tokens: seq<string>): SessionResult
    requires Consumes(play)
  {
    Run(cfg, play, draw, 0, r, tokens, 0)
  }

  /**
   * A session that has read `tokens[..pos]`, is about to play round `k`
   * with statistics `r`, and has recorded `outcomes` and reported `trace`
   * so far will end as `spec` describes.
   */
  ghost predicate Reaches(cfg: Round.Config, play: Engine, draw: nat -> int, tokens: seq<string>, k: nat, r: Stats.Record,
                          pos: nat, trace: seq<SessionEvent>, outcomes: seq<Stats.Outcome>, spec: SessionResult)
    requires Consumes(play) && pos <= |tokens|
  {
    var s := Run(cfg, play, draw, k, r, tokens, pos);
    spec == SessionResult(s.record, outcomes + s.outcomes, s.end, trace + s.events, s.last, s.lastSecret)
  }

  lemma ReachesStart(cfg: Round.Config, play: Engine, draw: nat -> int, r: Stats.Record, tokens: seq<string>)
    requires Consumes(play)
    ensures Reaches(cfg, play, draw, tokens, 0, r, 0, [], [], Session(cfg, play, draw, r, tokens))
  {
  }

  /** A round whose input ran out ends the session, with nothing recorded. */
  lemma ReachesInterrupted(cfg: Round.Config, play: Engine, draw: nat -> int, tokens: seq<string>, k: nat, r: Stats.Record,
                           pos: nat, trace: seq<SessionEvent>, outcomes: seq<Stats.Outcome>, spec: SessionResult,
                           round: Round.RunResult)
    requires Consumes(play) && pos <= |tokens| && Reaches(cfg, play, draw, tokens, k, r, pos, trace, outcomes, spec)
    requires var secret := draw(k); round == play(secret, tokens[pos..]) && round.state.phase == Round.Guessing
    ensures spec == SessionResult(r, outcomes, Interrupted, trace + [Announce(r)] + [InRound(round.events)], round.state, draw(k))
  {
    Associative(trace, [Announce(r)], [InRound(round.events)]);
  }

  /** A finished round followed by the end of input: the round is recorded and the session ends. */
  lemma ReachesReplyInterrupted(cfg: Round.Config, play: Engine, draw: nat -> int, tokens: seq<string>, k: nat, r: Stats.Record,
                                pos: nat, trace: seq<SessionEvent>, outcomes: seq<Stats.Outcome>, spec: SessionResult,
                                round: Round.RunResult, reply: Reply)
    requires Consumes(play) && pos <= |tokens| && Reaches(cfg, play, draw, tokens, k, r, pos, trace, outcomes, spec)
    requires var secret := draw(k); round == play(secret, tokens[pos..]) && round.state.phase != Round.Guessing
    requires pos + round.used <= |tokens| && reply == AskReplay(tokens, pos + round.used) && reply.again.None?
    ensures spec == SessionResult(Stats.Update(r, Recorded(cfg, round.state)), outcomes + [Recorded(cfg, round.state)],
                                  Interrupted, trace + [Announce(r)] + [InRound(round.events)] + reply.events,
                                  round.state, draw(k))
  {
    Associative(trace, [Announce(r)], [InRound(round.events)]);
    Associative(trace, [Announce(r), InRound(round.events)], reply.events);
  }

  /** A finished round followed by "no": the round is recorded and the final statistics shown. */
  lemma ReachesReplyDeclined(cfg: Round.Config, play: Engine, draw: nat -> int, tokens: seq<string>, k: nat, r: Stats.Record,
                             pos: nat, trace: seq<SessionEvent>, outcomes: seq<Stats.Outcome>, spec: SessionResult,
                             round: Round.RunResult, reply: Reply)
    requires Consumes(play) && pos <= |tokens| && Reaches(cfg, play, draw, tokens, k, r, pos, trace, outcomes, spec)
    requires var secret := draw(k); round == play(secret, tokens[pos..]) && round.state.phase != Round.Guessing
    requires pos + round.used <= |tokens| && reply == AskReplay(tokens, pos + round.used) && reply.again == Some(false)
    ensures spec == SessionResult(Stats.Update(r, Recorded(cfg, round.state)), outcomes + [Recorded(cfg, round.state)],
                                  Declined, trace + [Announce(r)] + [InRound(round.events)] + reply.events
                                            + [Farewell(Stats.Update(r, Recorded(cfg, round.state)))],
                                  round.state, draw(k))
  {
    var head := [Announce(r), InRound(round.events)];
    var farewell := [Farewell(Stats.Update(r, Recorded(cfg, round.state)))];
    Associative(trace, [Announce(r)], [InRound(round.events)]);
    Associative(trace, head, reply.events);
    Associative(trace, head + reply.events, farewell);
  }

  /**
   * A finished round followed by "yes": the round is recorded and round
   * `k + 1` follows from `pos'`, with statistics `r'`, `outcomes'` recorded
   * and `trace'` reported.
   */
  lemma ReachesReplyAgain(cfg: Round.Config, play: Engine, draw: nat -> int, tokens: seq<string>, k: nat, r: Stats.Record,
                          pos: nat, trace: seq<SessionEvent>, outcomes: seq<Stats.Outcome>, spec: SessionResult,
                          round: Round.RunResult, reply: Reply,
                          r': Stats.Record, pos': nat, trace': seq<SessionEvent>, outcomes': seq<Stats.Outcome>)
    requires Consumes(play) && pos <= |tokens| && Reaches(cfg, play, draw, tokens, k, r, pos, trace, outcomes, spec)
    requires var secret := draw(k); round == play(secret, tokens[pos..]) && round.state.phase != Round.Guessing
    requires pos + round.used <= |tokens| && reply == AskReplay(tokens, pos + round.used) && reply.again == Some(true)
    requires r' == Stats.Update(r, Recorded(cfg, round.state)) && pos' == pos + round.used + reply.used
    requires trace' == trace + [Announce(r)] + [InRound(round.events)] + reply.events
    requires outcomes' == outcomes + [Recorded(cfg, round.state)]
    ensures pos' <= |tokens|
    ensures Reaches(cfg, play, draw, tokens, k + 1, r', pos', trace', outcomes', spec)
  {
    var next := Run(cfg, play, draw, k + 1, r', tokens, pos');
    RunAgain(cfg, play, draw, tokens, k, r, pos, round, reply);
    Regroup(trace, Announce(r), InRound(round.events), reply.events, next.events);
    Associative(outcomes, [Recorded(cfg, round.state)], next.outcomes);
  }

  /**
   * A finished round followed by the replay prompt: the round is recorded
   * as `outcomes'` and `r'`, and the session ends on no answer or on "no",
   * or goes on with round `k + 1` from `pos'` on "yes".
   */
  lemma ReachesReply(cfg: Round.Config, play: Engine, draw: nat -> int, tokens: seq<string>, k: nat, r: Stats.Record,
                     pos: nat, trace: seq<SessionEvent>, outcomes: seq<Stats.Outcome>, spec: SessionResult,
                     round: Round.RunResult, reply: Reply,
                     r': Stats.Record, pos': nat, trace': seq<SessionEvent>, outcomes': seq<Stats.Outcome>)
    requires Consumes(play) && pos <= |tokens| && Reaches(cfg, play, draw, tokens, k, r, pos, trace, outcomes, spec)
    requires var secret := draw(k); round == play(secret, tokens[pos..]) && round.state.phase != Round.Guessing
    requires pos + round.used <= |tokens| && reply == AskReplay(tokens, pos + round.used)
    requires r' == Stats.Update(r, Recorded(cfg, round.state)) && pos' == pos + round.used + reply.used
    requires trace' == trace + [Announce(r)] + [InRound(round.events)] + reply.events
    requires outcomes' == outcomes + [Recorded(cfg, round.state)]
    ensures reply.again == None ==> spec == SessionResult(r', outcomes', Interrupted, trace', round.state, draw(k))
    ensures reply.again == Some(false) ==>
              spec == SessionResult(r', outcomes', Declined, trace' + [Farewell(r')], round.state, draw(k))
    ensures reply.again == Some(true) ==>
              pos' <= |tokens| && Reaches(cfg, play, draw, tokens, k + 1, r', pos', trace', outcomes', spec)
  {
    match reply.again
    case None =>
      ReachesReplyInterrupted(cfg, play, draw, tokens, k, r, pos, trace, outcomes, spec, round, reply);
    case Some(false) =>
      ReachesReplyDeclined(cfg, play, draw, tokens, k, r, pos, trace, outcomes, spec, round, reply);
    case Some(true) =>
      ReachesReplyAgain(cfg, play, draw, tokens, k, r, pos, trace, outcomes, spec, round, reply, r', pos', trace', outcomes');
  }

  /** The events reported so far, followed by one more round's, regrouped as the session loop appends them. */
  lemma Regroup<T>(trace: seq<T>, a: T, b: T, reply: seq<T>, rest: seq<T>)
    ensures trace + ([a, b] + reply + rest) == trace + [a] + [b] + reply + rest
  {
    assert [a, b] == [a] + [b];
    Associative(trace, [a], [b]);
    Associative(trace, [a, b], reply);
    Associative(trace, [a, b] + reply, rest);
  }

  /** One step of `Run` when the player asks for another round. */
  lemma RunAgain(cfg: Round.Config, play: Engine, draw: nat -> int, tokens: seq<string>, k: nat, r: Stats.Record,
                 pos: nat, round: Round.RunResult, reply: Reply)
    requires Consumes(play) && pos <= |tokens|
    requires var secret := draw(k); round == play(secret, tokens[pos..]) && round.state.phase != Round.Guessing
    requires pos + round.used <= |tokens| && reply == AskReplay(tokens, pos + round.used) && reply.again == Some(true)
    ensures pos + round.used + reply.used <= |tokens|
    ensures var next := Run(cfg, play, draw, k + 1, Stats.Update(r, Recorded(cfg, round.state)), tokens, pos + round.used + reply.used);
            Run(cfg, play, draw, k, r, tokens, pos)
            == SessionResult(next.record, [Recorded(cfg, round.state)] + next.outcomes, next.end,
                             [Announce(r), InRound(round.events)] + reply.events + next.events, next.last, next.lastSecret)
  {
  }

  /** `Run` when the round's input runs out, or when the player answers no or stops answering. */
  lemma RunStops(cfg: Round.Config, play: Engine, draw: nat -> int, tokens: seq<string>, k: nat, r: Stats.Record, pos: nat)
    requires Consumes(play) && pos <= |tokens|
    ensures var secret := draw(k);
            var round := play(secret, tokens[pos..]);
            var s := Run(cfg, play, draw, k, r, tokens, pos);
            && (round.state.phase == Round.Guessing ==> s.record == r && s.outcomes == [])
            && (round.state.phase != Round.Guessing && AskReplay(tokens, pos + round.used).again != Some(true) ==>
                  s.record == Stats.Update(r, Recorded(cfg, round.state)) && s.outcomes == [Recorded(cfg, round.state)])
  {
  }

  lemma Associative<T>(a: seq<T>, b: seq<T>, c: seq<T>)
    ensures a + (b + c) == a + b + c
  {
  }

  /** The statistics at the end of a session are the start's, updated with each recorded outcome in turn. */
  lemma {:induction false} RunRecordsEveryRound(cfg: Round.Config, play: Engine, draw: nat -> int, k: nat,
                                                r: Stats.Record, tokens: seq<string>, pos: nat)
    requires Consumes(play) && pos <= |tokens|
    ensures var s := Run(cfg, play, draw, k, r, tokens, pos);
            s.record == Stats.Replay(r, s.outcomes)
    decreases |tokens| - pos
  {
    var s := Run(cfg, play, draw, k, r, tokens, pos);
    var secret := draw(k);
    var round := play(secret, tokens[pos..]);
    if round.state.phase != Round.Guessing {
      var o := Recorded(cfg, round.state);
      var reply := AskReplay(tokens, pos + round.used);
      if reply.again == Some(true) {
        var p2 := pos + round.used + reply.used;
        var next := Run(cfg, play, draw, k + 1, Stats.Update(r, o), tokens, p2);
        RunAgain(cfg, play, draw, tokens, k, r, pos, round, reply);
        assert s.record == next.record && s.outcomes == [o] + next.outcomes;
        RunRecordsEveryRound(cfg, play, draw, k + 1, Stats.Update(r, o), tokens, p2);
        Stats.ReplayCons(r, o, next.outcomes);
        assert s.record == Stats.Replay(r, s.outcomes);
      } else {
        RunStops(cfg, play, draw, tokens, k, r, pos);
        Stats.ReplayCons(r, o, []);
        assert s.record == Stats.Replay(r, s.outcomes);
      }
    } else {
      RunStops(cfg, play, draw, tokens, k, r, pos);
      assert s.record == Stats.Replay(r, s.outcomes);
    }
  }

  /** A recorded outcome as `play` produces it: a win in 1 to `max_attempts` attempts, or `max_attempts` for a loss. */
  predicate InRange(cfg: Round.Config, o: Stats.Outcome) {
    if o.won then 1 <= o.attempts <= cfg.maxAttempts else o.attempts == cfg.maxAttempts
  }

  predicate AllInRange(cfg: Round.Config, os: seq<Stats.Outcome>) {
    forall i :: 0 <= i < |os| ==> InRange(cfg, os[i])
  }

  /**
   * Every recorded outcome is either a win in 1 to `max_attempts` attempts
   * or a loss (true loss or `exit`) counted as `max_attempts` attempts.
   */
  lemma {:induction false} RunOutcomesInRange(cfg: Round.Config, play: Engine, draw: nat -> int, k: nat,
                                              r: Stats.Record, tokens: seq<string>, pos: nat)
    requires Consumes(play) && Bounded(cfg, play) && pos <= |tokens|
    ensures AllInRange(cfg, Run(cfg, play, draw, k, r, tokens, pos).outcomes)
    decreases |tokens| - pos
  {
    var secret := draw(k);
    var round := play(secret, tokens[pos..]);
    if round.state.phase != Round.Guessing {
      var o := Recorded(cfg, round.state);
      assert InRange(cfg, o);
      var reply := AskReplay(tokens, pos + round.used);
      if reply.again == Some(true) {
        var p2 := pos + round.used + reply.used;
        var next := Run(cfg, play, draw, k + 1, Stats.Update(r, o), tokens, p2);
        RunAgain(cfg, play, draw, tokens, k, r, pos, round, reply);
        RunOutcomesInRange(cfg, play, draw, k + 1, Stats.Update(r, o), tokens, p2);
        var os := [o] + next.outcomes;
        forall i | 0 <= i < |os|
          ensures InRange(cfg, os[i])
        {
          if i > 0 {
            assert os[i] == next.outcomes[i - 1];
          }
        }
      }
    }
  }

  /**
   * Over a whole session with a positive attempt limit: one game is counted
   * per recorded round, the statistics stay valid, and the best score never
   * gets worse; a best score the session sets lies in 1 to `max_attempts`.
   */
  lemma SessionKeepsStatsValid(cfg: Round.Config, play: Engine, draw: nat -> int, r: Stats.Record, tokens: seq<string>)
    requires Consumes(play) && Bounded(cfg, play)
    requires cfg.maxAttempts > 0 && Stats.Valid(r)
    ensures var s := Session(cfg, play, draw, r, tokens);
            && s.record == Stats.Replay(r, s.outcomes)
            && s.record.gamesPlayed == r.gamesPlayed + |s.outcomes|
            && Stats.Valid(s.record)
            && Stats.BestNoWorse(s.record.bestScore, r.bestScore)
            && (s.record.bestScore.Some? && s.record.bestScore != r.bestScore ==>
                  1 <= s.record.bestScore.value <= cfg.maxAttempts)
  {
    var s := Session(cfg, play, draw, r, tokens);
    RunRecordsEveryRound(cfg, play, draw, 0, r, tokens, 0);
    RunOutcomesInRange(cfg, play, draw, 0, r, tokens, 0);
    Stats.ReplaySummary(r, s.outcomes);
    Stats.ReplayPreservesValid(r, s.outcomes);
    if s.record.bestScore.Some? && s.record.bestScore != r.bestScore {
      var i :| 0 <= i < |s.outcomes| && s.outcomes[i].won && s.outcomes[i].attempts == s.record.bestScore.value;
    }
  }

  /** The same for the game's own rounds. */
  lemma GameKeepsStatsValid(cfg: Round.Config, draw: nat -> int, r: Stats.Record, tokens: seq<string>)
    requires cfg.maxAttempts > 0 && Stats.Valid(r)
    ensures Consumes(RoundEngine(cfg))
    ensures var s := Session(cfg, RoundEngine(cfg), draw, r, tokens);
            && s.record == Stats.Replay(r, s.outcomes)
            && s.record.gamesPlayed == r.gamesPlayed + |s.outcomes|
            && Stats.Valid(s.record)
            && Stats.BestNoWorse(s.record.bestScore, r.bestScore)
            && (s.record.bestScore.Some? && s.record.bestScore != r.bestScore ==>
                  1 <= s.record.bestScore.value <= cfg.maxAttempts)
  {
    RoundEngineFits(cfg);
    SessionKeepsStatsValid(cfg, RoundEngine(cfg), draw, r, tokens);
  }

  /**
   * `exit` on the first prompt followed by `n`: the aborted round is
   * recorded as a lost game with `max_attempts` attempts, and the replay
   * prompt still follows.
   */
  lemma ExitIsRecordedAsLoss(cfg: Round.Config, draw: nat -> int, r: Stats.Record)
    requires cfg.maxAttempts > 0
    ensures Consumes(RoundEngine(cfg))
    ensures var s := Session(cfg, RoundEngine(cfg), draw, r, ["exit", "n"]);
            && s.outcomes == [Stats.Outcome(false, cfg.maxAttempts)]
            && s.record == Stats.Update(r, Stats.Outcome(false, cfg.maxAttempts))
            && s.end == Declined
            && s.last.phase == Round.Aborted
  {
    RoundEngineFits(cfg);
    var tokens := ["exit", "n"];
    assert Text.Lower("exit") == "exit";
    assert Text.Lower("n") == "n";
    var st := Round.Start(cfg, draw(0)).state;
    Round.RunUnfold(cfg, draw(0), st, tokens, 0);
  }
}
