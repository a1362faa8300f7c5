/**
 * The statistics kept across sessions by `GameStats`: the four counters,
 * how one finished round changes them, the figures shown to the player,
 * and the key/value document they are loaded from and saved to.
 */
module Stats {
  import opened Wrappers

  /** A finished round as `update_stats` receives it. */
  datatype Outcome = Outcome(won: bool, attempts: int)

  /**
   * The counters of `GameStats`. `bestScore == None` is the unset value
   * (`float('inf')`), which compares above every number of attempts.
   */
  datatype Record = Record(gamesPlayed: int, gamesWon: int, totalAttempts: int, bestScore: Option<int>)

  /** The values `GameStats.__init__` starts from. */
  const DEFAULT := Record(0, 0, 0, None)

  /** `attempts < best_score`, with the unset best score as +infinity. */
  predicate Improves(attempts: int, best: Option<int>) {
    best.None? || attempts < best.value
  }

  /** `newer` is at least as good a best score as `older`: it never goes back up or becomes unset. */
  predicate BestNoWorse(newer: Option<int>, older: Option<int>) {
    older.Some? ==> newer.Some? && newer.value <= older.value
  }

  /** The record after `update_stats(won, attempts)`. */
  function Update(r: Record, o: Outcome): (u: Record)
    ensures u.gamesPlayed == r.gamesPlayed + 1
    ensures u.totalAttempts == r.totalAttempts + o.attempts
    ensures u.gamesWon == r.gamesWon + (if o.won then 1 else 0)
    ensures !o.won ==> u.bestScore == r.bestScore
    ensures o.won ==> u.bestScore.Some? && u.bestScore.value <= o.attempts && BestNoWorse(u.bestScore, r.bestScore)
    ensures u.bestScore.Some? ==> u.bestScore == r.bestScore || u.bestScore.value == o.attempts
  {
    Record(r.gamesPlayed + 1,
           if o.won then r.gamesWon + 1 else r.gamesWon,
           r.totalAttempts + o.attempts,
           if o.won && Improves(o.attempts, r.bestScore) then Some(o.attempts) else r.bestScore)
  }

  /**
   * The invariant of every record built from the default one by updates
   * with non-negative attempt counts.
   */
  predicate Valid(r: Record) {
    && 0 <= r.gamesWon <= r.gamesPlayed
    && 0 <= r.totalAttempts
    && (r.bestScore.Some? <==> r.gamesWon > 0)
    && (r.bestScore.Some? ==> 0 <= r.bestScore.value <= r.totalAttempts)
  }

  lemma DefaultValid()
    ensures Valid(DEFAULT)
  {
  }

  lemma UpdatePreservesValid(r: Record, o: Outcome)
    requires Valid(r) && o.attempts >= 0
    ensures Valid(Update(r, o))
  {
  }

  /** The record after `update_stats` was applied to each outcome of `os` in turn. */
  function Replay(r: Record, os: seq<Outcome>): Record
    decreases |os|
  {
    if os == [] then r else Update(Replay(r, os[..|os| - 1]), os[|os| - 1])
  }

  /** The number of won rounds among `os`. */
  function CountWon(os: seq<Outcome>): nat
    decreases |os|
  {
    if os == [] then 0 else CountWon(os[..|os| - 1]) + (if os[|os| - 1].won then 1 else 0)
  }

  /** The attempts of all rounds of `os` added up. */
  function SumAttempts(os: seq<Outcome>): int
    decreases |os|
  {
    if os == [] then 0 else SumAttempts(os[..|os| - 1]) + os[|os| - 1].attempts
  }

  /** Applying the first outcome and then the rest is the same as replaying them all. */
  lemma {:induction false} ReplayCons(r: Record, o: Outcome, os: seq<Outcome>)
    ensures Replay(r, [o] + os) == Replay(Update(r, o), os)
    decreases |os|
  {
    if os != [] {
      ReplayCons(r, o, os[..|os| - 1]);
      assert ([o] + os)[..|os|] == [o] + os[..|os| - 1];
    }
  }

  /**
   * What a sequence of updates amounts to: games and attempts are counted,
   * wins are counted, and the best score is the least attempt count of a
   * won round (or the earlier best score, if that is smaller).
   */
  lemma {:induction false} ReplaySummary(r: Record, os: seq<Outcome>)
    ensures Replay(r, os).gamesPlayed == r.gamesPlayed + |os|
    ensures Replay(r, os).gamesWon == r.gamesWon + CountWon(os)
    ensures Replay(r, os).totalAttempts == r.totalAttempts + SumAttempts(os)
    ensures BestNoWorse(Replay(r, os).bestScore, r.bestScore)
    ensures forall i :: 0 <= i < |os| && os[i].won ==>
              Replay(r, os).bestScore.Some? && Replay(r, os).bestScore.value <= os[i].attempts
    ensures Replay(r, os).bestScore.Some? ==>
              Replay(r, os).bestScore == r.bestScore ||
              exists i :: 0 <= i < |os| && os[i].won && os[i].attempts == Replay(r, os).bestScore.value
    decreases |os|
  {
    if os != [] {
      var init := os[..|os| - 1];
      var last := os[|os| - 1];
      ReplaySummary(r, init);
      var q := Replay(r, init);
      assert Replay(r, os) == Update(q, last);
      forall i | 0 <= i < |os| && os[i].won
        ensures Replay(r, os).bestScore.Some? && Replay(r, os).bestScore.value <= os[i].attempts
      {
        if i < |os| - 1 {
          assert init[i] == os[i];
        }
      }
      if Replay(r, os).bestScore.Some? && Replay(r, os).bestScore != r.bestScore {
        if Replay(r, os).bestScore == q.bestScore {
          var i :| 0 <= i < |init| && init[i].won && init[i].attempts == q.bestScore.value;
          assert os[i] == init[i];
        } else {
          assert last.won && last.attempts == Replay(r, os).bestScore.value;
        }
      }
    }
  }

  /** Starting from zero, no round won means no best score, and the other way round. */
  lemma ReplayFromDefault(os: seq<Outcome>)
    ensures Replay(DEFAULT, os).gamesPlayed == |os|
    ensures Replay(DEFAULT, os).gamesWon == CountWon(os)
    ensures Replay(DEFAULT, os).totalAttempts == SumAttempts(os)
    ensures Replay(DEFAULT, os).bestScore.None? <==> forall i :: 0 <= i < |os| ==> !os[i].won
  {
    ReplaySummary(DEFAULT, os);
  }

  /** The best score never increases over a sequence of updates. */
  lemma {:induction false} BestNeverIncreases(r: Record, os: seq<Outcome>, i: nat, j: nat)
    requires i <= j <= |os|
    ensures BestNoWorse(Replay(r, os[..j]).bestScore, Replay(r, os[..i]).bestScore)
    decreases j
  {
    if i < j {
      BestNeverIncreases(r, os, i, j - 1);
      assert os[..j][..j - 1] == os[..j - 1];
    }
  }

  /** `Valid` holds after any sequence of updates with non-negative attempt counts. */
  lemma {:induction false} ReplayPreservesValid(r: Record, os: seq<Outcome>)
    requires Valid(r)
    requires forall i :: 0 <= i < |os| ==> os[i].attempts >= 0
    ensures Valid(Replay(r, os))
    decreases |os|
  {
    if os != [] {
      ReplayPreservesValid(r, os[..|os| - 1]);
      UpdatePreservesValid(Replay(r, os[..|os| - 1]), os[|os| - 1]);
    }
  }

  /** Attempt counts that all lie in [lo, hi] add up to between |os| * lo and |os| * hi. */
  lemma {:induction false} SumAttemptsBounds(os: seq<Outcome>, lo: int, hi: int)
    requires forall i :: 0 <= i < |os| ==> lo <= os[i].attempts <= hi
    ensures |os| * lo <= SumAttempts(os) <= |os| * hi
    decreases |os|
  {
    if os != [] {
      SumAttemptsBounds(os[..|os| - 1], lo, hi);
    }
  }

  /** The win rate in percent, 0 while no game was played (`display_stats`). */
  function WinRate(r: Record): (rate: real)
    ensures r.gamesPlayed <= 0 ==> rate == 0.0
    ensures r.gamesPlayed > 0 ==> rate * (r.gamesPlayed as real) == (r.gamesWon as real) * 100.0
  {
    if r.gamesPlayed > 0 then (r.gamesWon as real) / (r.gamesPlayed as real) * 100.0 else 0.0
  }

  /** The average number of attempts per game, 0 while no game was played (`display_stats`). */
  function AverageAttempts(r: Record): (avg: real)
    ensures r.gamesPlayed <= 0 ==> avg == 0.0
    ensures r.gamesPlayed > 0 ==> avg * (r.gamesPlayed as real) == r.totalAttempts as real
  {
    if r.gamesPlayed > 0 then (r.totalAttempts as real) / (r.gamesPlayed as real) else 0.0
  }

  /** A valid record has a win rate between 0 and 100 percent. */
  lemma WinRateInRange(r: Record)
    requires Valid(r)
    ensures 0.0 <= WinRate(r) <= 100.0
  {
    if r.gamesPlayed > 0 {
      var p := r.gamesPlayed as real;
      var w := r.gamesWon as real;
      assert w / p <= 1.0 by {
        assert w <= p;
      }
    }
  }

  /**
   * When every round took between lo and hi attempts, the displayed average
   * lies between lo and hi.
   */
  lemma AverageInRange(os: seq<Outcome>, lo: int, hi: int)
    requires |os| > 0
    requires forall i :: 0 <= i < |os| ==> lo <= os[i].attempts <= hi
    ensures lo as real <= AverageAttempts(Replay(DEFAULT, os)) <= hi as real
  {
    ReplayFromDefault(os);
    SumAttemptsBounds(os, lo, hi);
    QuotientBounds(SumAttempts(os), |os|, lo, hi);
  }

  lemma QuotientBounds(total: int, n: int, lo: int, hi: int)
    requires n > 0 && n * lo <= total <= n * hi
    ensures lo as real <= (total as real) / (n as real) <= hi as real
  {
    var q := (total as real) / (n as real);
    assert q * (n as real) == total as real;
    assert (n * lo) as real == (n as real) * (lo as real);
    assert (n * hi) as real == (n as real) * (hi as real);
  }

  /** What `display_stats` shows; the best score only once it is set. */
  datatype Metrics = Metrics(gamesPlayed: int, gamesWon: int, winRate: real, averageAttempts: real, bestScore: Option<int>)

  function Display(r: Record): Metrics {
    Metrics(r.gamesPlayed, r.gamesWon, WinRate(r), AverageAttempts(r), r.bestScore)
  }

  /**
   * The figures shown for a valid record: a win rate between 0 and 100
   * percent, a non-negative average, a best score line exactly once a game
   * was won, and all zeros before the first game.
   */
  lemma DisplayFigures(r: Record)
    requires Valid(r)
    ensures var m := Display(r);
            && 0.0 <= m.winRate <= 100.0
            && 0.0 <= m.averageAttempts
            && (m.bestScore.Some? <==> m.gamesWon > 0)
            && (r.gamesPlayed == 0 ==> m == Metrics(0, 0, 0.0, 0.0, None))
  {
    WinRateInRange(r);
  }

  /** A number in the statistics file: `json.dump` writes the unset best score as `Infinity`. */
  datatype Number = Finite(n: int) | Infinity

  /** The decoded JSON object of `game_stats.json`; `None` is a missing key. */
  datatype Document = Document(gamesPlayed: Option<int>, gamesWon: Option<int>, totalAttempts: Option<int>, bestScore: Option<Number>)

  function CounterOrZero(field: Option<int>): int {
    match field
    case Some(n) => n
    case None => 0
  }

  /** `data.get(key, default)` for each of the four keys in `load_stats`. */
  function Decode(d: Document): (r: Record)
    ensures d.gamesPlayed.None? ==> r.gamesPlayed == 0
    ensures d.gamesWon.None? ==> r.gamesWon == 0
    ensures d.totalAttempts.None? ==> r.totalAttempts == 0
    ensures d.gamesPlayed.Some? ==> r.gamesPlayed == d.gamesPlayed.value
    ensures d.gamesWon.Some? ==> r.gamesWon == d.gamesWon.value
    ensures d.totalAttempts.Some? ==> r.totalAttempts == d.totalAttempts.value
    ensures r.bestScore.None? <==> d.bestScore.None? || d.bestScore == Some(Infinity)
    ensures d.bestScore.Some? && d.bestScore.value.Finite? ==> r.bestScore == Some(d.bestScore.value.n)
  {
    Record(CounterOrZero(d.gamesPlayed), CounterOrZero(d.gamesWon), CounterOrZero(d.totalAttempts),
           match d.bestScore
           case Some(Finite(b)) => Some(b)
           case _ => None)
  }

  /** The object `save_stats` writes: always all four keys. */
  function Encode(r: Record): Document {
    Document(Some(r.gamesPlayed), Some(r.gamesWon), Some(r.totalAttempts),
             Some(match r.bestScore
                  case Some(b) => Finite(b)
                  case None => Infinity))
  }

  /** Loading what was saved gives back the same record, the unset best score included. */
  lemma DecodeEncode(r: Record)
    ensures Decode(Encode(r)) == r
  {
  }

  predicate Complete(d: Document) {
    d.gamesPlayed.Some? && d.gamesWon.Some? && d.totalAttempts.Some? && d.bestScore.Some?
  }

  /** Saving what was loaded rewrites the same document exactly when it held all four keys. */
  lemma EncodeDecode(d: Document)
    ensures Encode(Decode(d)) == d <==> Complete(d)
  {
  }

  /**
   * The record after `load_stats`, given the current one and the file:
   * `None` stands for a missing file or one `json.load` could not read, and
   * leaves the current values in place.
   */
  function Load(current: Record, file: Option<Document>): (r: Record)
    ensures file.None? ==> r == current
    ensures file.Some? ==> r == Decode(file.value)
    ensures file.Some? && file.value == Document(None, None, None, None) ==> r == DEFAULT
  {
    match file
    case Some(d) => Decode(d)
    case None => current
  }

  /** `GameStats`: the counters, updated in place, and the file they are written through to. */
  class GameStats {
    var gamesPlayed: int
    var gamesWon: int
    var totalAttempts: int
    var bestScore: Option<int>
    /** The content of `game_stats.json` as `json.load` would read it. */
    var file: Option<Document>

    function Snapshot(): Record
      reads this
    {
      Record(gamesPlayed, gamesWon, totalAttempts, bestScore)
    }

    /** `GameStats()`: start from zero, then `load_stats`. */
    constructor (file: Option<Document>)
      ensures this.file == file
      ensures Snapshot() == Load(DEFAULT, file)
    {
      gamesPlayed, gamesWon, totalAttempts, bestScore := 0, 0, 0, None;
      this.file := file;
      new;
      LoadStats();
    }

    method LoadStats()
      modifies this
      ensures file == old(file)
      ensures Snapshot() == Load(old(Snapshot()), file)
    {
      match file
      case Some(d) =>
        gamesPlayed := CounterOrZero(d.gamesPlayed);
        gamesWon := CounterOrZero(d.gamesWon);
        totalAttempts := CounterOrZero(d.totalAttempts);
        bestScore := match d.bestScore
                     case Some(Finite(b)) => Some(b)
                     case _ => None;
      case None =>
    }

    method SaveStats()
      modifies this`file
      ensures file == Some(Encode(Snapshot()))
    {
      file := Some(Encode(Snapshot()));
    }

    /** `update_stats`: apply one outcome, then write the record through to the file. */
    method UpdateStats(won: bool, attempts: int)
      modifies this
      ensures Snapshot() == Update(old(Snapshot()), Outcome(won, attempts))
      ensures file == Some(Encode(Snapshot()))
    {
      gamesPlayed := gamesPlayed + 1;
      totalAttempts := totalAttempts + attempts;
      if won {
        gamesWon := gamesWon + 1;
        if Improves(attempts, bestScore) {
          bestScore := Some(attempts);
        }
      }
      SaveStats();
    }
  }
}
