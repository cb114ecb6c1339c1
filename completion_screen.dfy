/** The completion screen (`src/components/CompletionScreen.tsx`): the
    totals it derives from the store, the performance band, the
    certificate and statistics flags, and the restart button. */
module CompletionScreen {
  import opened Basics
  import opened StoreTypes
  import StoreLogic
  import GameStore

  /** `moduleProgress.reduce((sum, module) => sum + module.score, 0)`. */
  function SumScores(ms: seq<ModuleProgress>): int {
    if ms == [] then 0 else ms[0].score + SumScores(ms[1..])
  }

  /** With non-negative module scores, the sum is at least each of them. */
  lemma {:induction false} SumScoresBounds(ms: seq<ModuleProgress>)
    requires forall k :: 0 <= k < |ms| ==> ms[k].score >= 0
    ensures SumScores(ms) >= 0
    ensures forall k :: 0 <= k < |ms| ==> ms[k].score <= SumScores(ms)
  {
    if ms != [] {
      SumScoresBounds(ms[1..]);
      assert forall k :: 1 <= k < |ms| ==> ms[k] == ms[1..][k - 1];
    }
  }

  /** Replacing one module changes the sum by the difference of the two
      scores. */
  lemma {:induction false} SumScoresUpdate(ms: seq<ModuleProgress>, i: int, m: ModuleProgress)
    requires 0 <= i < |ms|
    ensures SumScores(ms[i := m]) == SumScores(ms) - ms[i].score + m.score
  {
    if i > 0 {
      SumScoresUpdate(ms[1..], i - 1, m);
      assert ms[i := m][1..] == ms[1..][i - 1 := m];
    } else {
      assert ms[i := m][1..] == ms[1..];
    }
  }

  /** Modules that all have score 0 add up to 0. */
  lemma {:induction false} SumScoresZero(ms: seq<ModuleProgress>)
    requires forall k :: 0 <= k < |ms| ==> ms[k].score == 0
    ensures SumScores(ms) == 0
  {
    if ms != [] {
      assert forall k :: 1 <= k < |ms| ==> ms[k] == ms[1..][k - 1];
      SumScoresZero(ms[1..]);
    }
  }

  /** The total the screen shows. */
  function TotalScore(s: StoreTypes.GameState): int {
    SumScores(s.modules)
  }

  /** A completion moves the screen's total by the rise of the module's
      best score, while the profile total grows by the whole score passed:
      a repeat at a score no higher than the best leaves the screen's total
      as it was and still raises the profile's. */
  lemma CompletionTotals(s: StoreTypes.GameState, moduleId: string, score: int, achievements: seq<string>,
                         creations: seq<Creation>, decisions: seq<EthicalDecision>, now: Time)
    requires 0 <= StoreLogic.FindModule(s.modules, moduleId)
    ensures var i := StoreLogic.FindModule(s.modules, moduleId);
            var r := StoreLogic.CompleteModule(s, moduleId, score, achievements, creations, decisions, now);
            TotalScore(r) == TotalScore(s) - s.modules[i].score + Max(s.modules[i].score, score)
            && r.profile.totalScore == s.profile.totalScore + score
            && (score <= s.modules[i].score ==> TotalScore(r) == TotalScore(s))
  {
    var i := StoreLogic.FindModule(s.modules, moduleId);
    var m := StoreLogic.MarkCompleted(s.modules[i], score, achievements, creations, decisions, now);
    SumScoresUpdate(s.modules, i, m);
  }

  /** `Math.floor(getTotalPlayTime() / 1000 / 60)`: whole minutes, rounded
      down also for a negative duration. */
  function PlayMinutes(ms: int): (m: int)
    ensures 60000 * m <= ms < 60000 * (m + 1)
  {
    ms / 60000
  }

  datatype Performance = Excellent | VeryGood | Good | Finished

  /** `getPerformanceLevel`: the bands start at 1000, 800 and 600 points. */
  function PerformanceLevel(total: int): (p: Performance)
    ensures p == Excellent <==> total >= 1000
    ensures p == VeryGood <==> 800 <= total < 1000
    ensures p == Good <==> 600 <= total < 800
    ensures p == Finished <==> total < 600
  {
    if total >= 1000 then Excellent
    else if total >= 800 then VeryGood
    else if total >= 600 then Good
    else Finished
  }

  /** The label shown for a band. */
  function LevelName(p: Performance): string {
    match p
    case Excellent => "Excelente"
    case VeryGood => "Muy Bueno"
    case Good => "Bueno"
    case Finished => "Completado"
  }

  /** Position of a band, best last. */
  function Rank(p: Performance): int {
    match p
    case Finished => 0
    case Good => 1
    case VeryGood => 2
    case Excellent => 3
  }

  /** A higher total never gets a lower band. */
  lemma PerformanceMonotone(a: int, b: int)
    requires a <= b
    ensures Rank(PerformanceLevel(a)) <= Rank(PerformanceLevel(b))
  {
  }

  /** After a reset to the load-time initial state every module has score
      0, so the screen's total is 0 and the band is the lowest. */
  lemma ResetTotal(s: StoreTypes.GameState, id0: string, loadedAt: Time, newId: string)
    ensures var r := StoreLogic.ResetGame(s, InitialState(id0, loadedAt), newId);
            TotalScore(r) == 0 && PerformanceLevel(TotalScore(r)) == Finished
  {
    var r := StoreLogic.ResetGame(s, InitialState(id0, loadedAt), newId);
    StoreLogic.ResetClearsProgress(s, id0, loadedAt, newId);
    SumScoresZero(r.modules);
  }

  class Completion {
    const store: GameStore.Store
    var showCertificate: bool
    var showStats: bool

    constructor (store: GameStore.Store)
      ensures this.store == store && !showCertificate && !showStats
    {
      this.store := store;
      showCertificate, showStats := false, false;
    }

    /** The 1500 ms timeout scheduled on mount. */
    method StatsTimerFires()
      modifies this
      ensures showStats && showCertificate == old(showCertificate)
    {
      showStats := true;
    }

    /** `handleDownloadCertificate`: only the certificate flag is raised. */
    method HandleDownloadCertificate()
      modifies this
      ensures showCertificate && showStats == old(showStats)
    {
      showCertificate := true;
    }

    /** `handleRestart`: `resetGame` with the fresh UUID `newId`; the
        caller's `onRestart` follows. The screen's own flags stay. */
    method HandleRestart(newId: string)
      requires store.Valid()
      modifies store
      ensures store.Valid()
      ensures store.state == StoreLogic.ResetGame(old(store.state), InitialState(store.loadId, store.loadedAt), newId)
      ensures TotalScore(store.state) == 0
    {
      store.ResetGame(newId);
      ResetTotal(old(store.state), store.loadId, store.loadedAt, newId);
    }
  }
}
