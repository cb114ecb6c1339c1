/** The first learning module (`src/components/modules/Module1Fundamentals.tsx`):
    three sections, a quiz that scores correct answers and a training
    simulator. The simulator's `setInterval` becomes one tick method per
    interval; the accuracy animation, which draws random numbers, is not
    modelled because nothing but the display depends on it. */
module Module1Fundamentals {
  import opened Basics
  import opened StoreTypes

  const SectionCount: int := 3

  datatype Scenario = Scenario(id: string, expectedAccuracy: int, trainingTime: int)

  /** The three training scenarios, with their target accuracy and their
      number of 100 ms steps. */
  const Scenarios: seq<Scenario> := [
    Scenario("image-classifier", 85, 30),
    Scenario("sentiment-analyzer", 78, 25),
    Scenario("music-recommender", 72, 35)
  ]

  datatype QuizResponse = QuizResponse(questionId: string, answer: string, isCorrect: bool, timestamp: Time)

  datatype SimulationResult = SimulationResult(scenario: string, finalAccuracy: int,
                                               timeToComplete: int, timestamp: Time)

  /** A running simulation: the scenario its interval captured and the
      steps taken so far. */
  datatype Run = Run(scenario: Scenario, step: int)

  /** `Math.floor(targetAccuracy * 2)` for an integer accuracy. */
  function RunPoints(accuracy: int): int {
    2 * accuracy
  }

  /** The run-time achievements earned by a list of finished runs: one
      `high-accuracy-trainer` per run above 80, with no de-duplication. */
  function RunBadges(results: seq<SimulationResult>): (r: seq<string>)
    ensures |r| <= |results|
    ensures forall x :: x in r ==> x == "high-accuracy-trainer"
  {
    if results == [] then []
    else
      var last := results[|results| - 1];
      RunBadges(results[..|results| - 1]) + (if last.finalAccuracy > 80 then ["high-accuracy-trainer"] else [])
  }

  /** The points earned by a list of finished runs. */
  function RunScore(results: seq<SimulationResult>): int {
    if results == [] then 0
    else RunScore(results[..|results| - 1]) + RunPoints(results[|results| - 1].finalAccuracy)
  }

  /** The number of correct quiz answers. */
  function CorrectAnswers(responses: seq<QuizResponse>): (n: nat)
    ensures n <= |responses|
  {
    if responses == [] then 0
    else CorrectAnswers(responses[..|responses| - 1]) + (if responses[|responses| - 1].isCorrect then 1 else 0)
  }

  /** What the last section hands to `onComplete`: the score, the module's
      achievements followed by `simulation-master` iff at least two runs
      finished and `fundamentals-expert` iff the score is above 200, and no
      creations or decisions. */
  function FinalReport(score: int, achievements: seq<string>, runs: nat): (r: CompletionReport)
    ensures r.score == score && r.creations == [] && r.decisions == []
    ensures |achievements| <= |r.achievements| <= |achievements| + 2
    ensures r.achievements[..|achievements|] == achievements
    ensures r.achievements == achievements + (if runs >= 2 then ["simulation-master"] else [])
                              + (if score > 200 then ["fundamentals-expert"] else [])
    ensures Count(r.achievements, "simulation-master")
            == Count(achievements, "simulation-master") + (if runs >= 2 then 1 else 0)
    ensures Count(r.achievements, "fundamentals-expert")
            == Count(achievements, "fundamentals-expert") + (if score > 200 then 1 else 0)
  {
    var sim := PushIf(achievements, runs >= 2, "simulation-master");
    var all := PushIf(sim, score > 200, "fundamentals-expert");
    assert all[..|achievements|] == sim[..|sim|][..|achievements|];
    CompletionReport(score, all, [], [])
  }

  /** One more answer adds one correct answer iff it is correct. */
  lemma AnswerAppend(responses: seq<QuizResponse>, last: QuizResponse)
    ensures CorrectAnswers(responses + [last]) == CorrectAnswers(responses) + (if last.isCorrect then 1 else 0)
  {
    assert (responses + [last])[..|responses|] == responses;
  }

  /** One more finished run adds its points and, above 80, its badge. */
  lemma RunAppend(results: seq<SimulationResult>, last: SimulationResult)
    ensures RunScore(results + [last]) == RunScore(results) + RunPoints(last.finalAccuracy)
    ensures RunBadges(results + [last])
            == RunBadges(results) + (if last.finalAccuracy > 80 then ["high-accuracy-trainer"] else [])
  {
    assert (results + [last])[..|results|] == results;
  }

  class Fundamentals {
    var currentSection: int
    var sectionProgress: int
    var score: int
    var achievements: seq<string>
    var userResponses: seq<QuizResponse>
    var isSimulationRunning: bool
    var simulationData: seq<SimulationResult>
    var selectedScenario: Scenario
    /** The interval of the simulation in progress, if any. */
    var run: Option<Run>

    /** The section stays in range; the score is exactly what the answers and
        the finished runs earned; the achievements are exactly the run
        badges; the selected scenario takes at least one step; a simulation
        is in progress iff an interval is pending. */
    ghost predicate Valid()
      reads this
    {
      0 <= currentSection < SectionCount
      && 0 <= sectionProgress <= 100
      && score == 20 * CorrectAnswers(userResponses) + RunScore(simulationData)
      && achievements == RunBadges(simulationData)
      && selectedScenario.trainingTime > 0
      && (isSimulationRunning <==> run.Some?)
      && (run.Some? ==> 0 <= run.value.step < run.value.scenario.trainingTime)
    }

    constructor ()
      ensures Valid()
      ensures currentSection == 0 && sectionProgress == 0 && score == 0
      ensures achievements == [] && userResponses == [] && simulationData == []
      ensures !isSimulationRunning && run.None? && selectedScenario == Scenarios[0]
    {
      currentSection, sectionProgress, score := 0, 0, 0;
      achievements, userResponses, simulationData := [], [], [];
      isSimulationRunning, run := false, None;
      selectedScenario := Scenarios[0];
    }

    /** A click on one of the scenario cards. */
    method SelectScenario(k: int)
      requires Valid() && 0 <= k < |Scenarios|
      modifies this
      ensures Valid() && selectedScenario == Scenarios[k]
      ensures unchanged(this`currentSection, this`sectionProgress, this`score, this`achievements)
      ensures unchanged(this`userResponses, this`isSimulationRunning, this`simulationData, this`run)
    {
      selectedScenario := Scenarios[k];
    }

    /** `startTrainingSimulation`; its button is disabled while a run is in
        progress. */
    method StartTrainingSimulation()
      requires Valid() && !isSimulationRunning
      modifies this
      ensures Valid() && isSimulationRunning && run == Some(Run(old(selectedScenario), 0))
      ensures unchanged(this`currentSection, this`sectionProgress, this`score, this`achievements)
      ensures unchanged(this`userResponses, this`simulationData, this`selectedScenario)
    {
      isSimulationRunning := true;
      run := Some(Run(selectedScenario, 0));
    }

    /** One 100 ms tick of the simulation interval. On the last step the run
        stops, one result is appended, `2 * accuracy` points are added and a
        `high-accuracy-trainer` badge is appended when the accuracy is above
        80. */
    method TrainingTick(now: Time)
      requires Valid() && run.Some?
      modifies this
      ensures Valid()
      ensures var sc := old(run.value.scenario);
              var step := old(run.value.step) + 1;
              if step < sc.trainingTime then
                run == Some(Run(sc, step)) && isSimulationRunning
                && score == old(score) && achievements == old(achievements)
                && simulationData == old(simulationData)
              else
                run.None? && !isSimulationRunning
                && simulationData == old(simulationData)
                   + [SimulationResult(sc.id, sc.expectedAccuracy, sc.trainingTime, now)]
                && score == old(score) + RunPoints(sc.expectedAccuracy)
                && achievements == old(achievements)
                   + (if sc.expectedAccuracy > 80 then ["high-accuracy-trainer"] else [])
      ensures unchanged(this`currentSection, this`sectionProgress, this`userResponses, this`selectedScenario)
    {
      var sc := run.value.scenario;
      var currentStep := run.value.step + 1;
      if currentStep < sc.trainingTime {
        run := Some(Run(sc, currentStep));
        return;
      }
      FinishRun(sc, now);
    }

    /** The last step of a run: the interval is cleared, the result is
        recorded and its points and badge are credited. */
    method FinishRun(sc: Scenario, now: Time)
      requires Valid()
      modifies this
      ensures Valid() && run.None? && !isSimulationRunning
      ensures simulationData == old(simulationData)
                + [SimulationResult(sc.id, sc.expectedAccuracy, sc.trainingTime, now)]
      ensures score == old(score) + RunPoints(sc.expectedAccuracy)
      ensures achievements == old(achievements)
                + (if sc.expectedAccuracy > 80 then ["high-accuracy-trainer"] else [])
      ensures unchanged(this`currentSection, this`sectionProgress, this`userResponses, this`selectedScenario)
    {
      run := None;
      isSimulationRunning := false;
      var newSimData := SimulationResult(sc.id, sc.expectedAccuracy, sc.trainingTime, now);
      RunAppend(simulationData, newSimData);
      simulationData := simulationData + [newSimData];
      score := score + RunPoints(sc.expectedAccuracy);
      if sc.expectedAccuracy > 80 {
        achievements := achievements + ["high-accuracy-trainer"];
      }
    }

    /** `handleQuizResponse`: every answer is recorded; a correct one adds 20,
        also when the same question is answered correctly again. */
    method HandleQuizResponse(questionId: string, answer: string, isCorrect: bool, now: Time)
      requires Valid()
      modifies this
      ensures Valid()
      ensures userResponses == old(userResponses) + [QuizResponse(questionId, answer, isCorrect, now)]
      ensures score == old(score) + (if isCorrect then 20 else 0)
      ensures unchanged(this`currentSection, this`sectionProgress, this`achievements, this`run)
      ensures unchanged(this`isSimulationRunning, this`simulationData, this`selectedScenario)
    {
      var response := QuizResponse(questionId, answer, isCorrect, now);
      AnswerAppend(userResponses, response);
      userResponses := userResponses + [response];
      if isCorrect {
        score := score + 20;
      }
    }

    /** The "next" button, disabled on the simulator section until a run
        has finished. */
    predicate NextEnabled()
      reads this
    {
      !(currentSection == 2 && |simulationData| == 0)
    }

    /** `nextSection`: advances and resets the section progress, or, on the
        last section, returns the report handed to `onComplete`. */
    method NextSection() returns (report: Option<CompletionReport>)
      requires Valid() && NextEnabled()
      modifies this
      ensures Valid()
      ensures old(currentSection) < SectionCount - 1 ==>
                report.None? && currentSection == old(currentSection) + 1 && sectionProgress == 0
      ensures old(currentSection) == SectionCount - 1 ==>
                report == Some(FinalReport(score, achievements, |simulationData|))
                && currentSection == old(currentSection) && sectionProgress == old(sectionProgress)
      ensures unchanged(this`score, this`achievements, this`userResponses, this`run)
      ensures unchanged(this`isSimulationRunning, this`simulationData, this`selectedScenario)
    {
      if currentSection < SectionCount - 1 {
        currentSection := currentSection + 1;
        sectionProgress := 0;
        return None;
      }
      return Some(FinalReport(score, achievements, |simulationData|));
    }

    method PrevSection()
      requires Valid()
      modifies this
      ensures Valid()
      ensures currentSection == if old(currentSection) > 0 then old(currentSection) - 1 else 0
      ensures unchanged(this`sectionProgress, this`score, this`achievements, this`userResponses, this`run)
      ensures unchanged(this`isSimulationRunning, this`simulationData, this`selectedScenario)
    {
      if currentSection > 0 {
        currentSection := currentSection - 1;
      }
    }

    /** The 200 ms progress effect: +2, never above 100. */
    method TickSectionProgress()
      requires Valid()
      modifies this
      ensures Valid()
      ensures sectionProgress == (if old(sectionProgress) < 100 then Min(100, old(sectionProgress) + 2)
                                  else old(sectionProgress))
      ensures unchanged(this`currentSection, this`score, this`achievements, this`userResponses, this`run)
      ensures unchanged(this`isSimulationRunning, this`simulationData, this`selectedScenario)
    {
      if sectionProgress < 100 {
        sectionProgress := Min(100, sectionProgress + 2);
      }
    }
  }

  /** The module's own achievements on completion: exactly one
      `high-accuracy-trainer` per finished run above 80. */
  lemma {:induction false} RunBadgesCount(results: seq<SimulationResult>)
    ensures Count(RunBadges(results), "high-accuracy-trainer") == |RunBadges(results)|
    ensures |RunBadges(results)| == CountAbove80(results)
  {
    if results != [] {
      var init := results[..|results| - 1];
      var last := results[|results| - 1];
      RunBadgesCount(init);
      var extra: seq<string> := if last.finalAccuracy > 80 then ["high-accuracy-trainer"] else [];
      CountAppend(RunBadges(init), extra, "high-accuracy-trainer");
    }
  }

  /** The number of finished runs whose accuracy is above 80. */
  function CountAbove80(results: seq<SimulationResult>): (n: nat)
    ensures n <= |results|
  {
    if results == [] then 0
    else CountAbove80(results[..|results| - 1]) + (if results[|results| - 1].finalAccuracy > 80 then 1 else 0)
  }
}
