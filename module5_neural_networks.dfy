/** The fifth learning module (`src/components/modules/Module5NeuralNetworks.tsx`):
    three sections and a training simulator whose `setInterval` adds a
    random amount to a progress accumulator every 200 ms. The random
    increment is a parameter of each tick; the network drawing and the
    displayed accuracy and loss curves are not modelled. */
module Module5NeuralNetworks {
  import opened Basics
  import opened StoreTypes

  const SectionCount: int := 3

  /** The points of a finished run and of each section advance. */
  const RunPoints: int := 30
  const SectionPoints: int := 25

  datatype Architecture = Architecture(id: string, name: string)

  const Architectures: seq<Architecture> := [
    Architecture("cnn", "CNN (Convolutional Neural Network)"),
    Architecture("lstm", "LSTM (Long Short-Term Memory)"),
    Architecture("transformer", "Transformer"),
    Architecture("resnet", "ResNet (Residual Network)")
  ]

  /** `neuralArchitectures.find(a => a.id === id)`. */
  function FindArchitecture(id: string): Option<Architecture> {
    FindBy(Architectures, (a: Architecture) => a.id, id)
  }

  /** The interval of a run in progress: the architecture and the
      achievements check the closure captured, and the accumulated
      progress. */
  datatype Interval = Interval(arch: Architecture, progress: real, heldArchitect: bool)

  /** What the simulator shows about a tick: the completed epochs and the
      architecture's name. */
  datatype SimulationData = SimulationData(epochs: int, architecture: string)

  /** `Math.floor(progress / 10)`. */
  function Epochs(progress: real): (e: int)
    requires 0.0 <= progress
    ensures 10.0 * e as real <= progress < 10.0 * (e + 1) as real
  {
    (progress / 10.0).Floor
  }

  /** The accumulator after one tick that adds `delta`: it grows, and it is
      clamped to 100 once it reaches 100. */
  function Advance(progress: real, delta: real): (p: real)
    requires 0.0 <= delta
    ensures p >= progress || p == 100.0
    ensures progress < 100.0 ==> progress <= p <= 100.0
    ensures p == 100.0 <==> progress + delta >= 100.0
    ensures p < 100.0 ==> p == progress + delta
  {
    if progress + delta >= 100.0 then 100.0 else progress + delta
  }

  /** What the last section hands to `onComplete`: the score plus the last
      section's 25 points, the module's achievements followed by
      `neural-networks-master`, and no creations or decisions. */
  function FinalReport(score: int, achievements: seq<string>): (r: CompletionReport)
    ensures r.score == score + SectionPoints
    ensures |r.achievements| == |achievements| + 1 && r.achievements[..|achievements|] == achievements
    ensures r.achievements[|achievements|] == "neural-networks-master"
    ensures Count(r.achievements, "neural-networks-master") == Count(achievements, "neural-networks-master") + 1
    ensures r.creations == [] && r.decisions == []
  {
    CompletionReport(score + SectionPoints, PushIf(achievements, true, "neural-networks-master"), [], [])
  }

  class NeuralNetworks {
    var currentSection: int
    var sectionProgress: real
    var score: int
    var achievements: seq<string>
    var selectedArchitecture: string
    var simulationRunning: bool
    var simulationData: Option<SimulationData>
    /** The interval in progress, if any. */
    var run: Option<Interval>
    /** The section advances and the finished runs: together they account
        for the score. */
    ghost var advances: nat
    ghost var runsFinished: nat

    /** The section stays in range; the score is 25 per advance plus 30 per
        finished run; `neural-architect` is held exactly once after the
        first finished run and nothing else is collected; a pending interval
        keeps the running flag on, shows its own progress, stays below 100
        and captured whether `neural-architect` was held. */
    ghost predicate Valid()
      reads this
    {
      0 <= currentSection < SectionCount
      && score == SectionPoints * advances + RunPoints * runsFinished
      && achievements == (if runsFinished > 0 then ["neural-architect"] else [])
      && 0.0 <= sectionProgress <= 100.0
      && (run.Some? ==>
            simulationRunning
            && 0.0 <= run.value.progress < 100.0
            && sectionProgress == run.value.progress
            && run.value.heldArchitect == (runsFinished > 0))
    }

    constructor ()
      ensures Valid()
      ensures currentSection == 0 && sectionProgress == 0.0 && score == 0 && achievements == []
      ensures selectedArchitecture == "cnn" && !simulationRunning && simulationData.None? && run.None?
    {
      currentSection, sectionProgress, score, achievements := 0, 0.0, 0, [];
      selectedArchitecture, simulationRunning, simulationData, run := "cnn", false, None, None;
      advances, runsFinished := 0, 0;
    }

    /** The architecture tabs and the select box. */
    method SelectArchitecture(id: string)
      requires Valid()
      modifies this
      ensures Valid() && selectedArchitecture == id
      ensures unchanged(this`currentSection, this`sectionProgress, this`score, this`achievements)
      ensures unchanged(this`simulationRunning, this`simulationData, this`run)
    {
      selectedArchitecture := id;
    }

    /** `startSimulation`, whose button is disabled while a run is in
        progress. The flag is raised and the progress reset first; an
        unknown architecture then returns without an interval, so the flag
        stays raised for good. */
    method StartSimulation()
      requires Valid() && !simulationRunning
      modifies this
      ensures Valid() && simulationRunning && sectionProgress == 0.0
      ensures var arch := FindArchitecture(selectedArchitecture);
              (arch.None? ==> run.None?)
              && (arch.Some? ==> run == Some(Interval(arch.value, 0.0, "neural-architect" in achievements)))
      ensures unchanged(this`currentSection, this`score, this`achievements, this`selectedArchitecture)
      ensures unchanged(this`simulationData)
    {
      var arch := FindArchitecture(selectedArchitecture);
      BeginRun(arch);
    }

    /** The body of `startSimulation` once `arch` was looked up. */
    method BeginRun(arch: Option<Architecture>)
      requires Valid() && !simulationRunning
      modifies this
      ensures Valid() && simulationRunning && sectionProgress == 0.0
      ensures arch.None? ==> run.None?
      ensures arch.Some? ==> run == Some(Interval(arch.value, 0.0, "neural-architect" in achievements))
      ensures unchanged(this`currentSection, this`score, this`achievements, this`selectedArchitecture)
      ensures unchanged(this`simulationData)
    {
      simulationRunning := true;
      sectionProgress := 0.0;
      if arch.None? {
        return;
      }
      run := Some(Interval(arch.value, 0.0, "neural-architect" in achievements));
    }

    /** One 200 ms tick: `delta` is `Math.random() * 10`. The progress only
        grows; when it reaches 100 it is clamped, the run stops and 30
        points and, unless the closure saw it held, `neural-architect` are
        credited. */
    method Tick(delta: real)
      requires Valid() && run.Some? && 0.0 <= delta < 10.0
      modifies this
      ensures Valid()
      ensures var iv := old(run.value);
              var p := Advance(iv.progress, delta);
              sectionProgress == p && sectionProgress >= old(sectionProgress)
              && simulationData == Some(SimulationData(Epochs(p), iv.arch.name))
              && (p < 100.0 ==>
                    run == Some(iv.(progress := p)) && simulationRunning
                    && score == old(score) && achievements == old(achievements))
              && (p == 100.0 ==>
                    run.None? && !simulationRunning && score == old(score) + RunPoints
                    && achievements == (if iv.heldArchitect then old(achievements)
                                        else old(achievements) + ["neural-architect"]))
      ensures "neural-architect" in old(achievements) ==> achievements == old(achievements)
      ensures unchanged(this`currentSection, this`selectedArchitecture)
    {
      var iv := run.value;
      var progress := iv.progress + delta;
      if progress >= 100.0 {
        progress := 100.0;
        simulationRunning := false;
        run := None;
        score := score + RunPoints;
        if !iv.heldArchitect {
          achievements := achievements + ["neural-architect"];
        }
        runsFinished := runsFinished + 1;
      } else {
        run := Some(iv.(progress := progress));
      }
      sectionProgress := progress;
      simulationData := Some(SimulationData(Epochs(progress), iv.arch.name));
    }

    /** `handleSectionComplete`: 25 points per advance; on the last section
        the report carries those 25 points too. */
    method HandleSectionComplete() returns (report: Option<CompletionReport>)
      requires Valid()
      modifies this
      ensures Valid()
      ensures old(currentSection) < SectionCount - 1 ==>
                report.None? && currentSection == old(currentSection) + 1
                && score == old(score) + SectionPoints
      ensures old(currentSection) == SectionCount - 1 ==>
                report == Some(FinalReport(score, achievements))
                && currentSection == old(currentSection) && score == old(score)
      ensures currentSection < SectionCount
      ensures unchanged(this`sectionProgress, this`achievements, this`selectedArchitecture)
      ensures unchanged(this`simulationRunning, this`simulationData, this`run)
    {
      if currentSection < SectionCount - 1 {
        currentSection := currentSection + 1;
        score := score + SectionPoints;
        advances := advances + 1;
        return None;
      }
      return Some(FinalReport(score, achievements));
    }
  }

  /** The four ids of the table are the known architectures; any other
      id starts a run that never gets an interval. */
  lemma KnownArchitectures(id: string)
    ensures FindArchitecture(id).Some? <==>
              id == "cnn" || id == "lstm" || id == "transformer" || id == "resnet"
    ensures FindArchitecture(id).Some? ==> FindArchitecture(id).value.id == id
  {
    var r := FindArchitecture(id);
    if r.Some? {
      var k :| 0 <= k < |Architectures| && Architectures[k] == r.value && Architectures[k].id == id
               && forall j :: 0 <= j < k ==> Architectures[j].id != id;
    } else {
      assert forall k :: 0 <= k < |Architectures| ==> Architectures[k].id != id;
      assert Architectures[0].id == "cnn" && Architectures[1].id == "lstm";
      assert Architectures[2].id == "transformer" && Architectures[3].id == "resnet";
    }
  }
}
