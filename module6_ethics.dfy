/** The sixth learning module (`src/components/modules/Module6Ethics.tsx`):
    three sections and a decision simulator over two international case
    studies. Every decision moves four ethics metrics, each clamped to
    0..100, and is recorded; the recorded decisions are handed to the store
    on completion. */
module Module6Ethics {
  import opened Basics
  import opened StoreTypes

  const SectionCount: int := 3
  const DecisionPoints: int := 25
  const SectionPoints: int := 30
  const FinalPoints: int := 50

  /** The metrics are kept in the order privacy, efficiency, fairness,
      transparency, which is also the order of every impact. */
  const MetricCount: int := 4
  const InitialMetrics: seq<int> := [70, 60, 75, 65]

  /** The change an option makes to each metric. */
  datatype Effect = Effect(privacy: int, efficiency: int, fairness: int, transparency: int)

  /** The entries of an effect, in metric order. */
  function Deltas(e: Effect): (d: seq<int>)
    ensures |d| == MetricCount
  {
    [e.privacy, e.efficiency, e.fairness, e.transparency]
  }

  datatype CaseOption = CaseOption(id: string, impact: Effect, consequences: seq<string>)

  datatype CaseStudy = CaseStudy(id: string, options: seq<CaseOption>)

  /** The two case studies and their options, with each option's impact on
      the four metrics and its expected consequences. */
  const Cases: seq<CaseStudy> := [
    CaseStudy("singapore", [
      CaseOption("full_surveillance", Effect(-30, 25, -10, -15),
                 ["Crimen reducido 60%", "Quejas internacionales sobre privacidad", "Turismo afectado"]),
      CaseOption("regulated_system", Effect(10, 10, 15, 20),
                 ["Balance entre seguridad y privacidad", "Modelo para otras ciudades", "Costos adicionales"]),
      CaseOption("opt_in_only", Effect(25, -15, 20, 25),
                 ["Participación limitada 40%", "Máxima transparencia", "Eficacia reducida"])]),
    CaseStudy("eu_ai_act", [
      CaseOption("strict_regulation", Effect(30, -10, 25, 30),
                 ["Máxima protección ciudadana", "Innovación restringida", "Precedente mundial"]),
      CaseOption("innovation_balance", Effect(15, 15, 15, 15),
                 ["Desarrollo sostenible", "Competitividad mantenida", "Modelo equilibrado"]),
      CaseOption("light_touch", Effect(-15, 25, -10, -5),
                 ["Máxima innovación", "Riesgos sin control", "Críticas internacionales"])])
  ]

  /** `globalEthicsCases.find(c => c.id === caseId)?.options.find(o => o.id === optionId)`. */
  function FindOption(caseId: string, optionId: string): Option<CaseOption> {
    var c := FindBy(Cases, (c: CaseStudy) => c.id, caseId);
    if c.None? then None else FindBy(c.value.options, (o: CaseOption) => o.id, optionId)
  }

  /** The case tabs: `singapore` is the first case, `eu_ai_act` the
      second, and no other id is found. */
  lemma FindCase(caseId: string)
    ensures FindBy(Cases, (c: CaseStudy) => c.id, caseId)
            == if caseId == "singapore" then Some(Cases[0])
               else if caseId == "eu_ai_act" then Some(Cases[1])
               else None
  {
    var c := FindBy(Cases, (c: CaseStudy) => c.id, caseId);
    assert Cases[0].id == "singapore" && Cases[1].id == "eu_ai_act";
    if c.Some? {
      var k :| 0 <= k < |Cases| && Cases[k] == c.value && Cases[k].id == caseId
               && forall j :: 0 <= j < k ==> Cases[j].id != caseId;
    }
  }

  /** An option among three is found iff one of them has its id, and the
      one found has it. */
  lemma FindAmongThree(opts: seq<CaseOption>, optionId: string)
    requires |opts| == 3
    ensures var o := FindBy(opts, (o: CaseOption) => o.id, optionId);
            (o.Some? <==> optionId == opts[0].id || optionId == opts[1].id || optionId == opts[2].id)
            && (o.Some? ==> o.value.id == optionId)
  {
    var o := FindBy(opts, (o: CaseOption) => o.id, optionId);
    if o.Some? {
      var i :| 0 <= i < |opts| && opts[i] == o.value && opts[i].id == optionId
               && forall j :: 0 <= j < i ==> opts[j].id != optionId;
    }
  }

  /** The ids of each case's option buttons are exactly the known pairs;
      a found option carries the id it was looked up by. */
  lemma KnownOptions(caseId: string, optionId: string)
    ensures FindOption(caseId, optionId).Some? <==>
              (caseId == "singapore"
                 && (optionId == "full_surveillance" || optionId == "regulated_system"
                     || optionId == "opt_in_only"))
              || (caseId == "eu_ai_act"
                    && (optionId == "strict_regulation" || optionId == "innovation_balance"
                        || optionId == "light_touch"))
    ensures FindOption(caseId, optionId).Some? ==> FindOption(caseId, optionId).value.id == optionId
  {
    FindCase(caseId);
    if caseId == "singapore" {
      FindAmongThree(Cases[0].options, optionId);
    } else if caseId == "eu_ai_act" {
      FindAmongThree(Cases[1].options, optionId);
    }
  }

  /** The metrics after an impact: each one moves by its delta, clamped to
      0..100. */
  function Impacted(metrics: seq<int>, impact: seq<int>): (r: seq<int>)
    requires |metrics| == |impact|
    ensures |r| == |metrics|
    ensures forall j :: 0 <= j < |r| ==> 0 <= r[j] <= 100
    ensures forall j :: 0 <= j < |r| && 0 <= metrics[j] + impact[j] <= 100 ==>
              r[j] == metrics[j] + impact[j]
    ensures forall j :: 0 <= j < |r| && metrics[j] + impact[j] < 0 ==> r[j] == 0
    ensures forall j :: 0 <= j < |r| && metrics[j] + impact[j] > 100 ==> r[j] == 100
  {
    seq(|metrics|, j requires 0 <= j < |metrics| => Clamp(0, 100, metrics[j] + impact[j]))
  }

  /** The `forEach` over the impact of `handleDecision`, on a copy of the
      metrics. */
  method ApplyImpact(metrics: seq<int>, impact: seq<int>) returns (newMetrics: seq<int>)
    requires |metrics| == |impact|
    ensures newMetrics == Impacted(metrics, impact)
  {
    newMetrics := metrics;
    var k := 0;
    while k < |impact|
      invariant 0 <= k <= |impact| && |newMetrics| == |metrics|
      invariant forall j :: 0 <= j < k ==> newMetrics[j] == Clamp(0, 100, metrics[j] + impact[j])
      invariant forall j :: k <= j < |newMetrics| ==> newMetrics[j] == metrics[j]
    {
      newMetrics := newMetrics[k := Clamp(0, 100, newMetrics[k] + impact[k])];
      k := k + 1;
    }
  }

  /** All metrics are percentages. */
  predicate InRange(metrics: seq<int>) {
    forall j :: 0 <= j < |metrics| ==> 0 <= metrics[j] <= 100
  }

  /** The displayed total: `Math.round` of the mean of the four metrics,
      i.e. the nearest integer, halves rounded up. */
  function EthicsTotal(metrics: seq<int>): (t: int)
    requires |metrics| == MetricCount
    ensures var sum := metrics[0] + metrics[1] + metrics[2] + metrics[3];
            4 * t - 2 <= sum < 4 * t + 2
    ensures InRange(metrics) ==> 0 <= t <= 100
  {
    (metrics[0] + metrics[1] + metrics[2] + metrics[3] + 2) / 4
  }

  /** A recorded decision, as the module builds it. */
  datatype Decision = Decision(caseId: string, optionId: string, impact: Effect,
                               consequences: seq<string>, timestamp: Time)

  /** A decision at the store's type: the case and option become the
      scenario and the choice; the fields the module does not supply are
      empty, neutral or zero. */
  function ToStoreDecision(d: Decision): (e: EthicalDecision)
    ensures e.scenarioId == d.caseId && e.choice == d.optionId && e.timestamp == d.timestamp
  {
    EthicalDecision(d.caseId, d.optionId, "", Neutral, 0, d.timestamp)
  }

  /** What the last section hands to `onComplete`: the score plus 50, the
      module's achievements followed by `global-ethics-expert`, no
      creations, and every recorded decision in order. */
  function FinalReport(score: int, achievements: seq<string>, decisions: seq<Decision>)
    : (r: CompletionReport)
    ensures r.score == score + FinalPoints && r.creations == []
    ensures |r.achievements| == |achievements| + 1 && r.achievements[..|achievements|] == achievements
    ensures r.achievements[|achievements|] == "global-ethics-expert"
    ensures |r.decisions| == |decisions|
    ensures forall k :: 0 <= k < |decisions| ==> r.decisions[k] == ToStoreDecision(decisions[k])
  {
    CompletionReport(score + FinalPoints, PushIf(achievements, true, "global-ethics-expert"), [],
                     seq(|decisions|, k requires 0 <= k < |decisions| => ToStoreDecision(decisions[k])))
  }

  class Ethics {
    var currentSection: int
    var score: int
    var achievements: seq<string>
    var currentCase: string
    var decisions: seq<Decision>
    var ethicsMetrics: seq<int>
    /** The section advances: with the decisions they account for the
        score. */
    ghost var advances: nat

    /** The section stays in range; there are four metrics, all
        percentages; the score is 25 per decision plus 30 per advance;
        `ethical-decision-maker` is held exactly once after the first
        decision and nothing else is collected. */
    ghost predicate Valid()
      reads this
    {
      0 <= currentSection < SectionCount
      && |ethicsMetrics| == MetricCount && InRange(ethicsMetrics)
      && score == DecisionPoints * |decisions| + SectionPoints * advances
      && achievements == (if decisions != [] then ["ethical-decision-maker"] else [])
    }

    constructor ()
      ensures Valid()
      ensures currentSection == 0 && score == 0 && achievements == [] && currentCase == "singapore"
      ensures decisions == [] && ethicsMetrics == InitialMetrics
    {
      currentSection, score, achievements := 0, 0, [];
      currentCase, decisions, ethicsMetrics := "singapore", [], InitialMetrics;
      advances := 0;
    }

    /** The case-study tabs. */
    method SetCurrentCase(id: string)
      requires Valid()
      modifies this
      ensures Valid() && currentCase == id
      ensures unchanged(this`currentSection, this`score, this`achievements, this`decisions)
      ensures unchanged(this`ethicsMetrics)
    {
      currentCase := id;
    }

    /** `handleDecision(caseId, optionId)` at time `now`: an unknown case or
        option changes nothing; otherwise the metrics move by the option's
        impact, one decision is recorded, 25 points are added and
        `ethical-decision-maker` is earned. */
    method HandleDecision(caseId: string, optionId: string, now: Time)
      requires Valid()
      modifies this
      ensures Valid()
      ensures var o := FindOption(caseId, optionId);
              (o.None? ==>
                 ethicsMetrics == old(ethicsMetrics) && decisions == old(decisions)
                 && score == old(score) && achievements == old(achievements))
              && (o.Some? ==>
                    ethicsMetrics == Impacted(old(ethicsMetrics), Deltas(o.value.impact))
                    && decisions == old(decisions)
                       + [Decision(caseId, optionId, o.value.impact, o.value.consequences, now)]
                    && score == old(score) + DecisionPoints
                    && achievements == AddOnce(old(achievements), "ethical-decision-maker"))
      ensures unchanged(this`currentSection, this`currentCase)
    {
      var option := FindOption(caseId, optionId);
      if option.None? {
        return;
      }
      RecordDecision(caseId, optionId, option.value, now);
    }

    /** The part of `handleDecision` after the option was found. */
    method RecordDecision(caseId: string, optionId: string, option: CaseOption, now: Time)
      requires Valid()
      modifies this
      ensures Valid()
      ensures ethicsMetrics == Impacted(old(ethicsMetrics), Deltas(option.impact))
      ensures decisions == old(decisions)
                + [Decision(caseId, optionId, option.impact, option.consequences, now)]
      ensures score == old(score) + DecisionPoints
      ensures achievements == AddOnce(old(achievements), "ethical-decision-maker")
      ensures unchanged(this`currentSection, this`currentCase)
    {
      var newMetrics := ApplyImpact(ethicsMetrics, Deltas(option.impact));
      ethicsMetrics := newMetrics;
      decisions := decisions + [Decision(caseId, optionId, option.impact, option.consequences, now)];
      score := score + DecisionPoints;
      achievements := AddOnce(achievements, "ethical-decision-maker");
    }

    /** `handleSectionComplete`: 30 points per advance; on the last section
        the report carries 50 more points and the decisions. */
    method HandleSectionComplete() returns (report: Option<CompletionReport>)
      requires Valid()
      modifies this
      ensures Valid()
      ensures old(currentSection) < SectionCount - 1 ==>
                report.None? && currentSection == old(currentSection) + 1
                && score == old(score) + SectionPoints
      ensures old(currentSection) == SectionCount - 1 ==>
                report == Some(FinalReport(score, achievements, decisions))
                && currentSection == old(currentSection) && score == old(score)
      ensures unchanged(this`achievements, this`currentCase, this`decisions, this`ethicsMetrics)
    {
      if currentSection < SectionCount - 1 {
        currentSection := currentSection + 1;
        score := score + SectionPoints;
        advances := advances + 1;
        return None;
      }
      return Some(FinalReport(score, achievements, decisions));
    }
  }

  /** The initial metrics are percentages and average 67.5, shown as 68. */
  lemma InitialTotal()
    ensures InRange(InitialMetrics) && EthicsTotal(InitialMetrics) == 68
  {
  }
}
