/** The third learning module (`src/components/modules/Module3ComputerVision.tsx`):
    three sections, an object-recognition lab over a fixed table of demo
    images and a filter studio. The canvas it declares is never drawn on. */
module Module3ComputerVision {
  import opened Basics
  import opened StoreTypes

  const SectionCount: int := 3

  /** A labelled guess with its confidence. */
  type Guess = (string, real)

  datatype DemoImage = DemoImage(name: string, description: string,
                                 classification: Guess, objects: seq<Guess>)

  /** The three demo images with the classification and objects the lab
      reports for each. */
  const DemoImages: seq<DemoImage> := [
    DemoImage("paisaje_tokyo.jpg", "Paisaje de Tokio", ("Ciudad", 0.94),
              [("Edificios", 0.92), ("Montañas", 0.88), ("Cielo", 0.96)]),
    DemoImage("street_food_global.jpg", "Street food mundial", ("Comida", 0.91),
              [("Taza", 0.95), ("Café", 0.89), ("Mesa", 0.87)]),
    DemoImage("smart_transport.jpg", "Transporte inteligente", ("Transporte", 0.96),
              [("Tren", 0.98), ("Estación", 0.93), ("Personas", 0.85)])
  ]

  datatype Filter = NoFilter | Sepia | Vintage | Cyberpunk

  function FilterId(f: Filter): string {
    match f
    case NoFilter => "none"
    case Sepia => "sepia"
    case Vintage => "vintage"
    case Cyberpunk => "cyberpunk"
  }

  /** The creation handed over on completion, since the module never
      collects one of its own. The fields the literal leaves out are zero,
      empty or the creation date. */
  function DefaultAnalysis(id: string, userName: string, objects: seq<Guess>,
                           classification: Option<Guess>, filter: Filter, now: Time): Creation
  {
    Creation(id, "vision-analysis", "Análisis Visual - " + userName,
             "Reconocimiento de objetos y clasificación de imágenes",
             VisionData(objects, classification, FilterId(filter)), "👁️", 0, 0,
             ["computer-vision", "object-detection", "image-classification"], true, [], now, now)
  }

  /** What the last section hands to `onComplete`: the score, the module's
      achievements followed by `vision-expert` iff objects were detected and
      `filter-artist` iff a filter other than the original is selected, the
      module's creations or else exactly the default one, and no
      decisions. */
  function FinalReport(score: int, achievements: seq<string>, creations: seq<Creation>,
                       default: Creation, objects: seq<Guess>, filter: Filter)
    : (r: CompletionReport)
    ensures r.score == score && r.decisions == []
    ensures r.creations == if creations == [] then [default] else creations
    ensures |achievements| <= |r.achievements| <= |achievements| + 2
    ensures r.achievements[..|achievements|] == achievements
    ensures r.achievements == achievements + (if objects != [] then ["vision-expert"] else [])
                              + (if filter != NoFilter then ["filter-artist"] else [])
    ensures Count(r.achievements, "vision-expert")
            == Count(achievements, "vision-expert") + (if objects != [] then 1 else 0)
    ensures Count(r.achievements, "filter-artist")
            == Count(achievements, "filter-artist") + (if filter != NoFilter then 1 else 0)
  {
    var expert := PushIf(achievements, objects != [], "vision-expert");
    var all := PushIf(expert, filter != NoFilter, "filter-artist");
    assert all[..|achievements|] == expert[..|expert|][..|achievements|];
    CompletionReport(score, all, if creations == [] then [default] else creations, [])
  }

  /** On a state the module can reach, where the only achievement so far is
      `object-detector`, each completion badge appears in the report iff its
      condition holds, and none appears twice. */
  lemma FinalReportBadges(score: int, achievements: seq<string>, creations: seq<Creation>,
                          default: Creation, objects: seq<Guess>, filter: Filter)
    requires forall k :: 0 <= k < |achievements| ==> achievements[k] == "object-detector"
    ensures var r := FinalReport(score, achievements, creations, default, objects, filter);
            ("vision-expert" in r.achievements <==> objects != [])
            && ("filter-artist" in r.achievements <==> filter != NoFilter)
            && Count(r.achievements, "vision-expert") <= 1
            && Count(r.achievements, "filter-artist") <= 1
  {
    var r := FinalReport(score, achievements, creations, default, objects, filter);
    assert "vision-expert" !in achievements && "filter-artist" !in achievements;
  }

  class ComputerVision {
    const userName: string
    var currentSection: int
    var score: int
    var detectedObjects: seq<Guess>
    var imageClassification: Option<Guess>
    var selectedImage: string
    var creations: seq<Creation>
    var achievements: seq<string>
    var filterType: Filter
    /** How many images were analysed and how many filter buttons were
        clicked: together they account for the score. */
    ghost var detections: nat
    ghost var filterClicks: nat

    /** The section stays in range; the score is 25 per analysis plus 10
        per filter click; `object-detector` is held exactly once after the
        first analysis and nothing else is ever collected; results are shown
        iff an image was analysed. */
    ghost predicate Valid()
      reads this
    {
      0 <= currentSection < SectionCount
      && score == 25 * detections + 10 * filterClicks
      && achievements == (if detections > 0 then ["object-detector"] else [])
      && creations == []
      && (detections > 0 <==> imageClassification.Some?)
      && (detections > 0 <==> detectedObjects != [])
    }

    constructor (name: string)
      ensures Valid() && userName == name
      ensures currentSection == 0 && score == 0 && detectedObjects == []
      ensures imageClassification.None? && selectedImage == "" && filterType == NoFilter
      ensures detections == 0 && filterClicks == 0
    {
      userName := name;
      currentSection, score := 0, 0;
      detectedObjects, imageClassification, selectedImage := [], None, "";
      creations, achievements, filterType := [], [], NoFilter;
      detections, filterClicks := 0, 0;
    }

    /** A click on the `k`-th demo image: `setSelectedImage` followed by
        `simulateObjectDetection(k)`. The results are replaced by the
        image's, 25 points are added on every click, and `object-detector`
        is appended only if it is not held yet. */
    method SelectImage(k: int)
      requires Valid() && 0 <= k < |DemoImages|
      modifies this
      ensures Valid()
      ensures selectedImage == DemoImages[k].name
      ensures detectedObjects == DemoImages[k].objects
      ensures imageClassification == Some(DemoImages[k].classification)
      ensures score == old(score) + 25
      ensures achievements == AddOnce(old(achievements), "object-detector")
      ensures unchanged(this`currentSection, this`filterType, this`creations)
    {
      selectedImage := DemoImages[k].name;
      var image := DemoImages[k];
      detectedObjects := image.objects;
      imageClassification := Some(image.classification);
      score := score + 25;
      achievements := AddOnce(achievements, "object-detector");
      detections := detections + 1;
    }

    /** A click on a filter button: the filter is selected and 10 points are
        added, also when it was already selected. */
    method ClickFilter(f: Filter)
      requires Valid()
      modifies this
      ensures Valid()
      ensures filterType == f && score == old(score) + 10
      ensures unchanged(this`currentSection, this`detectedObjects, this`imageClassification)
      ensures unchanged(this`selectedImage, this`achievements, this`creations)
    {
      filterType := f;
      score := score + 10;
      filterClicks := filterClicks + 1;
    }

    /** `nextSection`; `newId` is the `crypto.randomUUID()` of the default
        creation. The report always carries exactly that one creation. */
    method NextSection(newId: string, now: Time) returns (report: Option<CompletionReport>)
      requires Valid()
      modifies this
      ensures Valid()
      ensures old(currentSection) < SectionCount - 1 ==>
                report.None? && currentSection == old(currentSection) + 1
      ensures old(currentSection) == SectionCount - 1 ==>
                currentSection == old(currentSection)
                && report == Some(FinalReport(score, achievements, creations,
                                              DefaultAnalysis(newId, userName, detectedObjects,
                                                              imageClassification, filterType, now),
                                              detectedObjects, filterType))
                && report.value.creations
                   == [DefaultAnalysis(newId, userName, detectedObjects,
                                       imageClassification, filterType, now)]
      ensures unchanged(this`score, this`detectedObjects, this`imageClassification)
      ensures unchanged(this`selectedImage, this`achievements, this`creations, this`filterType)
    {
      if currentSection < SectionCount - 1 {
        currentSection := currentSection + 1;
        return None;
      }
      var finalCreations := if |creations| > 0 then creations
                            else [DefaultAnalysis(newId, userName, detectedObjects,
                                                  imageClassification, filterType, now)];
      var r := FinalReport(score, achievements, creations,
                           DefaultAnalysis(newId, userName, detectedObjects,
                                           imageClassification, filterType, now),
                           detectedObjects, filterType);
      assert r.creations == finalCreations;
      return Some(r);
    }

    /** The "previous" button, disabled on the first section. */
    method PrevSection()
      requires Valid()
      modifies this
      ensures Valid()
      ensures currentSection == Max(0, old(currentSection) - 1)
      ensures unchanged(this`score, this`detectedObjects, this`imageClassification)
      ensures unchanged(this`selectedImage, this`achievements, this`creations, this`filterType)
    {
      currentSection := Max(0, currentSection - 1);
    }
  }
}
