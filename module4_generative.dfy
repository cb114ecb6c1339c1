/** The fourth learning module (`src/components/modules/Module4Generative.tsx`):
    three sections, a generative-art studio that draws on a canvas and keeps
    each picture as a creation, and a text generator over fixed templates.
    The drawing itself draws random numbers and only produces pixels: the
    picture enters the model as the data URL the canvas returns. */
module Module4Generative {
  import opened Basics
  import opened StoreTypes

  const SectionCount: int := 3

  datatype TextStyle = Poetic | Technical | Casual

  /** A text template: the prompt, or the fallback when the prompt is
      empty, goes between the two fixed parts. */
  datatype Template = Template(before: string, fallback: string, after: string)

  /** The `pick`-th of the three templates of a style. */
  function TemplateAt(style: TextStyle, pick: int): Template
    requires 0 <= pick < 3
  {
    match style
    case Poetic =>
      if pick == 0 then
        Template("En las ciudades inteligentes del mundo, donde la tecnología abraza la diversidad cultural, ",
                 "la inteligencia artificial",
                 " florece como una nueva sinfonía que conecta continentes, uniendo corazones y mentes con redes digitales de esperanza global.")
      else if pick == 1 then
        Template("Como el té chai que despierta la inspiración global, ",
                 "la creatividad digital",
                 " se derrama por las avenidas virtuales de la innovación mundial, donde cada algoritmo cuenta historias de transformación intercultural y cada línea de código susurra secretos del futuro compartido.")
      else
        Template("En el valle de la eterna primavera, ",
                 "la inteligencia artificial",
                 " baila al ritmo de la cumbia y el vallenato, creando sinfonías de datos que pintan arcoíris de posibilidades en el cielo azul de la imaginación.")
    case Technical =>
      if pick == 0 then
        Template("",
                 "La implementación de IA",
                 " en ecosistemas tecnológicos globales como Silicon Valley, Shenzhen y Tel Aviv utiliza arquitecturas de redes neuronales profundas optimizadas para el procesamiento distribuido, mejorando la eficiencia computacional en un 340% comparado con métodos tradicionales.")
      else if pick == 1 then
        Template("Los algoritmos de aprendizaje automático para ",
                 "análisis predictivo",
                 " emplean técnicas de ensemble learning y gradient boosting, procesando datasets con más de 10TB de información estructurada y no estructurada del ecosistema urbano.")
      else
        Template("La infraestructura de IA para ",
                 "ciudad inteligente",
                 " integra sensores IoT, procesamiento edge computing y cloud híbrido, generando insights en tiempo real con latencia menor a 100ms para la toma de decisiones urbanas.")
    case Casual =>
      if pick == 0 then
        Template("¡Hey! ¿Sabías que? ",
                 "La inteligencia artificial",
                 " está revolucionando el mundo entero. Imagínate que ya podemos hacer cosas increíbles que antes solo veíamos en películas de ciencia ficción. ¡Es fascinante cómo la tecnología conecta culturas!")
      else if pick == 1 then
        Template("¡Qué tal ve! Con ",
                 "esta nueva tecnología",
                 " podemos crear cosas que ni nos imaginábamos. Es como si tuviéramos un compañero digital que nos ayuda a hacer realidad nuestras ideas más locas. ¡Está de maravilla esto!")
      else
        Template("¡Ay, no! ¿En serio podemos hacer esto con ",
                 "inteligencia artificial",
                 "? Esto está más bueno que un sancocho un domingo. La tecnología nos está cambiando la vida de una manera súper positiva, ¿no te parece?")
  }

  /** The `pick`-th template of the style filled with the prompt: a
      non-empty prompt always appears in the text, an empty one is replaced
      by the template's fallback. */
  function GeneratedText(style: TextStyle, pick: int, prompt: string): (text: string)
    requires 0 <= pick < 3
    ensures prompt != "" ==> Contains(text, prompt)
    ensures prompt == "" ==> Contains(text, TemplateAt(style, pick).fallback)
  {
    var t := TemplateAt(style, pick);
    var filler := if prompt != "" then prompt else t.fallback;
    ContainsMiddle(t.before, filler, t.after);
    t.before + filler + t.after
  }

  const DefaultParams: ArtParams := ArtParams("fractal", "global", 50, 30, "abstract")

  /** The creation that keeps one generated picture. The fields the literal
      leaves out are zero, empty or the creation date. */
  function ArtCreation(id: string, userName: string, params: ArtParams, image: string,
                       now: Time): Creation
  {
    Creation(id, "generative-art", "Arte " + params.algorithm + " - " + userName,
             "Creado con algoritmo " + params.algorithm + ", paleta " + params.colors,
             ArtData(image, params), "🎨", 0, 0,
             ["generative-art", params.algorithm, params.colors], true, [], now, now)
  }

  /** The creation handed over when no picture was generated. */
  function DefaultExploration(id: string, userName: string, params: ArtParams,
                              generatedText: string, exploredSections: int, now: Time): Creation
  {
    Creation(id, "generative-exploration", "Exploración Generativa - " + userName,
             "Experimentación con IA generativa y arte algorítmico",
             ExplorationData(params, generatedText, exploredSections), "🎨", 0, 0,
             ["generative-ai", "creativity", "art"], true, [], now, now)
  }

  /** What the last section hands to `onComplete`: the score, the module's
      achievements followed by `prolific-creator` iff at least two pictures
      were kept and `generative-artist` iff a picture is shown, the module's
      creations or else exactly the default one, and no decisions. */
  function FinalReport(score: int, achievements: seq<string>, creations: seq<Creation>,
                       default: Creation, currentArt: string)
    : (r: CompletionReport)
    ensures r.score == score && r.decisions == []
    ensures r.creations == if creations == [] then [default] else creations
    ensures |achievements| <= |r.achievements| <= |achievements| + 2
    ensures r.achievements[..|achievements|] == achievements
    ensures r.achievements == achievements + (if |creations| >= 2 then ["prolific-creator"] else [])
                              + (if currentArt != "" then ["generative-artist"] else [])
    ensures forall k :: |achievements| <= k < |r.achievements| ==>
              r.achievements[k] == "prolific-creator" || r.achievements[k] == "generative-artist"
    ensures Count(r.achievements, "prolific-creator")
            == Count(achievements, "prolific-creator") + (if |creations| >= 2 then 1 else 0)
    ensures Count(r.achievements, "generative-artist")
            == Count(achievements, "generative-artist") + (if currentArt != "" then 1 else 0)
  {
    var prolific := PushIf(achievements, |creations| >= 2, "prolific-creator");
    var all := PushIf(prolific, currentArt != "", "generative-artist");
    assert all[..|achievements|] == prolific[..|prolific|][..|achievements|];
    CompletionReport(score, all, if creations == [] then [default] else creations, [])
  }

  /** The achievements the module collects while it runs: `digital-artist`
      once iff a picture was kept, `text-generator` once iff a text was
      generated, in the order they were earned, and nothing else. */
  predicate Badges(achievements: seq<string>, pictures: bool, texts: bool) {
    if pictures && texts then
      achievements == ["digital-artist", "text-generator"]
      || achievements == ["text-generator", "digital-artist"]
    else if pictures then achievements == ["digital-artist"]
    else if texts then achievements == ["text-generator"]
    else achievements == []
  }

  /** `Badges` in terms of occurrences. */
  lemma BadgesCount(achievements: seq<string>, pictures: bool, texts: bool)
    requires Badges(achievements, pictures, texts)
    ensures Count(achievements, "digital-artist") == (if pictures then 1 else 0)
    ensures Count(achievements, "text-generator") == (if texts then 1 else 0)
    ensures forall k :: 0 <= k < |achievements| ==>
              achievements[k] == "digital-artist" || achievements[k] == "text-generator"
  {
    if pictures && texts {
      CountAppend(["digital-artist"], ["text-generator"], "digital-artist");
      CountAppend(["digital-artist"], ["text-generator"], "text-generator");
      CountAppend(["text-generator"], ["digital-artist"], "digital-artist");
      CountAppend(["text-generator"], ["digital-artist"], "text-generator");
    }
  }

  /** Earning the picture badge keeps `Badges`, with a picture kept. */
  lemma BadgesPicture(achievements: seq<string>, pictures: bool, texts: bool)
    requires Badges(achievements, pictures, texts)
    ensures Badges(AddOnce(achievements, "digital-artist"), true, texts)
  {
  }

  /** Earning the text badge keeps `Badges`, with a text generated. */
  lemma BadgesText(achievements: seq<string>, pictures: bool, texts: bool)
    requires Badges(achievements, pictures, texts)
    ensures Badges(AddOnce(achievements, "text-generator"), pictures, true)
  {
  }

  class Generative {
    const userName: string
    var currentSection: int
    var score: int
    var creations: seq<Creation>
    var achievements: seq<string>
    var isGenerating: bool
    var artParams: ArtParams
    var textPrompt: string
    var generatedText: string
    var textStyle: TextStyle
    var currentArt: string
    /** The one-second timeouts that end the "generating" state, not yet
        fired. */
    var pendingResets: nat
    /** How many texts were generated: with the pictures kept, they account
        for the score. */
    ghost var textsGenerated: nat

    /** The section stays in range; the score is 20 per picture plus 15 per
        text; the badges are held as `Badges` says; every creation is a
        public picture; a picture is shown only once one was kept. */
    ghost predicate Valid()
      reads this
    {
      0 <= currentSection < SectionCount
      && score == 20 * |creations| + 15 * textsGenerated
      && Badges(achievements, creations != [], textsGenerated > 0)
      && (forall k :: 0 <= k < |creations| ==>
            creations[k].kind == "generative-art" && creations[k].isPublic)
      && (creations == [] ==> currentArt == "")
    }

    constructor (name: string)
      ensures Valid() && userName == name
      ensures currentSection == 0 && score == 0 && creations == [] && achievements == []
      ensures !isGenerating && artParams == DefaultParams && textPrompt == ""
      ensures generatedText == "" && textStyle == Poetic && currentArt == "" && pendingResets == 0
    {
      userName := name;
      currentSection, score := 0, 0;
      creations, achievements := [], [];
      isGenerating, artParams := false, DefaultParams;
      textPrompt, generatedText, textStyle := "", "", Poetic;
      currentArt, pendingResets := "", 0;
      textsGenerated := 0;
    }

    /** The algorithm and palette buttons and the two sliders. */
    method SetArtParams(p: ArtParams)
      requires Valid()
      modifies this
      ensures Valid() && artParams == p
      ensures unchanged(this`currentSection, this`score, this`creations, this`achievements)
      ensures unchanged(this`isGenerating, this`textPrompt, this`generatedText, this`textStyle)
      ensures unchanged(this`currentArt, this`pendingResets)
    {
      artParams := p;
    }

    method SetTextPrompt(prompt: string)
      requires Valid()
      modifies this
      ensures Valid() && textPrompt == prompt
      ensures unchanged(this`currentSection, this`score, this`creations, this`achievements)
      ensures unchanged(this`isGenerating, this`artParams, this`generatedText, this`textStyle)
      ensures unchanged(this`currentArt, this`pendingResets)
    {
      textPrompt := prompt;
    }

    method SetTextStyle(style: TextStyle)
      requires Valid()
      modifies this
      ensures Valid() && textStyle == style
      ensures unchanged(this`currentSection, this`score, this`creations, this`achievements)
      ensures unchanged(this`isGenerating, this`artParams, this`textPrompt, this`generatedText)
      ensures unchanged(this`currentArt, this`pendingResets)
    {
      textStyle := style;
    }

    /** `generateArt`, whose button is disabled while a picture is being
        generated. `hasCanvas` and `hasContext` say whether the canvas is
        mounted and yields a 2-D context, `image` is the data URL it returns
        and `id` the creation's `crypto.randomUUID()`. Without a canvas
        nothing happens; without a context the module is left generating,
        with no timeout to end it; otherwise one public picture is kept,
        20 points are added, `digital-artist` is appended only if it is not
        held yet and the end of the generating state is scheduled. */
    method GenerateArt(hasCanvas: bool, hasContext: bool, image: string, id: string, now: Time)
      requires Valid() && !isGenerating
      modifies this
      ensures Valid()
      ensures !hasCanvas ==>
                !isGenerating && creations == old(creations) && score == old(score)
                && achievements == old(achievements) && currentArt == old(currentArt)
                && pendingResets == old(pendingResets)
      ensures hasCanvas && !hasContext ==>
                isGenerating && creations == old(creations) && score == old(score)
                && achievements == old(achievements) && currentArt == old(currentArt)
                && pendingResets == old(pendingResets)
      ensures hasCanvas && hasContext ==>
                isGenerating
                && creations == old(creations) + [ArtCreation(id, userName, artParams, image, now)]
                && score == old(score) + 20
                && achievements == AddOnce(old(achievements), "digital-artist")
                && currentArt == image
                && pendingResets == old(pendingResets) + 1
      ensures unchanged(this`currentSection, this`artParams, this`textPrompt)
      ensures unchanged(this`generatedText, this`textStyle)
    {
      if !hasCanvas {
        return;
      }
      isGenerating := true;
      if !hasContext {
        return;
      }
      KeepPicture(ArtCreation(id, userName, artParams, image, now), image);
    }

    /** The part of `generateArt` after the drawing: the picture is kept
        and shown, 20 points are added, `digital-artist` is earned and the
        end of the generating state is scheduled. */
    method KeepPicture(c: Creation, image: string)
      requires Valid() && c.kind == "generative-art" && c.isPublic
      modifies this
      ensures Valid()
      ensures creations == old(creations) + [c] && currentArt == image
      ensures score == old(score) + 20
      ensures achievements == AddOnce(old(achievements), "digital-artist")
      ensures pendingResets == old(pendingResets) + 1
      ensures unchanged(this`currentSection, this`artParams, this`textPrompt, this`isGenerating)
      ensures unchanged(this`generatedText, this`textStyle)
    {
      BadgesPicture(achievements, creations != [], textsGenerated > 0);
      creations := creations + [c];
      currentArt := image;
      score := score + 20;
      achievements := AddOnce(achievements, "digital-artist");
      pendingResets := pendingResets + 1;
    }

    /** A one-second timeout of `generateArt` fires. */
    method ResetTimerFires()
      requires Valid() && pendingResets > 0
      modifies this
      ensures Valid() && !isGenerating && pendingResets == old(pendingResets) - 1
      ensures unchanged(this`currentSection, this`score, this`creations, this`achievements)
      ensures unchanged(this`artParams, this`textPrompt, this`generatedText, this`textStyle)
      ensures unchanged(this`currentArt)
    {
      isGenerating := false;
      pendingResets := pendingResets - 1;
    }

    /** `generateText`: `pick` is `Math.floor(Math.random() * 3)`. The text
        is the picked template of the current style, 15 points are added on
        every call and `text-generator` is appended only if it is not held
        yet. */
    method GenerateText(pick: int)
      requires Valid() && 0 <= pick < 3
      modifies this
      ensures Valid()
      ensures generatedText == GeneratedText(textStyle, pick, textPrompt)
      ensures score == old(score) + 15
      ensures achievements == AddOnce(old(achievements), "text-generator")
      ensures unchanged(this`currentSection, this`creations, this`isGenerating, this`artParams)
      ensures unchanged(this`textPrompt, this`textStyle, this`currentArt, this`pendingResets)
    {
      var randomText := GeneratedText(textStyle, pick, textPrompt);
      ShowText(randomText);
    }

    /** The part of `generateText` after the pick: the text is shown, 15
        points are added and `text-generator` is earned. */
    method ShowText(text: string)
      requires Valid()
      modifies this
      ensures Valid() && generatedText == text
      ensures score == old(score) + 15
      ensures achievements == AddOnce(old(achievements), "text-generator")
      ensures unchanged(this`currentSection, this`creations, this`isGenerating, this`artParams)
      ensures unchanged(this`textPrompt, this`textStyle, this`currentArt, this`pendingResets)
    {
      generatedText := text;
      score := score + 15;
      BadgesText(achievements, creations != [], textsGenerated > 0);
      achievements := AddOnce(achievements, "text-generator");
      textsGenerated := textsGenerated + 1;
    }

    /** `nextSection`; `newId` is the `crypto.randomUUID()` of the default
        creation, which records the sections explored, i.e. all three. */
    method NextSection(newId: string, now: Time) returns (report: Option<CompletionReport>)
      requires Valid()
      modifies this
      ensures Valid()
      ensures old(currentSection) < SectionCount - 1 ==>
                report.None? && currentSection == old(currentSection) + 1
      ensures old(currentSection) == SectionCount - 1 ==>
                currentSection == old(currentSection)
                && report == Some(FinalReport(score, achievements, creations,
                                              DefaultExploration(newId, userName, artParams,
                                                                 generatedText, SectionCount, now),
                                              currentArt))
      ensures unchanged(this`score, this`creations, this`achievements, this`isGenerating)
      ensures unchanged(this`artParams, this`textPrompt, this`generatedText, this`textStyle)
      ensures unchanged(this`currentArt, this`pendingResets)
    {
      if currentSection < SectionCount - 1 {
        currentSection := currentSection + 1;
        return None;
      }
      var default := DefaultExploration(newId, userName, artParams, generatedText,
                                        currentSection + 1, now);
      return Some(FinalReport(score, achievements, creations, default, currentArt));
    }

    /** The "previous" button, disabled on the first section. */
    method PrevSection()
      requires Valid()
      modifies this
      ensures Valid()
      ensures currentSection == Max(0, old(currentSection) - 1)
      ensures unchanged(this`score, this`creations, this`achievements, this`isGenerating)
      ensures unchanged(this`artParams, this`textPrompt, this`generatedText, this`textStyle)
      ensures unchanged(this`currentArt, this`pendingResets)
    {
      currentSection := Max(0, currentSection - 1);
    }
  }

  /** In a reachable state each badge of the report is there iff its
      condition holds: `generative-artist` only after a picture was kept,
      `prolific-creator` iff two were, `digital-artist` iff one was. */
  lemma ReportOnValidState(score: int, achievements: seq<string>, creations: seq<Creation>,
                           default: Creation, currentArt: string, texts: bool)
    requires Badges(achievements, creations != [], texts)
    requires creations == [] ==> currentArt == ""
    ensures var r := FinalReport(score, achievements, creations, default, currentArt);
            ("generative-artist" in r.achievements ==> creations != [])
            && ("prolific-creator" in r.achievements <==> |creations| >= 2)
            && ("digital-artist" in r.achievements <==> creations != [])
  {
    var r := FinalReport(score, achievements, creations, default, currentArt);
    BadgesCount(achievements, creations != [], texts);
    assert "prolific-creator" !in achievements && "generative-artist" !in achievements;
    if "digital-artist" in r.achievements {
      var k :| 0 <= k < |r.achievements| && r.achievements[k] == "digital-artist";
      assert k < |achievements| && achievements[k] == "digital-artist";
    }
    if creations != [] {
      assert "digital-artist" in achievements;
      assert r.achievements[..|achievements|] == achievements;
      assert "digital-artist" in r.achievements[..|achievements|];
    }
  }
}
