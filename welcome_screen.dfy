/** The welcome wizard (`src/components/WelcomeScreen.tsx`): four steps,
    the name, the avatar and the preferences chosen on them, and the start
    button that hands all three to the application. */
module WelcomeScreen {
  import opened Basics
  import opened StoreTypes

  datatype Step = Intro | Profile | AvatarChoice | PreferenceChoice

  /** The order of the wizard. */
  const Steps: seq<Step> := [Intro, Profile, AvatarChoice, PreferenceChoice]

  /** A step's position in the wizard. */
  function Position(s: Step): (i: int)
    ensures 0 <= i < |Steps| && Steps[i] == s
  {
    match s
    case Intro => 0
    case Profile => 1
    case AvatarChoice => 2
    case PreferenceChoice => 3
  }

  /** `handleNext`: the step after the current one, or the current one on
      the last step. */
  function NextStep(s: Step): (r: Step)
    ensures Position(r) == Min(Position(s) + 1, |Steps| - 1)
  {
    var i := IndexOf(Steps, s);
    if i < |Steps| - 1 then Steps[i + 1] else s
  }

  /** `handleBack`: the step before the current one, or the current one on
      the first step. */
  function PrevStep(s: Step): (r: Step)
    ensures Position(r) == Max(Position(s) - 1, 0)
  {
    var i := IndexOf(Steps, s);
    if i > 0 then Steps[i - 1] else s
  }

  /** Back undoes next except on the last step, and next undoes back
      except on the first. */
  lemma NextBack(s: Step)
    ensures s != PreferenceChoice ==> PrevStep(NextStep(s)) == s
    ensures s != Intro ==> NextStep(PrevStep(s)) == s
  {
    PositionInjective(PrevStep(NextStep(s)), s);
    PositionInjective(NextStep(PrevStep(s)), s);
  }

  lemma PositionInjective(a: Step, b: Step)
    ensures Position(a) == Position(b) ==> a == b
  {
  }

  /** The avatar fields the wizard's option grids set by name. */
  datatype AvatarField = Skin | Hair | Eyes | Clothing

  function FieldOf(a: Avatar, f: AvatarField): string {
    match f
    case Skin => a.skin
    case Hair => a.hair
    case Eyes => a.eyes
    case Clothing => a.clothing
  }

  /** `updateAvatar(field, value)`: the field takes the value and every
      other field keeps its own. */
  function UpdateAvatar(a: Avatar, f: AvatarField, value: string): (r: Avatar)
    ensures FieldOf(r, f) == value
    ensures forall g :: g != f ==> FieldOf(r, g) == FieldOf(a, g)
    ensures r.accessories == a.accessories && r.culturalElements == a.culturalElements
    ensures r.accessibilityFeatures == a.accessibilityFeatures && r.expressions == a.expressions
  {
    match f
    case Skin => a.(skin := value)
    case Hair => a.(hair := value)
    case Eyes => a.(eyes := value)
    case Clothing => a.(clothing := value)
  }

  /** The switches and the select box of the preferences step, each
      setting one field. */
  datatype PreferenceChange =
    | AudioEnabled(on: bool)
    | NarrationEnabled(on: bool)
    | HighContrast(on: bool)
    | ReducedMotion(on: bool)
    | Subtitles(on: bool)
    | Collaboration(mode: CollaborationMode)

  /** One `setPreferences(prev => ({ ...prev, field: value }))`. */
  function ApplyChange(p: Preferences, c: PreferenceChange): (r: Preferences)
    ensures r.audioVolume == p.audioVolume && r.narrationLanguage == p.narrationLanguage
    ensures r.voiceSpeed == p.voiceSpeed && r.accessibilityMode == p.accessibilityMode
    ensures r.audioEnabled == (if c.AudioEnabled? then c.on else p.audioEnabled)
    ensures r.narrationEnabled == (if c.NarrationEnabled? then c.on else p.narrationEnabled)
    ensures r.highContrastMode == (if c.HighContrast? then c.on else p.highContrastMode)
    ensures r.reducedMotion == (if c.ReducedMotion? then c.on else p.reducedMotion)
    ensures r.subtitlesEnabled == (if c.Subtitles? then c.on else p.subtitlesEnabled)
    ensures r.collaborationMode == (if c.Collaboration? then c.mode else p.collaborationMode)
  {
    match c
    case AudioEnabled(on) => p.(audioEnabled := on)
    case NarrationEnabled(on) => p.(narrationEnabled := on)
    case HighContrast(on) => p.(highContrastMode := on)
    case ReducedMotion(on) => p.(reducedMotion := on)
    case Subtitles(on) => p.(subtitlesEnabled := on)
    case Collaboration(mode) => p.(collaborationMode := mode)
  }

  /** What the start button hands to `onStartGame`. */
  datatype StartRequest = StartRequest(userName: string, avatar: Avatar, preferences: Preferences)

  class Welcome {
    var currentStep: Step
    var userName: string
    var selectedAvatar: Avatar
    var preferences: Preferences

    /** The cultural elements worn never repeat. */
    ghost predicate Valid()
      reads this
    {
      NoDup(selectedAvatar.culturalElements)
    }

    /** The wizard opens on its first step with an empty name, the store's
        default avatar and the store's default preferences. */
    constructor ()
      ensures Valid()
      ensures currentStep == Intro && userName == ""
      ensures selectedAvatar == DefaultAvatar && preferences == DefaultPreferences
    {
      currentStep, userName := Intro, "";
      selectedAvatar, preferences := DefaultAvatar, DefaultPreferences;
    }

    /** The "continue" buttons. That of the profile step is disabled while
        the name is blank, which is a condition of the page, not of this
        handler. */
    method HandleNext()
      requires Valid()
      modifies this
      ensures Valid() && currentStep == NextStep(old(currentStep))
      ensures unchanged(this`userName, this`selectedAvatar, this`preferences)
    {
      var i := IndexOf(Steps, currentStep);
      if i < |Steps| - 1 {
        currentStep := Steps[i + 1];
      }
    }

    /** The "back" buttons. */
    method HandleBack()
      requires Valid()
      modifies this
      ensures Valid() && currentStep == PrevStep(old(currentStep))
      ensures unchanged(this`userName, this`selectedAvatar, this`preferences)
    {
      var i := IndexOf(Steps, currentStep);
      if i > 0 {
        currentStep := Steps[i - 1];
      }
    }

    /** The name field. */
    method SetUserName(name: string)
      requires Valid()
      modifies this
      ensures Valid() && userName == name
      ensures unchanged(this`currentStep, this`selectedAvatar, this`preferences)
    {
      userName := name;
    }

    /** The skin, hair and clothing grids. */
    method SetAvatarField(f: AvatarField, value: string)
      requires Valid()
      modifies this
      ensures Valid() && selectedAvatar == UpdateAvatar(old(selectedAvatar), f, value)
      ensures unchanged(this`currentStep, this`userName, this`preferences)
    {
      selectedAvatar := UpdateAvatar(selectedAvatar, f, value);
    }

    /** `toggleCulturalElement(id)`: a worn element is taken off, another
        one is put on last. */
    method ToggleCulturalElement(id: string)
      requires Valid()
      modifies this
      ensures Valid()
      ensures selectedAvatar
              == old(selectedAvatar).(culturalElements := Toggle(old(selectedAvatar).culturalElements, id))
      ensures id in old(selectedAvatar.culturalElements) <==> id !in selectedAvatar.culturalElements
      ensures unchanged(this`currentStep, this`userName, this`preferences)
    {
      selectedAvatar := selectedAvatar.(culturalElements := Toggle(selectedAvatar.culturalElements, id));
    }

    /** A switch or the collaboration select of the preferences step. */
    method ChangePreference(c: PreferenceChange)
      requires Valid()
      modifies this
      ensures Valid() && preferences == ApplyChange(old(preferences), c)
      ensures unchanged(this`currentStep, this`userName, this`selectedAvatar)
    {
      preferences := ApplyChange(preferences, c);
    }

    /** `handleStartGame`: the game starts iff the name has a character
        that is not white space, and it receives the name as typed, not
        trimmed, with the chosen avatar and preferences. */
    method HandleStartGame() returns (start: Option<StartRequest>)
      ensures start.Some? <==> HasContent(userName)
      ensures start.Some? ==> start.value == StartRequest(userName, selectedAvatar, preferences)
    {
      if HasContent(userName) {
        return Some(StartRequest(userName, selectedAvatar, preferences));
      }
      return None;
    }
  }
}
