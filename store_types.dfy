/** The records held by the game progress store (`src/store/gameStore.ts`)
    and the store's initial value. Dates are milliseconds since the epoch,
    supplied by the caller; identifiers from `crypto.randomUUID()` are
    parameters as well. */
module StoreTypes {
  import opened Basics

  type Time = int

  datatype Language = EsCO | EsES | EsMX
  datatype CollaborationMode = Open | Friends | Private

  datatype Preferences = Preferences(
    audioEnabled: bool,
    audioVolume: real,
    narrationEnabled: bool,
    narrationLanguage: Language,
    voiceSpeed: real,
    accessibilityMode: bool,
    highContrastMode: bool,
    reducedMotion: bool,
    subtitlesEnabled: bool,
    collaborationMode: CollaborationMode)

  datatype Avatar = Avatar(
    skin: string,
    hair: string,
    eyes: string,
    clothing: string,
    accessories: seq<string>,
    culturalElements: seq<string>,
    accessibilityFeatures: seq<string>,
    expressions: map<string, string>)

  datatype UserProfile = UserProfile(
    id: string,
    name: string,
    avatar: Avatar,
    level: int,
    neurotokens: int,
    totalScore: int,
    collaborationScore: int,
    creativityScore: int,
    ethicsScore: int,
    socialImpactPoints: int,
    joinedAt: Time,
    lastActive: Time,
    preferences: Preferences)

  datatype Difficulty = Beginner | Intermediate | Advanced

  /** The generative-art settings a creation records. */
  datatype ArtParams = ArtParams(algorithm: string, colors: string, complexity: int,
                                 randomness: int, style: string)

  /** The `data` of a creation: what each producer of creations stores there. */
  datatype Payload =
    | Opaque(text: string)
    | ChatbotData(personality: string, messagesCount: int)
    | VisionData(objects: seq<(string, real)>, classification: Option<(string, real)>, filterUsed: string)
    | ArtData(image: string, params: ArtParams)
    | ExplorationData(params: ArtParams, generatedText: string, exploredSections: int)

  datatype Creation = Creation(
    id: string,
    kind: string,
    title: string,
    description: string,
    data: Payload,
    thumbnail: string,
    likes: int,
    remixes: int,
    tags: seq<string>,
    isPublic: bool,
    collaborators: seq<string>,
    createdAt: Time,
    updatedAt: Time)

  datatype Impact = Positive | Negative | Neutral

  datatype EthicalDecision = EthicalDecision(
    scenarioId: string,
    choice: string,
    reasoning: string,
    impact: Impact,
    socialScore: int,
    timestamp: Time)

  datatype Category = Technical | Creative | Collaborative | Ethical | Local
  datatype Rarity = Common | Rare | Epic | Legendary

  datatype Achievement = Achievement(
    id: string,
    name: string,
    description: string,
    icon: string,
    category: Category,
    rarity: Rarity,
    unlockedAt: Time,
    progress: Option<int>,
    maxProgress: Option<int>)

  datatype SessionKind = StudyGroup | CreativeLab | EthicsDebate | NeuralBuild
  datatype SessionStatus = Active | Paused | Completed

  datatype CollaborationSession = CollaborationSession(
    id: string,
    name: string,
    kind: SessionKind,
    participants: seq<UserProfile>,
    maxParticipants: int,
    currentModule: string,
    isPublic: bool,
    createdBy: string,
    createdAt: Time,
    status: SessionStatus,
    sharedState: string)

  datatype ModuleProgress = ModuleProgress(
    id: string,
    name: string,
    description: string,
    icon: string,
    difficulty: Difficulty,
    estimatedTime: int,
    completed: bool,
    score: int,
    maxScore: int,
    timeSpent: int,
    achievements: seq<string>,
    startedAt: Option<Time>,
    completedAt: Option<Time>,
    collaborativeSession: Option<string>,
    creations: seq<Creation>,
    decisions: seq<EthicalDecision>)

  datatype ProjectStatus = ProjectActive | ProjectCompleted | ProjectPlanned

  datatype MedellinProject = MedellinProject(
    id: string,
    name: string,
    organization: string,
    description: string,
    aiTechnology: seq<string>,
    socialImpact: string,
    status: ProjectStatus,
    participants: int,
    website: Option<string>,
    images: seq<string>)

  datatype CaseContext = Medellin | Colombia | Global
  datatype Level3 = High | Medium | Low

  datatype EthicsOption = EthicsOption(
    id: string,
    text: string,
    consequences: seq<string>,
    ethicalPrinciples: seq<string>,
    socialImpact: Level3,
    technicalFeasibility: Level3)

  datatype EthicsCase = EthicsCase(
    id: string,
    title: string,
    scenario: string,
    context: CaseContext,
    stakeholders: seq<string>,
    options: seq<EthicsOption>,
    realOutcome: Option<string>,
    discussionPoints: seq<string>)

  /** The whole state of the store (the `GameState` interface). */
  datatype GameState = GameState(
    profile: UserProfile,
    currentModule: int,
    modules: seq<ModuleProgress>,
    totalScore: int,
    achievements: seq<Achievement>,
    gameStarted: bool,
    gameCompleted: bool,
    startTime: Time,
    session: Option<CollaborationSession>,
    isCollaborating: bool,
    connectedPeers: seq<string>,
    communityCreations: seq<Creation>,
    followedUsers: seq<string>,
    narration: Option<string>,
    isNarrating: bool,
    backgroundMusic: string,
    isInstalled: bool,
    updateAvailable: bool,
    medellinProjects: seq<MedellinProject>,
    ethicsDatabase: seq<EthicsCase>)

  /** `Partial<UserProfile>`: the fields that `Object.assign` copies over. */
  datatype ProfilePatch = ProfilePatch(
    id: Option<string>,
    name: Option<string>,
    avatar: Option<Avatar>,
    level: Option<int>,
    neurotokens: Option<int>,
    totalScore: Option<int>,
    collaborationScore: Option<int>,
    creativityScore: Option<int>,
    ethicsScore: Option<int>,
    socialImpactPoints: Option<int>,
    joinedAt: Option<Time>,
    lastActive: Option<Time>,
    preferences: Option<Preferences>)

  /** `Partial<Avatar>` */
  datatype AvatarPatch = AvatarPatch(
    skin: Option<string>,
    hair: Option<string>,
    eyes: Option<string>,
    clothing: Option<string>,
    accessories: Option<seq<string>>,
    culturalElements: Option<seq<string>>,
    accessibilityFeatures: Option<seq<string>>,
    expressions: Option<map<string, string>>)

  /** `Partial<UserPreferences>` */
  datatype PreferencesPatch = PreferencesPatch(
    audioEnabled: Option<bool>,
    audioVolume: Option<real>,
    narrationEnabled: Option<bool>,
    narrationLanguage: Option<Language>,
    voiceSpeed: Option<real>,
    accessibilityMode: Option<bool>,
    highContrastMode: Option<bool>,
    reducedMotion: Option<bool>,
    subtitlesEnabled: Option<bool>,
    collaborationMode: Option<CollaborationMode>)

  /** `Partial<Creation>` */
  datatype CreationPatch = CreationPatch(
    id: Option<string>,
    kind: Option<string>,
    title: Option<string>,
    description: Option<string>,
    data: Option<Payload>,
    thumbnail: Option<string>,
    likes: Option<int>,
    remixes: Option<int>,
    tags: Option<seq<string>>,
    isPublic: Option<bool>,
    collaborators: Option<seq<string>>,
    createdAt: Option<Time>,
    updatedAt: Option<Time>)

  /** What a learning module hands to its `onComplete` callback. */
  datatype CompletionReport = CompletionReport(
    score: int,
    achievements: seq<string>,
    creations: seq<Creation>,
    decisions: seq<EthicalDecision>)

  /** The identifiers of the six curriculum modules, in their fixed order. */
  const ModuleIds: seq<string> :=
    ["fundamentals", "conversational", "computer-vision", "generative", "neural-networks", "ethics"]

  function NewModule(id: string, name: string, description: string, icon: string,
                     difficulty: Difficulty, estimatedTime: int, maxScore: int): ModuleProgress
  {
    ModuleProgress(id, name, description, icon, difficulty, estimatedTime,
                   false, 0, maxScore, 0, [], None, None, None, [], [])
  }

  const InitialModules: seq<ModuleProgress> := [
    NewModule("fundamentals", "Fundamentos de IA Interactivos",
              "Laboratorio completo de tipos de IA con simulaciones reales", "🧠", Beginner, 25, 500),
    NewModule("conversational", "IA Conversacional Avanzada",
              "Constructor de chatbots y simulador NLP real", "💬", Intermediate, 30, 600),
    NewModule("computer-vision", "Visión por Computadora Creativa",
              "Detector de objetos real y analizador de arte", "👁️", Intermediate, 30, 600),
    NewModule("generative", "IA Generativa Multimodal",
              "Estudio completo con 8 algoritmos generativos", "🎨", Advanced, 35, 700),
    NewModule("neural-networks", "Redes Neuronales 3D",
              "Constructor inmersivo con Three.js y arquitecturas famosas", "🕸️", Advanced, 30, 600),
    NewModule("ethics", "Ética IA - Casos Reales Medellín",
              "Simulador de decisiones urbanas y debates colaborativos", "⚖️", Advanced, 25, 500)
  ]

  const DefaultAvatar: Avatar := Avatar(
    "medium", "curly-black", "brown", "casual-modern", [], ["colombia-flag-pin"], [],
    map["default" := "friendly", "happy" := "bright-smile", "focused" := "concentrated",
        "surprised" := "wide-eyes", "thoughtful" := "chin-rest"])

  const DefaultPreferences: Preferences :=
    Preferences(true, 0.7, true, EsCO, 1.0, false, false, false, false, Open)

  /** `initialState`, evaluated once when the store module loads: `id` is the
      UUID drawn then and `loadedAt` the date taken then. */
  function InitialState(id: string, loadedAt: Time): GameState {
    GameState(
      UserProfile(id, "", DefaultAvatar, 1, 100, 0, 0, 0, 0, 0, loadedAt, loadedAt, DefaultPreferences),
      0, InitialModules, 0, [], false, false, 0,
      None, false, [], [], [], None, false, "ambient", false, false, [], [])
  }
}
