/** The application shell (`src/App.tsx`): the start-up sequence that
    loads the catalogues into the store and picks the first screen, and the
    transitions between the welcome, game and completion screens. */
module App {
  import opened Basics
  import opened StoreTypes
  import StoreLogic
  import GameStore
  import CompletionScreen

  datatype Screen = Loading | Welcome | Game | Completed

  /** How the asynchronous start-up ends: the machine-learning runtime
      fails to load (before anything is stored), the service-worker
      lookup fails (after both catalogues were stored), or everything
      succeeds and a registration was or was not found. */
  datatype InitOutcome = RuntimeFailed | RegistrationFailed | Ready(registered: bool)

  /** The screen picked at start-up: the completion screen for a finished
      game, the game for a started one with a non-empty name, otherwise the
      welcome wizard. */
  function InitialScreen(s: StoreTypes.GameState): (r: Screen)
    ensures r != Loading
    ensures r == Screen.Completed <==> s.gameCompleted
    ensures r == Game <==> !s.gameCompleted && s.gameStarted && s.profile.name != ""
  {
    if s.gameCompleted then Screen.Completed
    else if s.gameStarted && s.profile.name != "" then Game
    else Welcome
  }

  /** What is rendered: the loading screen until start-up succeeded. */
  function Shown(appState: Screen, isInitialized: bool): (r: Screen)
    ensures r == Loading <==> appState == Loading || !isInitialized
    ensures r != Loading ==> r == appState
  {
    if appState == Loading || !isInitialized then Loading else appState
  }

  /** The patch `handleStartGame` passes to `updateUserProfile`. */
  function StartPatch(userName: string, avatar: Avatar, preferences: Preferences): ProfilePatch {
    ProfilePatch(None, Some(userName), Some(avatar), None, None, None, None, None, None, None,
                 None, None, Some(preferences))
  }

  /** The state `handleStartGame` leaves in the store. */
  function Started(s: StoreTypes.GameState, userName: string, avatar: Avatar,
                   preferences: Preferences, now: Time): (r: StoreTypes.GameState)
    ensures r.gameStarted && r.startTime == now && r.profile.lastActive == now
    ensures r.profile.name == userName && r.profile.avatar == avatar
    ensures r.profile.preferences == preferences
    ensures r.gameCompleted == s.gameCompleted && r.modules == s.modules
  {
    StoreLogic.StartGame(StoreLogic.UpdateUserProfile(s, StartPatch(userName, avatar, preferences), now), now)
  }

  /** A game started from the wizard, which insists on a name with a
      non-blank character, is resumed by the next start-up unless it was
      finished. */
  lemma StartThenReload(s: StoreTypes.GameState, userName: string, avatar: Avatar,
                        preferences: Preferences, now: Time)
    requires HasContent(userName)
    ensures InitialScreen(Started(s, userName, avatar, preferences, now))
            == if s.gameCompleted then Screen.Completed else Game
  {
    var i :| 0 <= i < |userName| && !IsWhitespace(userName[i]);
    assert userName != "";
  }

  /** A completed game that is reset opens on the welcome wizard at the
      next start-up, whatever the name. */
  lemma ResetThenReload(s: StoreTypes.GameState, id0: string, loadedAt: Time, newId: string)
    ensures InitialScreen(StoreLogic.ResetGame(s, InitialState(id0, loadedAt), newId)) == Welcome
  {
    StoreLogic.ResetClearsProgress(s, id0, loadedAt, newId);
  }

  class Application {
    const store: GameStore.Store
    var appState: Screen
    var isInitialized: bool
    /** The `updatefound` listener registered at start-up. */
    var listening: bool

    /** The store keeps its invariant; the state stays `loading` until
        start-up ends; the game screen is only chosen for a started game. */
    ghost predicate Valid()
      reads this, store
    {
      store.Valid()
      && (appState == Loading ==> !isInitialized)
      && (appState == Game ==> store.state.gameStarted)
    }

    constructor (store: GameStore.Store)
      requires store.Valid()
      ensures Valid() && this.store == store
      ensures appState == Loading && !isInitialized && !listening
    {
      this.store := store;
      appState, isInitialized, listening := Loading, false, false;
    }

    /** The mount effect `initializeApp`, run once. `projects` and `cases`
        are the two catalogues it stores. A failure shows the welcome
        state but never raises `isInitialized`, so the loading screen stays
        up; success picks the screen from the store as it was. */
    method Initialize(outcome: InitOutcome, projects: seq<MedellinProject>, cases: seq<EthicsCase>)
      requires Valid() && appState == Loading && !isInitialized && !listening
      modifies this, store
      ensures Valid()
      ensures outcome.RuntimeFailed? ==> store.state == old(store.state)
      ensures outcome.RegistrationFailed? ==>
                store.state == StoreLogic.LoadEthicsDatabase(
                                 StoreLogic.LoadMedellinProjects(old(store.state), projects), cases)
      ensures outcome.Ready? ==>
                var loaded := StoreLogic.LoadEthicsDatabase(
                                StoreLogic.LoadMedellinProjects(old(store.state), projects), cases);
                store.state == (if outcome.registered then StoreLogic.SetInstalled(loaded, true) else loaded)
                && appState == InitialScreen(old(store.state)) && isInitialized
                && listening == outcome.registered
      ensures !outcome.Ready? ==> appState == Welcome && !isInitialized && !listening
      ensures Shown(appState, isInitialized) == Loading <==> !outcome.Ready?
    {
      if outcome.RuntimeFailed? {
        appState := Welcome;
        return;
      }
      var before := store.state;
      store.LoadMedellinProjects(projects);
      store.LoadEthicsDatabase(cases);
      if outcome.RegistrationFailed? {
        appState := Welcome;
        return;
      }
      if outcome.registered {
        store.SetInstalled(true);
        listening := true;
      }
      isInitialized := true;
      if before.gameCompleted {
        appState := Screen.Completed;
      } else if before.gameStarted && before.profile.name != "" {
        appState := Game;
      } else {
        appState := Welcome;
      }
    }

    /** The service worker's `updatefound` event. */
    method UpdateFound()
      requires Valid() && listening
      modifies store
      ensures Valid() && store.state == StoreLogic.SetUpdateAvailable(old(store.state), true)
    {
      store.SetUpdateAvailable(true);
    }

    /** `handleStartGame`, the welcome wizard's `onStartGame`: the name,
        avatar and preferences are stored, the clock starts and the game is
        shown. */
    method HandleStartGame(userName: string, avatar: Avatar, preferences: Preferences, now: Time)
      requires Valid()
      modifies this, store
      ensures Valid() && appState == Game
      ensures store.state == Started(old(store.state), userName, avatar, preferences, now)
      ensures isInitialized == old(isInitialized) && listening == old(listening)
    {
      store.UpdateUserProfile(StartPatch(userName, avatar, preferences), now);
      store.StartGame(now);
      appState := Game;
    }

    /** `handleGameComplete`, the game container's `onComplete`. */
    method HandleGameComplete()
      requires Valid()
      modifies this
      ensures Valid() && appState == Screen.Completed
      ensures isInitialized == old(isInitialized) && listening == old(listening)
    {
      appState := Screen.Completed;
    }

    /** `handleRestartGame`, the completion screen's `onRestart`. */
    method HandleRestartGame()
      requires Valid()
      modifies this
      ensures Valid() && appState == Welcome
      ensures isInitialized == old(isInitialized) && listening == old(listening)
    {
      appState := Welcome;
    }

    /** The restart button of the completion screen: the store is reset,
        then `handleRestartGame` shows the wizard. */
    method Restart(screen: CompletionScreen.Completion, newId: string)
      requires Valid() && screen.store == store
      modifies this, store
      ensures Valid() && appState == Welcome
      ensures store.state
              == StoreLogic.ResetGame(old(store.state), InitialState(store.loadId, store.loadedAt), newId)
      ensures isInitialized == old(isInitialized) && listening == old(listening)
    {
      screen.HandleRestart(newId);
      appState := Welcome;
    }
  }
}
