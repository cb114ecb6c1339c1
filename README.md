# Núcleo Colectivo IA — a verified model of the game core

Núcleo Colectivo IA is a gamified web application for learning artificial
intelligence. A player goes through six learning modules: fundamentals,
conversational AI, computer vision, generative AI, neural networks and
ethics. Each module earns points, achievements, creations and ethical
decisions, and hands them to a single progress store. The store keeps:

- the player's profile;
- the neurotoken balance;
- the module records;
- the global achievements;
- the community creations;
- the peer and follow lists.

Around the store sit:

- a container that orchestrates module completion;
- a four-step welcome wizard;
- a completion screen with a score band;
- the top-level application, which picks the screen to show.

This project models that core in Dafny and proves what each part does.

## Layout

| file | module | models |
|---|---|---|
| `basics.dfy` | `Basics` | the JavaScript idioms the core relies on: `??`, `Math.max`/`min`, clamping, `indexOf`/`find`/`findIndex`, conditional and once-only `push`, the order-preserving union `[...new Set([...a, ...b])]`, `filter(x => x !== y)`, the include-or-remove toggle, `includes` on strings, `toLowerCase` and `trim()` |
| `store_types.dfy` | `StoreTypes` | the records of `src/store/gameStore.ts` (profile, avatar, preferences, module progress, achievements, creations, decisions, collaboration, narration) and the initial state |
| `store_logic.dfy` | `StoreLogic` | every store action and query as a pure function on the whole state; the store invariant and lemmas stating what each action promises |
| `game_store.dfy` | `GameStore` | the store as a class with one mutable `state` field; every action is a method whose new state is the corresponding `StoreLogic` function of the old one, and which keeps the invariant |
| `game_container.dfy` | `GameContainer` | `src/components/GameContainer.tsx`: completion orchestration, the module menu, module changes |
| `module1_fundamentals.dfy` … `module6_ethics.dfy` | `Module1Fundamentals` … `Module6Ethics` | the six module components, each a class whose fields are the component's state |
| `welcome_screen.dfy` | `WelcomeScreen` | `src/components/WelcomeScreen.tsx`: the wizard steps, the avatar designer and the start guard |
| `completion_screen.dfy` | `CompletionScreen` | `src/components/CompletionScreen.tsx`: totals, the play time, the performance band and restart |
| `app.dfy` | `App` | `src/App.tsx`: initialisation, the screen choice and the screen transitions |

## How the model treats the environment

- **Component state.** Each React component is a class whose fields are its
  `useState` variables. A handler is a method with a `modifies` clause.
- **Reports.** A module's final step returns the `CompletionReport` it would
  pass to `onComplete`. The container feeds that report to the store.
- **Score bookkeeping.** Ghost counters, such as the number of analyses or
  finished runs, account for each component's score in its `Valid()`
  predicate.
- **Timers.** `setTimeout`/`setInterval` callbacks are explicit methods (a
  tick, a timer firing). The caller decides when they run.
- **Nondeterministic inputs.** `Math.random()`, `Date`/`Date.now()` and
  `crypto.randomUUID()` are parameters. Time is an integer number of
  milliseconds.
- **Reloading.** The persisted store is the value `state`. The application's
  reload is a function of that state.

## Behaviour of the code worth knowing

- `completeModule` keeps `max(old, new)` as the module score, so a module's
  score can exceed its `maxScore`.
- The profile's `totalScore` grows by the full score on every completion,
  even on a repeat with a lower score.
- `resetGame` merges `initialState` into the current state.
  - Keys that `initialState` does not hold survive the reset. These are the
    collaboration session and the current narration.
  - The dates come from the moment the initial state was built.
- The container decides the end of the game from the state snapshot taken
  before the completion. Re-completing an already completed module is
  therefore counted against that stale snapshot.
- Module 4 on a canvas without a 2D context sets `isGenerating` and never
  clears it.
- Module 5 with an unknown architecture raises the running flag and returns,
  and the flag stays raised.
- After a failed initialisation, the application sets the welcome state but
  stays on the loading screen.

## Model

| member | source | states |
|---|---|---|
| StoreLogic.FindModule | nucleo-colectivo-ia-v3-completo/src/store/gameStore.ts:424-425 | the index of the first module with the id, or -1 iff no module has it |
| StoreLogic.CountCompleted | nucleo-colectivo-ia-v3-completo/src/store/gameStore.ts:441 | the number of completed modules is at most the list length; it equals the length iff every module is completed and is 0 iff none is |
| StoreLogic.CountCompletedSet | nucleo-colectivo-ia-v3-completo/src/store/gameStore.ts:428-441 | completing module `i` raises the completed count by one iff it was not completed yet |
| StoreLogic.ModulesInvUpdate | nucleo-colectivo-ia-v3-completo/src/store/gameStore.ts:427-433 | editing one module with the same id, duplicate-free achievements and a non-negative score keeps the module-list invariant |
| StoreLogic.ModuleEditInv | nucleo-colectivo-ia-v3-completo/src/store/gameStore.ts:452-458 | a state whose only change is one module edited without touching its id, achievements, score or completion flag keeps the store invariant |
| StoreLogic.SameInvFields | nucleo-colectivo-ia-v3-completo/src/store/gameStore.ts:486-606 | a state that differs only in fields the invariant does not read keeps the store invariant |
| StoreLogic.FindOwnModule | nucleo-colectivo-ia-v3-completo/src/store/gameStore.ts:424 | under the invariant the module ids are distinct, so looking up module `i` by its own id finds `i` |
| StoreLogic.InitialModulesFacts | nucleo-colectivo-ia-v3-completo/src/store/gameStore.ts:188-279 | the six initial modules have the fixed ids, and none is completed, scored, badged or started |
| StoreLogic.FreshInv | nucleo-colectivo-ia-v3-completo/src/store/gameStore.ts:311-343 | a state with the initial modules and no achievements, peers or followed users satisfies the invariant with nothing completed |
| StoreLogic.EmptyModulesInv | nucleo-colectivo-ia-v3-completo/src/store/gameStore.ts:188-279 | six modules with the fixed ids, no achievements and zero scores satisfy the module invariant |
| StoreLogic.InitialInv | nucleo-colectivo-ia-v3-completo/src/store/gameStore.ts:311-343 | the initial state satisfies the invariant and has no completed module |
| StoreLogic.ProfilePatchLaws | nucleo-colectivo-ia-v3-completo/src/store/gameStore.ts:405-406 | merging a partial profile is idempotent, an empty patch changes nothing, and a given name wins while a missing one keeps the old name |
| StoreLogic.AvatarPatchLaws | nucleo-colectivo-ia-v3-completo/src/store/gameStore.ts:410-411 | merging a partial avatar is idempotent and an empty patch changes nothing |
| StoreLogic.PreferencesPatchLaws | nucleo-colectivo-ia-v3-completo/src/store/gameStore.ts:414-415 | merging partial preferences is idempotent and an empty patch changes nothing |
| StoreLogic.UpdateUserProfile | nucleo-colectivo-ia-v3-completo/src/store/gameStore.ts:405-408 | each of the twelve fields the patch gives replaces the old one and every field it omits is kept, `lastActive` becomes the current time whatever the patch says, only the profile changes, and the invariant is kept |
| StoreLogic.UpdateAvatar | nucleo-colectivo-ia-v3-completo/src/store/gameStore.ts:410-412 | the avatar becomes the old one merged with the patch, only the profile changes, and the invariant is kept |
| StoreLogic.UpdatePreferences | nucleo-colectivo-ia-v3-completo/src/store/gameStore.ts:414-416 | the preferences become the old ones merged with the patch, only the profile changes, and the invariant is kept |
| StoreLogic.StartGame | nucleo-colectivo-ia-v3-completo/src/store/gameStore.ts:418-421 | the game is marked started at the current time, nothing else changes, and the invariant is kept |
| StoreLogic.CompletionTokens | nucleo-colectivo-ia-v3-completo/src/store/gameStore.ts:448 | the tokens earned are `floor(score / 10)` plus 50 per achievement id and 25 per creation passed |
| StoreLogic.MarkCompleted | nucleo-colectivo-ia-v3-completo/src/store/gameStore.ts:427-433 | the module is completed now with the better of the two scores; its achievements are the old ones followed by the new distinct ones, with no duplicates; creations and decisions are appended |
| StoreLogic.CompleteModule | nucleo-colectivo-ia-v3-completo/src/store/gameStore.ts:423-450 | an unknown id changes nothing; otherwise the module is marked completed, the whole score is added to the total even on a lower repeat, creativity grows 10 per creation and ethics 5 per decision, the level is `completed / 2 + 1`, tokens follow the award formula, and the game is completed iff every module is |
| StoreLogic.CompleteModuleInv | nucleo-colectivo-ia-v3-completo/src/store/gameStore.ts:423-450 | completing a module keeps the store invariant |
| StoreLogic.MonotonicModuleScore | nucleo-colectivo-ia-v3-completo/src/store/gameStore.ts:429-436 | two completions of one module leave its score at the maximum of the three values, while the profile total grows by both scores |
| StoreLogic.FirstCompletion | nucleo-colectivo-ia-v3-completo/src/store/gameStore.ts:423-450 | on a fresh-looking state, completing `fundamentals` with 220 points and one achievement leaves it completed at 220 with that achievement, a total of 220, 172 tokens, level 1, the game not completed and 100/6 % done |
| StoreLogic.FirstCompletionScenario | nucleo-colectivo-ia-v3-completo/src/store/gameStore.ts:423-450 | the same first completion, from the store's initial state |
| StoreLogic.SetCurrentModule | nucleo-colectivo-ia-v3-completo/src/store/gameStore.ts:452-458 | the current index is set; a module at that index gets a start date only if it had none; every other module and field is unchanged; an index outside the list changes no module |
| StoreLogic.SetCurrentModuleInv | nucleo-colectivo-ia-v3-completo/src/store/gameStore.ts:452-458 | selecting a module keeps the store invariant |
| StoreLogic.ResetGame | nucleo-colectivo-ia-v3-completo/src/store/gameStore.ts:460-467 | the state becomes the initial one with a fresh profile id and the old name; the collaboration session and narration survive the merge; the invariant holds |
| StoreLogic.ResetClearsProgress | nucleo-colectivo-ia-v3-completo/src/store/gameStore.ts:460-467 | after a reset the six modules are uncompleted with zero scores, tokens are 100, level is 1, the game is neither started nor completed, the name is kept, and the invariant holds |
| StoreLogic.RarityReward | nucleo-colectivo-ia-v3-completo/src/store/gameStore.ts:475-480 | the token reward is 25, 50, 100 or 250 for common, rare, epic or legendary |
| StoreLogic.AddAchievement | nucleo-colectivo-ia-v3-completo/src/store/gameStore.ts:469-484 | a known achievement id changes nothing; a new one is appended and its rarity reward credited; afterwards the id is held; the invariant is kept |
| StoreLogic.AddAchievementIdempotent | nucleo-colectivo-ia-v3-completo/src/store/gameStore.ts:470-471 | adding an achievement with an id already added changes nothing |
| StoreLogic.AddNeurotokens | nucleo-colectivo-ia-v3-completo/src/store/gameStore.ts:486-489 | the tokens grow by the amount, nothing else changes, and the invariant is kept |
| StoreLogic.SpendNeurotokens | nucleo-colectivo-ia-v3-completo/src/store/gameStore.ts:491-500 | the spend succeeds iff the balance covers the amount; on success the balance drops by the amount, otherwise nothing changes |
| StoreLogic.SpendThenRefund | nucleo-colectivo-ia-v3-completo/src/store/gameStore.ts:486-500 | a successful spend followed by adding back the same amount restores the state |
| StoreLogic.StartCollaboration | nucleo-colectivo-ia-v3-completo/src/store/gameStore.ts:502-505 | the session is set and collaboration is on; nothing else changes |
| StoreLogic.JoinCollaboration | nucleo-colectivo-ia-v3-completo/src/store/gameStore.ts:507-510 | collaboration is on; the session id is not used; nothing else changes |
| StoreLogic.LeaveCollaboration | nucleo-colectivo-ia-v3-completo/src/store/gameStore.ts:512-516 | the session is cleared, collaboration is off and the peer list is emptied |
| StoreLogic.UpdateCollaborationState | nucleo-colectivo-ia-v3-completo/src/store/gameStore.ts:518-522 | without a session nothing changes; otherwise only the shared state of the session is replaced |
| StoreLogic.AddPeer | nucleo-colectivo-ia-v3-completo/src/store/gameStore.ts:524-528 | the peer is listed afterwards and is appended only if it was not already listed |
| StoreLogic.RemovePeer | nucleo-colectivo-ia-v3-completo/src/store/gameStore.ts:530-532 | the peer is no longer listed and exactly the other peers remain |
| StoreLogic.AddRemovePeer | nucleo-colectivo-ia-v3-completo/src/store/gameStore.ts:524-532 | adding a new peer and then removing it restores the state |
| StoreLogic.FollowUser | nucleo-colectivo-ia-v3-completo/src/store/gameStore.ts:568-572 | the user is followed afterwards and is appended only if not already followed |
| StoreLogic.UnfollowUser | nucleo-colectivo-ia-v3-completo/src/store/gameStore.ts:574-576 | the user is no longer followed and exactly the other followed users remain |
| StoreLogic.FollowUnfollow | nucleo-colectivo-ia-v3-completo/src/store/gameStore.ts:568-576 | following a new user and then unfollowing them restores the state |
| StoreLogic.FindCreation | nucleo-colectivo-ia-v3-completo/src/store/gameStore.ts:544-566 | the index of the first creation with the id, or -1 iff none has it |
| StoreLogic.AddCreation | nucleo-colectivo-ia-v3-completo/src/store/gameStore.ts:534-542 | the creation is appended to the current module when the index is valid, and to the community list iff it is public; nothing else changes |
| StoreLogic.AddCreationInv | nucleo-colectivo-ia-v3-completo/src/store/gameStore.ts:534-542 | adding a creation keeps the store invariant |
| StoreLogic.PatchFirst | nucleo-colectivo-ia-v3-completo/src/store/gameStore.ts:544-559 | only the first creation with the id is patched; with no match the list is unchanged |
| StoreLogic.UpdateCreation | nucleo-colectivo-ia-v3-completo/src/store/gameStore.ts:544-559 | the first matching creation of the current module and of the community list is patched; nothing else changes |
| StoreLogic.UpdateCreationInv | nucleo-colectivo-ia-v3-completo/src/store/gameStore.ts:544-559 | patching a creation keeps the store invariant |
| StoreLogic.LikeCreation | nucleo-colectivo-ia-v3-completo/src/store/gameStore.ts:561-566 | with no match nothing changes; otherwise only the first matching community creation gains one like |
| StoreLogic.StartNarration | nucleo-colectivo-ia-v3-completo/src/store/gameStore.ts:578-581 | the narration text is set and narrating is on; the invariant is kept |
| StoreLogic.StopNarration | nucleo-colectivo-ia-v3-completo/src/store/gameStore.ts:583-586 | the narration is cleared and narrating is off; the invariant is kept |
| StoreLogic.SetBackgroundMusic | nucleo-colectivo-ia-v3-completo/src/store/gameStore.ts:588-590 | only the track changes; the invariant is kept |
| StoreLogic.SetInstalled | nucleo-colectivo-ia-v3-completo/src/store/gameStore.ts:592-594 | only the installed flag changes; the invariant is kept |
| StoreLogic.SetUpdateAvailable | nucleo-colectivo-ia-v3-completo/src/store/gameStore.ts:596-598 | only the update flag changes; the invariant is kept |
| StoreLogic.LoadMedellinProjects | nucleo-colectivo-ia-v3-completo/src/store/gameStore.ts:600-602 | only the project catalogue changes; the invariant is kept |
| StoreLogic.LoadEthicsDatabase | nucleo-colectivo-ia-v3-completo/src/store/gameStore.ts:604-606 | only the case catalogue changes; the invariant is kept |
| StoreLogic.TotalPlayTime | nucleo-colectivo-ia-v3-completo/src/store/gameStore.ts:608-612 | the play time is 0 before the game starts and otherwise the time elapsed since the start |
| StoreLogic.CompletionPercentage | nucleo-colectivo-ia-v3-completo/src/store/gameStore.ts:614-618 | the percentage is 100 times completed over total; it lies in 0..100, is 100 iff every module is completed and 0 iff none is |
| StoreLogic.UserLevelTitle | nucleo-colectivo-ia-v3-completo/src/store/gameStore.ts:620-628 | the title for level 1 or below (the fallback), 2, 3 and 4 or above |
| StoreLogic.AllCreations | nucleo-colectivo-ia-v3-completo/src/store/gameStore.ts:649-651 | the flattened creations are exactly those of some module, and a single module flattens to its own list |
| StoreLogic.AllDecisions | nucleo-colectivo-ia-v3-completo/src/store/gameStore.ts:649-650 | the flattened decisions are exactly those of some module, and a single module flattens to its own list |
| StoreLogic.OfKind | nucleo-colectivo-ia-v3-completo/src/store/gameStore.ts:634 | the filtered creations are exactly the given ones of that type, never more than given, and a single creation is kept iff it has the type |
| StoreLogic.CreationsByType | nucleo-colectivo-ia-v3-completo/src/store/gameStore.ts:630-635 | the result holds exactly the creations of that type found in some module |
| StoreLogic.AllCreationsConcat | nucleo-colectivo-ia-v3-completo/src/store/gameStore.ts:632-633 | the flattening of a concatenation of module lists is the concatenation of their flattenings, so order and multiplicity are kept |
| StoreLogic.AllDecisionsConcat | nucleo-colectivo-ia-v3-completo/src/store/gameStore.ts:639 | the flattening of a concatenation of module lists is the concatenation of their flattenings, so order and multiplicity are kept |
| StoreLogic.OfKindConcat | nucleo-colectivo-ia-v3-completo/src/store/gameStore.ts:634 | the type filter distributes over concatenation, so order and multiplicity are kept |
| StoreLogic.CountImpact | nucleo-colectivo-ia-v3-completo/src/store/gameStore.ts:640-642 | the count of decisions with an impact is at most the number of decisions |
| StoreLogic.CountImpactZero | nucleo-colectivo-ia-v3-completo/src/store/gameStore.ts:640-642 | the count of an impact is 0 iff no decision has that impact |
| StoreLogic.CountImpactConcat | nucleo-colectivo-ia-v3-completo/src/store/gameStore.ts:640-642 | impact counts add over concatenation |
| StoreLogic.CountPublic | nucleo-colectivo-ia-v3-completo/src/store/gameStore.ts:654 | the public count is at most the number of creations and is 0 iff none is public |
| StoreLogic.MeanSocial | nucleo-colectivo-ia-v3-completo/src/store/gameStore.ts:643 | the mean times the number of decisions is the social sum, and it is 0 for no decisions |
| StoreLogic.StatsOf | nucleo-colectivo-ia-v3-completo/src/store/gameStore.ts:640-645 | the per-impact counts of a decision list, adding up to its length, and the mean social score |
| StoreLogic.ImpactPartition | nucleo-colectivo-ia-v3-completo/src/store/gameStore.ts:640-642 | the positive, negative and neutral counts add up to the number of decisions |
| StoreLogic.SumSocialAppend | nucleo-colectivo-ia-v3-completo/src/store/gameStore.ts:653 | the summed social score of two decision lists is the sum of their sums |
| StoreLogic.CountPublicAppend | nucleo-colectivo-ia-v3-completo/src/store/gameStore.ts:654 | the public count of two creation lists is the sum of their counts |
| StoreLogic.EthicalDecisionStats | nucleo-colectivo-ia-v3-completo/src/store/gameStore.ts:637-646 | the total is the number of flattened decisions, each count is the number of decisions with that impact, the three add up to the total, and the average is the social sum over the total, or 0 when there are no decisions |
| StoreLogic.SocialImpactScore | nucleo-colectivo-ia-v3-completo/src/store/gameStore.ts:648-658 | the score is at least the social sum plus 25 per peer and at most that plus 10 per flattened creation, with equality at the lower bound when no creation is public |
| StoreLogic.AllDecisionsSame | nucleo-colectivo-ia-v3-completo/src/store/gameStore.ts:639 | modules with the same decision lists give the same flattened decisions |
| StoreLogic.AllCreationsSame | nucleo-colectivo-ia-v3-completo/src/store/gameStore.ts:651 | modules with the same creation lists give the same flattened creations |
| StoreLogic.AllDecisionsAppendAt | nucleo-colectivo-ia-v3-completo/src/store/gameStore.ts:648-653 | appending decisions to one module adds their social sum to the flattened sum |
| StoreLogic.AllCreationsAppendAt | nucleo-colectivo-ia-v3-completo/src/store/gameStore.ts:648-654 | appending creations to one module adds their public count to the flattened count |
| StoreLogic.CompleteModuleSocialImpact | nucleo-colectivo-ia-v3-completo/src/store/gameStore.ts:648-658 | a completion raises the social-impact score by the decisions' social scores plus 10 per public creation passed |
| StoreLogic.AddCreationSocialImpact | nucleo-colectivo-ia-v3-completo/src/store/gameStore.ts:648-658 | adding a creation while a valid module is current raises the social-impact score by 10 iff it is public |
| StoreLogic.AllDecisionsImpactAt | nucleo-colectivo-ia-v3-completo/src/store/gameStore.ts:639-642 | appending decisions to one module raises each flattened impact count by their count and the flattened length by their number |
| StoreLogic.CompleteModuleImpact | nucleo-colectivo-ia-v3-completo/src/store/gameStore.ts:433 | a completion raises the flattened count of an impact by that impact's count among the decisions passed |
| StoreLogic.CompleteModuleDecisionStats | nucleo-colectivo-ia-v3-completo/src/store/gameStore.ts:637-646 | after a completion the statistics total grows by the number of decisions passed and each impact count by the decisions passed with that impact |
| StoreLogic.AddPeerSocialImpact | nucleo-colectivo-ia-v3-completo/src/store/gameStore.ts:524-528 | adding a new peer raises the social-impact score by 25, adding a listed peer leaves it |
| StoreLogic.RemovePeerSocialImpact | nucleo-colectivo-ia-v3-completo/src/store/gameStore.ts:530-532 | removing a peer lowers the social-impact score by 25 per occurrence removed |
| StoreLogic.LeaveCollaborationSocialImpact | nucleo-colectivo-ia-v3-completo/src/store/gameStore.ts:512-516 | leaving the collaboration lowers the social-impact score by 25 per connected peer |
| GameStore.Store.constructor | nucleo-colectivo-ia-v3-completo/src/store/gameStore.ts:311-343 | the store starts in the initial state of its load, which satisfies the invariant |
| GameStore.Store.UpdateUserProfile | nucleo-colectivo-ia-v3-completo/src/store/gameStore.ts:405-408 | the new state is `StoreLogic.UpdateUserProfile` of the old one, and the invariant is kept |
| GameStore.Store.UpdateAvatar | nucleo-colectivo-ia-v3-completo/src/store/gameStore.ts:410-412 | the new state is `StoreLogic.UpdateAvatar` of the old one, and the invariant is kept |
| GameStore.Store.UpdatePreferences | nucleo-colectivo-ia-v3-completo/src/store/gameStore.ts:414-416 | the new state is `StoreLogic.UpdatePreferences` of the old one, and the invariant is kept |
| GameStore.Store.StartGame | nucleo-colectivo-ia-v3-completo/src/store/gameStore.ts:418-421 | the new state is `StoreLogic.StartGame` of the old one, and the invariant is kept |
| GameStore.Store.CompleteModule | nucleo-colectivo-ia-v3-completo/src/store/gameStore.ts:423-450 | the in-place edits produce `StoreLogic.CompleteModule` of the old state, and the invariant is kept |
| GameStore.Store.MarkModuleCompleted | nucleo-colectivo-ia-v3-completo/src/store/gameStore.ts:427-449 | the edits after a successful lookup produce the completion of module `i` |
| GameStore.Store.SetCurrentModule | nucleo-colectivo-ia-v3-completo/src/store/gameStore.ts:452-458 | the new state is `StoreLogic.SetCurrentModule` of the old one, and the invariant is kept |
| GameStore.Store.ResetGame | nucleo-colectivo-ia-v3-completo/src/store/gameStore.ts:460-467 | the new state is the reset of the old one from the initial state of its load, and the invariant is kept |
| GameStore.Store.AddAchievement | nucleo-colectivo-ia-v3-completo/src/store/gameStore.ts:469-484 | the new state is `StoreLogic.AddAchievement` of the old one, and the invariant is kept |
| GameStore.Store.AddNeurotokens | nucleo-colectivo-ia-v3-completo/src/store/gameStore.ts:486-489 | the new state is `StoreLogic.AddNeurotokens` of the old one |
| GameStore.Store.SpendNeurotokens | nucleo-colectivo-ia-v3-completo/src/store/gameStore.ts:491-500 | it returns whether the balance covered the amount, and the new state is the one `StoreLogic.SpendNeurotokens` gives |
| GameStore.Store.StartCollaboration | nucleo-colectivo-ia-v3-completo/src/store/gameStore.ts:502-505 | the new state is `StoreLogic.StartCollaboration` of the old one |
| GameStore.Store.JoinCollaboration | nucleo-colectivo-ia-v3-completo/src/store/gameStore.ts:507-510 | the new state is `StoreLogic.JoinCollaboration` of the old one |
| GameStore.Store.LeaveCollaboration | nucleo-colectivo-ia-v3-completo/src/store/gameStore.ts:512-516 | the new state is `StoreLogic.LeaveCollaboration` of the old one |
| GameStore.Store.UpdateCollaborationState | nucleo-colectivo-ia-v3-completo/src/store/gameStore.ts:518-522 | the new state is `StoreLogic.UpdateCollaborationState` of the old one |
| GameStore.Store.AddPeer | nucleo-colectivo-ia-v3-completo/src/store/gameStore.ts:524-528 | the new state is `StoreLogic.AddPeer` of the old one, and the peers stay distinct |
| GameStore.Store.RemovePeer | nucleo-colectivo-ia-v3-completo/src/store/gameStore.ts:530-532 | the new state is `StoreLogic.RemovePeer` of the old one |
| GameStore.Store.FollowUser | nucleo-colectivo-ia-v3-completo/src/store/gameStore.ts:568-572 | the new state is `StoreLogic.FollowUser` of the old one, and the followed users stay distinct |
| GameStore.Store.UnfollowUser | nucleo-colectivo-ia-v3-completo/src/store/gameStore.ts:574-576 | the new state is `StoreLogic.UnfollowUser` of the old one |
| GameStore.Store.AddCreation | nucleo-colectivo-ia-v3-completo/src/store/gameStore.ts:534-542 | the in-place pushes produce `StoreLogic.AddCreation` of the old state |
| GameStore.Store.UpdateCreation | nucleo-colectivo-ia-v3-completo/src/store/gameStore.ts:544-559 | the in-place merges produce `StoreLogic.UpdateCreation` of the old state |
| GameStore.Store.LikeCreation | nucleo-colectivo-ia-v3-completo/src/store/gameStore.ts:561-566 | the new state is `StoreLogic.LikeCreation` of the old one |
| GameStore.Store.StartNarration | nucleo-colectivo-ia-v3-completo/src/store/gameStore.ts:578-581 | the new state is `StoreLogic.StartNarration` of the old one |
| GameStore.Store.StopNarration | nucleo-colectivo-ia-v3-completo/src/store/gameStore.ts:583-586 | the new state is `StoreLogic.StopNarration` of the old one |
| GameStore.Store.SetBackgroundMusic | nucleo-colectivo-ia-v3-completo/src/store/gameStore.ts:588-590 | the new state is `StoreLogic.SetBackgroundMusic` of the old one |
| GameStore.Store.SetInstalled | nucleo-colectivo-ia-v3-completo/src/store/gameStore.ts:592-594 | the new state is `StoreLogic.SetInstalled` of the old one |
| GameStore.Store.SetUpdateAvailable | nucleo-colectivo-ia-v3-completo/src/store/gameStore.ts:596-598 | the new state is `StoreLogic.SetUpdateAvailable` of the old one |
| GameStore.Store.LoadMedellinProjects | nucleo-colectivo-ia-v3-completo/src/store/gameStore.ts:600-602 | the new state is `StoreLogic.LoadMedellinProjects` of the old one |
| GameStore.Store.LoadEthicsDatabase | nucleo-colectivo-ia-v3-completo/src/store/gameStore.ts:604-606 | the new state is `StoreLogic.LoadEthicsDatabase` of the old one |
| GameContainer.Scheduled | nucleo-colectivo-ia-v3-completo/src/components/GameContainer.tsx:100-118 | no timeout without a current module record; the end of the game iff the pre-completion snapshot lacks exactly one completion; otherwise the advance to the next index |
| GameContainer.AfterCompletion | nucleo-colectivo-ia-v3-completo/src/components/GameContainer.tsx:99-105 | with no current module record the store is untouched; otherwise the completion and then the 100-token bonus are applied |
| GameContainer.AfterCompletionEffects | nucleo-colectivo-ia-v3-completo/src/components/GameContainer.tsx:99-105 | a handled completion marks the current module completed with the better score, adds the whole score, credits the token formula plus 100, keeps the completion flag in step and keeps the store invariant |
| GameContainer.EndsGameOnLastOpenModule | nucleo-colectivo-ia-v3-completo/src/components/GameContainer.tsx:106-109 | when the completed module was open, the stale test ends the game iff the store then says the game is completed |
| GameContainer.StaleSnapshotEndsEarly | nucleo-colectivo-ia-v3-completo/src/components/GameContainer.tsx:106-109 | when five modules are done and an already completed one is repeated, the game is ended although the store says it is not completed |
| GameContainer.Container.constructor | nucleo-colectivo-ia-v3-completo/src/components/GameContainer.tsx:35-36 | the menu is closed, no transition runs and no timeout is pending |
| GameContainer.Container.HandleModuleComplete | nucleo-colectivo-ia-v3-completo/src/components/GameContainer.tsx:99-120 | the store state becomes `AfterCompletion` of the old one, and the timeout chosen on the old state is scheduled |
| GameContainer.Container.CreditCompletion | nucleo-colectivo-ia-v3-completo/src/components/GameContainer.tsx:101-104 | the completion followed by the bonus gives `AfterCompletion` of the old store state |
| GameContainer.Container.HandleModuleChange | nucleo-colectivo-ia-v3-completo/src/components/GameContainer.tsx:123-127 | choosing the module that is already current does nothing; otherwise the transition starts and its end is scheduled |
| GameContainer.Container.SelectModule | nucleo-colectivo-ia-v3-completo/src/components/GameContainer.tsx:234-249 | a menu click on any module, always unlocked, behaves as `handleModuleChange` with the current module |
| GameContainer.Container.ToggleModuleMenu | nucleo-colectivo-ia-v3-completo/src/components/GameContainer.tsx:134-136 | the menu flag flips and nothing else changes |
| GameContainer.Container.Fire | nucleo-colectivo-ia-v3-completo/src/components/GameContainer.tsx:109-130 | the end timeout calls `onComplete`; the advance timeout changes module only below the table size; the transition end sets the module in the store and closes the menu and the transition |
| Module1Fundamentals.RunBadges | nucleo-colectivo-ia-v3-completo/src/components/modules/Module1Fundamentals.tsx:129-131 | the run-time achievements are all `high-accuracy-trainer`, at most one per finished run |
| Module1Fundamentals.CorrectAnswers | nucleo-colectivo-ia-v3-completo/src/components/modules/Module1Fundamentals.tsx:137-143 | the correct-answer count is at most the number of answers |
| Module1Fundamentals.FinalReport | nucleo-colectivo-ia-v3-completo/src/components/modules/Module1Fundamentals.tsx:152-164 | the report keeps the score, and its achievements are exactly the module's followed by `simulation-master` iff at least two runs finished and then `fundamentals-expert` iff the score is above 200; no creations or decisions |
| Module1Fundamentals.AnswerAppend | nucleo-colectivo-ia-v3-completo/src/components/modules/Module1Fundamentals.tsx:139-143 | one more answer adds one correct answer iff it is correct |
| Module1Fundamentals.RunAppend | nucleo-colectivo-ia-v3-completo/src/components/modules/Module1Fundamentals.tsx:122-131 | one more finished run adds `2 * accuracy` points and, above 80, one badge |
| Module1Fundamentals.RunBadgesCount | nucleo-colectivo-ia-v3-completo/src/components/modules/Module1Fundamentals.tsx:129-131 | the run-time achievements are exactly one `high-accuracy-trainer` per run above 80 |
| Module1Fundamentals.CountAbove80 | nucleo-colectivo-ia-v3-completo/src/components/modules/Module1Fundamentals.tsx:129 | the number of runs above 80 is at most the number of runs |
| Module1Fundamentals.Fundamentals.constructor | nucleo-colectivo-ia-v3-completo/src/components/modules/Module1Fundamentals.tsx:22-28 | the first section, no score, answers, runs or badges, and the first scenario selected |
| Module1Fundamentals.Fundamentals.SelectScenario | nucleo-colectivo-ia-v3-completo/src/components/modules/Module1Fundamentals.tsx:484 | the clicked scenario is selected and nothing else changes |
| Module1Fundamentals.Fundamentals.StartTrainingSimulation | nucleo-colectivo-ia-v3-completo/src/components/modules/Module1Fundamentals.tsx:87-97 | with the button enabled, a run of the selected scenario starts at step 0 |
| Module1Fundamentals.Fundamentals.TrainingTick | nucleo-colectivo-ia-v3-completo/src/components/modules/Module1Fundamentals.tsx:97-133 | before the last step only the step advances; on the last step the run stops, the result is appended, `2 * accuracy` points are added and an accuracy above 80 appends `high-accuracy-trainer` |
| Module1Fundamentals.Fundamentals.FinishRun | nucleo-colectivo-ia-v3-completo/src/components/modules/Module1Fundamentals.tsx:110-131 | the run stops, the result is appended and its points and badge are credited |
| Module1Fundamentals.Fundamentals.HandleQuizResponse | nucleo-colectivo-ia-v3-completo/src/components/modules/Module1Fundamentals.tsx:137-144 | every answer is appended and a correct one adds 20, also on a repeat |
| Module1Fundamentals.Fundamentals.NextSection | nucleo-colectivo-ia-v3-completo/src/components/modules/Module1Fundamentals.tsx:147-166 | below the last section it advances and resets the progress; on the last it returns the final report |
| Module1Fundamentals.Fundamentals.PrevSection | nucleo-colectivo-ia-v3-completo/src/components/modules/Module1Fundamentals.tsx:168-172 | the section goes back one, never below 0 |
| Module1Fundamentals.Fundamentals.TickSectionProgress | nucleo-colectivo-ia-v3-completo/src/components/modules/Module1Fundamentals.tsx:175-183 | the section progress grows by 2 up to 100 |
| Module2Conversational.KeywordCount | nucleo-colectivo-ia-v3-completo/src/components/modules/Module2Conversational.tsx:70-71 | the number of keywords contained in the text is at most the list length, and it is 0 iff none is contained |
| Module2Conversational.AnalyzeSentiment | nucleo-colectivo-ia-v3-completo/src/components/modules/Module2Conversational.tsx:65-76 | positive iff more positive keywords than negative ones match the lower-cased text, negative iff the reverse, neutral on a tie |
| Module2Conversational.NegatedPhraseMatchesBoth | nucleo-colectivo-ia-v3-completo/src/components/modules/Module2Conversational.tsx:66-71 | a text that contains `no me gusta` also contains `me gusta`, so it matches at least one keyword of each list |
| Module2Conversational.KeywordCountSingle | nucleo-colectivo-ia-v3-completo/src/components/modules/Module2Conversational.tsx:70-71 | when exactly one keyword of a list is contained, the count is 1 |
| Module2Conversational.NoMeGustaLower | nucleo-colectivo-ia-v3-completo/src/components/modules/Module2Conversational.tsx:69 | lower-casing `no me gusta` leaves it unchanged |
| Module2Conversational.NoMeGustaPositive | nucleo-colectivo-ia-v3-completo/src/components/modules/Module2Conversational.tsx:66-70 | `no me gusta` matches exactly one positive keyword |
| Module2Conversational.NoMeGustaNegative | nucleo-colectivo-ia-v3-completo/src/components/modules/Module2Conversational.tsx:67-71 | `no me gusta` matches exactly one negative keyword |
| Module2Conversational.NoMeGustaIsNeutral | nucleo-colectivo-ia-v3-completo/src/components/modules/Module2Conversational.tsx:65-76 | `no me gusta` is classified neutral |
| Module2Conversational.DetectIntentFirstMatch | nucleo-colectivo-ia-v3-completo/src/components/modules/Module2Conversational.tsx:79-100 | the first keyword group that matches wins, in the order greeting, goodbye, global, technology, AI; the default answers when none matches |
| Module2Conversational.ArtificialIntelligenceImpliesIa | nucleo-colectivo-ia-v3-completo/src/components/modules/Module2Conversational.tsx:95 | a message containing `inteligencia artificial` contains `ia` |
| Module2Conversational.Bump | nucleo-colectivo-ia-v3-completo/src/components/modules/Module2Conversational.tsx:118-121 | exactly the counter of the sentiment grows by one |
| Module2Conversational.UserMessages | nucleo-colectivo-ia-v3-completo/src/components/modules/Module2Conversational.tsx:109 | the number of user messages is at most the number of messages |
| Module2Conversational.FinalReport | nucleo-colectivo-ia-v3-completo/src/components/modules/Module2Conversational.tsx:140-156 | the report keeps the score; its achievements are exactly the module's followed by `conversational-expert` iff there are at least 5 messages and then `positive-communicator` iff positive outnumber negative; it carries the module's creations or else exactly the default chatbot, and no decisions |
| Module2Conversational.Conversational.constructor | nucleo-colectivo-ia-v3-completo/src/components/modules/Module2Conversational.tsx:21-28 | the first section, no score, messages or input, zeroed sentiment counters and the friendly personality |
| Module2Conversational.Conversational.SetUserInput | nucleo-colectivo-ia-v3-completo/src/components/modules/Module2Conversational.tsx:365 | only the input changes |
| Module2Conversational.Conversational.SetBotPersonality | nucleo-colectivo-ia-v3-completo/src/components/modules/Module2Conversational.tsx:307 | only the personality changes |
| Module2Conversational.Conversational.HandleSendMessage | nucleo-colectivo-ia-v3-completo/src/components/modules/Module2Conversational.tsx:102-127 | a blank input changes nothing; otherwise the message is appended with its sentiment, a reply is scheduled, the sentiment counter grows, 10 points are added and the input is cleared |
| Module2Conversational.Conversational.DeliverReply | nucleo-colectivo-ia-v3-completo/src/components/modules/Module2Conversational.tsx:112-115 | the oldest pending reply is appended as the bot answer to its message under the personality captured when it was sent |
| Module2Conversational.Conversational.PostBotMessage | nucleo-colectivo-ia-v3-completo/src/components/modules/Module2Conversational.tsx:114 | the bot message is appended and nothing else changes |
| Module2Conversational.Conversational.NextSection | nucleo-colectivo-ia-v3-completo/src/components/modules/Module2Conversational.tsx:135-158 | below the last section it advances; on the last it returns the final report with the default chatbot |
| Module2Conversational.Conversational.PrevSection | nucleo-colectivo-ia-v3-completo/src/components/modules/Module2Conversational.tsx:465-466 | the section goes back one, never below 0 |
| Module3ComputerVision.FinalReport | nucleo-colectivo-ia-v3-completo/src/components/modules/Module3ComputerVision.tsx:84-106 | the report keeps the score; its achievements are exactly the module's followed by `vision-expert` iff objects were detected and then `filter-artist` iff a filter is selected; it carries the module's creations or else exactly the default analysis, and no decisions |
| Module3ComputerVision.FinalReportBadges | nucleo-colectivo-ia-v3-completo/src/components/modules/Module3ComputerVision.tsx:101-103 | on a reachable state each completion badge appears iff its condition holds, and none appears twice |
| Module3ComputerVision.ComputerVision.constructor | nucleo-colectivo-ia-v3-completo/src/components/modules/Module3ComputerVision.tsx:20-27 | the first section, no score, detection or selection, and no filter |
| Module3ComputerVision.ComputerVision.SelectImage | nucleo-colectivo-ia-v3-completo/src/components/modules/Module3ComputerVision.tsx:73-82 | the results become the image's, 25 points are added on every click, and `object-detector` is appended only if not held |
| Module3ComputerVision.ComputerVision.ClickFilter | nucleo-colectivo-ia-v3-completo/src/components/modules/Module3ComputerVision.tsx:375 | the filter is selected and 10 points are added on every click |
| Module3ComputerVision.ComputerVision.NextSection | nucleo-colectivo-ia-v3-completo/src/components/modules/Module3ComputerVision.tsx:84-107 | below the last section it advances; on the last it returns the final report, which carries exactly the default analysis |
| Module3ComputerVision.ComputerVision.PrevSection | nucleo-colectivo-ia-v3-completo/src/components/modules/Module3ComputerVision.tsx:457-458 | the section goes back one, never below 0 |
| Module4Generative.GeneratedText | nucleo-colectivo-ia-v3-completo/src/components/modules/Module4Generative.tsx:219-240 | the generated text contains the prompt, or the template's fallback when the prompt is empty |
| Module4Generative.FinalReport | nucleo-colectivo-ia-v3-completo/src/components/modules/Module4Generative.tsx:248-271 | the report keeps the score; its achievements are exactly the module's followed by `prolific-creator` iff at least two creations exist and then `generative-artist` iff a picture is shown; it carries the creations or else exactly the default exploration, and no decisions |
| Module4Generative.BadgesCount | nucleo-colectivo-ia-v3-completo/src/components/modules/Module4Generative.tsx:212-245 | a reachable badge list holds `digital-artist` once iff a picture was made and `text-generator` once iff a text was made |
| Module4Generative.BadgesPicture | nucleo-colectivo-ia-v3-completo/src/components/modules/Module4Generative.tsx:212-214 | making a picture keeps the badge list reachable, with the picture flag raised |
| Module4Generative.BadgesText | nucleo-colectivo-ia-v3-completo/src/components/modules/Module4Generative.tsx:243-245 | making a text keeps the badge list reachable, with the text flag raised |
| Module4Generative.ReportOnValidState | nucleo-colectivo-ia-v3-completo/src/components/modules/Module4Generative.tsx:265-267 | on a reachable state `prolific-creator` is reported iff two pictures were made, and `generative-artist` only after a picture |
| Module4Generative.Generative.constructor | nucleo-colectivo-ia-v3-completo/src/components/modules/Module4Generative.tsx:22-51 | the first section, no score, creations or badges, the default art parameters, an empty prompt and the poetic style |
| Module4Generative.Generative.SetArtParams | nucleo-colectivo-ia-v3-completo/src/components/modules/Module4Generative.tsx:430-450 | only the art parameters change |
| Module4Generative.Generative.SetTextPrompt | nucleo-colectivo-ia-v3-completo/src/components/modules/Module4Generative.tsx:560 | only the prompt changes |
| Module4Generative.Generative.SetTextStyle | nucleo-colectivo-ia-v3-completo/src/components/modules/Module4Generative.tsx:569 | only the text style changes |
| Module4Generative.Generative.GenerateArt | nucleo-colectivo-ia-v3-completo/src/components/modules/Module4Generative.tsx:172-217 | without a canvas nothing happens; with a canvas but no context the generating flag stays on; otherwise the picture is appended and shown, 20 points are added, `digital-artist` is added once and a reset is scheduled |
| Module4Generative.Generative.KeepPicture | nucleo-colectivo-ia-v3-completo/src/components/modules/Module4Generative.tsx:195-216 | the picture creation is appended and shown, 20 points are added, `digital-artist` is added once and a reset is scheduled |
| Module4Generative.Generative.ResetTimerFires | nucleo-colectivo-ia-v3-completo/src/components/modules/Module4Generative.tsx:216 | a pending one-second reset turns the generating flag off |
| Module4Generative.Generative.GenerateText | nucleo-colectivo-ia-v3-completo/src/components/modules/Module4Generative.tsx:219-246 | the text is the picked template of the style filled with the prompt, 15 points are added and `text-generator` is added once |
| Module4Generative.Generative.ShowText | nucleo-colectivo-ia-v3-completo/src/components/modules/Module4Generative.tsx:240-245 | the text is shown, 15 points are added and `text-generator` is added once |
| Module4Generative.Generative.NextSection | nucleo-colectivo-ia-v3-completo/src/components/modules/Module4Generative.tsx:248-271 | below the last section it advances; on the last it returns the final report with the default exploration |
| Module4Generative.Generative.PrevSection | nucleo-colectivo-ia-v3-completo/src/components/modules/Module4Generative.tsx:656-657 | the section goes back one, never below 0 |
| Module5NeuralNetworks.Epochs | nucleo-colectivo-ia-v3-completo/src/components/modules/Module5NeuralNetworks.tsx:124 | the epochs shown are the floor of a tenth of the progress |
| Module5NeuralNetworks.Advance | nucleo-colectivo-ia-v3-completo/src/components/modules/Module5NeuralNetworks.tsx:108-110 | the progress grows by the increment and is clamped to 100 once it reaches 100 |
| Module5NeuralNetworks.FinalReport | nucleo-colectivo-ia-v3-completo/src/components/modules/Module5NeuralNetworks.tsx:218-222 | the report carries the score plus 25 and the achievements followed by `neural-networks-master`, with no creations or decisions |
| Module5NeuralNetworks.KnownArchitectures | nucleo-colectivo-ia-v3-completo/src/components/modules/Module5NeuralNetworks.tsx:55-104 | exactly the four table ids are found, and a found architecture has the id looked up |
| Module5NeuralNetworks.NeuralNetworks.constructor | nucleo-colectivo-ia-v3-completo/src/components/modules/Module5NeuralNetworks.tsx:22-28 | the first section, no progress, score or badges, and `cnn` selected |
| Module5NeuralNetworks.NeuralNetworks.SelectArchitecture | nucleo-colectivo-ia-v3-completo/src/components/modules/Module5NeuralNetworks.tsx:392 | only the selected architecture changes |
| Module5NeuralNetworks.NeuralNetworks.StartSimulation | nucleo-colectivo-ia-v3-completo/src/components/modules/Module5NeuralNetworks.tsx:99-107 | the running flag is raised and the progress reset; an interval starts iff the architecture is known |
| Module5NeuralNetworks.NeuralNetworks.BeginRun | nucleo-colectivo-ia-v3-completo/src/components/modules/Module5NeuralNetworks.tsx:100-107 | the running flag is raised and the progress reset; an unknown architecture returns with no interval |
| Module5NeuralNetworks.NeuralNetworks.Tick | nucleo-colectivo-ia-v3-completo/src/components/modules/Module5NeuralNetworks.tsx:107-130 | progress only grows; when it reaches 100 it is clamped, the run stops, 30 points are added and `neural-architect` is appended unless the closure saw it held |
| Module5NeuralNetworks.NeuralNetworks.HandleSectionComplete | nucleo-colectivo-ia-v3-completo/src/components/modules/Module5NeuralNetworks.tsx:214-224 | below the last section it advances and adds 25; on the last it returns the final report |
| Module6Ethics.Deltas | nucleo-colectivo-ia-v3-completo/src/components/modules/Module6Ethics.tsx:154-156 | an option's impact gives one delta for each of the four metrics |
| Module6Ethics.FindCase | nucleo-colectivo-ia-v3-completo/src/components/modules/Module6Ethics.tsx:58-119 | `singapore` is the first case, `eu_ai_act` the second, and no other id is found |
| Module6Ethics.FindAmongThree | nucleo-colectivo-ia-v3-completo/src/components/modules/Module6Ethics.tsx:148 | among three options the lookup succeeds iff the id is one of theirs, and returns an option with that id |
| Module6Ethics.KnownOptions | nucleo-colectivo-ia-v3-completo/src/components/modules/Module6Ethics.tsx:146-150 | a decision is found iff it is one of the six known case and option pairs, and the found option has the id given |
| Module6Ethics.Impacted | nucleo-colectivo-ia-v3-completo/src/components/modules/Module6Ethics.tsx:153-156 | each metric becomes its sum with the delta, clamped to 0..100 |
| Module6Ethics.ApplyImpact | nucleo-colectivo-ia-v3-completo/src/components/modules/Module6Ethics.tsx:153-156 | the loop over the metrics computes `Impacted` |
| Module6Ethics.EthicsTotal | nucleo-colectivo-ia-v3-completo/src/components/modules/Module6Ethics.tsx:325 | the displayed total is the average of the four metrics rounded to nearest, halves up, and lies in 0..100 when the metrics do |
| Module6Ethics.ToStoreDecision | nucleo-colectivo-ia-v3-completo/src/components/modules/Module6Ethics.tsx:160-166 | a recorded decision keeps its case, option and time when handed to the store |
| Module6Ethics.FinalReport | nucleo-colectivo-ia-v3-completo/src/components/modules/Module6Ethics.tsx:372-375 | the report carries the score plus 50, the achievements followed by `global-ethics-expert`, no creations and every decision in order |
| Module6Ethics.InitialTotal | nucleo-colectivo-ia-v3-completo/src/components/modules/Module6Ethics.tsx:325 | the initial metrics are in range and their displayed total is 68 |
| Module6Ethics.Ethics.constructor | nucleo-colectivo-ia-v3-completo/src/components/modules/Module6Ethics.tsx:22-32 | the first section, no score, badges or decisions, the `singapore` case and the initial metrics |
| Module6Ethics.Ethics.SetCurrentCase | nucleo-colectivo-ia-v3-completo/src/components/modules/Module6Ethics.tsx:233 | only the current case tab changes |
| Module6Ethics.Ethics.HandleDecision | nucleo-colectivo-ia-v3-completo/src/components/modules/Module6Ethics.tsx:146-174 | an unknown case or option changes nothing; otherwise the metrics take the clamped impact, the decision is appended, 25 points are added and `ethical-decision-maker` is added once |
| Module6Ethics.Ethics.RecordDecision | nucleo-colectivo-ia-v3-completo/src/components/modules/Module6Ethics.tsx:152-173 | the metrics take the clamped impact, the decision is appended, 25 points are added and `ethical-decision-maker` is added once |
| Module6Ethics.Ethics.HandleSectionComplete | nucleo-colectivo-ia-v3-completo/src/components/modules/Module6Ethics.tsx:367-377 | below the last section it advances and adds 30; on the last it returns the final report |
| WelcomeScreen.Position | nucleo-colectivo-ia-v3-completo/src/components/WelcomeScreen.tsx:81-82 | every step has its place in the step list |
| WelcomeScreen.NextStep | nucleo-colectivo-ia-v3-completo/src/components/WelcomeScreen.tsx:80-86 | the step moves forward one place, stopping at the last |
| WelcomeScreen.PrevStep | nucleo-colectivo-ia-v3-completo/src/components/WelcomeScreen.tsx:88-94 | the step moves back one place, stopping at the first |
| WelcomeScreen.NextBack | nucleo-colectivo-ia-v3-completo/src/components/WelcomeScreen.tsx:80-94 | back undoes next except on the last step, and next undoes back except on the first |
| WelcomeScreen.PositionInjective | nucleo-colectivo-ia-v3-completo/src/components/WelcomeScreen.tsx:81 | distinct steps have distinct places |
| WelcomeScreen.UpdateAvatar | nucleo-colectivo-ia-v3-completo/src/components/WelcomeScreen.tsx:102-107 | the chosen field takes the value and every other field keeps its own |
| WelcomeScreen.ApplyChange | nucleo-colectivo-ia-v3-completo/src/components/WelcomeScreen.tsx:481-560 | each switch sets exactly its own preference |
| WelcomeScreen.Welcome.constructor | nucleo-colectivo-ia-v3-completo/src/components/WelcomeScreen.tsx:18-47 | the intro step, an empty name, the default avatar and the default preferences |
| WelcomeScreen.Welcome.HandleNext | nucleo-colectivo-ia-v3-completo/src/components/WelcomeScreen.tsx:80-86 | the step becomes the next one |
| WelcomeScreen.Welcome.HandleBack | nucleo-colectivo-ia-v3-completo/src/components/WelcomeScreen.tsx:88-94 | the step becomes the previous one |
| WelcomeScreen.Welcome.SetUserName | nucleo-colectivo-ia-v3-completo/src/components/WelcomeScreen.tsx:250 | only the name changes |
| WelcomeScreen.Welcome.SetAvatarField | nucleo-colectivo-ia-v3-completo/src/components/WelcomeScreen.tsx:102-107 | the avatar becomes the old one with the field set |
| WelcomeScreen.Welcome.ToggleCulturalElement | nucleo-colectivo-ia-v3-completo/src/components/WelcomeScreen.tsx:109-116 | the element is removed if present and appended otherwise, and the list stays free of duplicates |
| WelcomeScreen.Welcome.ChangePreference | nucleo-colectivo-ia-v3-completo/src/components/WelcomeScreen.tsx:481-560 | the preferences take the switch's change |
| WelcomeScreen.Welcome.HandleStartGame | nucleo-colectivo-ia-v3-completo/src/components/WelcomeScreen.tsx:96-100 | the game is started iff the trimmed name is non-empty, with the untrimmed name, the avatar and the preferences |
| CompletionScreen.SumScoresBounds | nucleo-colectivo-ia-v3-completo/src/components/CompletionScreen.tsx:31 | with non-negative module scores the total is non-negative and at least each module's score |
| CompletionScreen.SumScoresUpdate | nucleo-colectivo-ia-v3-completo/src/components/CompletionScreen.tsx:31 | replacing one module changes the total by the difference of its scores |
| CompletionScreen.SumScoresZero | nucleo-colectivo-ia-v3-completo/src/components/CompletionScreen.tsx:31 | modules with zero scores total 0 |
| CompletionScreen.CompletionTotals | nucleo-colectivo-ia-v3-completo/src/components/CompletionScreen.tsx:31 | a completion moves the screen total by the rise of the module's best score while the profile total grows by the whole score, so a repeat at a lower score leaves the screen total unchanged |
| CompletionScreen.PlayMinutes | nucleo-colectivo-ia-v3-completo/src/components/CompletionScreen.tsx:32 | the minutes shown are the whole minutes of the play time |
| CompletionScreen.PerformanceLevel | nucleo-colectivo-ia-v3-completo/src/components/CompletionScreen.tsx:36-41 | excellent iff the total is at least 1000, very good iff 800..999, good iff 600..799, completed otherwise |
| CompletionScreen.PerformanceMonotone | nucleo-colectivo-ia-v3-completo/src/components/CompletionScreen.tsx:36-41 | a higher total never gets a lower band |
| CompletionScreen.ResetTotal | nucleo-colectivo-ia-v3-completo/src/components/CompletionScreen.tsx:31-46 | after a reset the total is 0 and the band is the lowest |
| CompletionScreen.Completion.constructor | nucleo-colectivo-ia-v3-completo/src/components/CompletionScreen.tsx:28-29 | the certificate and the stats are hidden |
| CompletionScreen.Completion.StatsTimerFires | nucleo-colectivo-ia-v3-completo/src/components/CompletionScreen.tsx:70-73 | the stats are shown and the certificate flag is kept |
| CompletionScreen.Completion.HandleDownloadCertificate | nucleo-colectivo-ia-v3-completo/src/components/CompletionScreen.tsx:50-53 | the certificate is shown and the stats flag is kept |
| CompletionScreen.Completion.HandleRestart | nucleo-colectivo-ia-v3-completo/src/components/CompletionScreen.tsx:45-48 | the store is reset from the initial state of its load, so the screen total becomes 0 |
| App.InitialScreen | nucleo-colectivo-ia-v3-completo/src/App.tsx:185-192 | never the loading screen; the completion screen iff the game is completed; the game iff it is not completed, started and the name is non-empty; the welcome otherwise |
| App.Shown | nucleo-colectivo-ia-v3-completo/src/App.tsx:221-223 | the loading screen is rendered iff the app is loading or not initialised, otherwise the app state |
| App.Started | nucleo-colectivo-ia-v3-completo/src/App.tsx:203-211 | the game is started now with the given name, avatar and preferences and the completion state untouched |
| App.StartThenReload | nucleo-colectivo-ia-v3-completo/src/App.tsx:186-211 | after starting with a name, a reload shows the game, or the completion screen if the game was completed |
| App.ResetThenReload | nucleo-colectivo-ia-v3-completo/src/App.tsx:186-192 | after a reset, a reload shows the welcome screen |
| App.Application.constructor | nucleo-colectivo-ia-v3-completo/src/App.tsx:30-31 | the app starts loading and uninitialised, with no update listener |
| App.Application.Initialize | nucleo-colectivo-ia-v3-completo/src/App.tsx:46-199 | a runtime failure leaves the store as it was; the catalogues are loaded otherwise; a registration flips the installed flag and the listener; on success the initial screen is chosen from the state before loading and the app is initialised; on a failure the welcome state is set but the loading screen stays |
| App.Application.UpdateFound | nucleo-colectivo-ia-v3-completo/src/App.tsx:177-179 | the update flag is raised in the store |
| App.Application.HandleStartGame | nucleo-colectivo-ia-v3-completo/src/App.tsx:203-211 | the store becomes `Started` of the old state and the game screen is shown |
| App.Application.HandleGameComplete | nucleo-colectivo-ia-v3-completo/src/App.tsx:213-215 | the completion screen is shown |
| App.Application.HandleRestartGame | nucleo-colectivo-ia-v3-completo/src/App.tsx:217-219 | the welcome screen is shown |
| App.Application.Restart | nucleo-colectivo-ia-v3-completo/src/App.tsx:217-219 | with the completion screen sharing the store, its restart resets the store and the welcome screen is shown |
| Basics.GetOr | nucleo-colectivo-ia-v3-completo/src/store/gameStore.ts:405-406 | a field given in the partial update wins, an absent one keeps the old value |
| Basics.Max | nucleo-colectivo-ia-v3-completo/src/store/gameStore.ts:429 | the result is one of the two arguments and at least both |
| Basics.Min | nucleo-colectivo-ia-v3-completo/src/components/modules/Module1Fundamentals.tsx:178-179 | the result is one of the two arguments and at most both |
| Basics.Clamp | nucleo-colectivo-ia-v3-completo/src/components/modules/Module6Ethics.tsx:155 | the result lies in the bounds, equals the value when it is inside and the nearer bound otherwise |
| Basics.Percent | nucleo-colectivo-ia-v3-completo/src/store/gameStore.ts:614-618 | the percentage times the whole is 100 times the part; it lies in 0..100, is 100 iff the part is the whole and 0 iff the part is empty |
| Basics.IndexOf | nucleo-colectivo-ia-v3-completo/src/components/WelcomeScreen.tsx:80-82 | the first position holding the value, or -1 iff it is absent |
| Basics.FindIndexBy | nucleo-colectivo-ia-v3-completo/src/components/modules/Module6Ethics.tsx:147-148 | the first position whose key matches, or -1 iff no element matches |
| Basics.FindBy | nucleo-colectivo-ia-v3-completo/src/components/modules/Module6Ethics.tsx:147-148 | no result iff no element matches; otherwise the element at the first matching position |
| Basics.Count | nucleo-colectivo-ia-v3-completo/src/store/gameStore.ts:431 | the number of occurrences is at most the length and is 0 iff the value is absent |
| Basics.CountAppend | nucleo-colectivo-ia-v3-completo/src/store/gameStore.ts:431-433 | occurrences in a concatenation add up |
| Basics.PushIf | nucleo-colectivo-ia-v3-completo/src/components/modules/Module1Fundamentals.tsx:157-162 | the result is the list with the value appended exactly when the condition holds, so the value is counted once more then and nothing else changes |
| Basics.AddOnce | nucleo-colectivo-ia-v3-completo/src/components/modules/Module3ComputerVision.tsx:79-81 | afterwards the value is held; a held value changes nothing, an absent one is appended once; other values keep their counts |
| Basics.AppendNew | nucleo-colectivo-ia-v3-completo/src/store/gameStore.ts:431 | the old list stays a prefix, the result holds exactly the elements of both lists, and a duplicate-free list stays duplicate-free |
| Basics.Dedup | nucleo-colectivo-ia-v3-completo/src/store/gameStore.ts:431 | the result is duplicate-free and holds exactly the elements of the input |
| Basics.AppendNewConcat | nucleo-colectivo-ia-v3-completo/src/store/gameStore.ts:431 | adding the new elements of a concatenation is adding those of each part in turn |
| Basics.AppendNewDistinct | nucleo-colectivo-ia-v3-completo/src/store/gameStore.ts:431 | when nothing repeats, every element is appended unchanged |
| Basics.DedupUnion | nucleo-colectivo-ia-v3-completo/src/store/gameStore.ts:431 | the set union of a duplicate-free list and extra ids keeps the list as prefix and appends the new ids in order, old entries first |
| Basics.RemoveAll | nucleo-colectivo-ia-v3-completo/src/store/gameStore.ts:530-532 | the value no longer occurs, every other element is kept, the list does not grow and stays duplicate-free |
| Basics.RemoveAbsent | nucleo-colectivo-ia-v3-completo/src/store/gameStore.ts:530-532 | removing an absent value gives the list back |
| Basics.RemoveAllConcat | nucleo-colectivo-ia-v3-completo/src/store/gameStore.ts:530-532 | removal distributes over concatenation |
| Basics.RemoveAllLength | nucleo-colectivo-ia-v3-completo/src/store/gameStore.ts:530-532 | the filtered list is shorter by exactly the occurrences of the removed value |
| Basics.Toggle | nucleo-colectivo-ia-v3-completo/src/components/WelcomeScreen.tsx:112-114 | a present element is removed with all its copies, an absent one is appended, and a duplicate-free list stays duplicate-free |
| Basics.ToggleTwice | nucleo-colectivo-ia-v3-completo/src/components/WelcomeScreen.tsx:109-116 | toggling an absent element twice restores the list |
| Basics.ContainsSlice | nucleo-colectivo-ia-v3-completo/src/components/modules/Module2Conversational.tsx:66-71 | a text containing a keyword contains every slice of it, so `no me gusta` also matches `me gusta` |
| Basics.ContainsMiddle | nucleo-colectivo-ia-v3-completo/src/components/modules/Module4Generative.tsx:219-234 | a prompt spliced into a template is contained in the generated text |
| Basics.AbsentCharNotContained | nucleo-colectivo-ia-v3-completo/src/components/modules/Module2Conversational.tsx:70-71 | a keyword with a character missing from the text does not match |
| Basics.LowerChar | nucleo-colectivo-ia-v3-completo/src/components/modules/Module2Conversational.tsx:69 | ASCII capitals and the Latin-1 capitals other than × move up by 32 to their small letters (Á to á, Ñ to ñ); every other character is unchanged |
| Basics.Lower | nucleo-colectivo-ia-v3-completo/src/components/modules/Module2Conversational.tsx:69 | the lowered text has the same length and every character is lowered on its own |

## Left out

- Persistence: the `persist` middleware writes the state to local storage. The model holds the state as a value, and a reload reads back that same value.
- Library plumbing: `immer` and zustand's `create` are replaced by direct updates of the store's state.
- Rendering: the JSX, animations, styling and progress indicators are not modelled. Buttons that the markup disables become preconditions of the handlers they guard.
- Concurrency: timers are explicit methods called one at a time. Interleavings of timers, renders and stale closures beyond what each handler captures are not modelled.
- Randomness: `Math.random()` values are parameters. These are Module 1's accuracy ticks, Module 4's template pick and Module 5's progress increments.
- Dates and ids: `Date`, `Date.now()` and `crypto.randomUUID()` are parameters, and time is an integer number of milliseconds.
- Canvas drawing: the drawing algorithms of Module 4 and Module 5 are not modelled. Module 4's `toDataURL` image is a parameter.
- Floating-point values: these are voice speed and volume, Module 3's confidences, Module 5's accuracy and loss, and Module 1's training progress. Confidences and percentages are Dafny reals, and JavaScript's binary rounding is not modelled.
- StoreLogic.CompletionPercentage: the percentage is an exact real, not a JavaScript double.
- StoreLogic.EthicalDecisionStats: the average social score is an exact real quotient. The floating-point division is not modelled.
- Basics.LowerChar: covers only the ASCII and Latin-1 capitals, which include all Spanish capitals. Other Unicode case mappings of `toLowerCase` are not modelled.
- Module6Ethics.ToStoreDecision: Module 6 passes its own decision records through an untyped `any` into the store's `EthicalDecision` type. The model maps each one to the store type with an empty reasoning, a neutral impact and a social score of 0. In the source these decisions carry an object as `impact`, so the statistics count them in `total` but under none of positive, negative and neutral, and their social scores are undefined; the model counts each of them as neutral with a social score of 0. Module 6 also builds its records without a `socialScore` (Module6Ethics.tsx lines 160-166), so after a Module 6 completion `getSocialImpactScore` (gameStore.ts line 653) returns NaN in the source, and the completion screen shows it (CompletionScreen.tsx lines 34 and 243). StoreLogic.SocialImpactScore instead adds 0 for each such decision, so its result differs from the source after Module 6. In `getEthicalDecisionStats` the `|| 0` at gameStore.ts line 643 turns the NaN average back into 0; the model's average is the exact mean of those zeros, which is also 0 when every decision comes from Module 6.
- Module1Fundamentals.Fundamentals.Valid: records only that the selected scenario has a positive training time, not that it is one of the listed scenarios.
- Default creations: fields that a creation literal leaves out are set to zero, empty or the creation date.
- App.Application.Initialize: the contents of the project and ethics catalogues are parameters, and the failure points of the `try` block are an explicit outcome. The TensorFlow.js import and the service-worker registration have no effect beyond the store flags they set.
- Sharing: `navigator.share` and the clipboard fallback of the completion screen are browser I/O and are not modelled.
- Collaboration: it keeps only local flags and peer lists, and no network synchronisation happens in the source.
- WelcomeScreen.Welcome.HandleNext: does not check the name, as in the source. The disabled "next" button on the profile step is a condition of the page, not of the handler.
- Other components: the loading screen, the error boundary, the install prompt, the notifications placeholder and the logos are not part of this model.
