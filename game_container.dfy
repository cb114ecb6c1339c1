/** The game screen (`src/components/GameContainer.tsx`): it feeds a
    module's completion report into the store, adds the completion bonus,
    decides between ending the game and advancing to the next module, and
    moves between modules. The two-second and 300 ms timeouts become pending
    timers that the environment fires, one at a time, in any order. */
module GameContainer {
  import opened Basics
  import opened StoreTypes
  import StoreLogic
  import opened GameStore

  /** The number of entries of the screen's own module table. */
  const ModuleCount: int := 6

  /** The bonus `handleModuleComplete` credits after every completion. */
  const CompletionBonus: int := 100

  /** A scheduled continuation. `seen` is the current module of the render
      whose `handleModuleChange` the timeout captured. */
  datatype Timer =
    | FinishGame                          // `onComplete()` after 2 s
    | AutoAdvance(next: int, seen: int)   // `handleModuleChange(currentModule + 1)` after 2 s
    | TransitionDone(index: int)          // the rest of `handleModuleChange` after 300 ms

  /** The end-of-game test, taken on the module list of the render that
      handled the completion, i.e. before the completion was applied. */
  predicate EndsGame(snapshot: seq<ModuleProgress>) {
    StoreLogic.CountCompleted(snapshot) == |snapshot| - 1
  }

  /** The timeout `handleModuleComplete` schedules on the state `s` it
      saw: none when the current module record is missing, the end of the
      game when the snapshot lacks only one completion, else the advance. */
  function Scheduled(s: GameState): (ts: seq<Timer>)
    ensures !(0 <= s.currentModule < |s.modules|) <==> ts == []
    ensures 0 <= s.currentModule < |s.modules| ==>
              (ts == [FinishGame] <==> EndsGame(s.modules))
              && (!EndsGame(s.modules) ==> ts == [AutoAdvance(s.currentModule + 1, s.currentModule)])
  {
    if !(0 <= s.currentModule < |s.modules|) then []
    else if EndsGame(s.modules) then [FinishGame]
    else [AutoAdvance(s.currentModule + 1, s.currentModule)]
  }

  /** The store state after `handleModuleComplete`: nothing when the current
      module record is missing, otherwise the completion followed by the
      bonus. */
  function AfterCompletion(s: GameState, r: CompletionReport, now: Time): (t: GameState)
    ensures !(0 <= s.currentModule < |s.modules|) ==> t == s
  {
    var i := s.currentModule;
    if !(0 <= i < |s.modules|) then s
    else
      var c := StoreLogic.CompleteModule(s, s.modules[i].id, r.score, r.achievements,
                                         r.creations, r.decisions, now);
      StoreLogic.AddNeurotokens(c, CompletionBonus)
  }

  /** A completion handled on a valid state marks the current module
      completed with the better of the two scores, adds the full score to the
      profile, credits the store's token formula plus the bonus, keeps the
      completion flag in step and keeps the invariant. */
  lemma AfterCompletionEffects(s: GameState, r: CompletionReport, now: Time)
    requires StoreLogic.Inv(s) && 0 <= s.currentModule < |s.modules|
    ensures var t := AfterCompletion(s, r, now);
            var i := s.currentModule;
            |t.modules| == |s.modules|
            && t.modules[i].completed
            && t.modules[i].score == Max(s.modules[i].score, r.score)
            && t.profile.totalScore == s.profile.totalScore + r.score
            && t.profile.neurotokens
               == s.profile.neurotokens
                  + StoreLogic.CompletionTokens(r.score, |r.achievements|, |r.creations|)
                  + CompletionBonus
            && (t.gameCompleted <==> StoreLogic.AllCompleted(t.modules))
            && StoreLogic.Inv(t)
  {
    var i := s.currentModule;
    StoreLogic.FindOwnModule(s.modules, i);
    StoreLogic.CompleteModuleInv(s, s.modules[i].id, r.score, r.achievements,
                                 r.creations, r.decisions, now);
  }

  /** When the completed module was still open, the stale test is exact:
      the game ends iff every module is completed afterwards. */
  lemma EndsGameOnLastOpenModule(s: GameState, r: CompletionReport, now: Time)
    requires StoreLogic.Inv(s) && 0 <= s.currentModule < |s.modules|
    requires !s.modules[s.currentModule].completed
    ensures EndsGame(s.modules) <==> AfterCompletion(s, r, now).gameCompleted
  {
    var i := s.currentModule;
    StoreLogic.FindOwnModule(s.modules, i);
    var m := StoreLogic.MarkCompleted(s.modules[i], r.score, r.achievements, r.creations,
                                      r.decisions, now);
    StoreLogic.CountCompletedSet(s.modules, i, m);
  }

  /** Re-completing a module when five are already done ends the game
      although the sixth module is still open. */
  lemma StaleSnapshotEndsEarly(s: GameState, r: CompletionReport, now: Time)
    requires StoreLogic.Inv(s) && 0 <= s.currentModule < |s.modules|
    requires s.modules[s.currentModule].completed
    requires StoreLogic.CountCompleted(s.modules) == |s.modules| - 1
    ensures EndsGame(s.modules)
    ensures !AfterCompletion(s, r, now).gameCompleted
  {
    var i := s.currentModule;
    StoreLogic.FindOwnModule(s.modules, i);
    var m := StoreLogic.MarkCompleted(s.modules[i], r.score, r.achievements, r.creations,
                                      r.decisions, now);
    StoreLogic.CountCompletedSet(s.modules, i, m);
  }

  class Container {
    const store: Store
    var showModuleMenu: bool
    var isTransitioning: bool
    /** The timeouts scheduled and not yet fired. */
    var pending: seq<Timer>
    /** How many times `onComplete` has been called. */
    var finishCalls: nat

    ghost predicate Valid()
      reads store
    {
      store.Valid()
    }

    constructor (s: Store)
      requires s.Valid()
      ensures Valid() && store == s
      ensures !showModuleMenu && !isTransitioning && pending == [] && finishCalls == 0
    {
      store := s;
      showModuleMenu, isTransitioning := false, false;
      pending, finishCalls := [], 0;
    }

    /** `handleModuleComplete(score, achievements, creations, decisions)`. */
    method HandleModuleComplete(r: CompletionReport, now: Time)
      requires Valid()
      modifies this, store
      ensures Valid()
      ensures store.state == AfterCompletion(old(store.state), r, now)
      ensures pending == old(pending) + Scheduled(old(store.state))
      ensures unchanged(this`showModuleMenu, this`isTransitioning, this`finishCalls)
    {
      // the values of the render that created this handler
      var cur := store.state.currentModule;
      var moduleProgress := store.state.modules;
      if !(0 <= cur < |moduleProgress|) {
        return;
      }
      assert this as object != store as object;
      CreditCompletion(moduleProgress[cur], r, now);
      var completedCount := StoreLogic.CountCompleted(moduleProgress);
      if completedCount == |moduleProgress| - 1 {
        pending := pending + [FinishGame];
      } else {
        pending := pending + [AutoAdvance(cur + 1, cur)];
      }
    }

    /** `completeModule(currentModuleData.id, ...)` followed by
        `addNeurotokens(100, ...)`. */
    method CreditCompletion(data: ModuleProgress, r: CompletionReport, now: Time)
      requires Valid()
      requires 0 <= store.state.currentModule < |store.state.modules|
      requires data == store.state.modules[store.state.currentModule]
      modifies store
      ensures Valid()
      ensures store.state == AfterCompletion(old(store.state), r, now)
    {
      store.CompleteModule(data.id, r.score, r.achievements, r.creations, r.decisions, now);
      store.AddNeurotokens(CompletionBonus);
    }

    /** `handleModuleChange(moduleIndex)` as created by the render whose
        current module was `seen`: nothing when the index is that module,
        otherwise the transition starts and its end is scheduled. */
    method HandleModuleChange(moduleIndex: int, seen: int)
      requires Valid()
      modifies this
      ensures Valid()
      ensures moduleIndex == seen ==>
                pending == old(pending) && isTransitioning == old(isTransitioning)
      ensures moduleIndex != seen ==>
                pending == old(pending) + [TransitionDone(moduleIndex)] && isTransitioning
      ensures showModuleMenu == old(showModuleMenu) && finishCalls == old(finishCalls)
    {
      if moduleIndex == seen {
        return;
      }
      isTransitioning := true;
      pending := pending + [TransitionDone(moduleIndex)];
    }

    /** A click in the module menu, which is always unlocked. */
    method SelectModule(moduleIndex: int)
      requires Valid()
      modifies this
      ensures Valid()
      ensures moduleIndex == store.state.currentModule ==>
                pending == old(pending) && isTransitioning == old(isTransitioning)
      ensures moduleIndex != store.state.currentModule ==>
                pending == old(pending) + [TransitionDone(moduleIndex)] && isTransitioning
      ensures showModuleMenu == old(showModuleMenu) && finishCalls == old(finishCalls)
    {
      HandleModuleChange(moduleIndex, store.state.currentModule);
    }

    method ToggleModuleMenu()
      requires Valid()
      modifies this
      ensures Valid()
      ensures showModuleMenu == !old(showModuleMenu)
      ensures isTransitioning == old(isTransitioning) && pending == old(pending)
      ensures finishCalls == old(finishCalls)
    {
      showModuleMenu := !showModuleMenu;
    }

    /** The `k`-th pending timeout fires at time `now`. */
    method Fire(k: int, now: Time)
      requires Valid() && 0 <= k < |pending|
      modifies this, store
      ensures Valid()
      ensures var t := old(pending[k]);
              var rest := old(pending[..k] + pending[k + 1..]);
              match t
              case FinishGame =>
                finishCalls == old(finishCalls) + 1 && pending == rest
                && store.state == old(store.state)
                && showModuleMenu == old(showModuleMenu) && isTransitioning == old(isTransitioning)
              case AutoAdvance(next, seen) =>
                finishCalls == old(finishCalls) && store.state == old(store.state)
                && showModuleMenu == old(showModuleMenu)
                && (next < ModuleCount && next != seen ==>
                      pending == rest + [TransitionDone(next)] && isTransitioning)
                && (!(next < ModuleCount && next != seen) ==>
                      pending == rest && isTransitioning == old(isTransitioning))
              case TransitionDone(index) =>
                finishCalls == old(finishCalls) && pending == rest
                && store.state == StoreLogic.SetCurrentModule(old(store.state), index, now)
                && !showModuleMenu && !isTransitioning
    {
      var t := pending[k];
      pending := pending[..k] + pending[k + 1..];
      match t
      case FinishGame =>
        finishCalls := finishCalls + 1;
      case AutoAdvance(next, seen) =>
        if next < ModuleCount {
          HandleModuleChange(next, seen);
        }
      case TransitionDone(index) =>
        store.SetCurrentModule(index, now);
        showModuleMenu := false;
        isTransitioning := false;
    }
  }
}
