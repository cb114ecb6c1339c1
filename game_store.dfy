/** The progress store as the mutable object the application holds
    (`useGameStore` in `src/store/gameStore.ts`): the state it holds, and one
    method per mutator that edits that state in place. Each
    method is proved to produce exactly the state that the corresponding
    function of `StoreLogic` describes, and to keep the store invariant. */
module GameStore {
  import opened Basics
  import opened StoreTypes
  import StoreLogic

  class Store {
    /** The current state. Every mutator works on a draft copy (immer's
        `produce`) and commits it with one assignment, as zustand's `set`
        replaces its state object. */
    var state: GameState

    /** The UUID and the date drawn when the store module was loaded: the
        initial state, and every reset, reuse them. */
    const loadId: string
    const loadedAt: Time

    ghost predicate Valid()
      reads this
    {
      StoreLogic.Inv(state)
    }

    constructor (id: string, at: Time)
      ensures Valid()
      ensures loadId == id && loadedAt == at
      ensures state == InitialState(id, at)
    {
      StoreLogic.InitialInv(id, at);
      loadId, loadedAt := id, at;
      state := InitialState(id, at);
    }

    method UpdateUserProfile(q: ProfilePatch, now: Time)
      requires Valid()
      modifies this
      ensures Valid() && state == StoreLogic.UpdateUserProfile(old(state), q, now)
    {
      var draft := state;
      draft := draft.(profile := StoreLogic.ApplyProfilePatch(draft.profile, q));
      draft := draft.(profile := draft.profile.(lastActive := now));
      state := draft;
    }

    method UpdateAvatar(q: AvatarPatch)
      requires Valid()
      modifies this
      ensures Valid() && state == StoreLogic.UpdateAvatar(old(state), q)
    {
      var draft := state;
      draft := draft.(profile := draft.profile.(avatar := StoreLogic.ApplyAvatarPatch(draft.profile.avatar, q)));
      state := draft;
    }

    method UpdatePreferences(q: PreferencesPatch)
      requires Valid()
      modifies this
      ensures Valid() && state == StoreLogic.UpdatePreferences(old(state), q)
    {
      var draft := state;
      var prefs := StoreLogic.ApplyPreferencesPatch(draft.profile.preferences, q);
      draft := draft.(profile := draft.profile.(preferences := prefs));
      state := draft;
    }

    method StartGame(now: Time)
      requires Valid()
      modifies this
      ensures Valid() && state == StoreLogic.StartGame(old(state), now)
    {
      var draft := state;
      draft := draft.(gameStarted := true);
      draft := draft.(startTime := now);
      state := draft;
    }

    method CompleteModule(moduleId: string, score: int, achievementIds: seq<string>,
                          creations: seq<Creation>, decisions: seq<EthicalDecision>, now: Time)
      requires Valid()
      modifies this
      ensures Valid()
      ensures state == StoreLogic.CompleteModule(old(state), moduleId, score, achievementIds,
                                                 creations, decisions, now)
    {
      StoreLogic.CompleteModuleInv(state, moduleId, score, achievementIds, creations, decisions, now);
      var i := StoreLogic.FindModule(state.modules, moduleId);
      if i == -1 {
        return;
      }
      MarkModuleCompleted(i, score, achievementIds, creations, decisions, now);
    }

    /** The draft edits of `completeModule` once the module was found at
        index `i`. */
    method MarkModuleCompleted(i: int, score: int, achievementIds: seq<string>,
                               creations: seq<Creation>, decisions: seq<EthicalDecision>, now: Time)
      requires 0 <= i < |state.modules|
      modifies this
      ensures state == StoreLogic.CompleteAt(old(state), i, score, achievementIds, creations, decisions, now)
    {
      var draft := state;
      var m := StoreLogic.MarkCompleted(draft.modules[i], score, achievementIds, creations, decisions, now);
      draft := draft.(modules := draft.modules[i := m]);
      var completedModules := StoreLogic.CountCompleted(draft.modules);
      var tokensEarned := StoreLogic.CompletionTokens(score, |achievementIds|, |creations|);
      var p := draft.profile;
      p := p.(totalScore := p.totalScore + score,
              creativityScore := p.creativityScore + 10 * |creations|,
              ethicsScore := p.ethicsScore + 5 * |decisions|,
              level := completedModules / 2 + 1,
              neurotokens := p.neurotokens + tokensEarned);
      draft := draft.(profile := p, gameCompleted := completedModules == |draft.modules|);
      assert draft == StoreLogic.CompleteAt(state, i, score, achievementIds, creations, decisions, now);
      state := draft;
    }

    method SetCurrentModule(index: int, now: Time)
      requires Valid()
      modifies this
      ensures Valid() && state == StoreLogic.SetCurrentModule(old(state), index, now)
    {
      StoreLogic.SetCurrentModuleInv(state, index, now);
      var draft := state;
      draft := draft.(currentModule := index);
      if 0 <= index < |draft.modules| && draft.modules[index].startedAt.None? {
        draft := draft.(modules := draft.modules[index := draft.modules[index].(startedAt := Some(now))]);
      }
      state := draft;
      assert state == StoreLogic.SetCurrentModule(old(state), index, now);
    }

    /** `resetGame`: `newId` is the fresh `crypto.randomUUID()`. */
    method ResetGame(newId: string)
      requires Valid()
      modifies this
      ensures Valid()
      ensures state == StoreLogic.ResetGame(old(state), InitialState(loadId, loadedAt), newId)
    {
      StoreLogic.InitialInv(loadId, loadedAt);
      var init := InitialState(loadId, loadedAt);
      var restored := init.(profile := init.profile.(id := newId, name := state.profile.name));
      // keys the initial state does not list keep their values
      state := restored.(session := state.session, narration := state.narration);
    }

    method AddAchievement(a: Achievement)
      requires Valid()
      modifies this
      ensures Valid() && state == StoreLogic.AddAchievement(old(state), a)
    {
      var draft := state;
      if a.id !in StoreLogic.AchievementIds(draft.achievements) {
        draft := draft.(achievements := draft.achievements + [a]);
        var tokenReward := StoreLogic.RarityReward(a.rarity);
        draft := draft.(profile := draft.profile.(neurotokens := draft.profile.neurotokens + tokenReward));
      }
      state := draft;
    }

    method AddNeurotokens(amount: int)
      requires Valid()
      modifies this
      ensures Valid() && state == StoreLogic.AddNeurotokens(old(state), amount)
    {
      var draft := state;
      draft := draft.(profile := draft.profile.(neurotokens := draft.profile.neurotokens + amount));
      state := draft;
    }

    method SpendNeurotokens(amount: int) returns (ok: bool)
      requires Valid()
      modifies this
      ensures Valid()
      ensures (ok, state) == StoreLogic.SpendNeurotokens(old(state), amount)
    {
      if state.profile.neurotokens >= amount {
        var draft := state;
        draft := draft.(profile := draft.profile.(neurotokens := draft.profile.neurotokens - amount));
        state := draft;
        return true;
      }
      return false;
    }

    method StartCollaboration(session: CollaborationSession)
      requires Valid()
      modifies this
      ensures Valid() && state == StoreLogic.StartCollaboration(old(state), session)
    {
      var draft := state;
      draft := draft.(session := Some(session));
      draft := draft.(isCollaborating := true);
      state := draft;
    }

    method JoinCollaboration(sessionId: string)
      requires Valid()
      modifies this
      ensures Valid() && state == StoreLogic.JoinCollaboration(old(state), sessionId)
    {
      var draft := state;
      draft := draft.(isCollaborating := true);
      state := draft;
    }

    method LeaveCollaboration()
      requires Valid()
      modifies this
      ensures Valid() && state == StoreLogic.LeaveCollaboration(old(state))
    {
      var draft := state;
      draft := draft.(session := None);
      draft := draft.(isCollaborating := false);
      draft := draft.(connectedPeers := []);
      state := draft;
    }

    method UpdateCollaborationState(shared: string)
      requires Valid()
      modifies this
      ensures Valid() && state == StoreLogic.UpdateCollaborationState(old(state), shared)
    {
      var draft := state;
      if draft.session.Some? {
        draft := draft.(session := Some(draft.session.value.(sharedState := shared)));
      }
      state := draft;
    }

    method AddPeer(peer: string)
      requires Valid()
      modifies this
      ensures Valid() && state == StoreLogic.AddPeer(old(state), peer)
    {
      var draft := state;
      if peer !in draft.connectedPeers {
        draft := draft.(connectedPeers := draft.connectedPeers + [peer]);
      }
      state := draft;
    }

    method RemovePeer(peer: string)
      requires Valid()
      modifies this
      ensures Valid() && state == StoreLogic.RemovePeer(old(state), peer)
    {
      var draft := state;
      draft := draft.(connectedPeers := RemoveAll(draft.connectedPeers, peer));
      state := draft;
    }

    method FollowUser(user: string)
      requires Valid()
      modifies this
      ensures Valid() && state == StoreLogic.FollowUser(old(state), user)
    {
      var draft := state;
      if user !in draft.followedUsers {
        draft := draft.(followedUsers := draft.followedUsers + [user]);
      }
      state := draft;
    }

    method UnfollowUser(user: string)
      requires Valid()
      modifies this
      ensures Valid() && state == StoreLogic.UnfollowUser(old(state), user)
    {
      var draft := state;
      draft := draft.(followedUsers := RemoveAll(draft.followedUsers, user));
      state := draft;
    }

    method AddCreation(c: Creation)
      requires Valid()
      modifies this
      ensures Valid() && state == StoreLogic.AddCreation(old(state), c)
    {
      StoreLogic.AddCreationInv(state, c);
      var draft := state;
      var i := draft.currentModule;
      if 0 <= i < |draft.modules| {
        var m := draft.modules[i];
        draft := draft.(modules := draft.modules[i := m.(creations := m.creations + [c])]);
      }
      if c.isPublic {
        draft := draft.(communityCreations := draft.communityCreations + [c]);
      }
      state := draft;
      assert state == StoreLogic.AddCreation(old(state), c);
    }

    method UpdateCreation(id: string, q: CreationPatch)
      requires Valid()
      modifies this
      ensures Valid() && state == StoreLogic.UpdateCreation(old(state), id, q)
    {
      StoreLogic.UpdateCreationInv(state, id, q);
      var draft := state;
      var i := draft.currentModule;
      if 0 <= i < |draft.modules| {
        var m := draft.modules[i];
        m := m.(creations := StoreLogic.PatchFirst(m.creations, id, q));
        draft := draft.(modules := draft.modules[i := m]);
      }
      draft := draft.(communityCreations := StoreLogic.PatchFirst(draft.communityCreations, id, q));
      state := draft;
      assert state == StoreLogic.UpdateCreation(old(state), id, q);
    }

    method LikeCreation(id: string)
      requires Valid()
      modifies this
      ensures Valid() && state == StoreLogic.LikeCreation(old(state), id)
    {
      var draft := state;
      var j := StoreLogic.FindCreation(draft.communityCreations, id);
      if j != -1 {
        var c := draft.communityCreations[j];
        draft := draft.(communityCreations := draft.communityCreations[j := c.(likes := c.likes + 1)]);
      }
      state := draft;
    }

    method StartNarration(text: string)
      requires Valid()
      modifies this
      ensures Valid() && state == StoreLogic.StartNarration(old(state), text)
    {
      var draft := state;
      draft := draft.(narration := Some(text));
      draft := draft.(isNarrating := true);
      state := draft;
    }

    method StopNarration()
      requires Valid()
      modifies this
      ensures Valid() && state == StoreLogic.StopNarration(old(state))
    {
      var draft := state;
      draft := draft.(narration := None);
      draft := draft.(isNarrating := false);
      state := draft;
    }

    method SetBackgroundMusic(track: string)
      requires Valid()
      modifies this
      ensures Valid() && state == StoreLogic.SetBackgroundMusic(old(state), track)
    {
      state := state.(backgroundMusic := track);
    }

    method SetInstalled(installed: bool)
      requires Valid()
      modifies this
      ensures Valid() && state == StoreLogic.SetInstalled(old(state), installed)
    {
      state := state.(isInstalled := installed);
    }

    method SetUpdateAvailable(available: bool)
      requires Valid()
      modifies this
      ensures Valid() && state == StoreLogic.SetUpdateAvailable(old(state), available)
    {
      state := state.(updateAvailable := available);
    }

    method LoadMedellinProjects(projects: seq<MedellinProject>)
      requires Valid()
      modifies this
      ensures Valid() && state == StoreLogic.LoadMedellinProjects(old(state), projects)
    {
      state := state.(medellinProjects := projects);
    }

    method LoadEthicsDatabase(cases: seq<EthicsCase>)
      requires Valid()
      modifies this
      ensures Valid() && state == StoreLogic.LoadEthicsDatabase(old(state), cases)
    {
      state := state.(ethicsDatabase := cases);
    }
  }
}
