/** The progress store's transitions and queries (`src/store/gameStore.ts`),
    each as a function from the old state to the new one. The in-place store
    in `GameStore` is proved to follow these functions; the properties of the
    store are stated and proved here. */
module StoreLogic {
  import opened Basics
  import opened StoreTypes

  // ---------------------------------------------------------------------
  // Module list helpers

  function IdsOf(ms: seq<ModuleProgress>): (r: seq<string>)
    ensures |r| == |ms|
    ensures forall k :: 0 <= k < |ms| ==> r[k] == ms[k].id
  {
    seq(|ms|, k requires 0 <= k < |ms| => ms[k].id)
  }

  /** `moduleProgress.findIndex(m => m.id === moduleId)` */
  function FindModule(ms: seq<ModuleProgress>, id: string): (r: int)
    ensures -1 <= r < |ms|
    ensures r == -1 <==> forall k :: 0 <= k < |ms| ==> ms[k].id != id
    ensures 0 <= r ==> ms[r].id == id && forall k :: 0 <= k < r ==> ms[k].id != id
  {
    var ids := IdsOf(ms);
    var r := IndexOf(ids, id);
    assert 0 <= r ==> forall k :: 0 <= k < r ==> ids[..r][k] == ids[k];
    assert r == -1 ==> forall k :: 0 <= k < |ms| ==> ids[k] != id;
    r
  }

  predicate AllCompleted(ms: seq<ModuleProgress>) {
    forall k :: 0 <= k < |ms| ==> ms[k].completed
  }

  /** `moduleProgress.filter(m => m.completed).length` */
  function CountCompleted(ms: seq<ModuleProgress>): (n: nat)
    ensures n <= |ms|
    ensures n == |ms| <==> AllCompleted(ms)
    ensures n == 0 <==> forall k :: 0 <= k < |ms| ==> !ms[k].completed
  {
    if ms == [] then 0
    else
      var rest := CountCompleted(ms[1..]);
      assert forall k :: 1 <= k < |ms| ==> ms[1..][k - 1] == ms[k];
      (if ms[0].completed then 1 else 0) + rest
  }

  /** Replacing one module by a completed one raises the count by one exactly
      when that module was not completed before. */
  lemma {:induction false} CountCompletedSet(ms: seq<ModuleProgress>, i: int, m: ModuleProgress)
    requires 0 <= i < |ms| && m.completed
    ensures CountCompleted(ms[i := m]) == CountCompleted(ms) + (if ms[i].completed then 0 else 1)
  {
    if i == 0 {
      assert ms[i := m][1..] == ms[1..];
    } else {
      assert ms[i := m][1..] == ms[1..][i - 1 := m];
      CountCompletedSet(ms[1..], i - 1, m);
    }
  }

  // ---------------------------------------------------------------------
  // Invariant

  function AchievementIds(a: seq<Achievement>): (r: seq<string>)
    ensures |r| == |a|
    ensures forall k :: 0 <= k < |a| ==> r[k] == a[k].id
  {
    seq(|a|, k requires 0 <= k < |a| => a[k].id)
  }

  /** The six fixed modules in order, with duplicate-free achievement ids
      and non-negative scores. */
  ghost predicate ModulesInv(ms: seq<ModuleProgress>) {
    IdsOf(ms) == ModuleIds
    && forall k :: 0 <= k < |ms| ==> NoDup(ms[k].achievements) && ms[k].score >= 0
  }

  /** Replacing one module by a record with the same id, duplicate-free
      achievements and a non-negative score keeps the module invariant. */
  lemma ModulesInvUpdate(ms: seq<ModuleProgress>, i: int, m: ModuleProgress)
    requires ModulesInv(ms) && 0 <= i < |ms|
    requires m.id == ms[i].id && NoDup(m.achievements) && m.score >= 0
    ensures ModulesInv(ms[i := m])
  {
    assert IdsOf(ms[i := m]) == IdsOf(ms);
  }

  /** A state `t` that agrees with `s` on everything the invariant reads,
      except that one module was edited keeping its id, achievements,
      score and completion flag, keeps the store invariant. */
  lemma ModuleEditInv(s: GameState, i: int, m: ModuleProgress, t: GameState)
    requires 0 <= i < |s.modules|
    requires m.id == s.modules[i].id && m.achievements == s.modules[i].achievements
    requires m.score == s.modules[i].score && m.completed == s.modules[i].completed
    requires t.modules == s.modules[i := m] && t.gameCompleted == s.gameCompleted
    requires t.achievements == s.achievements && t.connectedPeers == s.connectedPeers
    requires t.followedUsers == s.followedUsers
    ensures Inv(s) ==> Inv(t)
  {
    if Inv(s) {
      ModulesInvUpdate(s.modules, i, m);
      assert AllCompleted(s.modules[i := m]) == AllCompleted(s.modules);
    }
  }

  /** A state that agrees with `s` on everything the invariant reads keeps
      the store invariant. */
  lemma SameInvFields(s: GameState, t: GameState)
    requires t.modules == s.modules && t.gameCompleted == s.gameCompleted
    requires t.achievements == s.achievements && t.connectedPeers == s.connectedPeers
    requires t.followedUsers == s.followedUsers
    ensures Inv(s) ==> Inv(t)
  {
  }

  /** Under the invariant the module ids are distinct, so looking up a
      module's own id finds that module. */
  lemma FindOwnModule(ms: seq<ModuleProgress>, i: int)
    requires ModulesInv(ms) && 0 <= i < |ms|
    ensures FindModule(ms, ms[i].id) == i
  {
    var j := FindModule(ms, ms[i].id);
    assert IdsOf(ms)[i] == ModuleIds[i] && IdsOf(ms)[j] == ModuleIds[j];
  }

  /** What every reachable store state satisfies: the six fixed modules in
      order, duplicate-free module achievements, non-negative module scores,
      the completion flag in step with the modules, unique global
      achievements and duplicate-free peer and follow lists. */
  ghost predicate Inv(s: GameState) {
    ModulesInv(s.modules)
    && (s.gameCompleted <==> AllCompleted(s.modules))
    && NoDup(AchievementIds(s.achievements))
    && NoDup(s.connectedPeers)
    && NoDup(s.followedUsers)
  }

  /** The six initial modules: the fixed ids, nothing completed, no score,
      no achievements and no start date. */
  lemma InitialModulesFacts()
    ensures |InitialModules| == 6 && IdsOf(InitialModules) == ModuleIds
    ensures forall k :: 0 <= k < 6 ==>
              var m := InitialModules[k];
              !m.completed && m.score == 0 && m.achievements == [] && m.startedAt.None?
    ensures CountCompleted(InitialModules) == 0 && !AllCompleted(InitialModules)
  {
    assert IdsOf(InitialModules) == ModuleIds;
    assert !InitialModules[0].completed;
  }

  /** Any state holding the six initial modules, no achievements, no peers,
      no follows and the flag down satisfies the invariant. */
  lemma FreshInv(s: GameState)
    requires s.modules == InitialModules && !s.gameCompleted
    requires s.achievements == [] && s.connectedPeers == [] && s.followedUsers == []
    ensures Inv(s) && CountCompleted(s.modules) == 0
  {
    InitialModulesFacts();
    EmptyModulesInv(s.modules);
  }

  /** The fixed modules with no achievements and no score satisfy the
      module invariant. */
  lemma EmptyModulesInv(ms: seq<ModuleProgress>)
    requires IdsOf(ms) == ModuleIds && |ms| == 6
    requires forall k :: 0 <= k < 6 ==> ms[k].achievements == [] && ms[k].score == 0
    ensures ModulesInv(ms)
  {
    forall k | 0 <= k < |ms|
      ensures NoDup(ms[k].achievements) && ms[k].score >= 0
    {
      assert ms[k].achievements == [];
    }
  }

  lemma InitialInv(id: string, loadedAt: Time)
    ensures Inv(InitialState(id, loadedAt))
    ensures CountCompleted(InitialState(id, loadedAt).modules) == 0
  {
    FreshInv(InitialState(id, loadedAt));
  }

  // ---------------------------------------------------------------------
  // Profile, avatar and preference merges

  /** `Object.assign(profile, patch)` */
  function ApplyProfilePatch(p: UserProfile, q: ProfilePatch): UserProfile {
    UserProfile(GetOr(q.id, p.id), GetOr(q.name, p.name), GetOr(q.avatar, p.avatar),
                GetOr(q.level, p.level), GetOr(q.neurotokens, p.neurotokens),
                GetOr(q.totalScore, p.totalScore), GetOr(q.collaborationScore, p.collaborationScore),
                GetOr(q.creativityScore, p.creativityScore), GetOr(q.ethicsScore, p.ethicsScore),
                GetOr(q.socialImpactPoints, p.socialImpactPoints), GetOr(q.joinedAt, p.joinedAt),
                GetOr(q.lastActive, p.lastActive), GetOr(q.preferences, p.preferences))
  }

  /** `Object.assign(avatar, patch)` */
  function ApplyAvatarPatch(a: Avatar, q: AvatarPatch): Avatar {
    Avatar(GetOr(q.skin, a.skin), GetOr(q.hair, a.hair), GetOr(q.eyes, a.eyes),
           GetOr(q.clothing, a.clothing), GetOr(q.accessories, a.accessories),
           GetOr(q.culturalElements, a.culturalElements),
           GetOr(q.accessibilityFeatures, a.accessibilityFeatures),
           GetOr(q.expressions, a.expressions))
  }

  /** `Object.assign(preferences, patch)` */
  function ApplyPreferencesPatch(p: Preferences, q: PreferencesPatch): Preferences {
    Preferences(GetOr(q.audioEnabled, p.audioEnabled), GetOr(q.audioVolume, p.audioVolume),
                GetOr(q.narrationEnabled, p.narrationEnabled),
                GetOr(q.narrationLanguage, p.narrationLanguage), GetOr(q.voiceSpeed, p.voiceSpeed),
                GetOr(q.accessibilityMode, p.accessibilityMode),
                GetOr(q.highContrastMode, p.highContrastMode), GetOr(q.reducedMotion, p.reducedMotion),
                GetOr(q.subtitlesEnabled, p.subtitlesEnabled),
                GetOr(q.collaborationMode, p.collaborationMode))
  }

  /** `Object.assign(creation, patch)` */
  function ApplyCreationPatch(c: Creation, q: CreationPatch): Creation {
    Creation(GetOr(q.id, c.id), GetOr(q.kind, c.kind), GetOr(q.title, c.title),
             GetOr(q.description, c.description), GetOr(q.data, c.data),
             GetOr(q.thumbnail, c.thumbnail), GetOr(q.likes, c.likes), GetOr(q.remixes, c.remixes),
             GetOr(q.tags, c.tags), GetOr(q.isPublic, c.isPublic),
             GetOr(q.collaborators, c.collaborators), GetOr(q.createdAt, c.createdAt),
             GetOr(q.updatedAt, c.updatedAt))
  }

  /** A merge is idempotent, and a patch naming a field sets exactly that
      field to the given value. */
  lemma ProfilePatchLaws(p: UserProfile, q: ProfilePatch)
    ensures ApplyProfilePatch(ApplyProfilePatch(p, q), q) == ApplyProfilePatch(p, q)
    ensures q == ProfilePatch(None, None, None, None, None, None, None, None, None, None, None, None, None)
            ==> ApplyProfilePatch(p, q) == p
    ensures q.name.Some? ==> ApplyProfilePatch(p, q).name == q.name.value
    ensures q.name.None? ==> ApplyProfilePatch(p, q).name == p.name
  {
  }

  lemma AvatarPatchLaws(a: Avatar, q: AvatarPatch)
    ensures ApplyAvatarPatch(ApplyAvatarPatch(a, q), q) == ApplyAvatarPatch(a, q)
    ensures q == AvatarPatch(None, None, None, None, None, None, None, None) ==> ApplyAvatarPatch(a, q) == a
  {
  }

  lemma PreferencesPatchLaws(p: Preferences, q: PreferencesPatch)
    ensures ApplyPreferencesPatch(ApplyPreferencesPatch(p, q), q) == ApplyPreferencesPatch(p, q)
    ensures q == PreferencesPatch(None, None, None, None, None, None, None, None, None, None)
            ==> ApplyPreferencesPatch(p, q) == p
  {
  }

  /** `updateUserProfile`: merge, then refresh `lastActive`. */
  function UpdateUserProfile(s: GameState, q: ProfilePatch, now: Time): (r: GameState)
    ensures r.profile.lastActive == now
    ensures r.profile.name == GetOr(q.name, s.profile.name)
    ensures r.profile.avatar == GetOr(q.avatar, s.profile.avatar)
    ensures r.profile.preferences == GetOr(q.preferences, s.profile.preferences)
    ensures r.profile.id == GetOr(q.id, s.profile.id)
    ensures r.profile.level == GetOr(q.level, s.profile.level)
    ensures r.profile.neurotokens == GetOr(q.neurotokens, s.profile.neurotokens)
    ensures r.profile.totalScore == GetOr(q.totalScore, s.profile.totalScore)
    ensures r.profile.collaborationScore == GetOr(q.collaborationScore, s.profile.collaborationScore)
    ensures r.profile.creativityScore == GetOr(q.creativityScore, s.profile.creativityScore)
    ensures r.profile.ethicsScore == GetOr(q.ethicsScore, s.profile.ethicsScore)
    ensures r.profile.socialImpactPoints == GetOr(q.socialImpactPoints, s.profile.socialImpactPoints)
    ensures r.profile.joinedAt == GetOr(q.joinedAt, s.profile.joinedAt)
    ensures r == s.(profile := r.profile)
    ensures Inv(s) ==> Inv(r)
  {
    s.(profile := ApplyProfilePatch(s.profile, q).(lastActive := now))
  }

  function UpdateAvatar(s: GameState, q: AvatarPatch): (r: GameState)
    ensures r.profile == s.profile.(avatar := ApplyAvatarPatch(s.profile.avatar, q))
    ensures r == s.(profile := r.profile)
    ensures Inv(s) ==> Inv(r)
  {
    s.(profile := s.profile.(avatar := ApplyAvatarPatch(s.profile.avatar, q)))
  }

  function UpdatePreferences(s: GameState, q: PreferencesPatch): (r: GameState)
    ensures r.profile == s.profile.(preferences := ApplyPreferencesPatch(s.profile.preferences, q))
    ensures r == s.(profile := r.profile)
    ensures Inv(s) ==> Inv(r)
  {
    s.(profile := s.profile.(preferences := ApplyPreferencesPatch(s.profile.preferences, q)))
  }

  /** `startGame`: no guard, a second call restarts the clock. */
  function StartGame(s: GameState, now: Time): (r: GameState)
    ensures r.gameStarted && r.startTime == now
    ensures r == s.(gameStarted := true, startTime := now)
    ensures Inv(s) ==> Inv(r)
  {
    s.(gameStarted := true, startTime := now)
  }

  // ---------------------------------------------------------------------
  // Module completion

  /** Neurotokens credited by one completion: `floor(score / 10)` plus 50 per
      achievement id passed and 25 per creation passed. */
  function CompletionTokens(score: int, achievementsPassed: nat, creationsPassed: nat): (t: int)
    ensures var base := t - 50 * achievementsPassed - 25 * creationsPassed;
            10 * base <= score < 10 * base + 10
  {
    score / 10 + 50 * achievementsPassed + 25 * creationsPassed
  }

  /** The in-place edits `completeModule` makes to the matched module. */
  function MarkCompleted(m: ModuleProgress, score: int, achievements: seq<string>,
                         creations: seq<Creation>, decisions: seq<EthicalDecision>, now: Time): (m': ModuleProgress)
    // completed, best score kept (no cap at maxScore)
    ensures m'.completed && m'.completedAt == Some(now)
    ensures m'.score == Max(m.score, score)
    // duplicate-free union of achievement ids, old entries first
    ensures NoDup(m'.achievements)
    ensures forall a :: a in m'.achievements <==> a in m.achievements || a in achievements
    ensures NoDup(m.achievements) ==> m'.achievements == AppendNew(m.achievements, achievements)
    // creations and decisions appended in order
    ensures m'.creations == m.creations + creations
    ensures m'.decisions == m.decisions + decisions
    // nothing else changes
    ensures m' == m.(completed := true, score := m'.score, completedAt := Some(now),
                     achievements := m'.achievements, creations := m'.creations, decisions := m'.decisions)
  {
    var m' := m.(completed := true, score := Max(m.score, score), completedAt := Some(now),
                 achievements := Dedup(m.achievements + achievements),
                 creations := m.creations + creations, decisions := m.decisions + decisions);
    assert NoDup(m.achievements) ==> m'.achievements == AppendNew(m.achievements, achievements) by {
      if NoDup(m.achievements) { DedupUnion(m.achievements, achievements); }
    }
    m'
  }

  /** `completeModule(moduleId, score, achievements, creations, decisions)` */
  function CompleteModule(s: GameState, moduleId: string, score: int, achievements: seq<string>,
                          creations: seq<Creation>, decisions: seq<EthicalDecision>, now: Time): (r: GameState)
    // an unknown module id changes nothing
    ensures FindModule(s.modules, moduleId) == -1 ==> r == s
    // the matched module is marked completed, the others are untouched
    ensures var i := FindModule(s.modules, moduleId);
            0 <= i ==> r.modules == s.modules[i := MarkCompleted(s.modules[i], score, achievements,
                                                                 creations, decisions, now)]
    // profile: the full score is added even for a lower repeat
    ensures 0 <= FindModule(s.modules, moduleId) ==>
              r.profile.totalScore == s.profile.totalScore + score
              && r.profile.creativityScore == s.profile.creativityScore + 10 * |creations|
              && r.profile.ethicsScore == s.profile.ethicsScore + 5 * |decisions|
              && r.profile.neurotokens
                 == s.profile.neurotokens + CompletionTokens(score, |achievements|, |creations|)
              && r.profile.level == CountCompleted(r.modules) / 2 + 1
    ensures 0 <= FindModule(s.modules, moduleId) ==>
              r.profile == s.profile.(totalScore := r.profile.totalScore,
                                      creativityScore := r.profile.creativityScore,
                                      ethicsScore := r.profile.ethicsScore,
                                      neurotokens := r.profile.neurotokens,
                                      level := r.profile.level)
    // the game is completed iff every module now is
    ensures 0 <= FindModule(s.modules, moduleId) ==> (r.gameCompleted <==> AllCompleted(r.modules))
    ensures r == s.(modules := r.modules, profile := r.profile, gameCompleted := r.gameCompleted)
  {
    var i := FindModule(s.modules, moduleId);
    if i == -1 then s else CompleteAt(s, i, score, achievements, creations, decisions, now)
  }

  /** The edits `completeModule` makes once the module was found at index
      `i`. */
  function CompleteAt(s: GameState, i: int, score: int, achievements: seq<string>,
                      creations: seq<Creation>, decisions: seq<EthicalDecision>, now: Time): GameState
    requires 0 <= i < |s.modules|
  {
    var ms := s.modules[i := MarkCompleted(s.modules[i], score, achievements, creations, decisions, now)];
    var done := CountCompleted(ms);
    var p := s.profile;
    s.(modules := ms,
       profile := p.(totalScore := p.totalScore + score,
                     creativityScore := p.creativityScore + 10 * |creations|,
                     ethicsScore := p.ethicsScore + 5 * |decisions|,
                     level := done / 2 + 1,
                     neurotokens := p.neurotokens + CompletionTokens(score, |achievements|, |creations|)),
       gameCompleted := done == |ms|)
  }

  lemma CompleteModuleInv(s: GameState, moduleId: string, score: int, achievements: seq<string>,
                          creations: seq<Creation>, decisions: seq<EthicalDecision>, now: Time)
    requires Inv(s)
    ensures Inv(CompleteModule(s, moduleId, score, achievements, creations, decisions, now))
  {
    var i := FindModule(s.modules, moduleId);
    if i >= 0 {
      ModulesInvUpdate(s.modules, i, MarkCompleted(s.modules[i], score, achievements, creations, decisions, now));
    }
  }

  /** Completing the same module repeatedly keeps its best score: 50, then
      30, then 80 leaves 50 after the second call and 80 after the third. */
  lemma MonotonicModuleScore(s: GameState, id: string, a: int, b: int, t1: Time, t2: Time)
    requires FindModule(s.modules, id) >= 0
    ensures var i := FindModule(s.modules, id);
            var s1 := CompleteModule(s, id, a, [], [], [], t1);
            var s2 := CompleteModule(s1, id, b, [], [], [], t2);
            FindModule(s1.modules, id) == i
            && s2.modules[i].score == Max(Max(s.modules[i].score, a), b)
            && s2.profile.totalScore == s.profile.totalScore + a + b
  {
    var i := FindModule(s.modules, id);
    var s1 := CompleteModule(s, id, a, [], [], [], t1);
    assert IdsOf(s1.modules) == IdsOf(s.modules);
    assert FindModule(s1.modules, id) == i;
  }

  /** The first completion of `fundamentals` with score 220 and one
      achievement id, from any state that looks like a fresh store. */
  lemma FirstCompletion(s0: GameState, now: Time)
    requires Inv(s0) && CountCompleted(s0.modules) == 0
    requires s0.profile.neurotokens == 100 && s0.profile.totalScore == 0
    requires s0.modules[0].achievements == [] && s0.modules[0].score == 0
    ensures var s := CompleteModule(s0, "fundamentals", 220, ["high-accuracy-trainer"], [], [], now);
            s.modules[0].completed && s.modules[0].score == 220
            && s.modules[0].achievements == ["high-accuracy-trainer"]
            && s.profile.totalScore == 220
            && s.profile.neurotokens == 172
            && s.profile.level == 1
            && !s.gameCompleted
            && CompletionPercentage(s) == 100.0 / 6.0
  {
    assert FindModule(s0.modules, "fundamentals") == 0 by {
      assert IdsOf(s0.modules)[0] == "fundamentals";
    }
    var m := MarkCompleted(s0.modules[0], 220, ["high-accuracy-trainer"], [], [], now);
    assert m.achievements == ["high-accuracy-trainer"] by {
      assert AppendNew([], ["high-accuracy-trainer"]) == AppendNew(["high-accuracy-trainer"], []);
    }
    var s := CompleteModule(s0, "fundamentals", 220, ["high-accuracy-trainer"], [], [], now);
    assert s.modules == s0.modules[0 := m];
    assert CountCompleted(s.modules) == 1 by {
      CountCompletedSet(s0.modules, 0, m);
    }
    assert s.profile.neurotokens == 172 by {
      assert CompletionTokens(220, 1, 0) == 72;
    }
    assert |s.modules| == 6;
  }

  /** The end-to-end scenario on the store's initial state. */
  lemma FirstCompletionScenario(id: string, loadedAt: Time, now: Time)
    ensures var s := CompleteModule(InitialState(id, loadedAt), "fundamentals", 220,
                                    ["high-accuracy-trainer"], [], [], now);
            s.modules[0].completed && s.modules[0].score == 220
            && s.modules[0].achievements == ["high-accuracy-trainer"]
            && s.profile.totalScore == 220
            && s.profile.neurotokens == 172
            && !s.gameCompleted
            && CompletionPercentage(s) == 100.0 / 6.0
  {
    InitialInv(id, loadedAt);
    FirstCompletion(InitialState(id, loadedAt), now);
  }

  /** `setCurrentModule(index)`: always moves the pointer; stamps `startedAt`
      only on the first visit of an existing module. */
  function SetCurrentModule(s: GameState, index: int, now: Time): (r: GameState)
    ensures r.currentModule == index
    ensures |r.modules| == |s.modules|
    ensures forall k :: 0 <= k < |s.modules| && k != index ==> r.modules[k] == s.modules[k]
    ensures 0 <= index < |s.modules| ==>
              r.modules[index].startedAt == (if s.modules[index].startedAt.None? then Some(now)
                                             else s.modules[index].startedAt)
              && r.modules[index] == s.modules[index].(startedAt := r.modules[index].startedAt)
    ensures !(0 <= index < |s.modules|) ==> r.modules == s.modules
    ensures r == s.(currentModule := index, modules := r.modules)
  {
    if 0 <= index < |s.modules| && s.modules[index].startedAt.None? then
      s.(currentModule := index, modules := s.modules[index := s.modules[index].(startedAt := Some(now))])
    else
      s.(currentModule := index)
  }

  /** Selecting a module keeps the store invariant: at most its start date
      changes. */
  lemma SetCurrentModuleInv(s: GameState, index: int, now: Time)
    requires Inv(s)
    ensures Inv(SetCurrentModule(s, index, now))
  {
    var r := SetCurrentModule(s, index, now);
    if 0 <= index < |s.modules| {
      ModuleEditInv(s, index, r.modules[index], r);
    } else {
      SameInvFields(s, r);
    }
  }

  /** `resetGame()`: the returned object is merged into the state, so every
      key of the initial state is restored, except that the profile keeps
      its name and takes a fresh id; the session and the narration, which the
      initial state does not list, survive. */
  function ResetGame(s: GameState, init: GameState, newId: string): (r: GameState)
    ensures r.profile == init.profile.(id := newId, name := s.profile.name)
    ensures r.session == s.session && r.narration == s.narration
    ensures r == init.(profile := r.profile, session := r.session, narration := r.narration)
    ensures Inv(init) ==> Inv(r)
  {
    init.(profile := init.profile.(id := newId, name := s.profile.name),
          session := s.session, narration := s.narration)
  }

  /** After a reset to the load-time initial state, the name is kept, the id
      is the fresh one, and every module is back to not completed with score 0. */
  lemma ResetClearsProgress(s: GameState, id0: string, loadedAt: Time, newId: string)
    ensures var r := ResetGame(s, InitialState(id0, loadedAt), newId);
            r.profile.name == s.profile.name && r.profile.id == newId
            && |r.modules| == 6
            && (forall k :: 0 <= k < 6 ==> !r.modules[k].completed && r.modules[k].score == 0)
            && CountCompleted(r.modules) == 0
            && r.profile.neurotokens == 100 && r.profile.level == 1
            && !r.gameStarted && !r.gameCompleted
            && Inv(r)
  {
    InitialModulesFacts();
    InitialInv(id0, loadedAt);
  }

  // ---------------------------------------------------------------------
  // Achievements and neurotokens

  function RarityReward(rarity: Rarity): (t: int)
    ensures rarity == Common ==> t == 25
    ensures rarity == Rare ==> t == 50
    ensures rarity == Epic ==> t == 100
    ensures rarity == Legendary ==> t == 250
  {
    match rarity
    case Common => 25
    case Rare => 50
    case Epic => 100
    case Legendary => 250
  }

  /** `addAchievement`: a no-op when the id is already present; otherwise
      append and credit the rarity reward. */
  function AddAchievement(s: GameState, a: Achievement): (r: GameState)
    ensures a.id in AchievementIds(s.achievements) ==> r == s
    ensures a.id !in AchievementIds(s.achievements) ==>
              r.achievements == s.achievements + [a]
              && r.profile == s.profile.(neurotokens := s.profile.neurotokens + RarityReward(a.rarity))
              && r == s.(achievements := r.achievements, profile := r.profile)
    ensures a.id in AchievementIds(r.achievements)
    ensures Inv(s) ==> Inv(r)
  {
    if a.id in AchievementIds(s.achievements) then s
    else
      var r := s.(achievements := s.achievements + [a],
                  profile := s.profile.(neurotokens := s.profile.neurotokens + RarityReward(a.rarity)));
      assert AchievementIds(r.achievements) == AchievementIds(s.achievements) + [a.id];
      r
  }

  /** Unlocking twice, or unlocking a second achievement with the same id,
      yields one entry and one reward. */
  lemma AddAchievementIdempotent(s: GameState, a: Achievement, b: Achievement)
    requires b.id == a.id
    ensures AddAchievement(AddAchievement(s, a), b) == AddAchievement(s, a)
  {
  }

  function AddNeurotokens(s: GameState, amount: int): (r: GameState)
    ensures r.profile.neurotokens == s.profile.neurotokens + amount
    ensures r == s.(profile := s.profile.(neurotokens := r.profile.neurotokens))
    ensures Inv(s) ==> Inv(r)
  {
    s.(profile := s.profile.(neurotokens := s.profile.neurotokens + amount))
  }

  /** `spendNeurotokens`: succeeds and debits exactly `amount` iff the
      balance covers it; otherwise fails and changes nothing. */
  function SpendNeurotokens(s: GameState, amount: int): (res: (bool, GameState))
    ensures res.0 <==> s.profile.neurotokens >= amount
    ensures res.0 ==> res.1 == s.(profile := s.profile.(neurotokens := s.profile.neurotokens - amount))
    ensures !res.0 ==> res.1 == s
    ensures Inv(s) ==> Inv(res.1)
  {
    if s.profile.neurotokens >= amount then
      (true, s.(profile := s.profile.(neurotokens := s.profile.neurotokens - amount)))
    else (false, s)
  }

  /** A successful spend followed by a credit of the same amount restores
      the state. */
  lemma SpendThenRefund(s: GameState, amount: int)
    requires SpendNeurotokens(s, amount).0
    ensures AddNeurotokens(SpendNeurotokens(s, amount).1, amount) == s
  {
  }

  // ---------------------------------------------------------------------
  // Collaboration, peers and follows

  function StartCollaboration(s: GameState, session: CollaborationSession): (r: GameState)
    ensures r.session == Some(session) && r.isCollaborating
    ensures r == s.(session := Some(session), isCollaborating := true)
    ensures Inv(s) ==> Inv(r)
  {
    s.(session := Some(session), isCollaborating := true)
  }

  /** `joinCollaboration(sessionId)`: only the local flag; the id is unused. */
  function JoinCollaboration(s: GameState, sessionId: string): (r: GameState)
    ensures r == s.(isCollaborating := true)
    ensures Inv(s) ==> Inv(r)
  {
    s.(isCollaborating := true)
  }

  function LeaveCollaboration(s: GameState): (r: GameState)
    ensures r.session.None? && !r.isCollaborating && r.connectedPeers == []
    ensures r == s.(session := None, isCollaborating := false, connectedPeers := [])
    ensures Inv(s) ==> Inv(r)
  {
    s.(session := None, isCollaborating := false, connectedPeers := [])
  }

  /** `updateCollaborationState`: only when a session exists. */
  function UpdateCollaborationState(s: GameState, shared: string): (r: GameState)
    ensures s.session.None? ==> r == s
    ensures s.session.Some? ==> r == s.(session := Some(s.session.value.(sharedState := shared)))
    ensures Inv(s) ==> Inv(r)
  {
    match s.session
    case None => s
    case Some(c) => s.(session := Some(c.(sharedState := shared)))
  }

  function AddPeer(s: GameState, peer: string): (r: GameState)
    ensures peer in r.connectedPeers
    ensures peer in s.connectedPeers ==> r == s
    ensures peer !in s.connectedPeers ==> r == s.(connectedPeers := s.connectedPeers + [peer])
    ensures Inv(s) ==> Inv(r)
  {
    if peer in s.connectedPeers then s else s.(connectedPeers := s.connectedPeers + [peer])
  }

  function RemovePeer(s: GameState, peer: string): (r: GameState)
    ensures peer !in r.connectedPeers
    ensures forall p :: p in r.connectedPeers <==> p in s.connectedPeers && p != peer
    ensures r == s.(connectedPeers := RemoveAll(s.connectedPeers, peer))
    ensures Inv(s) ==> Inv(r)
  {
    s.(connectedPeers := RemoveAll(s.connectedPeers, peer))
  }

  /** Adding a new peer and removing it again restores the state. */
  lemma AddRemovePeer(s: GameState, peer: string)
    requires peer !in s.connectedPeers
    ensures RemovePeer(AddPeer(s, peer), peer) == s
  {
    RemoveAllConcat(s.connectedPeers, [peer], peer);
    RemoveAbsent(s.connectedPeers, peer);
    assert RemoveAll([peer], peer) == [];
  }

  function FollowUser(s: GameState, user: string): (r: GameState)
    ensures user in r.followedUsers
    ensures user in s.followedUsers ==> r == s
    ensures user !in s.followedUsers ==> r == s.(followedUsers := s.followedUsers + [user])
    ensures Inv(s) ==> Inv(r)
  {
    if user in s.followedUsers then s else s.(followedUsers := s.followedUsers + [user])
  }

  function UnfollowUser(s: GameState, user: string): (r: GameState)
    ensures user !in r.followedUsers
    ensures forall u :: u in r.followedUsers <==> u in s.followedUsers && u != user
    ensures r == s.(followedUsers := RemoveAll(s.followedUsers, user))
    ensures Inv(s) ==> Inv(r)
  {
    s.(followedUsers := RemoveAll(s.followedUsers, user))
  }

  lemma FollowUnfollow(s: GameState, user: string)
    requires user !in s.followedUsers
    ensures UnfollowUser(FollowUser(s, user), user) == s
  {
    RemoveAllConcat(s.followedUsers, [user], user);
    RemoveAbsent(s.followedUsers, user);
    assert RemoveAll([user], user) == [];
  }

  // ---------------------------------------------------------------------
  // Creations

  function CreationIds(cs: seq<Creation>): (r: seq<string>)
    ensures |r| == |cs|
    ensures forall k :: 0 <= k < |cs| ==> r[k] == cs[k].id
  {
    seq(|cs|, k requires 0 <= k < |cs| => cs[k].id)
  }

  /** `creations.find(c => c.id === id)`, as a position. */
  function FindCreation(cs: seq<Creation>, id: string): (r: int)
    ensures -1 <= r < |cs|
    ensures r == -1 <==> forall k :: 0 <= k < |cs| ==> cs[k].id != id
    ensures 0 <= r ==> cs[r].id == id && forall k :: 0 <= k < r ==> cs[k].id != id
  {
    var ids := CreationIds(cs);
    var r := IndexOf(ids, id);
    assert 0 <= r ==> forall k :: 0 <= k < r ==> ids[..r][k] == ids[k];
    assert r == -1 ==> forall k :: 0 <= k < |cs| ==> ids[k] != id;
    r
  }

  /** `addCreation`: to the current module when the index is valid, and to
      the community list iff public. */
  function AddCreation(s: GameState, c: Creation): (r: GameState)
    ensures r.modules == if 0 <= s.currentModule < |s.modules|
                         then s.modules[s.currentModule := s.modules[s.currentModule].(
                                creations := s.modules[s.currentModule].creations + [c])]
                         else s.modules
    ensures r.communityCreations == (if c.isPublic then s.communityCreations + [c] else s.communityCreations)
    ensures r == s.(modules := r.modules, communityCreations := r.communityCreations)
  {
    var i := s.currentModule;
    var ms := if 0 <= i < |s.modules|
              then s.modules[i := s.modules[i].(creations := s.modules[i].creations + [c])]
              else s.modules;
    s.(modules := ms,
       communityCreations := if c.isPublic then s.communityCreations + [c] else s.communityCreations)
  }

  /** Adding a creation keeps the store invariant: only creation lists
      change. */
  lemma AddCreationInv(s: GameState, c: Creation)
    requires Inv(s)
    ensures Inv(AddCreation(s, c))
  {
    var r := AddCreation(s, c);
    if 0 <= s.currentModule < |s.modules| {
      ModuleEditInv(s, s.currentModule, r.modules[s.currentModule], r);
    } else {
      SameInvFields(s, r);
    }
  }

  /** Merges `q` into the first creation with id `id`, if any. */
  function PatchFirst(cs: seq<Creation>, id: string, q: CreationPatch): (r: seq<Creation>)
    ensures FindCreation(cs, id) == -1 ==> r == cs
    ensures var i := FindCreation(cs, id);
            0 <= i ==> r == cs[i := ApplyCreationPatch(cs[i], q)]
  {
    var i := FindCreation(cs, id);
    if i == -1 then cs else cs[i := ApplyCreationPatch(cs[i], q)]
  }

  /** `updateCreation`: patch the first match in the current module and the
      first match in the community list; no-op where there is none. */
  function UpdateCreation(s: GameState, id: string, q: CreationPatch): (r: GameState)
    ensures r.modules == if 0 <= s.currentModule < |s.modules|
                         then s.modules[s.currentModule := s.modules[s.currentModule].(
                                creations := PatchFirst(s.modules[s.currentModule].creations, id, q))]
                         else s.modules
    ensures r.communityCreations == PatchFirst(s.communityCreations, id, q)
    ensures r == s.(modules := r.modules, communityCreations := r.communityCreations)
  {
    var i := s.currentModule;
    var ms := if 0 <= i < |s.modules|
              then s.modules[i := s.modules[i].(creations := PatchFirst(s.modules[i].creations, id, q))]
              else s.modules;
    s.(modules := ms, communityCreations := PatchFirst(s.communityCreations, id, q))
  }

  /** Patching a creation keeps the store invariant: only creation lists
      change. */
  lemma UpdateCreationInv(s: GameState, id: string, q: CreationPatch)
    requires Inv(s)
    ensures Inv(UpdateCreation(s, id, q))
  {
    var r := UpdateCreation(s, id, q);
    if 0 <= s.currentModule < |s.modules| {
      ModuleEditInv(s, s.currentModule, r.modules[s.currentModule], r);
    } else {
      SameInvFields(s, r);
    }
  }

  /** `likeCreation`: +1 on the first matching community entry only. */
  function LikeCreation(s: GameState, id: string): (r: GameState)
    ensures FindCreation(s.communityCreations, id) == -1 ==> r == s
    ensures var i := FindCreation(s.communityCreations, id);
            0 <= i ==>
              |r.communityCreations| == |s.communityCreations|
              && r.communityCreations[i].likes == s.communityCreations[i].likes + 1
              && r.communityCreations[i] == s.communityCreations[i].(likes := r.communityCreations[i].likes)
              && (forall k :: 0 <= k < |s.communityCreations| && k != i ==>
                    r.communityCreations[k] == s.communityCreations[k])
    ensures r == s.(communityCreations := r.communityCreations)
    ensures Inv(s) ==> Inv(r)
  {
    var i := FindCreation(s.communityCreations, id);
    if i == -1 then s
    else
      var c := s.communityCreations[i];
      s.(communityCreations := s.communityCreations[i := c.(likes := c.likes + 1)])
  }

  // ---------------------------------------------------------------------
  // Narration, music, installation state and catalogues

  function StartNarration(s: GameState, text: string): (r: GameState)
    ensures r == s.(narration := Some(text), isNarrating := true)
    ensures Inv(s) ==> Inv(r)
  {
    s.(narration := Some(text), isNarrating := true)
  }

  function StopNarration(s: GameState): (r: GameState)
    ensures r == s.(narration := None, isNarrating := false)
    ensures Inv(s) ==> Inv(r)
  {
    s.(narration := None, isNarrating := false)
  }

  function SetBackgroundMusic(s: GameState, track: string): (r: GameState)
    ensures r == s.(backgroundMusic := track)
    ensures Inv(s) ==> Inv(r)
  {
    s.(backgroundMusic := track)
  }

  function SetInstalled(s: GameState, installed: bool): (r: GameState)
    ensures r == s.(isInstalled := installed)
    ensures Inv(s) ==> Inv(r)
  {
    s.(isInstalled := installed)
  }

  function SetUpdateAvailable(s: GameState, available: bool): (r: GameState)
    ensures r == s.(updateAvailable := available)
    ensures Inv(s) ==> Inv(r)
  {
    s.(updateAvailable := available)
  }

  function LoadMedellinProjects(s: GameState, projects: seq<MedellinProject>): (r: GameState)
    ensures r == s.(medellinProjects := projects)
    ensures Inv(s) ==> Inv(r)
  {
    s.(medellinProjects := projects)
  }

  function LoadEthicsDatabase(s: GameState, cases: seq<EthicsCase>): (r: GameState)
    ensures r == s.(ethicsDatabase := cases)
    ensures Inv(s) ==> Inv(r)
  {
    s.(ethicsDatabase := cases)
  }

  // ---------------------------------------------------------------------
  // Derived queries

  /** `getTotalPlayTime`, in milliseconds. */
  function TotalPlayTime(s: GameState, now: Time): (r: int)
    ensures !s.gameStarted ==> r == 0
    ensures s.gameStarted ==> s.startTime + r == now
  {
    if !s.gameStarted then 0 else now - s.startTime
  }

  /** `getCompletionPercentage`: a real number, 100 exactly when all modules
      are completed and 0 exactly when none is. */
  function CompletionPercentage(s: GameState): (r: real)
    requires |s.modules| > 0
    ensures r == 100.0 * (CountCompleted(s.modules) as real) / (|s.modules| as real)
    ensures 0.0 <= r <= 100.0
    ensures r == 100.0 <==> AllCompleted(s.modules)
    ensures r == 0.0 <==> forall k :: 0 <= k < |s.modules| ==> !s.modules[k].completed
  {
    var n := CountCompleted(s.modules);
    var r := Percent(n, |s.modules|);
    assert r == 100.0 <==> AllCompleted(s.modules);
    assert r == 0.0 <==> forall k :: 0 <= k < |s.modules| ==> !s.modules[k].completed;
    r
  }

  /** `getUserLevel`: a step function on the profile level. */
  function UserLevelTitle(level: int): (t: string)
    ensures level <= 1 ==> t == "Explorador de IA"
    ensures level == 2 ==> t == "Aprendiz Colaborativo"
    ensures level == 3 ==> t == "Creador Consciente"
    ensures level >= 4 ==> t == "Guardián de la Inteligencia"
  {
    if level == 1 then "Explorador de IA"
    else if level == 2 then "Aprendiz Colaborativo"
    else if level == 3 then "Creador Consciente"
    else if level >= 4 then "Guardián de la Inteligencia"
    else "Explorador de IA"
  }

  /** `moduleProgress.flatMap(m => m.creations)` */
  function AllCreations(ms: seq<ModuleProgress>): (r: seq<Creation>)
    ensures forall c :: c in r <==> exists k :: 0 <= k < |ms| && c in ms[k].creations
    ensures |ms| == 1 ==> r == ms[0].creations
  {
    if ms == [] then []
    else
      var rest := AllCreations(ms[1..]);
      assert forall k :: 1 <= k < |ms| ==> ms[1..][k - 1] == ms[k];
      ms[0].creations + rest
  }

  /** `moduleProgress.flatMap(m => m.decisions)` */
  function AllDecisions(ms: seq<ModuleProgress>): (r: seq<EthicalDecision>)
    ensures forall d :: d in r <==> exists k :: 0 <= k < |ms| && d in ms[k].decisions
    ensures |ms| == 1 ==> r == ms[0].decisions
  {
    if ms == [] then []
    else
      var rest := AllDecisions(ms[1..]);
      assert forall k :: 1 <= k < |ms| ==> ms[1..][k - 1] == ms[k];
      ms[0].decisions + rest
  }

  /** `cs.filter(c => c.type === kind)` */
  function OfKind(cs: seq<Creation>, kind: string): (r: seq<Creation>)
    ensures |r| <= |cs|
    ensures forall c :: c in r <==> c in cs && c.kind == kind
    ensures |cs| == 1 ==> r == (if cs[0].kind == kind then cs else [])
  {
    if cs == [] then []
    else
      var rest := OfKind(cs[1..], kind);
      if cs[0].kind == kind then [cs[0]] + rest else rest
  }

  /** Flattening keeps the modules' order and every element: the
      flattening of a concatenation is the concatenation of the flattenings. */
  lemma {:induction false} AllCreationsConcat(a: seq<ModuleProgress>, b: seq<ModuleProgress>)
    ensures AllCreations(a + b) == AllCreations(a) + AllCreations(b)
  {
    if a == [] {
      assert a + b == b;
    } else {
      assert (a + b)[1..] == a[1..] + b;
      AllCreationsConcat(a[1..], b);
    }
  }

  lemma {:induction false} AllDecisionsConcat(a: seq<ModuleProgress>, b: seq<ModuleProgress>)
    ensures AllDecisions(a + b) == AllDecisions(a) + AllDecisions(b)
  {
    if a == [] {
      assert a + b == b;
    } else {
      assert (a + b)[1..] == a[1..] + b;
      AllDecisionsConcat(a[1..], b);
    }
  }

  /** Filtering keeps order and multiplicity: it distributes over
      concatenation. */
  lemma {:induction false} OfKindConcat(a: seq<Creation>, b: seq<Creation>, kind: string)
    ensures OfKind(a + b, kind) == OfKind(a, kind) + OfKind(b, kind)
  {
    if a == [] {
      assert a + b == b;
    } else {
      assert (a + b)[0] == a[0];
      assert (a + b)[1..] == a[1..] + b;
      OfKindConcat(a[1..], b, kind);
    }
  }

  /** `getCreationsByType(kind)` */
  function CreationsByType(s: GameState, kind: string): (r: seq<Creation>)
    ensures forall c :: c in r <==>
              c.kind == kind && exists k :: 0 <= k < |s.modules| && c in s.modules[k].creations
  {
    OfKind(AllCreations(s.modules), kind)
  }

  /** `decisions.filter(d => d.impact === impact).length` */
  function CountImpact(ds: seq<EthicalDecision>, impact: Impact): (n: nat)
    ensures n <= |ds|
  {
    if ds == [] then 0 else (if ds[0].impact == impact then 1 else 0) + CountImpact(ds[1..], impact)
  }

  /** No decision has the impact iff its count is 0. */
  lemma {:induction false} CountImpactZero(ds: seq<EthicalDecision>, impact: Impact)
    ensures CountImpact(ds, impact) == 0 <==> forall k :: 0 <= k < |ds| ==> ds[k].impact != impact
  {
    if ds != [] {
      CountImpactZero(ds[1..], impact);
      assert forall k :: 1 <= k < |ds| ==> ds[k] == ds[1..][k - 1];
    }
  }

  lemma {:induction false} CountImpactConcat(a: seq<EthicalDecision>, b: seq<EthicalDecision>, impact: Impact)
    ensures CountImpact(a + b, impact) == CountImpact(a, impact) + CountImpact(b, impact)
  {
    if a == [] {
      assert a + b == b;
    } else {
      assert (a + b)[1..] == a[1..] + b;
      CountImpactConcat(a[1..], b, impact);
    }
  }

  lemma {:induction false} ImpactPartition(ds: seq<EthicalDecision>)
    ensures CountImpact(ds, Positive) + CountImpact(ds, Negative) + CountImpact(ds, Neutral) == |ds|
  {
    if ds != [] {
      ImpactPartition(ds[1..]);
    }
  }

  function SumSocial(ds: seq<EthicalDecision>): int {
    if ds == [] then 0 else ds[0].socialScore + SumSocial(ds[1..])
  }

  lemma {:induction false} SumSocialAppend(a: seq<EthicalDecision>, b: seq<EthicalDecision>)
    ensures SumSocial(a + b) == SumSocial(a) + SumSocial(b)
  {
    if a == [] {
      assert a + b == b;
    } else {
      assert (a + b)[1..] == a[1..] + b;
      SumSocialAppend(a[1..], b);
    }
  }

  /** `creations.filter(c => c.isPublic).length` */
  function CountPublic(cs: seq<Creation>): (n: nat)
    ensures n <= |cs|
    ensures n == 0 <==> forall k :: 0 <= k < |cs| ==> !cs[k].isPublic
  {
    if cs == [] then 0 else (if cs[0].isPublic then 1 else 0) + CountPublic(cs[1..])
  }

  lemma {:induction false} CountPublicAppend(a: seq<Creation>, b: seq<Creation>)
    ensures CountPublic(a + b) == CountPublic(a) + CountPublic(b)
  {
    if a == [] {
      assert a + b == b;
    } else {
      assert (a + b)[1..] == a[1..] + b;
      CountPublicAppend(a[1..], b);
    }
  }

  datatype DecisionStats = DecisionStats(positive: nat, negative: nat, neutral: nat,
                                         averageSocialScore: real, total: nat)

  /** The mean of the social scores, 0 for no decisions. */
  function MeanSocial(ds: seq<EthicalDecision>): (m: real)
    ensures |ds| == 0 ==> m == 0.0
    ensures |ds| > 0 ==> m * (|ds| as real) == SumSocial(ds) as real
  {
    if |ds| == 0 then 0.0 else (SumSocial(ds) as real) / (|ds| as real)
  }

  /** The statistics of a list of decisions. */
  function StatsOf(ds: seq<EthicalDecision>): (r: DecisionStats)
    ensures r.total == |ds|
    ensures r.positive == CountImpact(ds, Positive)
    ensures r.negative == CountImpact(ds, Negative)
    ensures r.neutral == CountImpact(ds, Neutral)
    ensures r.positive + r.negative + r.neutral == r.total
    ensures r.total == 0 ==> r.averageSocialScore == 0.0
    ensures r.total > 0 ==> r.averageSocialScore * (r.total as real) == SumSocial(ds) as real
  {
    ImpactPartition(ds);
    DecisionStats(CountImpact(ds, Positive), CountImpact(ds, Negative), CountImpact(ds, Neutral),
                  MeanSocial(ds), |ds|)
  }

  /** `getEthicalDecisionStats`: counts per impact that add up to the total,
      and the mean social score, 0 when there are no decisions. */
  function EthicalDecisionStats(s: GameState): (r: DecisionStats)
    ensures r.total == |AllDecisions(s.modules)|
    ensures r.positive == CountImpact(AllDecisions(s.modules), Positive)
    ensures r.negative == CountImpact(AllDecisions(s.modules), Negative)
    ensures r.neutral == CountImpact(AllDecisions(s.modules), Neutral)
    ensures r.positive + r.negative + r.neutral == r.total
    ensures r.total == 0 ==> r.averageSocialScore == 0.0
    ensures r.total > 0 ==>
              r.averageSocialScore * (r.total as real) == SumSocial(AllDecisions(s.modules)) as real
  {
    StatsOf(AllDecisions(s.modules))
  }

  /** `getSocialImpactScore`: decisions' social scores, plus 10 per public
      module creation, plus 25 per connected peer. */
  function SocialImpactScore(s: GameState): (r: int)
    ensures SumSocial(AllDecisions(s.modules)) + 25 * |s.connectedPeers| <= r
    ensures r <= SumSocial(AllDecisions(s.modules)) + 10 * |AllCreations(s.modules)| + 25 * |s.connectedPeers|
    ensures (forall k :: 0 <= k < |AllCreations(s.modules)| ==> !AllCreations(s.modules)[k].isPublic) ==>
              r == SumSocial(AllDecisions(s.modules)) + 25 * |s.connectedPeers|
  {
    SumSocial(AllDecisions(s.modules)) + 10 * CountPublic(AllCreations(s.modules)) + 25 * |s.connectedPeers|
  }

  lemma {:induction false} AllDecisionsSame(a: seq<ModuleProgress>, b: seq<ModuleProgress>)
    requires |a| == |b| && forall k :: 0 <= k < |a| ==> a[k].decisions == b[k].decisions
    ensures AllDecisions(a) == AllDecisions(b)
  {
    if a != [] {
      AllDecisionsSame(a[1..], b[1..]);
    }
  }

  lemma {:induction false} AllCreationsSame(a: seq<ModuleProgress>, b: seq<ModuleProgress>)
    requires |a| == |b| && forall k :: 0 <= k < |a| ==> a[k].creations == b[k].creations
    ensures AllCreations(a) == AllCreations(b)
  {
    if a != [] {
      AllCreationsSame(a[1..], b[1..]);
    }
  }

  /** Appending `extra` to the decisions of module `i` adds their social
      scores to the flattened total. */
  lemma {:induction false} AllDecisionsAppendAt(ms: seq<ModuleProgress>, ms': seq<ModuleProgress>, i: int,
                                                extra: seq<EthicalDecision>)
    requires |ms'| == |ms| && 0 <= i < |ms|
    requires forall k :: 0 <= k < |ms| && k != i ==> ms'[k].decisions == ms[k].decisions
    requires ms'[i].decisions == ms[i].decisions + extra
    ensures SumSocial(AllDecisions(ms')) == SumSocial(AllDecisions(ms)) + SumSocial(extra)
  {
    SumSocialAppend(ms'[0].decisions, AllDecisions(ms'[1..]));
    SumSocialAppend(ms[0].decisions, AllDecisions(ms[1..]));
    if i == 0 {
      AllDecisionsSame(ms'[1..], ms[1..]);
      SumSocialAppend(ms[0].decisions, extra);
    } else {
      AllDecisionsAppendAt(ms[1..], ms'[1..], i - 1, extra);
    }
  }

  /** Appending `extra` to the creations of module `i` adds its public
      creations to the flattened count. */
  lemma {:induction false} AllCreationsAppendAt(ms: seq<ModuleProgress>, ms': seq<ModuleProgress>, i: int,
                                                extra: seq<Creation>)
    requires |ms'| == |ms| && 0 <= i < |ms|
    requires forall k :: 0 <= k < |ms| && k != i ==> ms'[k].creations == ms[k].creations
    requires ms'[i].creations == ms[i].creations + extra
    ensures CountPublic(AllCreations(ms')) == CountPublic(AllCreations(ms)) + CountPublic(extra)
  {
    CountPublicAppend(ms'[0].creations, AllCreations(ms'[1..]));
    CountPublicAppend(ms[0].creations, AllCreations(ms[1..]));
    if i == 0 {
      AllCreationsSame(ms'[1..], ms[1..]);
      CountPublicAppend(ms[0].creations, extra);
    } else {
      AllCreationsAppendAt(ms[1..], ms'[1..], i - 1, extra);
    }
  }

  /** A completion raises the social-impact score by the social scores of
      the decisions passed plus 10 per public creation passed. */
  lemma CompleteModuleSocialImpact(s: GameState, moduleId: string, score: int, achievements: seq<string>,
                                   creations: seq<Creation>, decisions: seq<EthicalDecision>, now: Time)
    requires FindModule(s.modules, moduleId) >= 0
    ensures SocialImpactScore(CompleteModule(s, moduleId, score, achievements, creations, decisions, now))
            == SocialImpactScore(s) + SumSocial(decisions) + 10 * CountPublic(creations)
  {
    var i := FindModule(s.modules, moduleId);
    var r := CompleteModule(s, moduleId, score, achievements, creations, decisions, now);
    AllDecisionsAppendAt(s.modules, r.modules, i, decisions);
    AllCreationsAppendAt(s.modules, r.modules, i, creations);
  }

  /** A public creation added while a valid module is current raises the
      social-impact score by 10; a private one leaves it unchanged. */
  lemma AddCreationSocialImpact(s: GameState, c: Creation)
    requires 0 <= s.currentModule < |s.modules|
    ensures SocialImpactScore(AddCreation(s, c)) == SocialImpactScore(s) + (if c.isPublic then 10 else 0)
  {
    var r := AddCreation(s, c);
    AllCreationsAppendAt(s.modules, r.modules, s.currentModule, [c]);
    AllDecisionsSame(r.modules, s.modules);
    assert CountPublic([c]) == (if c.isPublic then 1 else 0);
  }

  /** Replacing the decisions of module `i` by `ds` moves every flattened
      per-impact count by the difference the new list makes. */
  lemma {:induction false} AllDecisionsImpactAt(ms: seq<ModuleProgress>, ms': seq<ModuleProgress>, i: int,
                                                extra: seq<EthicalDecision>, impact: Impact)
    requires |ms'| == |ms| && 0 <= i < |ms|
    requires forall k :: 0 <= k < |ms| && k != i ==> ms'[k].decisions == ms[k].decisions
    requires ms'[i].decisions == ms[i].decisions + extra
    ensures CountImpact(AllDecisions(ms'), impact) == CountImpact(AllDecisions(ms), impact) + CountImpact(extra, impact)
    ensures |AllDecisions(ms')| == |AllDecisions(ms)| + |extra|
  {
    CountImpactConcat(ms'[0].decisions, AllDecisions(ms'[1..]), impact);
    CountImpactConcat(ms[0].decisions, AllDecisions(ms[1..]), impact);
    if i == 0 {
      AllDecisionsSame(ms'[1..], ms[1..]);
      CountImpactConcat(ms[0].decisions, extra, impact);
    } else {
      AllDecisionsImpactAt(ms[1..], ms'[1..], i - 1, extra, impact);
    }
  }

  /** A completion raises the flattened count of each impact by that
      impact's count among the decisions passed, and their number. */
  lemma CompleteModuleImpact(s: GameState, moduleId: string, score: int, achievements: seq<string>,
                             creations: seq<Creation>, decisions: seq<EthicalDecision>, now: Time,
                             impact: Impact)
    requires FindModule(s.modules, moduleId) >= 0
    ensures var r := CompleteModule(s, moduleId, score, achievements, creations, decisions, now);
            CountImpact(AllDecisions(r.modules), impact)
              == CountImpact(AllDecisions(s.modules), impact) + CountImpact(decisions, impact)
            && |AllDecisions(r.modules)| == |AllDecisions(s.modules)| + |decisions|
  {
    var i := FindModule(s.modules, moduleId);
    var r := CompleteModule(s, moduleId, score, achievements, creations, decisions, now);
    AllDecisionsImpactAt(s.modules, r.modules, i, decisions, impact);
  }

  /** A completion adds the decisions passed to the statistics: the total
      grows by their number and each impact count by theirs. */
  lemma CompleteModuleDecisionStats(s: GameState, moduleId: string, score: int, achievements: seq<string>,
                                    creations: seq<Creation>, decisions: seq<EthicalDecision>, now: Time)
    requires FindModule(s.modules, moduleId) >= 0
    ensures var before := EthicalDecisionStats(s);
            var after := EthicalDecisionStats(CompleteModule(s, moduleId, score, achievements, creations, decisions, now));
            after.total == before.total + |decisions|
            && after.positive == before.positive + CountImpact(decisions, Positive)
            && after.negative == before.negative + CountImpact(decisions, Negative)
            && after.neutral == before.neutral + CountImpact(decisions, Neutral)
  {
    CompleteModuleImpact(s, moduleId, score, achievements, creations, decisions, now, Positive);
    CompleteModuleImpact(s, moduleId, score, achievements, creations, decisions, now, Negative);
    CompleteModuleImpact(s, moduleId, score, achievements, creations, decisions, now, Neutral);
  }

  /** A new peer adds 25 to the social-impact score; a listed one adds 0. */
  lemma AddPeerSocialImpact(s: GameState, peer: string)
    ensures SocialImpactScore(AddPeer(s, peer))
            == SocialImpactScore(s) + (if peer in s.connectedPeers then 0 else 25)
  {
  }

  /** Removing a peer takes 25 off the social-impact score per occurrence. */
  lemma RemovePeerSocialImpact(s: GameState, peer: string)
    ensures SocialImpactScore(RemovePeer(s, peer))
            == SocialImpactScore(s) - 25 * Count(s.connectedPeers, peer)
  {
    RemoveAllLength(s.connectedPeers, peer);
  }

  /** Leaving the collaboration takes 25 off per connected peer. */
  lemma LeaveCollaborationSocialImpact(s: GameState)
    ensures SocialImpactScore(LeaveCollaboration(s)) == SocialImpactScore(s) - 25 * |s.connectedPeers|
  {
  }
}
