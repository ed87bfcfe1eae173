/** The profile hook (src/hooks/useProfile.tsx): how roadmap progress becomes a status
    and timestamps, how fetched achievement and roadmap rows are shaped for display,
    which lookup errors the fetch tolerates, and the writes the hook issues. */
module Profile {
  import opened Wrappers

  const NotStarted := "not-started"
  const Active := "active"
  const Done := "completed"

  /** The code the backend reports when a single-row lookup finds no row. */
  const NoRowsCode := "PGRST116"

  /** `status || (progress === 100 ? 'completed' : progress > 0 ? 'active' : 'not-started')`:
      a supplied non-empty status wins; otherwise the status follows the progress. */
  function DeriveStatus(progress: int, status: Option<string>): (r: string)
    ensures status.Some? && status.value != "" ==> r == status.value
    ensures status.None? || status.value == "" ==>
      && (r == Done <==> progress == 100)
      && (r == Active <==> progress > 0 && progress != 100)
      && (r == NotStarted <==> progress <= 0)
  {
    if status.Some? && status.value != "" then status.value
    else if progress == 100 then Done
    else if progress > 0 then Active
    else NotStarted
  }

  /** The `user_roadmaps` upsert of `updateRoadmapProgress`. */
  datatype ProgressUpsert = ProgressUpsert(
    userId: string, roadmapId: string, progress: int, status: string,
    startedAt: Option<string>, completedAt: Option<string>)

  /** `updateRoadmapProgress`: no write without a user; otherwise the progress with its
      status, a start time exactly when progress is positive, and a completion time
      exactly when progress is 100. The two times are separate clock readings,
      `startedNow` and `completedNow`. */
  function UpdateRoadmapProgress(user: Option<string>, roadmapId: string, progress: int,
                                 status: Option<string>, startedNow: string, completedNow: string)
    : (w: Option<ProgressUpsert>)
    ensures w.None? <==> user.None?
    ensures w.Some? ==> (
      && w.value.userId == user.value && w.value.roadmapId == roadmapId
      && w.value.progress == progress
      && w.value.status == DeriveStatus(progress, status)
      && (w.value.startedAt.Some? <==> progress > 0)
      && (w.value.completedAt.Some? <==> progress == 100)
      && (w.value.startedAt.Some? ==> w.value.startedAt.value == startedNow)
      && (w.value.completedAt.Some? ==> w.value.completedAt.value == completedNow))
  {
    match user
    case None => None
    case Some(uid) =>
      Some(ProgressUpsert(uid, roadmapId, progress, DeriveStatus(progress, status),
                          if progress > 0 then Some(startedNow) else None,
                          if progress == 100 then Some(completedNow) else None))
  }

  /** A completed roadmap (progress 100, no status supplied) carries both a start and a
      completion time, each from its own clock reading. */
  lemma CompletedIsStarted(uid: string, roadmapId: string, startedNow: string, completedNow: string)
    ensures var w := UpdateRoadmapProgress(Some(uid), roadmapId, 100, None, startedNow, completedNow).value;
      w.status == Done && w.startedAt == Some(startedNow) && w.completedAt == Some(completedNow)
  {
  }

  datatype UserStats = UserStats(totalXp: int, level: int, streakDays: int, weeklyHours: int, monthlyHours: int)

  /** A `Partial<UserStats>`: the fields the caller supplies. */
  datatype StatsPatch = StatsPatch(
    totalXp: Option<int>, level: Option<int>, streakDays: Option<int>,
    weeklyHours: Option<int>, monthlyHours: Option<int>)

  datatype StatsUpsert = StatsUpsert(userId: string, patch: StatsPatch)

  /** `updateUserStats`: no write without a user; otherwise an upsert keyed by the user. */
  function UpdateUserStats(user: Option<string>, updates: StatsPatch): (w: Option<StatsUpsert>)
    ensures w.None? <==> user.None?
    ensures w.Some? ==> w.value.userId == user.value && w.value.patch == updates
  {
    match user
    case None => None
    case Some(uid) => Some(StatsUpsert(uid, updates))
  }

  /** The `profiles` update of `updateProfile`, filtered by the user id. */
  datatype ProfileUpdate = ProfileUpdate(userId: string, updates: map<string, string>)

  /** `updateProfile`: no write without a user; otherwise the user's own profile row. */
  function UpdateProfile(user: Option<string>, updates: map<string, string>): (w: Option<ProfileUpdate>)
    ensures w.None? <==> user.None?
    ensures w.Some? ==> w.value.userId == user.value && w.value.updates == updates
  {
    match user
    case None => None
    case Some(uid) => Some(ProfileUpdate(uid, updates))
  }

  // ---------------------------------------------------------------------------
  // Shaping fetched rows

  /** One joined `user_achievements` entry. */
  datatype Earned = Earned(earnedAt: Option<string>)

  datatype AchievementRow = AchievementRow(
    id: string, title: string, description: string, icon: string, category: string,
    points: int, userAchievements: Option<seq<Earned>>)

  datatype Achievement = Achievement(
    id: string, title: string, description: string, icon: string, category: string,
    points: int, earned: bool, earnedAt: Option<string>)

  /** An achievement is earned exactly when it has a joined entry; the time comes from
      the first entry. */
  function ShapeAchievement(a: AchievementRow): (r: Achievement)
    ensures r.earned <==> a.userAchievements.Some? && |a.userAchievements.value| > 0
    ensures r.earned ==> r.earnedAt == a.userAchievements.value[0].earnedAt
    ensures !r.earned ==> r.earnedAt.None?
    ensures r.id == a.id && r.title == a.title && r.points == a.points
  {
    var earned := a.userAchievements.Some? && |a.userAchievements.value| > 0;
    Achievement(a.id, a.title, a.description, a.icon, a.category, a.points, earned,
                if earned then a.userAchievements.value[0].earnedAt else None)
  }

  /** One joined `user_roadmaps` entry. */
  datatype UserProgress = UserProgress(progress: Option<int>, status: Option<string>)

  datatype RoadmapRow = RoadmapRow(
    id: string, title: string, description: string, category: string,
    estimatedDuration: Option<string>, color: Option<string>,
    userRoadmaps: Option<seq<UserProgress>>)

  datatype Roadmap = Roadmap(
    id: string, title: string, description: string, category: string,
    estimatedDuration: string, color: string, progress: int, status: string)

  /** JavaScript's `s || fallback` on an optional string. */
  function OrElse(s: Option<string>, fallback: string): (r: string)
    ensures s.Some? && s.value != "" ==> r == s.value
    ensures s.None? || s.value == "" ==> r == fallback
  {
    if s.Some? && s.value != "" then s.value else fallback
  }

  /** The first joined progress entry, if any. */
  function FirstProgress(rm: RoadmapRow): (r: Option<UserProgress>)
    ensures r.Some? <==> rm.userRoadmaps.Some? && |rm.userRoadmaps.value| > 0
    ensures r.Some? ==> r.value == rm.userRoadmaps.value[0]
  {
    if rm.userRoadmaps.Some? && |rm.userRoadmaps.value| > 0 then Some(rm.userRoadmaps.value[0]) else None
  }

  /** Defaults of the roadmap shaping: duration "", colour "bg-blue-500", progress 0 and
      status "not-started" when the row or its first progress entry leaves them out. */
  function ShapeRoadmap(rm: RoadmapRow): (r: Roadmap)
    ensures r.id == rm.id && r.title == rm.title
    ensures r.estimatedDuration == OrElse(rm.estimatedDuration, "")
    ensures r.color == OrElse(rm.color, "bg-blue-500")
    ensures FirstProgress(rm).None? ==> r.progress == 0 && r.status == NotStarted
    ensures FirstProgress(rm).Some? ==>
      && r.progress == FirstProgress(rm).value.progress.GetOr(0)
      && r.status == OrElse(FirstProgress(rm).value.status, NotStarted)
  {
    var first := FirstProgress(rm);
    Roadmap(rm.id, rm.title, rm.description, rm.category,
            OrElse(rm.estimatedDuration, ""), OrElse(rm.color, "bg-blue-500"),
            if first.Some? then first.value.progress.GetOr(0) else 0,
            if first.Some? then OrElse(first.value.status, NotStarted) else NotStarted)
  }

  /** A progress write read back: once the upsert is the roadmap's first joined entry,
      the shaped roadmap shows that progress and the status derived from it. */
  lemma ProgressReadBack(uid: string, rm: RoadmapRow, progress: int, status: Option<string>,
                         startedNow: string, completedNow: string, rest: seq<UserProgress>)
    requires rm.userRoadmaps.Some?
    requires var w := UpdateRoadmapProgress(Some(uid), rm.id, progress, status, startedNow, completedNow).value;
      rm.userRoadmaps.value == [UserProgress(Some(w.progress), Some(w.status))] + rest
    ensures ShapeRoadmap(rm).progress == progress
    ensures ShapeRoadmap(rm).status == DeriveStatus(progress, status)
  {
  }

  // ---------------------------------------------------------------------------
  // The fetch, stage by stage

  datatype ProfileRow = ProfileRow(userId: string, name: string)

  /** A query answer: the data, or the error code it failed with. */
  datatype Answer<T> = Data(data: T) | QueryError(code: string)

  datatype ProfileState = ProfileState(
    profile: Option<ProfileRow>, stats: Option<UserStats>,
    achievements: seq<Achievement>, roadmaps: seq<Roadmap>)

  /** The state after the fetch, and whether it stopped on an error. */
  datatype FetchOutcome = FetchOutcome(state: ProfileState, failed: bool)

  /** A single-row lookup: "no rows" is tolerated as an empty answer, any other error is not. */
  function Single<T>(a: Answer<Option<T>>): (r: Result<Option<T>, string>)
    ensures a.QueryError? && a.code == NoRowsCode ==> r == Success(None)
    ensures a.QueryError? && a.code != NoRowsCode ==> r.Failure?
    ensures a.Data? ==> r == Success(a.data)
  {
    match a
    case Data(d) => Success(d)
    case QueryError(code) => if code == NoRowsCode then Success(None) else Failure(code)
  }

  function ShapeAchievements(rows: seq<AchievementRow>): (r: seq<Achievement>)
    ensures |r| == |rows|
    ensures forall i :: 0 <= i < |rows| ==> r[i] == ShapeAchievement(rows[i])
  {
    seq(|rows|, i requires 0 <= i < |rows| => ShapeAchievement(rows[i]))
  }

  function ShapeRoadmaps(rows: seq<RoadmapRow>): (r: seq<Roadmap>)
    ensures |r| == |rows|
    ensures forall i :: 0 <= i < |rows| ==> r[i] == ShapeRoadmap(rows[i])
  {
    seq(|rows|, i requires 0 <= i < |rows| => ShapeRoadmap(rows[i]))
  }

  /** `fetchProfile`: nothing without a user; otherwise profile, stats, achievements and
      roadmaps are loaded in that order, each stored as soon as it arrives, and the first
      error that is not tolerated stops the rest. */
  function FetchProfile(user: Option<string>, st: ProfileState,
                        profile: Answer<Option<ProfileRow>>, stats: Answer<Option<UserStats>>,
                        achievements: Answer<seq<AchievementRow>>, roadmaps: Answer<seq<RoadmapRow>>)
    : (r: FetchOutcome)
    ensures user.None? ==> r == FetchOutcome(st, false)
    ensures user.Some? ==>
      (r.failed <==> Single(profile).Failure? || Single(stats).Failure?
                     || achievements.QueryError? || roadmaps.QueryError?)
    ensures user.Some? && !r.failed ==>
      r.state == ProfileState(Single(profile).value, Single(stats).value,
                              ShapeAchievements(achievements.data), ShapeRoadmaps(roadmaps.data))
  {
    if user.None? then FetchOutcome(st, false)
    else match Single(profile)
      case Failure(_) => FetchOutcome(st, true)
      case Success(p) =>
        var st1 := st.(profile := p);
        match Single(stats)
        case Failure(_) => FetchOutcome(st1, true)
        case Success(s) =>
          var st2 := st1.(stats := s);
          match achievements
          case QueryError(_) => FetchOutcome(st2, true)
          case Data(a) =>
            var st3 := st2.(achievements := ShapeAchievements(a));
            match roadmaps
            case QueryError(_) => FetchOutcome(st3, true)
            case Data(rm) => FetchOutcome(st3.(roadmaps := ShapeRoadmaps(rm)), false)
  }

  /** "No rows" on the profile or stats lookup does not stop the fetch: the missing row
      reads as absent and the later stages still load. */
  lemma NoRowsTolerated(uid: string, st: ProfileState,
                        achievements: seq<AchievementRow>, roadmaps: seq<RoadmapRow>)
    ensures var r := FetchProfile(Some(uid), st, QueryError(NoRowsCode), QueryError(NoRowsCode),
                                  Data(achievements), Data(roadmaps));
      && !r.failed
      && r.state == ProfileState(None, None, ShapeAchievements(achievements), ShapeRoadmaps(roadmaps))
  {
  }

  /** Any other profile lookup error aborts before anything is stored. */
  lemma ProfileErrorAborts(uid: string, st: ProfileState, code: string,
                           stats: Answer<Option<UserStats>>,
                           achievements: Answer<seq<AchievementRow>>, roadmaps: Answer<seq<RoadmapRow>>)
    requires code != NoRowsCode
    ensures FetchProfile(Some(uid), st, QueryError(code), stats, achievements, roadmaps)
      == FetchOutcome(st, true)
  {
  }

  /** Any other stats lookup error aborts after the profile was stored, before the
      achievements and roadmaps. */
  lemma StatsErrorAborts(uid: string, st: ProfileState, p: Option<ProfileRow>, code: string,
                         achievements: Answer<seq<AchievementRow>>, roadmaps: Answer<seq<RoadmapRow>>)
    requires code != NoRowsCode
    ensures FetchProfile(Some(uid), st, Data(p), QueryError(code), achievements, roadmaps)
      == FetchOutcome(st.(profile := p), true)
  {
  }

  /** The achievements and roadmaps queries tolerate no error at all, not even "no rows". */
  lemma ListErrorsAbort(uid: string, st: ProfileState, code: string,
                        p: Option<ProfileRow>, s: Option<UserStats>, a: seq<AchievementRow>)
    ensures FetchProfile(Some(uid), st, Data(p), Data(s), QueryError(code), QueryError(code)).failed
    ensures FetchProfile(Some(uid), st, Data(p), Data(s), Data(a), QueryError(code)).failed
    ensures FetchProfile(Some(uid), st, Data(p), Data(s), Data(a), QueryError(code)).state.achievements
      == ShapeAchievements(a)
  {
  }
}
