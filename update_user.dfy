/**
 * The `updateUser` cloud function: it creates the caller's profile on the
 * first call, and afterwards refreshes the last-active time, the nickname
 * and avatar, and on a `recordDream` action the dream total and the
 * consecutive-day streak.
 *
 * Dates are day numbers (`new Date(yyyy-mm-dd)` at UTC midnight, so the
 * difference of two of them divided by a day is a whole number); the
 * empty `lastDreamDate` is `None`. The `users` collection is a map from
 * openid to profile, and a failing database call is the `dbError` input.
 */
module UpdateUser {
  import opened Wrappers

  datatype Preferences = Preferences(theme: string, notification: bool, analysisDepth: string)

  const DefaultPreferences := Preferences("dark", true, "deep")

  /** The `userInfo` argument; a missing field is the empty string. */
  datatype UserInfo = UserInfo(nickName: string, avatarUrl: string)

  datatype Profile = Profile(
    openid: string,
    nickName: string,
    avatarUrl: string,
    joinDate: int,
    lastActive: int,
    totalDreams: nat,
    streakDays: int,
    lastDreamDate: Option<int>,
    preferences: Preferences)

  /** `{ success: false, error }`, `{ success: true, isNewUser: true, user }`
      and `{ success: true, isNewUser: false }`. */
  datatype Reply = Failed(error: string) | Created(user: Profile) | Updated

  datatype Outcome = Outcome(reply: Reply, users: map<string, Profile>)

  const NoOpenid := "未获取到用户信息"
  const Anonymous := "匿名用户"
  const RecordDream := "recordDream"

  /** `x || fallback` on strings. */
  function Or(x: string, fallback: string): string {
    if x != "" then x else fallback
  }

  /** The profile written for a caller seen for the first time. */
  function NewProfile(openid: string, info: Option<UserInfo>, now: int): (p: Profile)
    ensures p.openid == openid && p.joinDate == now && p.lastActive == now
    ensures p.totalDreams == 0 && p.streakDays == 0 && p.lastDreamDate == None
    ensures p.preferences == DefaultPreferences
    ensures p.nickName != ""
    ensures p.nickName == Anonymous <==> info.None? || info.value.nickName in {"", Anonymous}
    ensures info.None? ==> p.avatarUrl == ""
    ensures info.Some? ==> p.avatarUrl == info.value.avatarUrl
  {
    Profile(openid,
            Or(if info.Some? then info.value.nickName else "", Anonymous),
            if info.Some? then info.value.avatarUrl else "",
            now, now, 0, 0, None, DefaultPreferences)
  }

  /** The update every later call makes: the last-active time, and the
      nickname and avatar when they are given and non-empty. */
  function Touched(p: Profile, info: Option<UserInfo>, now: int): (q: Profile)
    ensures q.lastActive == now
    ensures q.nickName == (if info.Some? then Or(info.value.nickName, p.nickName) else p.nickName)
    ensures q.avatarUrl == (if info.Some? then Or(info.value.avatarUrl, p.avatarUrl) else p.avatarUrl)
    ensures q == p.(lastActive := q.lastActive, nickName := q.nickName, avatarUrl := q.avatarUrl)
  {
    var info := if info.Some? then info.value else UserInfo("", "");
    p.(lastActive := now, nickName := Or(info.nickName, p.nickName), avatarUrl := Or(info.avatarUrl, p.avatarUrl))
  }

  /** The streak after a dream recorded on `today`: one more after a dream
      yesterday, a fresh 1 after a gap or with no earlier dream, unchanged
      on the same day (or when the last date lies in the future). */
  function Streak(lastDreamDate: Option<int>, streakDays: int, today: int): int {
    match lastDreamDate
    case None => 1
    case Some(last) =>
      var diff := today - last;
      if diff == 1 then streakDays + 1
      else if diff > 1 then 1
      else streakDays
  }

  /** The `recordDream` part of the update. */
  function Recorded(p: Profile, today: int): (q: Profile)
    ensures q.totalDreams == p.totalDreams + 1
    ensures q.lastDreamDate == Some(today)
    ensures q == p.(totalDreams := q.totalDreams, streakDays := q.streakDays, lastDreamDate := q.lastDreamDate)
  {
    p.(totalDreams := p.totalDreams + 1,
       streakDays := Streak(p.lastDreamDate, p.streakDays, today),
       lastDreamDate := Some(today))
  }

  /** The profile an existing caller ends with. */
  function UpdatedProfile(p: Profile, info: Option<UserInfo>, action: string, today: int, now: int): Profile {
    if action == RecordDream then Recorded(Touched(p, info, now), today) else Touched(p, info, now)
  }

  /** One call of the cloud function: the reply and the `users` collection
      afterwards. */
  function Handle(openid: string, info: Option<UserInfo>, action: string, today: int, now: int,
                users: map<string, Profile>, dbError: Option<string>): (r: Outcome)
    ensures openid == "" ==> r == Outcome(Failed(NoOpenid), users)
    ensures openid != "" && dbError.Some? ==> r == Outcome(Failed(dbError.value), users)
    ensures r.reply.Failed? <==> openid == "" || dbError.Some?
    ensures r.reply.Created? <==> !r.reply.Failed? && openid !in users
    ensures r.reply.Created? ==> r.users == users[openid := r.reply.user] && r.reply.user == NewProfile(openid, info, now)
    ensures r.reply.Updated? ==> r.users == users[openid := UpdatedProfile(users[openid], info, action, today, now)]
    ensures r.users.Keys == users.Keys || r.users.Keys == users.Keys + {openid}
    ensures forall id :: id in users && id != openid ==> id in r.users && r.users[id] == users[id]
  {
    if openid == "" then Outcome(Failed(NoOpenid), users)
    else if dbError.Some? then Outcome(Failed(dbError.value), users)
    else if openid !in users then
      var p := NewProfile(openid, info, now);
      Outcome(Created(p), users[openid := p])
    else
      Outcome(Updated, users[openid := UpdatedProfile(users[openid], info, action, today, now)])
  }

  /** The streak rule case by case. */
  lemma StreakCases(p: Profile, today: int)
    ensures p.lastDreamDate.None? ==> Recorded(p, today).streakDays == 1
    ensures p.lastDreamDate == Some(today - 1) ==> Recorded(p, today).streakDays == p.streakDays + 1
    ensures p.lastDreamDate.Some? && p.lastDreamDate.value < today - 1 ==> Recorded(p, today).streakDays == 1
    ensures p.lastDreamDate == Some(today) ==> Recorded(p, today).streakDays == p.streakDays
  {
  }

  /** Without `recordDream` the dream total, streak, dates and preferences
      stay as they were, and the new-user path ignores the action. */
  lemma OtherActions(openid: string, info: Option<UserInfo>, action: string, today: int, now: int,
                     users: map<string, Profile>)
    requires openid != "" && action != RecordDream
    ensures var r := Handle(openid, info, action, today, now, users, None);
            openid in users ==>
              var p, q := users[openid], r.users[openid];
              q.totalDreams == p.totalDreams && q.streakDays == p.streakDays
              && q.lastDreamDate == p.lastDreamDate && q.joinDate == p.joinDate
              && q.preferences == p.preferences && q.lastActive == now
    ensures openid !in users ==>
              Handle(openid, info, action, today, now, users, None)
              == Handle(openid, info, RecordDream, today, now, users, None)
  {
  }

  /** `n` consecutive days ending on `day` are recorded, and the day before
      them is not. */
  ghost predicate RunOf(days: set<int>, day: int, n: int) {
    n >= 0 && (forall x :: day - n < x <= day ==> x in days) && day - n !in days
  }

  /** The profile agrees with the set of days on which dreams were
      recorded: the last date is the latest of them, the streak is the
      length of the run of consecutive recorded days ending there, and the
      total counts at least one dream per day. */
  ghost predicate Tracks(p: Profile, days: set<int>) {
    p.totalDreams >= |days|
    && match p.lastDreamDate
       case None => days == {}
       case Some(last) => last in days && (forall x :: x in days ==> x <= last) && RunOf(days, last, p.streakDays)
  }

  lemma NewProfileTracks(openid: string, info: Option<UserInfo>, now: int)
    ensures Tracks(NewProfile(openid, info, now), {})
  {
  }

  /** Recording a dream on a day no earlier than the last one keeps the
      streak equal to the run of consecutive recorded days. */
  lemma {:induction false} RecordedTracks(p: Profile, days: set<int>, today: int)
    requires Tracks(p, days)
    requires p.lastDreamDate.Some? ==> p.lastDreamDate.value <= today
    ensures Tracks(Recorded(p, today), days + {today})
  {
    var q := Recorded(p, today);
    var days' := days + {today};
    assert |days'| <= |days| + 1 by {
      if today in days { assert days' == days; }
    }
    match p.lastDreamDate
    case None =>
      assert days' == {today};
      assert RunOf(days', today, 1);
    case Some(last) =>
      if last == today {
        assert days' == days;
      } else if last == today - 1 {
        assert q.streakDays == p.streakDays + 1;
        forall x | today - q.streakDays < x <= today
          ensures x in days'
        {
          if x != today {
            assert last - p.streakDays < x <= last;
          }
        }
        assert today - q.streakDays == last - p.streakDays;
      } else {
        assert q.streakDays == 1;
        assert today - 1 !in days;
      }
  }

  /** The call keeps the profile in step with the recorded days: a
      `recordDream` adds today to them, anything else leaves them. */
  lemma {:induction false} HandleTracks(openid: string, info: Option<UserInfo>, action: string, today: int, now: int,
                                      users: map<string, Profile>, dbError: Option<string>, days: set<int>)
    requires openid in users ==> Tracks(users[openid], days)
    requires openid !in users ==> days == {}
    requires openid in users && users[openid].lastDreamDate.Some? ==> users[openid].lastDreamDate.value <= today
    ensures var r := Handle(openid, info, action, today, now, users, dbError);
            var days' := if r.reply.Updated? && action == RecordDream then days + {today} else days;
            openid in r.users ==> Tracks(r.users[openid], days')
  {
    var r := Handle(openid, info, action, today, now, users, dbError);
    if r.reply.Created? {
      NewProfileTracks(openid, info, now);
    } else if r.reply.Updated? {
      var t := Touched(users[openid], info, now);
      assert Tracks(t, days);
      if action == RecordDream {
        RecordedTracks(t, days, today);
      }
    }
  }
}
