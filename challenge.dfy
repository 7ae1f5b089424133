/**
 * Challenge progress on the challenge details page
 * (src/pages/ChallengeDetailsPage.tsx): the day counter and completed-task
 * list held by the page, the `user_challenges` rows it writes, the badge it
 * awards at the end, and the static category x duration -> card file map.
 * Store calls are parameters: `updateOk`, `insertOk` say whether the write
 * succeeded; `badgeFound` is the badge the lookup returns (None on an error).
 */
module Challenge {
  import opened Js

  datatype Status = InProgress | Completed

  /** A `user_challenges` row of this user for this challenge. */
  datatype ProgressRow = ProgressRow(
    status: Status,
    currentDay: int,
    completedTasks: seq<Option<string>>,
    completedAt: Option<string>)

  datatype DailyTask = DailyTask(id: string, task: string)

  /** The loaded `challenges` row. */
  datatype ChallengeInfo = ChallengeInfo(id: string, durationDays: int, dailyTasks: seq<DailyTask>)

  /** The status the update writes for a new day count. */
  function StatusFor(newDay: int, durationDays: int): (s: Status)
    ensures s == Completed <==> newDay > durationDays
  {
    if newDay > durationDays then Completed else InProgress
  }

  /** The columns `completeTask` writes onto each matching row. */
  function Progressed(newTasks: seq<Option<string>>, newDay: int, durationDays: int, now: string)
    : (r: ProgressRow)
    ensures r.status == Completed <==> newDay > durationDays
    ensures r.completedAt.Some? <==> r.status == Completed
    ensures r.currentDay == newDay && r.completedTasks == newTasks
  {
    var done := newDay > durationDays;
    ProgressRow(StatusFor(newDay, durationDays), newDay, newTasks, if done then Some(now) else None)
  }

  /** `.update(values).eq('user_id', ..).eq('challenge_id', ..)`: every matching row. */
  function UpdateAll(rows: seq<ProgressRow>, values: ProgressRow): (r: seq<ProgressRow>)
    ensures |r| == |rows| && forall i :: 0 <= i < |r| ==> r[i] == values
  {
    seq(|rows|, _ => values)
  }

  /** A progress row the page can resume from: one task recorded per day passed. */
  predicate RowConsistent(r: ProgressRow) {
    r.currentDay >= 1 && |r.completedTasks| == r.currentDay - 1
  }

  /** What a completion changes: the page's day, task list and badge flag, and the rows. */
  datatype Progress = Progress(
    currentDay: int,
    completedTasks: seq<Option<string>>,
    showBadge: bool,
    rows: seq<ProgressRow>)

  /** One successful `completeTask(taskId)` on a challenge of the given duration. */
  function AfterCompletion(p: Progress, taskId: Option<string>, durationDays: int, now: string): (q: Progress)
    ensures q.currentDay == p.currentDay + 1 && q.completedTasks == p.completedTasks + [taskId]
    ensures q.showBadge <==> p.showBadge || q.currentDay > durationDays
    ensures |q.rows| == |p.rows|
    ensures forall i :: 0 <= i < |q.rows| ==>
              q.rows[i] == Progressed(q.completedTasks, q.currentDay, durationDays, now)
  {
    var newDay := p.currentDay + 1;
    var newTasks := p.completedTasks + [taskId];
    Progress(newDay, newTasks, p.showBadge || newDay > durationDays,
             UpdateAll(p.rows, Progressed(newTasks, newDay, durationDays, now)))
  }

  class ChallengeSession {
    var challenge: Option<ChallengeInfo>
    var currentDay: int
    var completedTasks: seq<Option<string>>
    var showBadge: bool
    /** The `user_challenges` rows for this user and challenge. */
    var rows: seq<ProgressRow>
    /** The badge ids inserted into `user_badges` for this user. */
    var userBadges: seq<string>
    /** Whether a progress row is known to exist; decides whether Start is offered. */
    var hasProgress: bool

    /** One task completed per day passed. */
    predicate Consistent()
      reads this
    {
      currentDay >= 1 && |completedTasks| == currentDay - 1
    }

    /** Every stored row can be resumed from. */
    predicate RowsConsistent()
      reads this
    {
      forall i :: 0 <= i < |rows| ==> RowConsistent(rows[i])
    }

    function Snapshot(): Progress
      reads this
    {
      Progress(currentDay, completedTasks, showBadge, rows)
    }

    /** The Start button is offered exactly while no progress row exists. */
    predicate ProgressTracked()
      reads this
    {
      hasProgress <==> rows != []
    }

    /** `fetchChallengeDetails` over the page's initial state (day 1, no tasks): with the
        challenge loaded and a user signed in, the progress query's `.single()` yields a
        row only when exactly one matches, and the page resumes from that row's day and
        task list; otherwise it stays at day 1 with no tasks. */
    constructor (challenge: Option<ChallengeInfo>, signedIn: bool, rows: seq<ProgressRow>,
                 userBadges: seq<string>)
      ensures challenge.Some? && signedIn && |rows| == 1 ==>
                currentDay == rows[0].currentDay && completedTasks == rows[0].completedTasks
      ensures !(challenge.Some? && signedIn && |rows| == 1) ==>
                currentDay == 1 && completedTasks == [] && Consistent()
      ensures (forall i :: 0 <= i < |rows| ==> RowConsistent(rows[i])) ==>
                Consistent() && RowsConsistent()
      ensures !showBadge && ProgressTracked()
      ensures this.challenge == challenge && this.rows == rows && this.userBadges == userBadges
    {
      this.challenge := challenge;
      if challenge.Some? && signedIn && |rows| == 1 {
        currentDay, completedTasks := rows[0].currentDay, rows[0].completedTasks;
      } else {
        currentDay, completedTasks := 1, [];
      }
      showBadge := false;
      this.rows, this.userBadges := rows, userBadges;
      hasProgress := rows != [];
    }

    /** `completeTask`: with no challenge loaded, or when the update fails, nothing changes.
        Otherwise every row gets the appended task list, the next day, and the status and
        completion time that say whether the next day is past the duration; the page
        follows, and only then is a badge awarded (a failed lookup or insert is swallowed)
        and shown. */
    method CompleteTask(taskId: Option<string>, updateOk: bool, now: string,
                        badgeFound: Option<string>, awardOk: bool)
      modifies this`currentDay, this`completedTasks, this`showBadge, this`rows, this`userBadges
      ensures old(challenge).None? || !updateOk ==>
                && currentDay == old(currentDay) && completedTasks == old(completedTasks)
                && showBadge == old(showBadge) && rows == old(rows) && userBadges == old(userBadges)
      ensures old(challenge).Some? && updateOk ==>
                var newDay := old(currentDay) + 1;
                var done := newDay > old(challenge).value.durationDays;
                && currentDay == newDay && completedTasks == old(completedTasks) + [taskId]
                && rows == UpdateAll(old(rows), Progressed(completedTasks, newDay,
                                                           old(challenge).value.durationDays, now))
                && showBadge == (done || old(showBadge))
                && userBadges == (if done && badgeFound.Some? && awardOk
                                  then old(userBadges) + [badgeFound.value] else old(userBadges))
      ensures old(challenge).Some? && updateOk ==>
                Snapshot() == AfterCompletion(old(Snapshot()), taskId, old(challenge).value.durationDays, now)
      ensures old(Consistent()) ==> Consistent()
      ensures old(Consistent()) && old(RowsConsistent()) ==> RowsConsistent()
      ensures old(ProgressTracked()) ==> ProgressTracked()
    {
      if challenge.None? {
        return;
      }
      var newTasks := completedTasks + [taskId];
      var newDay := currentDay + 1;
      var duration := challenge.value.durationDays;
      if !updateOk {
        return;
      }
      rows := UpdateAll(rows, Progressed(newTasks, newDay, duration, now));
      completedTasks := newTasks;
      currentDay := newDay;
      if newDay > duration {
        if badgeFound.Some? && awardOk {
          userBadges := userBadges + [badgeFound.value];
        }
        showBadge := true;
      }
    }

    /** `startChallenge`: insert an 'in_progress' row at day 1 with no tasks and, once the
        insert succeeds, put the page at day 1 with no tasks. The page then knows a
        progress row exists (the corrected Start condition; see StartOffered). */
    method StartChallenge(insertOk: bool)
      modifies this`currentDay, this`completedTasks, this`rows, this`hasProgress
      ensures old(challenge).None? || !insertOk ==>
                currentDay == old(currentDay) && completedTasks == old(completedTasks)
                && rows == old(rows) && hasProgress == old(hasProgress)
      ensures old(challenge).Some? && insertOk ==>
                && currentDay == 1 && completedTasks == []
                && rows == old(rows) + [ProgressRow(InProgress, 1, [], None)]
                && Consistent() && hasProgress
      ensures old(RowsConsistent()) ==> RowsConsistent()
      ensures old(ProgressTracked()) ==> ProgressTracked()
    {
      if challenge.None? {
        return;
      }
      if !insertOk {
        return;
      }
      rows := rows + [ProgressRow(InProgress, 1, [], None)];
      currentDay := 1;
      completedTasks := [];
      hasProgress := true;
    }
  }

  // ---------------------------------------------------------------------------
  // The Start button
  // ---------------------------------------------------------------------------

  /** `completeTask` called once for each entry of `ids`, every update succeeding. */
  function Replay(p: Progress, ids: seq<Option<string>>, durationDays: int, now: string): Progress
    decreases |ids|
  {
    if ids == [] then p else Replay(AfterCompletion(p, ids[0], durationDays, now), ids[1..], durationDays, now)
  }

  /** After successive completions the day has advanced once per task, the tasks are
      appended in order, the badge is shown once the last day passed the duration, the
      number of rows is unchanged, and every row holds the final day and task list. */
  lemma {:induction false} ReplayFrom(p: Progress, ids: seq<Option<string>>, durationDays: int,
                                      now: string)
    ensures var q := Replay(p, ids, durationDays, now);
            && q.currentDay == p.currentDay + |ids|
            && q.completedTasks == p.completedTasks + ids
            && (q.showBadge <==> p.showBadge || (ids != [] && q.currentDay > durationDays))
            && |q.rows| == |p.rows|
            && (ids != [] ==> forall i :: 0 <= i < |q.rows| ==>
                  q.rows[i] == Progressed(q.completedTasks, q.currentDay, durationDays, now))
    decreases |ids|
  {
    if ids != [] {
      var p1 := AfterCompletion(p, ids[0], durationDays, now);
      ReplayFrom(p1, ids[1..], durationDays, now);
      assert p.completedTasks + ids == p1.completedTasks + ids[1..] by {
        assert ids == [ids[0]] + ids[1..];
      }
    }
  }

  /** Completing tasks one after another from day 1 with no tasks: after n completions the
      day is n + 1 and the tasks are the ones completed, in order; the badge is shown
      exactly when n has reached the duration; and every row the user has is marked
      'completed', with a completion time, exactly from that completion on. */
  lemma {:induction false} CompletionSchedule(rows: seq<ProgressRow>, ids: seq<Option<string>>,
                                              durationDays: int, now: string)
    ensures var q := Replay(Progress(1, [], false, rows), ids, durationDays, now);
            && q.currentDay == |ids| + 1 && q.completedTasks == ids
            && (q.showBadge <==> ids != [] && |ids| >= durationDays)
            && |q.rows| == |rows|
            && (ids != [] ==> forall i :: 0 <= i < |q.rows| ==>
                  && (q.rows[i].status == Completed <==> |ids| >= durationDays)
                  && (q.rows[i].completedAt.Some? <==> |ids| >= durationDays)
                  && RowConsistent(q.rows[i]))
  {
    ReplayFrom(Progress(1, [], false, rows), ids, durationDays, now);
  }

  // ---------------------------------------------------------------------------
  // The Start button
  // ---------------------------------------------------------------------------

  /** The page as written shows Start when `!currentDay`, that is when the day is 0. */
  predicate StartShownAsWritten(currentDay: int)
    ensures currentDay >= 1 ==> !StartShownAsWritten(currentDay)
  {
    currentDay == 0
  }

  /** A user with no progress row opens the page at day 1, and the day only grows, so the
      written condition never offers Start. Every completion then succeeds while updating
      no row: the page advances and shows the badge at the end, but nothing is stored. */
  lemma {:induction false} StartNeverShown(ids: seq<Option<string>>, durationDays: int, now: string)
    ensures var q := Replay(Progress(1, [], false, []), ids, durationDays, now);
            && !StartShownAsWritten(1) && !StartShownAsWritten(q.currentDay)
            && q.rows == []
            && q.currentDay == |ids| + 1 && q.completedTasks == ids
            && (q.showBadge <==> ids != [] && |ids| >= durationDays)
  {
    ReplayFrom(Progress(1, [], false, []), ids, durationDays, now);
  }

  /** The corrected condition: Start is offered while no progress row exists. */
  predicate StartOffered(hasProgress: bool) {
    !hasProgress
  }

  /** With the corrected condition, once the start row is inserted, Start stays withdrawn through any completions, and every row follows
      the page: it holds the page's day and exactly the tasks completed since the start. */
  lemma {:induction false} StartOfferedUntilStarted(ids: seq<Option<string>>, durationDays: int,
                                                    now: string)
    ensures var q := Replay(Progress(1, [], false, [ProgressRow(InProgress, 1, [], None)]),
                            ids, durationDays, now);
            && !StartOffered(q.rows != [])
            && |q.rows| == 1
            && q.rows[0].currentDay == q.currentDay == |ids| + 1
            && q.rows[0].completedTasks == ids
            && RowConsistent(q.rows[0])
  {
    ReplayFrom(Progress(1, [], false, [ProgressRow(InProgress, 1, [], None)]), ids, durationDays, now);
  }

  // ---------------------------------------------------------------------------
  // Today's task
  // ---------------------------------------------------------------------------

  /** The "Today's Task" section is drawn while the day is within the duration. */
  predicate TodayShown(currentDay: int, durationDays: int)
    ensures TodayShown(currentDay, durationDays) <==> StatusFor(currentDay, durationDays) == InProgress
  {
    currentDay <= durationDays
  }

  /** `challenge.daily_tasks[currentDay - 1]?.task`: undefined (None) off either end. */
  function TodayTask(dailyTasks: seq<DailyTask>, currentDay: int): (r: Option<DailyTask>)
    ensures r.Some? <==> 1 <= currentDay <= |dailyTasks|
    ensures r.Some? ==> r.value == dailyTasks[currentDay - 1]
  {
    if 1 <= currentDay <= |dailyTasks| then Some(dailyTasks[currentDay - 1]) else None
  }

  /** With a task listed for every day, a consistent page that shows today's section shows
      the task right after the ones completed so far. */
  lemma TodayIsNextTask(dailyTasks: seq<DailyTask>, durationDays: int,
                        currentDay: int, completedTasks: seq<Option<string>>)
    requires |dailyTasks| >= durationDays
    requires currentDay >= 1 && |completedTasks| == currentDay - 1
    requires TodayShown(currentDay, durationDays)
    ensures TodayTask(dailyTasks, currentDay) == Some(dailyTasks[|completedTasks|])
  {
  }

  // ---------------------------------------------------------------------------
  // challengeFileMap and the card links
  // ---------------------------------------------------------------------------

  const CardsRoot: string := "/all_challenges_cards/"

  /** `/all_challenges_cards/<folder>_Cards/<stem>_<days>days.html` */
  function CardPath(folder: string, stem: string, days: string): string {
    CardsRoot + folder + "_Cards/" + stem + "_" + days + "days.html"
  }

  /** The folder and file-stem spellings of each category's entry, as the map writes them
      (the same for all three durations); None for any other key. */
  function CardNames(category: string): (r: Option<(string, string)>)
    ensures r.Some? <==> category in Categories
  {
    if category == "health" then Some(("Health_and_Wealthness", "health_and_wealthness"))
    else if category == "fitness" then Some(("Fitness", "fitness"))
    else if category == "coding" then Some(("Coding_Skills", "coding_skills"))
    else if category == "mindfulness" then Some(("Mindfullness", "mindfullness"))
    else if category == "productivity" then Some(("Produdctivity", "productivity"))
    else if category == "relationships" then Some(("Relationship", "relationship"))
    else None
  }

  const Categories: set<string> :=
    {"health", "fitness", "coding", "mindfulness", "productivity", "relationships"}

  /** The duration keys of every entry, with the text the file names carry. */
  function DurationKey(days: int): Option<string> {
    if days == 30 then Some("30")
    else if days == 60 then Some("60")
    else if days == 100 then Some("100")
    else None
  }

  /** `challengeFileMap[category]?.[days] || '#'`: a link under the cards folder exactly for
      the map's six categories and three durations. */
  function Href(category: string, days: int): (r: string)
    ensures r != "#" <==> category in Categories && DurationKey(days).Some?
    ensures r != "#" ==> |r| > |CardsRoot| && r[..|CardsRoot|] == CardsRoot
  {
    var names := CardNames(category);
    var key := DurationKey(days);
    if names.Some? && key.Some? then CardPath(names.value.0, names.value.1, key.value) else "#"
  }

  /** A card link exists exactly for the six categories and the durations 30, 60 and 100;
      every other pair falls back to '#'. A link names the category's folder and a file
      whose name ends in the duration written in decimal. */
  lemma HrefDefined(category: string, days: int)
    ensures Href(category, days) != "#" <==> category in Categories && (days == 30 || days == 60 || days == 100)
    ensures Href(category, days) != "#" ==>
              var names := CardNames(category).value;
              Href(category, days) == CardPath(names.0, names.1, IntToString(days))
  {
    if CardNames(category).Some? && DurationKey(days).Some? {
      DurationTexts();
      var p := Href(category, days);
      assert p[0] == '/';
    }
  }

  lemma DurationTexts()
    ensures IntToString(30) == "30" && IntToString(60) == "60" && IntToString(100) == "100"
  {
    assert NatToString(30) == NatToString(3) + [DigitChar(0)];
    assert NatToString(60) == NatToString(6) + [DigitChar(0)];
    assert NatToString(10) == NatToString(1) + [DigitChar(0)];
    assert NatToString(100) == NatToString(10) + [DigitChar(0)];
  }

  /** `ch.category === interest && ch.duration_days.toString() === duration` */
  predicate IsSelected(category: string, days: int, interest: Option<string>,
                       duration: Option<string>)
    ensures IsSelected(category, days, interest, duration) ==>
              interest == Some(category) && duration.Some? && duration.value != ""
    ensures IsSelected(category, days, interest, duration) && days >= 0 ==>
              AllDigits(duration.value)
  {
    interest == Some(category) && duration == Some(IntToString(days))
  }

  /** At most one duration of a category is highlighted for a given query. */
  lemma SelectedDurationUnique(category: string, d1: nat, d2: nat,
                               interest: Option<string>, duration: Option<string>)
    requires IsSelected(category, d1, interest, duration)
    requires IsSelected(category, d2, interest, duration)
    ensures d1 == d2
  {
    NatToStringInjective(d1, d2);
  }
}
