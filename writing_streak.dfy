/** The writing streak badge (src/components/WritingStreak.tsx). Calendar days are day
    numbers, so "yesterday" is `today - 1`; the persisted `writingStreak` record is a
    field. A day counts once the document holds at least 100 words. */
module WritingStreak {
  import opened Types
  import opened Text

  /** The persisted record; `lastWrittenDate` is absent before the first written day and
      after a broken streak. A missing record reads as `{0, null}`. */
  datatype StreakData = StreakData(currentStreak: int, lastWrittenDate: Option<int>)

  const NoStreak := StreakData(0, None)

  const MinWords := 100

  const Milestones: set<int> := {3, 7, 14, 30, 50, 100}

  /** The record after marking `today` as written. */
  function Marked(d: StreakData, today: int): (r: StreakData)
    ensures d.lastWrittenDate == Some(today) ==> r == d
    ensures d.lastWrittenDate != Some(today) ==> r.lastWrittenDate == Some(today)
    ensures d.lastWrittenDate == Some(today - 1) ==> r.currentStreak == d.currentStreak + 1
    ensures d.lastWrittenDate != Some(today) && d.lastWrittenDate != Some(today - 1) ==> r.currentStreak == 1
  {
    if d.lastWrittenDate == Some(today) then d
    else if d.lastWrittenDate == Some(today - 1) then StreakData(d.currentStreak + 1, Some(today))
    else StreakData(1, Some(today))
  }

  /** Marking fires the celebration only when it continues a streak into a milestone. */
  predicate Celebrates(d: StreakData, today: int) {
    d.lastWrittenDate == Some(today - 1) && d.currentStreak + 1 in Milestones
  }

  /** The streak shown on mount, and the record the check leaves behind. */
  function Checked(d: StreakData, today: int): (r: (int, StreakData))
    ensures d.lastWrittenDate == Some(today) || d.lastWrittenDate == Some(today - 1) ==> r == (d.currentStreak, d)
    ensures d.lastWrittenDate.Some? && d.lastWrittenDate != Some(today) && d.lastWrittenDate != Some(today - 1)
      ==> r == (0, NoStreak)
    ensures d.lastWrittenDate.None? ==> r == (0, d)
  {
    if d.lastWrittenDate == Some(today) || d.lastWrittenDate == Some(today - 1) then (d.currentStreak, d)
    else if d.lastWrittenDate.Some? then (0, NoStreak)
    else (0, d)
  }

  /** Marking the same day twice is marking it once. */
  lemma {:induction false} MarkIdempotent(d: StreakData, today: int)
    ensures Marked(Marked(d, today), today) == Marked(d, today)
  {
  }

  /** The record after writing on each of `n` consecutive days from `first` on. */
  function MarkDays(d: StreakData, first: int, n: nat): StreakData
    decreases n
  {
    if n == 0 then d else MarkDays(Marked(d, first), first + 1, n - 1)
  }

  /** Writing on `n` consecutive days extends a streak that reached the day before by `n`,
      and starts any other one afresh at `n`. */
  lemma {:induction false} ConsecutiveDays(d: StreakData, first: int, n: nat)
    requires n > 0
    ensures MarkDays(d, first, n).lastWrittenDate == Some(first + n - 1)
    ensures d.lastWrittenDate == Some(first - 1) ==> MarkDays(d, first, n).currentStreak == d.currentStreak + n
    ensures d.lastWrittenDate != Some(first - 1) && d.lastWrittenDate != Some(first)
      ==> MarkDays(d, first, n).currentStreak == n
    decreases n
  {
    if n > 1 {
      ConsecutiveDays(Marked(d, first), first + 1, n - 1);
    }
  }

  /** A day skipped breaks the streak: the check on the day after a gap shows 0. */
  lemma {:induction false} GapBreaksStreak(d: StreakData, day: int, later: int)
    requires later > day + 1
    ensures Checked(Marked(d, day), later).0 == 0
    ensures Marked(Checked(Marked(d, day), later).1, later).currentStreak == 1
  {
  }

  /** The badge's state and the persisted record. */
  class StreakBadge {
    var streak: int
    var showCelebration: bool
    var stored: StreakData

    constructor (saved: StreakData)
      ensures streak == 0 && !showCelebration && stored == saved
    {
      streak := 0;
      showCelebration := false;
      stored := saved;
    }

    /** The badge is rendered only for a streak other than 0. */
    predicate Visible()
      reads this
    {
      streak != 0
    }

    /** `checkAndUpdateStreak`, run on mount. */
    method CheckAndUpdate(today: int)
      modifies this`streak, this`stored
      ensures (streak, stored) == Checked(old(stored), today)
    {
      var d := stored;
      if d.lastWrittenDate == Some(today) {
        streak := d.currentStreak;
      } else if d.lastWrittenDate == Some(today - 1) {
        streak := d.currentStreak;
      } else if d.lastWrittenDate.Some? {
        streak := 0;
        stored := NoStreak;
      } else {
        streak := 0;
      }
    }

    /** `markTodayAsWritten`. */
    method MarkToday(today: int)
      modifies this`streak, this`stored, this`showCelebration
      ensures stored == Marked(old(stored), today)
      ensures old(stored).lastWrittenDate == Some(today) ==> streak == old(streak)
      ensures old(stored).lastWrittenDate != Some(today) ==> streak == stored.currentStreak
      ensures showCelebration == (old(showCelebration) || (old(stored).lastWrittenDate != Some(today) && Celebrates(old(stored), today)))
    {
      var d := stored;
      if d.lastWrittenDate != Some(today) {
        var newStreak := 1;
        if d.lastWrittenDate == Some(today - 1) {
          newStreak := d.currentStreak + 1;
          if newStreak in Milestones {
            showCelebration := true;
          }
        }
        streak := newStreak;
        stored := StreakData(newStreak, Some(today));
      }
    }

    /** The effect on the content: a day is marked once the content has 100 words. */
    method ContentChanged(content: string, today: int)
      modifies this`streak, this`stored, this`showCelebration
      ensures WordCount(content) < MinWords ==>
        streak == old(streak) && stored == old(stored) && showCelebration == old(showCelebration)
      ensures WordCount(content) >= MinWords ==> stored == Marked(old(stored), today)
      ensures WordCount(content) >= MinWords && old(stored).lastWrittenDate == Some(today) ==> streak == old(streak)
      ensures WordCount(content) >= MinWords && old(stored).lastWrittenDate != Some(today) ==> streak == stored.currentStreak
      ensures WordCount(content) >= MinWords ==>
        showCelebration == (old(showCelebration) || (old(stored).lastWrittenDate != Some(today) && Celebrates(old(stored), today)))
    {
      if WordCount(content) >= MinWords {
        MarkToday(today);
      }
    }

    /** The celebration's timer running out. */
    method CelebrationEnds()
      modifies this`showCelebration
      ensures !showCelebration
    {
      showCelebration := false;
    }
  }
}
