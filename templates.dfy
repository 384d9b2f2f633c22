/**
 * The Markdown bodies a new note is created with (main.ts:79-85): a
 * level-one header naming the day or the week, then fixed level-two
 * sections, each holding one empty bullet.
 */
module NoteTemplates {
  import opened Text

  const READING_NOTES := "## Reading Notes"
  const THOUGHTS := "## Thoughts"
  const SUMMARY := "## Summary"
  const ACHIEVEMENTS := "## Achievements"
  const NEXT_WEEKS_GOALS := "## Next Week's Goals"

  /** One empty bullet under a section header. */
  const EMPTY_BULLET := "\n- "

  /** The header line of a daily note. */
  function DailyHeader(date: string): string {
    "# " + date
  }

  /** The header line of a weekly note: `# Week <n>, <year>`. */
  function WeeklyHeader(weekNumber: int, year: int): string {
    "# Week " + IntToString(weekNumber) + ", " + IntToString(year)
  }

  /** What follows the header of every daily note. */
  const DAILY_SECTIONS := "\n\n" + READING_NOTES + EMPTY_BULLET + "\n\n" + THOUGHTS + EMPTY_BULLET

  /** What follows the header of every weekly note. */
  const WEEKLY_SECTIONS := "\n\n" + SUMMARY + EMPTY_BULLET + "\n\n" + ACHIEVEMENTS + EMPTY_BULLET
                           + "\n\n" + NEXT_WEEKS_GOALS + EMPTY_BULLET

  lemma DailySectionsHoldHeadings()
    ensures Contains(DAILY_SECTIONS, READING_NOTES) && Contains(DAILY_SECTIONS, THOUGHTS)
  {
    assert OccursAt(DAILY_SECTIONS, READING_NOTES, 2);
    assert OccursAt(DAILY_SECTIONS, THOUGHTS, 23);
  }

  lemma WeeklySectionsHoldHeadings()
    ensures Contains(WEEKLY_SECTIONS, SUMMARY) && Contains(WEEKLY_SECTIONS, ACHIEVEMENTS)
    ensures Contains(WEEKLY_SECTIONS, NEXT_WEEKS_GOALS)
  {
    assert OccursAt(WEEKLY_SECTIONS, SUMMARY, 2);
    assert OccursAt(WEEKLY_SECTIONS, ACHIEVEMENTS, 17);
    assert OccursAt(WEEKLY_SECTIONS, NEXT_WEEKS_GOALS, 37);
  }

  /** The body of a new daily note: its header line, then its sections. */
  function DailyNoteTemplate(date: string): string {
    DailyHeader(date) + DAILY_SECTIONS
  }

  /** The body of a new weekly note: its header line, then its sections. */
  function WeeklyNoteTemplate(weekNumber: int, year: int): string {
    WeeklyHeader(weekNumber, year) + WEEKLY_SECTIONS
  }

  /**
   * A daily note opens with the header line `# <date>` and holds the
   * sections "Reading Notes" and "Thoughts".
   */
  lemma DailyNoteTemplateShape(date: string)
    ensures var body := DailyNoteTemplate(date);
            && StartsWith(body, "# " + date + "\n")
            && Contains(body, READING_NOTES) && Contains(body, THOUGHTS)
  {
    var body := DailyNoteTemplate(date);
    DailySectionsHoldHeadings();
    ContainsInSuffix(DailyHeader(date), DAILY_SECTIONS, READING_NOTES);
    ContainsInSuffix(DailyHeader(date), DAILY_SECTIONS, THOUGHTS);
    assert body[..|"# " + date + "\n"|] == "# " + date + "\n";
  }

  /**
   * A weekly note opens with the header line `# Week <n>, <year>` and holds
   * the sections "Summary", "Achievements" and "Next Week's Goals".
   */
  lemma WeeklyNoteTemplateShape(weekNumber: int, year: int)
    ensures var body := WeeklyNoteTemplate(weekNumber, year);
            && StartsWith(body, "# Week " + IntToString(weekNumber) + ", " + IntToString(year) + "\n")
            && Contains(body, SUMMARY) && Contains(body, ACHIEVEMENTS) && Contains(body, NEXT_WEEKS_GOALS)
  {
    var h := WeeklyHeader(weekNumber, year);
    var body := WeeklyNoteTemplate(weekNumber, year);
    WeeklySectionsHoldHeadings();
    ContainsInSuffix(h, WEEKLY_SECTIONS, SUMMARY);
    ContainsInSuffix(h, WEEKLY_SECTIONS, ACHIEVEMENTS);
    ContainsInSuffix(h, WEEKLY_SECTIONS, NEXT_WEEKS_GOALS);
    assert body[..|h + "\n"|] == h + "\n";
  }

  /** Apart from the header line, every daily note starts out the same. */
  lemma DailyNoteTemplateVariesOnlyInHeader(date1: string, date2: string)
    ensures DailyNoteTemplate(date1)[|DailyHeader(date1)|..] == DailyNoteTemplate(date2)[|DailyHeader(date2)|..]
  {
    assert DailyNoteTemplate(date1)[|DailyHeader(date1)|..] == DAILY_SECTIONS;
    assert DailyNoteTemplate(date2)[|DailyHeader(date2)|..] == DAILY_SECTIONS;
  }

  /** Apart from the header line, every weekly note starts out the same. */
  lemma WeeklyNoteTemplateVariesOnlyInHeader(week1: int, year1: int, week2: int, year2: int)
    ensures WeeklyNoteTemplate(week1, year1)[|WeeklyHeader(week1, year1)|..]
         == WeeklyNoteTemplate(week2, year2)[|WeeklyHeader(week2, year2)|..]
  {
    assert WeeklyNoteTemplate(week1, year1)[|WeeklyHeader(week1, year1)|..] == WEEKLY_SECTIONS;
    assert WeeklyNoteTemplate(week2, year2)[|WeeklyHeader(week2, year2)|..] == WEEKLY_SECTIONS;
  }
}
