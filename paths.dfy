/**
 * Where the planner keeps its notes: the vault-relative paths of today's
 * daily note and of this week's weekly note (main.ts:38-39).
 */
module NotePaths {
  import opened Text

  /** The folder part of a path: nothing for the vault root (an empty folder setting), otherwise the folder and a slash. */
  function FolderPrefix(location: string): string {
    if location != "" then location + "/" else ""
  }

  /** The daily note's file name: today's formatted date with the Markdown extension. */
  function DailyFileName(today: string): string {
    today + ".md"
  }

  /**
   * The daily note's path, from today's date already formatted with the
   * daily note format and the daily note folder.
   */
  function DailyNotePath(location: string, today: string): string {
    FolderPrefix(location) + DailyFileName(today)
  }

  /** The weekly note's file name, `Week-<week>-<year>.md`. */
  function WeeklyFileName(weekNumber: int, year: int): string {
    "Week-" + IntToString(weekNumber) + "-" + IntToString(year) + ".md"
  }

  /** The weekly note's path, from the ISO week number, the calendar year and the weekly note folder. */
  function WeeklyNotePath(location: string, weekNumber: int, year: int): string {
    FolderPrefix(location) + WeeklyFileName(weekNumber, year)
  }

  /** An empty folder setting puts the note at the vault root; any other puts it under `<folder>/`. */
  lemma FolderPrefixShape(location: string)
    ensures location == "" ==> FolderPrefix(location) == ""
    ensures location != "" ==> |FolderPrefix(location)| == |location| + 1
                               && StartsWith(FolderPrefix(location), location)
                               && FolderPrefix(location)[|location|] == '/'
  {
    if location != "" {
      ConcatEnds(location, "/");
    }
  }

  /**
   * The daily path is `<folder>/<today>.md`, or `<today>.md` for an empty
   * folder setting: it starts with the folder prefix and ends with today's
   * date and the Markdown extension, with nothing in between.
   */
  lemma DailyNotePathShape(location: string, today: string)
    ensures var path := DailyNotePath(location, today);
            && StartsWith(path, FolderPrefix(location))
            && EndsWith(path, today + ".md")
            && |path| == |FolderPrefix(location)| + |today| + 3
  {
    ConcatEnds(FolderPrefix(location), DailyFileName(today));
  }

  /**
   * The weekly path is `<folder>/Week-<n>-<year>.md`, or `Week-<n>-<year>.md`
   * for an empty folder setting.
   */
  lemma WeeklyNotePathShape(location: string, weekNumber: int, year: int)
    ensures var path := WeeklyNotePath(location, weekNumber, year);
            && StartsWith(path, FolderPrefix(location))
            && EndsWith(path, "Week-" + IntToString(weekNumber) + "-" + IntToString(year) + ".md")
            && |path| == |FolderPrefix(location)| + |WeeklyFileName(weekNumber, year)|
  {
    ConcatEnds(FolderPrefix(location), WeeklyFileName(weekNumber, year));
  }

  /** Every note path names a Markdown file. */
  lemma NotePathsAreMarkdown(location: string, today: string, weekNumber: int, year: int)
    ensures EndsWith(DailyNotePath(location, today), ".md")
    ensures EndsWith(WeeklyNotePath(location, weekNumber, year), ".md")
  {
    DailyNotePathShape(location, today);
    ConcatEnds(today, ".md");
    EndsWithTransitive(DailyNotePath(location, today), today + ".md", ".md");
    var name := WeeklyFileName(weekNumber, year);
    WeeklyNotePathShape(location, weekNumber, year);
    ConcatEnds("Week-" + IntToString(weekNumber) + "-" + IntToString(year), ".md");
    EndsWithTransitive(WeeklyNotePath(location, weekNumber, year), name, ".md");
  }

  /** Within one folder, different days get different daily notes. */
  lemma DailyNotePathInjective(location: string, today1: string, today2: string)
    requires DailyNotePath(location, today1) == DailyNotePath(location, today2)
    ensures today1 == today2
  {
    var p := DailyNotePath(location, today1);
    DailyNotePathShape(location, today1);
    DailyNotePathShape(location, today2);
    var f := |FolderPrefix(location)|;
    assert today1 == p[f..f + |today1|];
    assert today2 == p[f..f + |today2|];
  }

  /** Past `Week-`, a weekly file name is the week number, `-`, the year and `.md`. */
  lemma WeeklyFileNameAfterWeek(weekNumber: int, year: int)
    ensures WeeklyFileName(weekNumber, year)[5..] == IntToString(weekNumber) + "-" + (IntToString(year) + ".md")
  {
    var w, y := IntToString(weekNumber), IntToString(year);
    assert WeeklyFileName(weekNumber, year) == "Week-" + (w + "-" + (y + ".md"));
  }

  /**
   * Two weekly file names are equal only for the same week and year. The
   * week number ends at the first `-` after `Week-`, since a written integer
   * holds no `-` past its first character.
   */
  lemma WeeklyFileNameInjective(week1: int, year1: int, week2: int, year2: int)
    requires WeeklyFileName(week1, year1) == WeeklyFileName(week2, year2)
    ensures week1 == week2 && year1 == year2
  {
    WeeklyFileNameAfterWeek(week1, year1);
    WeeklyFileNameAfterWeek(week2, year2);
    var y1, y2 := IntToString(year1), IntToString(year2);
    IntBeforeDashInjective(week1, week2, y1 + ".md", y2 + ".md");
    assert y1 == (y1 + ".md")[..|y1|] == y2;
    IntToStringInjective(year1, year2);
  }

  /** Within one folder, different (week, year) pairs get different weekly notes. */
  lemma WeeklyNotePathInjective(location: string, week1: int, year1: int, week2: int, year2: int)
    requires WeeklyNotePath(location, week1, year1) == WeeklyNotePath(location, week2, year2)
    ensures week1 == week2 && year1 == year2
  {
    var p := WeeklyNotePath(location, week1, year1);
    var f := |FolderPrefix(location)|;
    ConcatEnds(FolderPrefix(location), WeeklyFileName(week1, year1));
    ConcatEnds(FolderPrefix(location), WeeklyFileName(week2, year2));
    assert WeeklyFileName(week1, year1) == p[f..] == WeeklyFileName(week2, year2);
    WeeklyFileNameInjective(week1, year1, week2, year2);
  }

  /** Today's date 2024-03-15 at the vault root gives `2024-03-15.md`. */
  lemma DailyNotePathAtRoot()
    ensures DailyNotePath("", "2024-03-15") == "2024-03-15.md"
  {
  }

  lemma WeekAndYearDigits()
    ensures IntToString(11) == "11" && IntToString(2024) == "2024"
  {
    assert NatToString(11) == NatToString(1) + [DigitChar(1)];
    assert NatToString(20) == NatToString(2) + [DigitChar(0)];
    assert NatToString(202) == NatToString(20) + [DigitChar(2)];
    assert NatToString(2024) == NatToString(202) + [DigitChar(4)];
  }

  /** ISO week 11 of 2024 in folder `Weekly` gives `Weekly/Week-11-2024.md`. */
  lemma WeeklyNotePathInFolder()
    ensures WeeklyNotePath("Weekly", 11, 2024) == "Weekly/Week-11-2024.md"
  {
    WeekAndYearDigits();
    assert WeeklyFileName(11, 2024) == "Week-11-2024.md";
    assert FolderPrefix("Weekly") == "Weekly/";
  }
}
