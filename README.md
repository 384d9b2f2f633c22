# Note planner model

A Dafny model of the note-planning plugin in `main.ts`. When it loads, the
plugin merges its stored configuration over the defaults. It then builds the
path of today's daily note and of this ISO week's weekly note. Each note that
is missing from the vault is created from a fixed Markdown template, and
both notes are opened in new editor panes. A settings panel edits the
configuration and shows the emoji list as comma-separated text, which it
parses back. An emoji is picked at random from that list, but the pick is
never used.

Modules, leaves first:

- `Wrappers` (`wrappers.dfy`): `Option`, which stands for JavaScript's
  `null`/`undefined`.
- `Text` (`text.dfy`): the JavaScript string operations the plugin uses.
  These are `String.prototype.trim` (with ECMAScript's set of whitespace and
  line-terminator characters), `split` on one character, `join`, and how an
  integer is written inside a template literal.
- `NotePaths` (`paths.dfy`): the daily and weekly note paths.
- `NoteTemplates` (`templates.dfy`): the two Markdown bodies.
- `PluginSettings` (`settings.dfy`): the configuration record and its
  defaults. It also holds the `Object.assign` merge and the emoji list's
  display and parse.
- `NotePlanner` (`planner.dfy`): the plugin object.
  - `MyNotesPlugin` is a class. Its fields are the settings, the vault (a
    map from path to content), the log of opened paths and the record last
    saved.
  - The spec function `EnsureNotes` describes the create-if-absent step on
    vault values. The lemmas about the step are stated over this function.
  - `PickEmoji` models the emoji pick.

The clock and the date library are parameters. `formatNow` formats the
current moment with a date format. `weekNumber` and `year` are the values of
`isoWeek()` and `year()`. `Math.random()` is a real `random` in [0, 1).

## Model

| member | source | states |
|---|---|---|
| Text.Trim | main.ts:165 | `String.prototype.trim`: the input with its leading and trailing whitespace removed (what this means is stated by the lemmas below) |
| Text.TrimStartIsSuffix | main.ts:165 | trimming the front leaves a suffix of the input that does not start with whitespace, and only whitespace was removed |
| Text.TrimEndIsPrefix | main.ts:165 | trimming the end leaves a prefix of the input that does not end with whitespace, and only whitespace was removed |
| Text.TrimIsCore | main.ts:165 | `trim()` returns a slice of its input with whitespace at neither end, and everything cut off on either side is whitespace |
| Text.TrimOfTrimmed | main.ts:165 | a string with no whitespace at its ends is left unchanged by `trim()` |
| Text.TrimIgnoresLeadingWhitespace | main.ts:163-165 | the space that `join(', ')` puts before an entry is removed by `trim()` |
| Text.TrimIdempotent | main.ts:165 | trimming twice is the same as trimming once |
| Text.TrimAddsNothing | main.ts:165 | a character absent from the input is absent after trimming (a trimmed piece stays comma-free) |
| Text.TrimAll | main.ts:165 | `map(trim)` keeps the number of entries |
| Text.TrimAllAt | main.ts:165 | entry i of `map(trim)` is entry i of the input, trimmed |
| Text.Split | main.ts:165 | `split(',')` gives one more piece than there are commas, so empty text gives one piece, and no piece holds a comma |
| Text.Join | main.ts:163 | `Array.prototype.join(sep)`: the entries in order, with `sep` between each pair, and the empty string for an empty list |
| Text.JoinSplit | main.ts:163-165 | joining the pieces of a split with the same separator gives back the text |
| Text.SplitJoin | main.ts:163-165 | joining a non-empty list of comma-free parts with `,` and splitting on `,` gives back the parts (an empty list is not claimed: it joins to `""`, which splits to `[""]`) |
| Text.SplitJoinTrim | main.ts:163-165 | joining a non-empty list of trimmed, comma-free parts with a comma plus whitespace, splitting on the comma and trimming each piece gives back the parts |
| Text.NatToString | main.ts:39 | a natural number is written as a non-empty string of decimal digits without a leading zero |
| Text.DecimalRoundTrip | main.ts:39 | reading back the digits written for n gives n |
| Text.IntToString | main.ts:39 | a number in a template literal is written non-empty, and starts with `-` exactly when it is negative |
| Text.IntToStringInjective | main.ts:39 | different integers are written differently |
| Text.DigitsAfterSign | main.ts:39 | in a written integer every character after the first is a digit, so `-` can appear only as the sign |
| Text.IntBeforeDashInjective | main.ts:39 | a written integer followed by `-` and a rest determines both the integer and the rest |
| NotePaths.FolderPrefix | main.ts:38-39 | the folder part of a note path: empty for an empty folder setting, else the folder followed by `/` |
| NotePaths.DailyNotePath | main.ts:38 | the daily note path: folder part, then the formatted date, then `.md` |
| NotePaths.WeeklyNotePath | main.ts:39 | the weekly note path: folder part, then `Week-<n>-<year>.md` |
| NotePaths.FolderPrefixShape | main.ts:38-39 | an empty folder setting means the vault root; any other folder setting becomes `<folder>/` in front of the file name |
| NotePaths.DailyNotePathShape | main.ts:38 | the daily path is the folder prefix followed by `<today>.md` and nothing else |
| NotePaths.WeeklyNotePathShape | main.ts:39 | the weekly path is the folder prefix followed by `Week-<n>-<year>.md` and nothing else |
| NotePaths.NotePathsAreMarkdown | main.ts:38-39 | both note paths end in `.md` |
| NotePaths.DailyNotePathInjective | main.ts:38 | within one folder, different formatted dates give different daily notes |
| NotePaths.WeeklyFileNameInjective | main.ts:39 | weekly file names coincide only for the same week and year, for every pair of integers |
| NotePaths.WeeklyNotePathInjective | main.ts:39 | within one folder, different (week, year) pairs give different weekly notes |
| NotePaths.DailyNotePathAtRoot | main.ts:38 | date `2024-03-15` at the vault root gives `2024-03-15.md` |
| NotePaths.WeeklyNotePathInFolder | main.ts:39 | week 11 of 2024 in folder `Weekly` gives `Weekly/Week-11-2024.md` |
| NoteTemplates.DailyNoteTemplate | main.ts:79-81 | the daily body: the header `# <date>`, then the `## Reading Notes` and `## Thoughts` sections, each with one empty bullet |
| NoteTemplates.WeeklyNoteTemplate | main.ts:83-85 | the weekly body: the header `# Week <n>, <year>`, then the `## Summary`, `## Achievements` and `## Next Week's Goals` sections, each with one empty bullet |
| NoteTemplates.DailySectionsHoldHeadings | main.ts:80 | the fixed part of the daily body holds `## Reading Notes` and `## Thoughts` |
| NoteTemplates.WeeklySectionsHoldHeadings | main.ts:84 | the fixed part of the weekly body holds `## Summary`, `## Achievements` and `## Next Week's Goals` |
| NoteTemplates.DailyNoteTemplateShape | main.ts:79-81 | the daily body opens with the line `# <date>` and holds both daily sections |
| NoteTemplates.WeeklyNoteTemplateShape | main.ts:83-85 | the weekly body opens with the line `# Week <n>, <year>` and holds all three weekly sections |
| NoteTemplates.DailyNoteTemplateVariesOnlyInHeader | main.ts:80 | two daily bodies differ only in their header line |
| NoteTemplates.WeeklyNoteTemplateVariesOnlyInHeader | main.ts:84 | two weekly bodies differ only in their header line |
| PluginSettings.DEFAULT_SETTINGS | main.ts:92-99 | the defaults: format `YYYY-MM-DD`, weekly format `Week #`, both folders empty (vault root), week start `Monday`, and the six default emojis |
| PluginSettings.MergeWithDefaults | main.ts:22 | key by key, a key present in the stored record overrides the default; every other key keeps its `DEFAULT_SETTINGS` value; nothing stored means all defaults |
| PluginSettings.MergeOfNothingIsDefaults | main.ts:22 | loading with no stored data, or with an empty record, yields exactly the defaults |
| PluginSettings.MergeOfDailyLocationOnly | main.ts:22 | a record holding only the daily note folder changes only that key |
| PluginSettings.ToStored | main.ts:25-27 | the record handed to storage holds every key with the configuration's value |
| PluginSettings.MergeOfSavedRecord | main.ts:22-27 | loading what was saved gives back the saved configuration |
| PluginSettings.EmojiListText | main.ts:163 | the text the panel shows for the emoji list: the entries joined with `, ` |
| PluginSettings.ParseEmojiList | main.ts:165 | the parsed emoji list has one entry per comma plus one, and every entry is comma-free and trimmed |
| PluginSettings.ParseEmptyText | main.ts:165 | an empty text area gives the list `[""]` |
| PluginSettings.EmojiListRoundTrip | main.ts:163-165 | showing a non-empty list of trimmed, comma-free emojis and parsing the text reproduces the list |
| PluginSettings.ParsedEmojiListIsStable | main.ts:163-165 | whatever was typed, showing the parsed list and parsing it again changes nothing |
| NotePlanner.EnsureNote | main.ts:42-53 | afterwards the path exists; an existing note keeps its content; a missing one gets the template; no other path is added or changed |
| NotePlanner.EnsureNotes | main.ts:42-53 | the vault after create-if-absent: first the daily note with its template, then the weekly note with its template |
| NotePlanner.EnsureNotesCreatesBoth | main.ts:42-53 | afterwards the vault's paths are exactly the old ones plus the daily and weekly paths |
| NotePlanner.EnsureNotesKeepsExisting | main.ts:42-53 | every note that existed keeps its content |
| NotePlanner.EnsureNotesFillsMissing | main.ts:42-53 | a missing daily note gets the daily template; a missing weekly note gets the weekly template unless its path is the daily path |
| NotePlanner.EnsureNotesIdempotent | main.ts:42-53 | a second run with the same date, week and year leaves the vault unchanged |
| NotePlanner.PickIndex | main.ts:74 | `Math.floor(Math.random() * n)` is a valid index into a non-empty list |
| NotePlanner.EveryIndexCanBePicked | main.ts:74 | every index of the list is picked for some random value |
| NotePlanner.PickEmoji | main.ts:72-77 | a non-empty pool yields one of its entries, and a one-entry pool always yields that entry; an empty pool yields `undefined` |
| NotePlanner.MyNotesPlugin.constructor | main.ts:4 | a new plugin over a vault has opened nothing and saved nothing |
| NotePlanner.MyNotesPlugin.LoadSettings | main.ts:21-23 | the settings become the stored record merged over the defaults |
| NotePlanner.MyNotesPlugin.SaveSettings | main.ts:25-27 | the whole configuration is handed to storage |
| NotePlanner.MyNotesPlugin.FileAt | main.ts:42 | a lookup finds a note exactly when the path is in the vault, and returns its content |
| NotePlanner.MyNotesPlugin.Create | main.ts:44 | a note is added exactly when nothing is at its path; otherwise the vault is unchanged |
| NotePlanner.MyNotesPlugin.EnsureNoteExists | main.ts:42-53 | the vault becomes `EnsureNote` of the old vault |
| NotePlanner.MyNotesPlugin.OpenNoteInActiveLeaf | main.ts:62-70 | a path is opened exactly when it resolves in the vault; otherwise nothing is opened |
| NotePlanner.MyNotesPlugin.CreateAndOpenNotes | main.ts:29-60 | the vault becomes `EnsureNotes` for today's date (formatted with the configured format), week and year; the daily and then the weekly path are opened |
| NotePlanner.MyNotesPlugin.AddRandomEmojiToTitle | main.ts:72-77 | the pick is an entry of the configured list whenever that list is non-empty, and nothing changes |
| NotePlanner.MyNotesPlugin.OnLoad | main.ts:5-19 | loads the settings, ensures and opens both notes under the loaded settings, and saves nothing |
| NotePlanner.MyNotesPlugin.SetDailyNoteFormat | main.ts:120-123 | only the daily note format changes, and the whole record is saved |
| NotePlanner.MyNotesPlugin.SetWeeklyNoteFormat | main.ts:131-134 | only the weekly note format changes, and the whole record is saved |
| NotePlanner.MyNotesPlugin.SetDailyNoteLocation | main.ts:142-145 | only the daily note folder changes, and the whole record is saved |
| NotePlanner.MyNotesPlugin.SetWeeklyNoteLocation | main.ts:153-156 | only the weekly note folder changes, and the whole record is saved |
| NotePlanner.MyNotesPlugin.EmojiFieldText | main.ts:163 | the text shown for a well-formed emoji list parses back to that list |
| NotePlanner.MyNotesPlugin.SetEmojis | main.ts:164-167 | only the emoji list changes, to the parse of the typed text, and the whole record is saved |

## Left out

- The clock and the date library (`moment().format`, `isoWeek()`, `year()`, main.ts:33-35) are not modelled. They become the parameters `formatNow`, `weekNumber` and `year`. ISO-8601 week numbering is not modelled. Nor is the mismatch between the ISO week-year and the calendar year in the first and last days of a year; the calendar year is passed through as given.
- `Math.random()` is a real in [0, 1). The floating-point rounding of `random * length` is not modelled: the product is exact.
- Host vault failures are not modelled. These include a missing parent folder and I/O errors. Either would make `vault.create` reject, which aborts the rest of `createAndOpenNotes`. In the model, `Create` fails only when the path is taken, and then it returns `false` where the host throws.
- `getAbstractFileByPath` can also find a folder. The model's vault holds only notes.
- Editor panes are not modelled. `workspace.getLeaf(true)` and `leaf.openFile` become an entry in the log of opened paths.
- Host storage is not modelled beyond the record's keys. `loadData`/`saveData` become an optional stored record and the last saved record. A stored value of the wrong type, or an extra key, is not modelled; `Object.assign` would copy either into the settings.
- `Object.assign` makes a shallow copy, so the loaded settings share the default emoji array. This aliasing is not modelled: the plugin never changes that array in place.
- The settings panel's rendering is not modelled (`containerEl`, `Setting`, `addText`, `addTextArea`, placeholders, main.ts:107-162). Only the change handlers and the emoji list's display and parse are modelled.
- Logging (`console.log`/`console.error`), `onunload`, `addSettingTab` registration and `async`/`await` are left out. The steps run one after another, as the source awaits them in order.
- `weeklyNoteFormat` and `weekStart` are never used to build a path or a note body, as in the source. The panel shows and edits `weeklyNoteFormat` (main.ts:130-132), and nothing reads `weekStart`.
- The emoji pick is modelled, but the title decoration it was meant for does not exist in the source.
- Strings are sequences of Unicode code points, while JavaScript strings are UTF-16 code units. `split(',')` and `trim()` act only on characters of the Basic Multilingual Plane, so the two agree except on unpaired surrogates.
- `IntToString` writes every integer in plain decimal. JavaScript switches to exponent notation from 1e21, which is far beyond any week number or year.
- The plugin's constructor starts with `DEFAULT_SETTINGS`, whereas in the source `this.settings` stays undefined until `loadSettings` (main.ts:22). Nothing reads the settings before `onload` loads them, and the settings tab is registered only after loading (main.ts:9-12), so no caller can see the difference.
