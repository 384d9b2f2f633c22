/**
 * The note planner itself (main.ts:4-90, 101-168): a plugin object holding
 * the loaded configuration, the host's file vault as a map from path to
 * content, the log of files opened in new editor panes, and the record last
 * handed to the host's storage.
 */
module NotePlanner {
  import opened Wrappers
  import opened NotePaths
  import opened NoteTemplates
  import opened PluginSettings

  type Vault = map<string, string>

  // ------------------------------------------------ create-if-absent, as values

  /** The vault after making sure a note exists at `path`, created with `template` if it was missing. */
  function EnsureNote(vault: Vault, path: string, template: string): (v: Vault)
    ensures path in v
    ensures v[path] == if path in vault then vault[path] else template
    ensures forall p :: p != path ==> (p in v <==> p in vault)
    ensures forall p :: p != path && p in vault ==> v[p] == vault[p]
  {
    if path in vault then vault else vault[path := template]
  }

  /** Today's daily note path under the configuration `s`. */
  function DailyPathOf(s: Settings, today: string): string {
    DailyNotePath(s.dailyNoteLocation, today)
  }

  /** This week's weekly note path under the configuration `s`. */
  function WeeklyPathOf(s: Settings, weekNumber: int, year: int): string {
    WeeklyNotePath(s.weeklyNoteLocation, weekNumber, year)
  }

  /** The vault after the daily note and then the weekly note have been made sure of. */
  function EnsureNotes(vault: Vault, s: Settings, today: string, weekNumber: int, year: int): Vault {
    var withDaily := EnsureNote(vault, DailyPathOf(s, today), DailyNoteTemplate(today));
    EnsureNote(withDaily, WeeklyPathOf(s, weekNumber, year), WeeklyNoteTemplate(weekNumber, year))
  }

  /** Afterwards the vault's paths are the old ones plus the daily and weekly paths. */
  lemma EnsureNotesCreatesBoth(vault: Vault, s: Settings, today: string, weekNumber: int, year: int)
    ensures var v := EnsureNotes(vault, s, today, weekNumber, year);
            v.Keys == vault.Keys + {DailyPathOf(s, today), WeeklyPathOf(s, weekNumber, year)}
  {
  }

  /** A note that already existed keeps its content, whatever its path. */
  lemma EnsureNotesKeepsExisting(vault: Vault, s: Settings, today: string, weekNumber: int, year: int, p: string)
    requires p in vault
    ensures EnsureNotes(vault, s, today, weekNumber, year)[p] == vault[p]
  {
  }

  /**
   * A missing daily note gets the daily template; a missing weekly note gets
   * the weekly template unless its path is the daily note's path, which was
   * created first.
   */
  lemma EnsureNotesFillsMissing(vault: Vault, s: Settings, today: string, weekNumber: int, year: int)
    ensures var v := EnsureNotes(vault, s, today, weekNumber, year);
            var daily, weekly := DailyPathOf(s, today), WeeklyPathOf(s, weekNumber, year);
            && (daily !in vault ==> v[daily] == DailyNoteTemplate(today))
            && (weekly !in vault && weekly != daily ==> v[weekly] == WeeklyNoteTemplate(weekNumber, year))
  {
  }

  /** Running the step again with the same date, week and year changes nothing. */
  lemma EnsureNotesIdempotent(vault: Vault, s: Settings, today: string, weekNumber: int, year: int)
    ensures var once := EnsureNotes(vault, s, today, weekNumber, year);
            EnsureNotes(once, s, today, weekNumber, year) == once
  {
  }

  // --------------------------------------------------------------- emoji pick

  /**
   * `Math.floor(random * n)` for `Math.random()`'s value `random` in [0, 1):
   * always a valid index into a non-empty list of `n` entries.
   */
  function PickIndex(random: real, n: nat): (i: int)
    requires 0.0 <= random < 1.0
    ensures n > 0 ==> 0 <= i < n
    ensures n == 0 ==> i == 0
  {
    var x := random * n as real;
    assert x < n as real || n == 0 by {
      if n > 0 { assert random * n as real < 1.0 * n as real; }
    }
    x.Floor
  }

  /** Every entry of the list can be picked: the random value `i / n` picks entry `i`. */
  lemma EveryIndexCanBePicked(i: nat, n: nat)
    requires i < n
    ensures 0.0 <= i as real / n as real < 1.0
    ensures PickIndex(i as real / n as real, n) == i
  {
    var q := i as real / n as real;
    assert q * n as real == i as real;
    assert q < 1.0 by {
      assert q * n as real < 1.0 * n as real;
    }
  }

  /**
   * `emojis[Math.floor(Math.random() * emojis.length)]`: some entry of a
   * non-empty list, and `undefined` (here `None`) for an empty one.
   */
  function PickEmoji(emojis: seq<string>, random: real): (picked: Option<string>)
    requires 0.0 <= random < 1.0
    ensures picked.Some? <==> |emojis| > 0
    ensures picked.Some? ==> picked.value in emojis
    ensures |emojis| == 1 ==> picked == Some(emojis[0])
  {
    var i := PickIndex(random, |emojis|);
    if 0 <= i < |emojis| then Some(emojis[i]) else None
  }

  // ----------------------------------------------------------------- plugin

  class MyNotesPlugin {
    var settings: Settings
    var vault: Vault
    /** The paths of the files opened in new editor panes, oldest first. */
    var openedNotes: seq<string>
    /** The record last handed to the host's storage, if any. */
    var persisted: Option<Settings>

    constructor (initialVault: Vault)
      ensures settings == DEFAULT_SETTINGS && vault == initialVault && openedNotes == [] && persisted == None
    {
      settings := DEFAULT_SETTINGS;
      vault := initialVault;
      openedNotes := [];
      persisted := None;
    }

    /** `loadSettings`: the stored record, if any, merged over the defaults. */
    method LoadSettings(stored: Option<StoredSettings>)
      modifies this`settings
      ensures settings == MergeWithDefaults(stored)
    {
      settings := MergeWithDefaults(stored);
    }

    /** `saveSettings`: the whole record goes to storage. */
    method SaveSettings()
      modifies this`persisted
      ensures persisted == Some(settings)
    {
      persisted := Some(settings);
    }

    /** `getAbstractFileByPath`: the note at `path`, if there is one. */
    function FileAt(path: string): (file: Option<string>)
      reads this
      ensures file.Some? <==> path in vault
      ensures file.Some? ==> file.value == vault[path]
    {
      if path in vault then Some(vault[path]) else None
    }

    /** `vault.create`: adds a note; refused when something already exists at `path`. */
    method Create(path: string, content: string) returns (created: bool)
      modifies this`vault
      ensures created <==> path !in old(vault)
      ensures vault == if created then old(vault)[path := content] else old(vault)
    {
      created := path !in vault;
      if created {
        vault := vault[path := content];
      }
    }

    /** Looks the note up and creates it from `template` when nothing is there (main.ts:42-46, 49-53). */
    method EnsureNoteExists(path: string, template: string)
      modifies this`vault
      ensures vault == EnsureNote(old(vault), path, template)
    {
      var note := FileAt(path);
      if note.None? {
        var _ := Create(path, template);
      }
    }

    /** `openNoteInActiveLeaf`: opens the note at `path` in a new pane only if it resolves. */
    method OpenNoteInActiveLeaf(path: string)
      modifies this`openedNotes
      ensures openedNotes == if path in vault then old(openedNotes) + [path] else old(openedNotes)
    {
      var file := FileAt(path);
      if file.Some? {
        openedNotes := openedNotes + [path];
      }
    }

    /**
     * `createAndOpenNotes`: builds today's daily and this week's weekly note
     * paths (`formatNow` stands for formatting the current moment with a
     * date format), creates whichever note is missing from its template, then
     * opens both.
     */
    method CreateAndOpenNotes(formatNow: string -> string, weekNumber: int, year: int)
      modifies this`vault, this`openedNotes
      ensures vault == EnsureNotes(old(vault), settings, formatNow(settings.dailyNoteFormat), weekNumber, year)
      ensures openedNotes == old(openedNotes) + [DailyPathOf(settings, formatNow(settings.dailyNoteFormat)),
                                       WeeklyPathOf(settings, weekNumber, year)]
    {
      var today := formatNow(settings.dailyNoteFormat);
      var dailyNotePath := DailyPathOf(settings, today);
      var weeklyNotePath := WeeklyPathOf(settings, weekNumber, year);

      ghost var vault0, opened0 := vault, openedNotes;
      EnsureNoteExists(dailyNotePath, DailyNoteTemplate(today));
      EnsureNoteExists(weeklyNotePath, WeeklyNoteTemplate(weekNumber, year));
      assert vault == EnsureNotes(vault0, settings, today, weekNumber, year);
      assert dailyNotePath in vault && weeklyNotePath in vault;

      OpenNoteInActiveLeaf(dailyNotePath);
      assert openedNotes == opened0 + [dailyNotePath];
      OpenNoteInActiveLeaf(weeklyNotePath);
      assert openedNotes == opened0 + [dailyNotePath] + [weeklyNotePath];
      assert opened0 + [dailyNotePath] + [weeklyNotePath] == opened0 + [dailyNotePath, weeklyNotePath];
    }

    /** `addRandomEmojiToTitle`: picks an emoji from the configured list and changes nothing. */
    method AddRandomEmojiToTitle(random: real) returns (randomEmoji: Option<string>)
      requires 0.0 <= random < 1.0
      ensures randomEmoji.Some? <==> |settings.emojis| > 0
      ensures randomEmoji.Some? ==> randomEmoji.value in settings.emojis
    {
      randomEmoji := PickEmoji(settings.emojis, random);
    }

    /**
     * `onload`: loads the configuration, makes sure today's notes exist and
     * opens them, then picks an emoji.
     */
    method OnLoad(stored: Option<StoredSettings>, formatNow: string -> string, weekNumber: int, year: int,
                  random: real)
      requires 0.0 <= random < 1.0
      modifies this`settings, this`vault, this`openedNotes
      ensures settings == MergeWithDefaults(stored)
      ensures vault == EnsureNotes(old(vault), settings, formatNow(settings.dailyNoteFormat), weekNumber, year)
      ensures openedNotes == old(openedNotes) + [DailyPathOf(settings, formatNow(settings.dailyNoteFormat)),
                                       WeeklyPathOf(settings, weekNumber, year)]
      ensures persisted == old(persisted)
    {
      LoadSettings(stored);
      CreateAndOpenNotes(formatNow, weekNumber, year);
      var _ := AddRandomEmojiToTitle(random);
    }

    // The settings panel's change handlers: each sets one key, then saves the whole record.

    method SetDailyNoteFormat(value: string)
      modifies this`settings, this`persisted
      ensures settings == old(settings).(dailyNoteFormat := value) && persisted == Some(settings)
    {
      settings := settings.(dailyNoteFormat := value);
      SaveSettings();
    }

    method SetWeeklyNoteFormat(value: string)
      modifies this`settings, this`persisted
      ensures settings == old(settings).(weeklyNoteFormat := value) && persisted == Some(settings)
    {
      settings := settings.(weeklyNoteFormat := value);
      SaveSettings();
    }

    method SetDailyNoteLocation(value: string)
      modifies this`settings, this`persisted
      ensures settings == old(settings).(dailyNoteLocation := value) && persisted == Some(settings)
    {
      settings := settings.(dailyNoteLocation := value);
      SaveSettings();
    }

    method SetWeeklyNoteLocation(value: string)
      modifies this`settings, this`persisted
      ensures settings == old(settings).(weeklyNoteLocation := value) && persisted == Some(settings)
    {
      settings := settings.(weeklyNoteLocation := value);
      SaveSettings();
    }

    /** The emoji list as the panel's text area shows it. */
    function EmojiFieldText(): (text: string)
      reads this
      ensures WellFormedEmojiList(settings.emojis) ==> ParseEmojiList(text) == settings.emojis
    {
      var text := EmojiListText(settings.emojis);
      if WellFormedEmojiList(settings.emojis) then EmojiListRoundTrip(settings.emojis); text else text
    }

    /** The emoji text area's change handler: parses the text into the list, then saves. */
    method SetEmojis(value: string)
      modifies this`settings, this`persisted
      ensures settings == old(settings).(emojis := ParseEmojiList(value)) && persisted == Some(settings)
    {
      var emojis := ParseEmojiList(value);
      settings := settings.(emojis := emojis);
      SaveSettings();
    }
  }
}
