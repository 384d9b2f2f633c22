/**
 * The plugin's configuration record (main.ts:92-99), how a stored record is
 * merged over the defaults at load time (main.ts:22), and how the emoji list
 * is shown as text and read back from the settings panel (main.ts:163, 165).
 */
module PluginSettings {
  import opened Wrappers
  import opened Text

  datatype Settings = Settings(
    dailyNoteFormat: string,
    weeklyNoteFormat: string,
    dailyNoteLocation: string,
    weeklyNoteLocation: string,
    weekStart: string,
    emojis: seq<string>)

  /** The defaults: ISO dates, notes at the vault root, weeks from Monday, six emojis. */
  const DEFAULT_SETTINGS := Settings(
    "YYYY-MM-DD",
    "Week #",
    "",
    "",
    "Monday",
    ["\U{1F60A}", "\U{1F4DA}", "\U{270D}\U{FE0F}", "\U{1F680}", "\U{1F31F}", "\U{1F3AF}"])

  /**
   * The record the host's storage gives back: each key is either present
   * with a value or absent (a record saved by another version of the plugin
   * may lack keys).
   */
  datatype StoredSettings = StoredSettings(
    dailyNoteFormat: Option<string>,
    weeklyNoteFormat: Option<string>,
    dailyNoteLocation: Option<string>,
    weeklyNoteLocation: Option<string>,
    weekStart: Option<string>,
    emojis: Option<seq<string>>)

  const EMPTY_RECORD := StoredSettings(None, None, None, None, None, None)

  /** The keys of the configuration record, and the values they hold. */
  datatype Key = DailyNoteFormat | WeeklyNoteFormat | DailyNoteLocation | WeeklyNoteLocation | WeekStart | Emojis
  datatype Value = Str(text: string) | List(items: seq<string>)

  /** The value a configuration holds under `key`. */
  function Get(s: Settings, key: Key): Value {
    match key
    case DailyNoteFormat => Str(s.dailyNoteFormat)
    case WeeklyNoteFormat => Str(s.weeklyNoteFormat)
    case DailyNoteLocation => Str(s.dailyNoteLocation)
    case WeeklyNoteLocation => Str(s.weeklyNoteLocation)
    case WeekStart => Str(s.weekStart)
    case Emojis => List(s.emojis)
  }

  /** The value a stored record holds under `key`, if the key is present. */
  function Lookup(stored: StoredSettings, key: Key): Option<Value> {
    match key
    case DailyNoteFormat => if stored.dailyNoteFormat.Some? then Some(Str(stored.dailyNoteFormat.value)) else None
    case WeeklyNoteFormat => if stored.weeklyNoteFormat.Some? then Some(Str(stored.weeklyNoteFormat.value)) else None
    case DailyNoteLocation => if stored.dailyNoteLocation.Some? then Some(Str(stored.dailyNoteLocation.value)) else None
    case WeeklyNoteLocation => if stored.weeklyNoteLocation.Some? then Some(Str(stored.weeklyNoteLocation.value)) else None
    case WeekStart => if stored.weekStart.Some? then Some(Str(stored.weekStart.value)) else None
    case Emojis => if stored.emojis.Some? then Some(List(stored.emojis.value)) else None
  }

  /**
   * `Object.assign({}, DEFAULT_SETTINGS, stored)`: key by key, a key the
   * stored record holds overrides the default and every other key keeps its
   * default. `None` is the first run, when storage holds nothing and
   * `Object.assign` skips the missing source.
   */
  function MergeWithDefaults(stored: Option<StoredSettings>): (s: Settings)
    ensures forall key :: Get(s, key) ==
              if stored.Some? && Lookup(stored.value, key).Some? then Lookup(stored.value, key).value
              else Get(DEFAULT_SETTINGS, key)
  {
    var st := stored.GetOr(EMPTY_RECORD);
    Settings(
      st.dailyNoteFormat.GetOr(DEFAULT_SETTINGS.dailyNoteFormat),
      st.weeklyNoteFormat.GetOr(DEFAULT_SETTINGS.weeklyNoteFormat),
      st.dailyNoteLocation.GetOr(DEFAULT_SETTINGS.dailyNoteLocation),
      st.weeklyNoteLocation.GetOr(DEFAULT_SETTINGS.weeklyNoteLocation),
      st.weekStart.GetOr(DEFAULT_SETTINGS.weekStart),
      st.emojis.GetOr(DEFAULT_SETTINGS.emojis))
  }

  /** Two configurations that agree on every key are the same configuration. */
  lemma SettingsExtensionality(a: Settings, b: Settings)
    requires forall key :: Get(a, key) == Get(b, key)
    ensures a == b
  {
    assert Get(a, DailyNoteFormat) == Get(b, DailyNoteFormat);
    assert Get(a, WeeklyNoteFormat) == Get(b, WeeklyNoteFormat);
    assert Get(a, DailyNoteLocation) == Get(b, DailyNoteLocation);
    assert Get(a, WeeklyNoteLocation) == Get(b, WeeklyNoteLocation);
    assert Get(a, WeekStart) == Get(b, WeekStart);
    assert Get(a, Emojis) == Get(b, Emojis);
  }

  /** Loading with nothing stored, or with a record that has no keys, yields exactly the defaults. */
  lemma MergeOfNothingIsDefaults()
    ensures MergeWithDefaults(None) == DEFAULT_SETTINGS
    ensures MergeWithDefaults(Some(EMPTY_RECORD)) == DEFAULT_SETTINGS
  {
    SettingsExtensionality(MergeWithDefaults(None), DEFAULT_SETTINGS);
    SettingsExtensionality(MergeWithDefaults(Some(EMPTY_RECORD)), DEFAULT_SETTINGS);
  }

  /** A stored record holding only the daily note folder changes only that key. */
  lemma MergeOfDailyLocationOnly(location: string)
    ensures MergeWithDefaults(Some(EMPTY_RECORD.(dailyNoteLocation := Some(location))))
         == DEFAULT_SETTINGS.(dailyNoteLocation := location)
  {
    var stored := EMPTY_RECORD.(dailyNoteLocation := Some(location));
    SettingsExtensionality(MergeWithDefaults(Some(stored)), DEFAULT_SETTINGS.(dailyNoteLocation := location));
  }

  /** The record `saveData` writes: every key present. */
  function ToStored(s: Settings): (stored: StoredSettings)
    ensures forall key :: Lookup(stored, key) == Some(Get(s, key))
  {
    StoredSettings(Some(s.dailyNoteFormat), Some(s.weeklyNoteFormat), Some(s.dailyNoteLocation),
                   Some(s.weeklyNoteLocation), Some(s.weekStart), Some(s.emojis))
  }

  /** Loading a record that was saved whole gives back the saved configuration. */
  lemma MergeOfSavedRecord(s: Settings)
    ensures MergeWithDefaults(Some(ToStored(s))) == s
  {
    SettingsExtensionality(MergeWithDefaults(Some(ToStored(s))), s);
  }

  // ------------------------------------------------------------- emoji list

  /** The emoji list as the settings panel shows it: `emojis.join(', ')`. */
  function EmojiListText(emojis: seq<string>): string {
    Join(emojis, ", ")
  }

  /**
   * The emoji list read back from the panel's text:
   * `value.split(',').map(emoji => emoji.trim())`. There is one entry per
   * comma plus one (an empty text gives one empty entry), and each entry is
   * free of commas and of whitespace at its ends.
   */
  function ParseEmojiList(value: string): (emojis: seq<string>)
    ensures |emojis| == Occurrences(value, ',') + 1
    ensures forall i :: 0 <= i < |emojis| ==> ',' !in emojis[i] && IsTrimmed(emojis[i])
  {
    var pieces := Split(value, ',');
    var emojis := TrimAll(pieces);
    forall i | 0 <= i < |emojis|
      ensures ',' !in emojis[i] && IsTrimmed(emojis[i])
    {
      TrimAllAt(pieces, i);
      TrimIsCore(pieces[i]);
      TrimAddsNothing(pieces[i], ',');
    }
    emojis
  }

  /** An empty text field gives a list holding one empty entry. */
  lemma ParseEmptyText()
    ensures ParseEmojiList("") == [""]
  {
  }

  /** A list the panel shows and reads back unchanged: non-empty, every entry trimmed and comma-free. */
  predicate WellFormedEmojiList(emojis: seq<string>) {
    |emojis| > 0 && CleanParts(emojis, ',')
  }

  /**
   * Showing a non-empty list of trimmed, comma-free emojis and reading the
   * text back reproduces the list.
   */
  lemma EmojiListRoundTrip(emojis: seq<string>)
    requires WellFormedEmojiList(emojis)
    ensures ParseEmojiList(EmojiListText(emojis)) == emojis
  {
    SplitJoinTrim(emojis, ',', ' ');
    assert EmojiListText(emojis) == Join(emojis, [',', ' ']);
  }

  /** Whatever was typed, showing the parsed list and reading it back leaves it as it is. */
  lemma ParsedEmojiListIsStable(value: string)
    ensures ParseEmojiList(EmojiListText(ParseEmojiList(value))) == ParseEmojiList(value)
  {
    EmojiListRoundTrip(ParseEmojiList(value));
  }
}
