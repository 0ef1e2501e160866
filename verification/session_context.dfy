/**
 * The session provider: four pieces of session state (summary, chat history,
 * processing option, theme), each initialised from `localStorage` and written
 * back to it by a React effect whenever it changes, a `dark` class on the page
 * body that follows the theme, and `resetSession`.
 *
 * React semantics kept by the model: a setter whose new value equals the
 * current one (`Object.is`) causes no re-render, so its effect does not run;
 * an array passed to `setChatHistory` is always a new reference, so the chat
 * history effect always runs.
 */
module Session {
  import opened Common
  import opened Json
  import opened Storage

  const SummaryKey: string := "summary"
  const ChatHistoryKey: string := "chatHistory"
  const ProcessingOptionKey: string := "processingOption"
  const ThemeKey: string := "theme"
  const LightTheme: string := "light"
  const DarkTheme: string := "dark"

  datatype SessionState = SessionState(summary: string, chatHistory: seq<string>, processingOption: string, theme: string)

  // ---------------------------------------------------------------------------
  // Initialisation from storage

  /**
   * `JSON.parse(localStorage.getItem('summary')) || ''`. An absent key is
   * `JSON.parse(null)`, that is `null`, hence `''`. `None` is a stored text
   * that `JSON.parse` rejects (the provider throws while initialising) or that
   * is JSON of another shape than this client writes.
   */
  function LoadSummary(stored: Option<string>): (r: Option<string>)
    ensures stored.None? ==> r == Some("")
  {
    match stored
    case None => Some("")
    case Some(text) => if text == "null" then Some("") else DecodeString(text)
  }

  /** `JSON.parse(localStorage.getItem('chatHistory')) || []`; an array is never falsy. */
  function LoadChatHistory(stored: Option<string>): (r: Option<seq<string>>)
    ensures stored.None? ==> r == Some([])
  {
    match stored
    case None => Some([])
    case Some(text) => if text == "null" then Some([]) else DecodeStrings(text)
  }

  /** `localStorage.getItem('processingOption') || ''`: the raw stored text. */
  function LoadProcessingOption(stored: Option<string>): (r: string)
    ensures stored.Some? ==> r == stored.value
    ensures stored.None? ==> r == ""
  {
    stored.GetOr("")
  }

  /** `localStorage.getItem('theme') || 'light'`: an absent or empty text gives the light theme. */
  function LoadTheme(stored: Option<string>): (r: string)
    ensures r != ""
    ensures stored.Some? && stored.value != "" ==> r == stored.value
    ensures stored.None? ==> r == LightTheme
  {
    match stored
    case Some(text) => if text == "" then LightTheme else text
    case None => LightTheme
  }

  /** The state the provider starts with, read from the store; `None` when initialisation throws. */
  function Restore(entries: map<string, string>): (r: Option<SessionState>)
    ensures r.Some? ==> r.value.theme != ""
    ensures r.Some? ==> r.value.processingOption == Lookup(entries, ProcessingOptionKey).GetOr("")
  {
    var summary := LoadSummary(Lookup(entries, SummaryKey));
    var history := LoadChatHistory(Lookup(entries, ChatHistoryKey));
    if summary.None? || history.None? then None
    else Some(SessionState(summary.value, history.value,
                           LoadProcessingOption(Lookup(entries, ProcessingOptionKey)),
                           LoadTheme(Lookup(entries, ThemeKey))))
  }

  /** With none of the four keys stored, the state is the defaults: `''`, `[]`, `''`, `'light'`. */
  lemma RestoreDefaults(entries: map<string, string>)
    requires SummaryKey !in entries && ChatHistoryKey !in entries
    requires ProcessingOptionKey !in entries && ThemeKey !in entries
    ensures Restore(entries) == Some(SessionState("", [], "", LightTheme))
  {
  }

  // ---------------------------------------------------------------------------
  // Write-through

  /**
   * The store agrees with the state: each key holds its field's stored form,
   * except that the summary and processing-option keys may be absent while
   * their field is empty (after `resetSession`, see `AfterReset`).
   */
  predicate Persisted(entries: map<string, string>, s: SessionState) {
    && (if SummaryKey in entries then entries[SummaryKey] == Quote(s.summary) else s.summary == "")
    && ChatHistoryKey in entries && entries[ChatHistoryKey] == EncodeStrings(s.chatHistory)
    && (if ProcessingOptionKey in entries then entries[ProcessingOptionKey] == s.processingOption
        else s.processingOption == "")
    && ThemeKey in entries && entries[ThemeKey] == s.theme
  }

  /** Reloading reads every field back from its stored form; the theme goes through `|| 'light'`. */
  lemma ReloadReadsBack(entries: map<string, string>, s: SessionState)
    requires Persisted(entries, s)
    ensures Restore(entries) == Some(s.(theme := LoadTheme(Some(s.theme))))
  {
    if SummaryKey in entries {
      DecodeQuote(s.summary);
      assert Quote(s.summary) != "null" by {
        assert Quote(s.summary)[0] == '"';
      }
    }
    StringsRoundTrip(s.chatHistory);
    assert EncodeStrings(s.chatHistory) != "null" by {
      assert EncodeStrings(s.chatHistory)[0] == '[';
    }
  }

  /**
   * Reloading the page reproduces the state the store was kept in agreement
   * with. The theme must be non-empty: an empty theme is stored as `''` and
   * read back as `'light'`.
   */
  lemma ReloadRestores(entries: map<string, string>, s: SessionState)
    requires Persisted(entries, s) && s.theme != ""
    ensures Restore(entries) == Some(s)
  {
    ReloadReadsBack(entries, s);
  }

  /** An empty theme does not survive a reload: it comes back as `'light'`. */
  lemma EmptyThemeReloadsLight(entries: map<string, string>, s: SessionState)
    requires Persisted(entries, s) && s.theme == ""
    ensures Restore(entries) == Some(s.(theme := LightTheme))
  {
    ReloadReadsBack(entries, s);
  }

  /** The fields `resetSession` assigns: summary `''`, chat history `[]`, processing option `''`. */
  function Cleared(s: SessionState): (r: SessionState)
    ensures r.summary == "" && r.chatHistory == [] && r.processingOption == ""
    ensures r.theme == s.theme
  {
    s.(summary := "", chatHistory := [], processingOption := "")
  }

  /**
   * The store after `resetSession` on state `before`: the handler removes the
   * three keys, then the re-render runs the effects whose dependency changed:
   * the summary is written back as `""` if it was not empty, the chat history
   * as `[]` always (a new array), the processing option as `''` if it was not
   * empty. The theme key and every other key are untouched.
   */
  function AfterReset(entries: map<string, string>, before: SessionState): map<string, string>
  {
    var removed := entries - {SummaryKey, ChatHistoryKey, ProcessingOptionKey};
    var withSummary := if before.summary != "" then removed[SummaryKey := Quote("")] else removed;
    var withHistory := withSummary[ChatHistoryKey := EncodeStrings([])];
    if before.processingOption != "" then withHistory[ProcessingOptionKey := ""] else withHistory
  }

  /** A reset keeps the store in agreement with the state, now cleared. */
  lemma ResetPersists(entries: map<string, string>, s: SessionState)
    requires Persisted(entries, s)
    ensures Persisted(AfterReset(entries, s), Cleared(s))
  {
  }

  /** After a reset a reload gives the cleared state. */
  lemma ResetReloadsCleared(entries: map<string, string>, s: SessionState)
    requires Persisted(entries, s) && s.theme != ""
    ensures Restore(AfterReset(entries, s)) == Some(Cleared(s))
  {
    ResetPersists(entries, s);
    ReloadRestores(AfterReset(entries, s), Cleared(s));
  }

  /** A reset leaves the theme key, and every key other than the three it clears, as it was. */
  lemma ResetKeepsOtherKeys(entries: map<string, string>, s: SessionState, k: string)
    requires k != SummaryKey && k != ChatHistoryKey && k != ProcessingOptionKey
    ensures Lookup(AfterReset(entries, s), k) == Lookup(entries, k)
  {
  }

  /**
   * Resetting twice gives the same state as resetting once, and a reload after
   * either gives that state.
   */
  lemma ResetIdempotent(entries: map<string, string>, s: SessionState)
    requires Persisted(entries, s)
    ensures Cleared(Cleared(s)) == Cleared(s)
    ensures Restore(AfterReset(AfterReset(entries, s), Cleared(s))) == Restore(AfterReset(entries, s))
  {
    ResetPersists(entries, s);
    ResetPersists(AfterReset(entries, s), Cleared(s));
    ReloadReadsBack(AfterReset(entries, s), Cleared(s));
    ReloadReadsBack(AfterReset(AfterReset(entries, s), Cleared(s)), Cleared(Cleared(s)));
  }

  /**
   * The raw store, unlike the state, is not the same after two resets: a
   * non-empty summary is written back as `""` by the first reset's effect and
   * removed by the second reset, whose effect does not run.
   */
  lemma ResetTwiceRemovesSummaryKey(entries: map<string, string>, s: SessionState)
    requires s.summary != ""
    ensures SummaryKey in AfterReset(entries, s)
    ensures SummaryKey !in AfterReset(AfterReset(entries, s), Cleared(s))
  {
  }

  // ---------------------------------------------------------------------------
  // The provider

  class SessionProvider {
    var summary: string
    var chatHistory: seq<string>
    var processingOption: string
    var theme: string
    /** Whether the page body carries the `dark` class. */
    var darkMode: bool
    /** `localStorage`. */
    const store: KeyValueStore

    function State(): SessionState
      reads this
    {
      SessionState(summary, chatHistory, processingOption, theme)
    }

    ghost predicate Valid()
      reads this, store
    {
      Persisted(store.entries, State()) && darkMode == (theme == DarkTheme)
    }

    /**
     * The first render with state `initial`, followed by its effects: every
     * field is written to the store and the body class follows the theme.
     */
    constructor (store: KeyValueStore, initial: SessionState)
      modifies store
      ensures this.store == store && State() == initial && Valid()
      ensures store.entries == old(store.entries)[SummaryKey := Quote(initial.summary)]
                [ChatHistoryKey := EncodeStrings(initial.chatHistory)]
                [ProcessingOptionKey := initial.processingOption][ThemeKey := initial.theme]
    {
      this.store := store;
      summary := initial.summary;
      chatHistory := initial.chatHistory;
      processingOption := initial.processingOption;
      theme := initial.theme;
      darkMode := initial.theme == DarkTheme;
      new;
      store.SetItem(SummaryKey, Quote(initial.summary));
      store.SetItem(ChatHistoryKey, EncodeStrings(initial.chatHistory));
      store.SetItem(ProcessingOptionKey, initial.processingOption);
      store.SetItem(ThemeKey, initial.theme);
    }

    /**
     * Mounting `SessionProvider`: the state is read from the store and then
     * written back. `null` stands for an initialisation that throws, which
     * leaves the store as it was.
     */
    static method Mount(store: KeyValueStore) returns (p: SessionProvider?)
      modifies store
      ensures p == null <==> Restore(old(store.entries)).None?
      ensures p == null ==> store.entries == old(store.entries)
      ensures p != null ==> fresh(p) && p.store == store && p.Valid()
      ensures p != null ==> p.State() == Restore(old(store.entries)).value
      ensures p != null ==> store.entries == old(store.entries)[SummaryKey := Quote(p.summary)]
                [ChatHistoryKey := EncodeStrings(p.chatHistory)]
                [ProcessingOptionKey := p.processingOption][ThemeKey := p.theme]
    {
      var initial := Restore(store.entries);
      if initial.None? {
        p := null;
      } else {
        p := new SessionProvider(store, initial.value);
      }
    }

    /** `setSummary(value)` and the effect it triggers. */
    method SetSummary(value: string)
      requires Valid()
      modifies this, store
      ensures Valid() && darkMode == old(darkMode)
      ensures State() == old(State()).(summary := value)
      ensures store.entries == if value == old(summary) then old(store.entries)
                               else old(store.entries)[SummaryKey := Quote(value)]
    {
      if value != summary {
        summary := value;
        store.SetItem(SummaryKey, Quote(value));
      }
    }

    /** `setChatHistory(value)` and the effect it triggers. */
    method SetChatHistory(value: seq<string>)
      requires Valid()
      modifies this, store
      ensures Valid() && darkMode == old(darkMode)
      ensures State() == old(State()).(chatHistory := value)
      ensures store.entries == old(store.entries)[ChatHistoryKey := EncodeStrings(value)]
    {
      chatHistory := value;
      store.SetItem(ChatHistoryKey, EncodeStrings(value));
    }

    /** `setProcessingOption(value)` and the effect it triggers. */
    method SetProcessingOption(value: string)
      requires Valid()
      modifies this, store
      ensures Valid() && darkMode == old(darkMode)
      ensures State() == old(State()).(processingOption := value)
      ensures store.entries == if value == old(processingOption) then old(store.entries)
                               else old(store.entries)[ProcessingOptionKey := value]
    {
      if value != processingOption {
        processingOption := value;
        store.SetItem(ProcessingOptionKey, value);
      }
    }

    /** `setTheme(value)` and the effect it triggers: the body gets the `dark` class exactly for `'dark'`. */
    method SetTheme(value: string)
      requires Valid()
      modifies this, store
      ensures Valid()
      ensures State() == old(State()).(theme := value)
      ensures darkMode <==> value == DarkTheme
      ensures store.entries == if value == old(theme) then old(store.entries)
                               else old(store.entries)[ThemeKey := value]
    {
      if value != theme {
        theme := value;
        store.SetItem(ThemeKey, value);
        darkMode := value == DarkTheme;
      }
    }

    /** `resetSession()` and the effects of the re-render it causes. */
    method ResetSession()
      requires Valid()
      modifies this, store
      ensures Valid() && darkMode == old(darkMode)
      ensures State() == Cleared(old(State()))
      ensures store.entries == AfterReset(old(store.entries), old(State()))
    {
      var before := State();
      ghost var entries := store.entries;
      summary := "";
      chatHistory := [];
      processingOption := "";
      store.RemoveItem(SummaryKey);
      store.RemoveItem(ChatHistoryKey);
      store.RemoveItem(ProcessingOptionKey);
      ResetEffects(before, entries);
      assert State() == Cleared(before);
      ResetPersists(entries, before);
    }

    /**
     * The effects of the re-render after a reset from `before`: the summary
     * and the processing option are written back only if they changed, the
     * chat history always.
     */
    method ResetEffects(before: SessionState, ghost entries: map<string, string>)
      requires store.entries == entries - {SummaryKey, ChatHistoryKey, ProcessingOptionKey}
      modifies store
      ensures store.entries == AfterReset(entries, before)
    {
      if before.summary != "" {
        store.SetItem(SummaryKey, Quote(""));
      }
      store.SetItem(ChatHistoryKey, EncodeStrings([]));
      if before.processingOption != "" {
        store.SetItem(ProcessingOptionKey, "");
      }
    }
  }
}
