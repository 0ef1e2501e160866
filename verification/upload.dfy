/**
 * The upload page: a processing option, a PDF file under a size limit, and an
 * optional summary length in words that accepts any text as it is typed, is
 * clamped into 50..500 when the field loses focus, and is checked against that
 * range on submit. A passing submit clears the chat entries of the tab's
 * `sessionStorage`; once the file has been read, the file and the length are
 * saved there for the processing page.
 */
module Upload {
  import opened Common
  import opened JsText
  import opened Storage
  import opened Session
  import Chat

  /** 20 MiB, in bytes. */
  const MaxFileSize: nat := 20 * 1024 * 1024
  const MinWords: int := 50
  const MaxWords: int := 500

  const FileTooLargeMessage: string := "File size exceeds 20MB limit. Please choose a smaller file."
  const InvalidNumberMessage: string := "Please enter a valid number"
  const TooLongMessage: string := "Maximum summary length is 500 words"
  const TooShortMessage: string := "Minimum summary length is 50 words"
  const NoOptionMessage: string := "Please select a summarization option."
  const NoFileMessage: string := "Please upload a PDF file."

  /** The `sessionStorage` keys a passing submit removes. */
  const ChatKeys: set<string> := {"chatHistory", "chatMessages", "currentChat", "chatContext", "chatState"}
  const UploadedFileKey: string := "uploadedFile"
  const SummaryLengthKey: string := "summaryLength"

  /** The part of a chosen file the page looks at. */
  datatype FileInfo = FileInfo(name: string, size: nat)

  /** The `summaryLength` state: the empty string, or the number `parseInt` gave. */
  datatype WordCount = Unset | Words(n: int)

  /** JavaScript truthiness of `summaryLength`: `''` and `0` are falsy. */
  predicate Truthy(w: WordCount) {
    w.Words? && w.n != 0
  }

  // ---------------------------------------------------------------------------
  // The file input

  /** The `file` and `error` state after a file is chosen. */
  datatype FileFields = FileFields(file: Option<FileInfo>, error: string)

  /**
   * `handleFileChange` for the first chosen file (`None` when the choice was
   * cancelled): a file larger than 20 MiB is refused with an error; anything
   * else, no file included, is taken and the error is cleared.
   */
  function ChooseFile(chosen: Option<FileInfo>): (r: FileFields)
    ensures chosen.Some? && chosen.value.size > MaxFileSize ==> r == FileFields(None, FileTooLargeMessage)
    ensures chosen.None? || chosen.value.size <= MaxFileSize ==> r == FileFields(chosen, "")
    ensures r.file.Some? ==> r.file.value.size <= MaxFileSize
  {
    if chosen.Some? && chosen.value.size > MaxFileSize then FileFields(None, FileTooLargeMessage)
    else FileFields(chosen, "")
  }

  // ---------------------------------------------------------------------------
  // The summary length

  /**
   * The message `validateLength(value)` leaves in `lengthError`; the value is
   * valid exactly when the message is empty, that is when it is empty or reads
   * as a whole number from 50 to 500.
   */
  function LengthMessage(value: string): (msg: string)
    ensures msg == "" <==> value == "" || (ParseInt(value).Some? && MinWords <= ParseInt(value).value <= MaxWords)
    ensures value != "" && ParseInt(value).None? ==> msg == InvalidNumberMessage
    ensures value != "" && ParseInt(value).Some? && ParseInt(value).value > MaxWords ==> msg == TooLongMessage
    ensures value != "" && ParseInt(value).Some? && ParseInt(value).value < MinWords ==> msg == TooShortMessage
  {
    if value == "" then ""
    else match ParseInt(value)
      case None => InvalidNumberMessage
      case Some(n) =>
        if n > MaxWords then TooLongMessage
        else if n < MinWords then TooShortMessage
        else ""
  }

  /** The nearest length in 50..500. */
  function Clamp(n: int): (r: int)
    ensures MinWords <= r <= MaxWords
    ensures MinWords <= n <= MaxWords ==> r == n
    ensures n > MaxWords ==> r == MaxWords
    ensures n < MinWords ==> r == MinWords
  {
    if n > MaxWords then MaxWords else if n < MinWords then MinWords else n
  }

  /** The three state variables of the length field. */
  datatype LengthFields = LengthFields(tempLength: string, summaryLength: WordCount, lengthError: string)

  /**
   * `handleSummaryLengthChange(value)`: the text is kept as typed; an empty text
   * unsets the length and clears the error; a text `parseInt` reads sets the
   * length; any other text leaves the length and the error as they were.
   */
  function Change(f: LengthFields, value: string): (r: LengthFields)
    ensures r.tempLength == value
    ensures value == "" ==> r.summaryLength == Unset && r.lengthError == ""
    ensures value != "" ==> r.lengthError == f.lengthError
    ensures value != "" && ParseInt(value).Some? ==> r.summaryLength == Words(ParseInt(value).value)
    ensures value != "" && ParseInt(value).None? ==> r.summaryLength == f.summaryLength
  {
    if value == "" then LengthFields(value, Unset, "")
    else match ParseInt(value)
      case None => f.(tempLength := value)
      case Some(n) => f.(tempLength := value, summaryLength := Words(n))
  }

  /**
   * `handleSummaryLengthBlur`: an empty text only clears the error, a text
   * `parseInt` cannot read only sets the invalid-number error, and a number is
   * clamped into 50..500 and written back as its decimal text, with the
   * too-long or too-short error when clamping changed it.
   */
  function Blur(f: LengthFields): (r: LengthFields)
    ensures f.tempLength == "" ==> r == f.(lengthError := "")
    ensures f.tempLength != "" && ParseInt(f.tempLength).None? ==> r == f.(lengthError := InvalidNumberMessage)
    ensures f.tempLength != "" && ParseInt(f.tempLength).Some? ==>
      var c := Clamp(ParseInt(f.tempLength).value);
      && r.summaryLength == Words(c)
      && r.tempLength == IntToString(c)
      && r.lengthError == LengthMessage(f.tempLength)
  {
    if f.tempLength == "" then f.(lengthError := "")
    else match ParseInt(f.tempLength)
      case None => f.(lengthError := InvalidNumberMessage)
      case Some(n) =>
        if n > MaxWords then LengthFields(IntToString(MaxWords), Words(MaxWords), TooLongMessage)
        else if n < MinWords then LengthFields(IntToString(MinWords), Words(MinWords), TooShortMessage)
        else LengthFields(IntToString(n), Words(n), "")
  }

  /**
   * The length the page would submit agrees with the text shown: an empty
   * text means no length, and a text `parseInt` reads means that number.
   */
  predicate Coherent(f: LengthFields) {
    && (f.tempLength == "" ==> f.summaryLength == Unset)
    && (ParseInt(f.tempLength).Some? ==> f.summaryLength == Words(ParseInt(f.tempLength).value))
  }

  /** Typing keeps the length in step with the text. */
  lemma ChangeKeepsCoherent(f: LengthFields, value: string)
    ensures Coherent(Change(f, value))
  {
    if value == "" {
      assert TrimStart(value) == "";
    }
  }

  /** Leaving the field keeps the length in step with the text it writes back. */
  lemma {:induction false} BlurKeepsCoherent(f: LengthFields)
    requires Coherent(f)
    ensures Coherent(Blur(f))
  {
    var p := ParseInt(f.tempLength);
    if f.tempLength != "" && p.Some? {
      ParseIntOfIntToString(Clamp(p.value));
    }
  }

  /**
   * A blur settles the field: blurring again writes back the same text and
   * length, and the only thing it may change is to clear the error that the
   * first blur reported for a clamped number.
   */
  lemma {:induction false} BlurSettles(f: LengthFields)
    ensures Blur(Blur(f)).tempLength == Blur(f).tempLength
    ensures Blur(Blur(f)).summaryLength == Blur(f).summaryLength
    ensures ParseInt(f.tempLength).Some? ==> Blur(Blur(f)).lengthError == ""
    ensures ParseInt(f.tempLength).None? ==> Blur(Blur(f)) == Blur(f)
    ensures Blur(Blur(Blur(f))) == Blur(Blur(f))
  {
    var p := ParseInt(f.tempLength);
    if f.tempLength == "" {
      assert TrimStart(f.tempLength) == "";
    } else if p.Some? {
      var c := Clamp(p.value);
      ParseIntOfIntToString(c);
      assert Blur(f).tempLength != "";
    }
  }

  /** An already clamped number is left as it is by a blur, with no error. */
  lemma {:induction false} BlurKeepsInRange(n: int, w: WordCount, e: string)
    requires MinWords <= n <= MaxWords
    ensures Blur(LengthFields(IntToString(n), w, e)) == LengthFields(IntToString(n), Words(n), "")
  {
    ParseIntOfIntToString(n);
  }

  // ---------------------------------------------------------------------------
  // Submitting

  /** Where `handleSubmit` stops, in the order it checks. */
  datatype Gate = NeedOption | NeedFile | BadLength | Pass

  /**
   * The checks of `handleSubmit`, first failure wins: a processing option,
   * then a file, then a valid length when one was typed.
   */
  function SubmitCheck(selectedOption: string, hasFile: bool, tempLength: string): (r: Gate)
    ensures r == NeedOption <==> selectedOption == ""
    ensures r == NeedFile <==> selectedOption != "" && !hasFile
    ensures r == BadLength <==> selectedOption != "" && hasFile && LengthMessage(tempLength) != ""
    ensures r == Pass <==> selectedOption != "" && hasFile && LengthMessage(tempLength) == ""
  {
    if selectedOption == "" then NeedOption
    else if !hasFile then NeedFile
    else if tempLength != "" && LengthMessage(tempLength) != "" then BadLength
    else Pass
  }

  /**
   * The length a passing submit hands on: none when the field is empty, and
   * otherwise a number from 50 to 500, which is therefore truthy and saved.
   */
  lemma {:induction false} SubmittedLengthInRange(f: LengthFields, selectedOption: string, hasFile: bool)
    requires Coherent(f) && SubmitCheck(selectedOption, hasFile, f.tempLength) == Pass
    ensures f.tempLength == "" ==> f.summaryLength == Unset
    ensures f.tempLength != "" ==> f.summaryLength.Words? && MinWords <= f.summaryLength.n <= MaxWords
    ensures Truthy(f.summaryLength) <==> f.tempLength != ""
  {
    if f.tempLength != "" {
      assert LengthMessage(f.tempLength) == "";
    }
  }

  /** The tab store once a passing submit has removed the chat entries. */
  function ClearChatKeys(entries: map<string, string>): (r: map<string, string>)
    ensures forall k :: k in ChatKeys ==> Lookup(r, k).None?
    ensures forall k :: k !in ChatKeys ==> Lookup(r, k) == Lookup(entries, k)
  {
    entries - ChatKeys
  }

  /**
   * The tab store once the file has been read: the data URL is saved, and the
   * length captured at submit time is saved as its decimal text when truthy.
   */
  function SaveUpload(entries: map<string, string>, captured: WordCount, dataUrl: string): (r: map<string, string>)
    ensures Lookup(r, UploadedFileKey) == Some(dataUrl)
    ensures Truthy(captured) ==> Lookup(r, SummaryLengthKey) == Some(IntToString(captured.n))
    ensures !Truthy(captured) ==> Lookup(r, SummaryLengthKey) == Lookup(entries, SummaryLengthKey)
    ensures forall k :: k != UploadedFileKey && k != SummaryLengthKey ==> Lookup(r, k) == Lookup(entries, k)
  {
    var withFile := entries[UploadedFileKey := dataUrl];
    if Truthy(captured) then withFile[SummaryLengthKey := IntToString(captured.n)] else withFile
  }

  /** A saved length reads back, with `parseInt`, as a number from 50 to 500. */
  lemma {:induction false} SavedLengthReadsBack(f: LengthFields, selectedOption: string, hasFile: bool,
                                                entries: map<string, string>, dataUrl: string)
    requires Coherent(f) && SubmitCheck(selectedOption, hasFile, f.tempLength) == Pass
    requires f.tempLength != ""
    ensures SummaryLengthKey in SaveUpload(entries, f.summaryLength, dataUrl)
    ensures var v := ParseInt(SaveUpload(entries, f.summaryLength, dataUrl)[SummaryLengthKey]);
      v.Some? && MinWords <= v.value <= MaxWords && f.summaryLength == Words(v.value)
  {
    SubmittedLengthInRange(f, selectedOption, hasFile);
    ParseIntOfIntToString(f.summaryLength.n);
  }

  /** The five `removeItem` calls of a passing submit, one key after the other. */
  method RemoveChatKeys(store: KeyValueStore)
    modifies store
    ensures store.entries == ClearChatKeys(old(store.entries))
  {
    ghost var entries := store.entries;
    store.RemoveItem("chatHistory");
    store.RemoveItem("chatMessages");
    store.RemoveItem("currentChat");
    store.RemoveItem("chatContext");
    store.RemoveItem("chatState");
    assert store.entries.Keys == entries.Keys - ChatKeys;
  }

  // ---------------------------------------------------------------------------
  // The page

  class UploadPage {
    var selectedOption: string
    var file: Option<FileInfo>
    var error: string
    var summaryLength: WordCount
    var lengthError: string
    var tempLength: string
    /** The lengths captured by the file reads a submit started and that have not finished. */
    var pendingReads: seq<WordCount>
    /** The tab's `sessionStorage`. */
    const tabStore: KeyValueStore
    /** The shared session, kept in `localStorage`. */
    const session: SessionProvider

    function Length(): LengthFields
      reads this
    {
      LengthFields(tempLength, summaryLength, lengthError)
    }

    ghost predicate Valid()
      reads this, session, session.store
    {
      && Coherent(Length())
      && session.Valid()
      && tabStore != session.store
    }

    /** The first render: the option comes from the session, everything else is empty. */
    constructor (tabStore: KeyValueStore, session: SessionProvider)
      requires session.Valid() && tabStore != session.store
      ensures this.tabStore == tabStore && this.session == session && Valid()
      ensures selectedOption == session.processingOption && file == None && error == ""
      ensures Length() == LengthFields("", Unset, "") && pendingReads == []
    {
      this.tabStore := tabStore;
      this.session := session;
      selectedOption := session.processingOption;
      file := None;
      error := "";
      summaryLength := Unset;
      lengthError := "";
      tempLength := "";
      pendingReads := [];
      new;
      assert TrimStart("") == "";
    }

    /** `handleOptionSelect(key)`: the option is selected here and recorded in the session. */
    method SelectOption(key: string)
      requires Valid()
      modifies this`selectedOption, session, session.store
      ensures Valid() && selectedOption == key
      ensures session.State() == old(session.State()).(processingOption := key)
      ensures session.darkMode == old(session.darkMode)
      ensures session.store.entries == if key == old(session.processingOption) then old(session.store.entries)
                                       else old(session.store.entries)[ProcessingOptionKey := key]
    {
      selectedOption := key;
      session.SetProcessingOption(key);
    }

    /** `handleFileChange`. */
    method FileChange(chosen: Option<FileInfo>)
      requires Valid()
      modifies this`file, this`error
      ensures Valid()
      ensures FileFields(file, error) == ChooseFile(chosen)
    {
      if chosen.Some? && chosen.value.size > MaxFileSize {
        error := FileTooLargeMessage;
        file := None;
        return;
      }
      file := chosen;
      error := "";
    }

    /** `validateLength(value)`: sets the length error and tells whether the value is valid. */
    method ValidateLength(value: string) returns (valid: bool)
      modifies this`lengthError
      ensures valid <==> LengthMessage(value) == ""
      ensures lengthError == LengthMessage(value)
    {
      if value == "" {
        lengthError := "";
        return true;
      }
      var parsed := ParseInt(value);
      if parsed.None? {
        lengthError := InvalidNumberMessage;
        return false;
      }
      if parsed.value > MaxWords {
        lengthError := TooLongMessage;
        return false;
      }
      if parsed.value < MinWords {
        lengthError := TooShortMessage;
        return false;
      }
      lengthError := "";
      return true;
    }

    /** `handleSummaryLengthChange`. */
    method SummaryLengthChange(value: string)
      requires Valid()
      modifies this`tempLength, this`summaryLength, this`lengthError
      ensures Valid()
      ensures Length() == Change(old(Length()), value)
    {
      ChangeKeepsCoherent(Length(), value);
      tempLength := value;
      if value == "" {
        summaryLength := Unset;
        lengthError := "";
      } else {
        var parsed := ParseInt(value);
        if parsed.Some? {
          summaryLength := Words(parsed.value);
        }
      }
    }

    /**
     * `handleSummaryLengthBlur`: the three length fields become `Blur` of
     * what they were, and the length stays in step with its text.
     */
    method SummaryLengthBlur()
      requires Valid()
      modifies this`tempLength, this`summaryLength, this`lengthError
      ensures Valid()
      ensures Length() == Blur(old(Length()))
    {
      var next := Blur(Length());
      BlurKeepsCoherent(Length());
      tempLength, summaryLength, lengthError := next.tempLength, next.summaryLength, next.lengthError;
      assert Length() == next;
      assert session.Valid();
    }

    /**
     * `handleSubmit`, up to starting the file read. A failed check sets its
     * message and leaves the tab store alone; a passing submit removes exactly
     * the five chat entries and starts a read that captures the current length.
     */
    method Submit() returns (gate: Gate)
      requires Valid()
      modifies this`error, this`lengthError, this`pendingReads, tabStore
      ensures Valid()
      ensures gate == SubmitCheck(selectedOption, file.Some?, tempLength)
      ensures gate == NeedOption ==> error == NoOptionMessage && lengthError == old(lengthError)
      ensures gate == NeedFile ==> error == NoFileMessage && lengthError == old(lengthError)
      ensures gate == BadLength || gate == Pass ==> error == old(error)
      ensures gate == BadLength ==> lengthError == LengthMessage(tempLength)
      ensures gate == Pass ==> lengthError == if tempLength == "" then old(lengthError) else ""
      ensures gate != Pass ==> tabStore.entries == old(tabStore.entries) && pendingReads == old(pendingReads)
      ensures gate == Pass ==> tabStore.entries == ClearChatKeys(old(tabStore.entries))
      ensures gate == Pass ==> pendingReads == old(pendingReads) + [summaryLength]
    {
      if selectedOption == "" {
        error := NoOptionMessage;
        return NeedOption;
      }
      if file.None? {
        error := NoFileMessage;
        return NeedFile;
      }
      if tempLength != "" {
        var valid := ValidateLength(tempLength);
        if !valid {
          return BadLength;
        }
      }
      RemoveChatKeys(tabStore);
      pendingReads := pendingReads + [summaryLength];
      gate := Pass;
    }

    /** The `k`th pending file read finishes with `dataUrl`: `reader.onload`, before navigating. */
    method ReadLoaded(k: nat, dataUrl: string)
      requires Valid() && k < |pendingReads|
      modifies this`pendingReads, tabStore
      ensures Valid()
      ensures tabStore.entries == SaveUpload(old(tabStore.entries), old(pendingReads)[k], dataUrl)
      ensures pendingReads == old(pendingReads)[..k] + old(pendingReads)[k + 1..]
    {
      var captured := pendingReads[k];
      tabStore.SetItem(UploadedFileKey, dataUrl);
      if captured.Words? && captured.n != 0 {
        tabStore.SetItem(SummaryLengthKey, IntToString(captured.n));
      }
      pendingReads := pendingReads[..k] + pendingReads[k + 1..];
    }
  }

  /**
   * Submitting an upload does not touch the chat log: the page clears
   * `chatMessages` in the tab's `sessionStorage`, while the chat page keeps its
   * log in `localStorage`, the store of the session.
   */
  method SubmitKeepsChatLog(page: UploadPage, chat: Chat.ChatView) returns (gate: Gate)
    requires page.Valid() && chat.Valid()
    requires chat.store == page.session.store
    modifies page, page.tabStore
    ensures page.Valid() && chat.Valid()
    ensures chat.messages == old(chat.messages)
    ensures chat.store.entries == old(chat.store.entries)
    ensures gate == Pass ==> page.tabStore.entries == ClearChatKeys(old(page.tabStore.entries))
  {
    gate := page.Submit();
  }
}
