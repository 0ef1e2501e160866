/**
 * The chat page: a log of `{role, content}` messages kept in `localStorage`
 * under `chatMessages`, an input box, and a send action that appends the
 * user's message at once and, one timer later, an `Echo: ` reply.
 *
 * The timer callbacks are modelled as a queue of the inputs they captured;
 * `DeliverEcho` is one callback firing. Callbacks with equal delays fire in
 * the order they were scheduled, so the queue is first in, first out.
 */
module Chat {
  import opened Common
  import opened JsText
  import opened Json
  import opened Storage

  const ChatMessagesKey: string := "chatMessages"
  const UserRole: string := "user"
  const BotRole: string := "bot"
  const SystemRole: string := "system"
  const EchoPrefix: string := "Echo: "

  /**
   * The log the page starts with: `saved ? JSON.parse(saved) : summary ?
   * [{role: 'system', content: summary}] : []`. An absent or empty stored text
   * falls through to the summary rule. `None` is a stored text that is not a
   * message array (parsing throws, or yields something that is not a log).
   */
  function InitialLog(saved: Option<string>, summary: string): (r: Option<seq<Message>>)
    ensures (saved.None? || saved == Some("")) && summary != "" ==> r == Some([Message(SystemRole, summary)])
    ensures (saved.None? || saved == Some("")) && summary == "" ==> r == Some([])
  {
    if saved.Some? && saved.value != "" then DecodeMessages(saved.value)
    else if summary != "" then Some([Message(SystemRole, summary)])
    else Some([])
  }

  /** A stored log always wins over the summary: reloading the page restores the log as it was. */
  lemma ReloadRestoresLog(log: seq<Message>, summary: string)
    ensures InitialLog(Some(EncodeMessages(log)), summary) == Some(log)
  {
    MessagesRoundTrip(log);
  }

  /**
   * Once an empty log has been stored, the summary no longer seeds it: the
   * stored text `[]` is not empty, so it is parsed instead.
   */
  lemma StoredEmptyLogIsNotReseeded(summary: string)
    ensures InitialLog(Some(EncodeMessages([])), summary) == Some([])
  {
  }

  /** `e.key === 'Enter' && !e.shiftKey`: the keys that send the message. */
  predicate SendsOnKey(key: string, shiftKey: bool) {
    key == "Enter" && !shiftKey
  }

  /** The guard of `sendMessage`: `input.trim()` is not empty. */
  method CanSend(input: string) returns (r: bool)
    ensures r <==> !IsBlank(input)
  {
    TrimEmptyIffBlank(input);
    r := Trim(input) != "";
  }

  class ChatView {
    var messages: seq<Message>
    var input: string
    /** The inputs captured by the echo callbacks not yet fired, oldest first. */
    var pending: seq<string>
    /** `localStorage`. */
    const store: KeyValueStore
    /** Every input a send accepted, in order, and how many of them have been echoed. */
    ghost var sent: seq<string>
    ghost var echoed: nat

    ghost predicate Valid()
      reads this, store
    {
      && ChatMessagesKey in store.entries
      && store.entries[ChatMessagesKey] == EncodeMessages(messages)
      && echoed <= |sent|
      && pending == sent[echoed..]
    }

    /** The first render with log `initial` and its persistence effect. */
    constructor (store: KeyValueStore, initial: seq<Message>)
      modifies store
      ensures this.store == store && Valid()
      ensures messages == initial && input == "" && pending == [] && sent == [] && echoed == 0
      ensures store.entries == old(store.entries)[ChatMessagesKey := EncodeMessages(initial)]
    {
      this.store := store;
      messages := initial;
      input := "";
      pending := [];
      sent := [];
      echoed := 0;
      new;
      store.SetItem(ChatMessagesKey, EncodeMessages(initial));
    }

    /**
     * Mounting the page: the log is read from the store (or seeded from the
     * summary) and written back. `null` stands for an initialisation that
     * throws on a stored text that is not a log; the store is then unchanged.
     */
    static method Open(store: KeyValueStore, summary: string) returns (view: ChatView?)
      modifies store
      ensures view == null <==> InitialLog(Lookup(old(store.entries), ChatMessagesKey), summary).None?
      ensures view == null ==> store.entries == old(store.entries)
      ensures view != null ==> fresh(view) && view.store == store && view.Valid() && view.input == ""
      ensures view != null ==> Some(view.messages) == InitialLog(Lookup(old(store.entries), ChatMessagesKey), summary)
      ensures view != null ==> view.pending == [] && view.sent == [] && view.echoed == 0
      ensures view != null ==> store.entries == old(store.entries)[ChatMessagesKey := EncodeMessages(view.messages)]
    {
      var initial := InitialLog(store.GetItem(ChatMessagesKey), summary);
      if initial.None? {
        view := null;
      } else {
        view := new ChatView(store, initial.value);
      }
    }

    /** Typing: `setInput(e.target.value)`. */
    method SetInput(text: string)
      requires Valid()
      modifies this
      ensures Valid() && input == text
      ensures messages == old(messages) && pending == old(pending)
      ensures sent == old(sent) && echoed == old(echoed)
    {
      input := text;
    }

    /**
     * `sendMessage`: nothing happens for an empty or whitespace-only input;
     * otherwise the input, untrimmed, is appended as a user message, the box is
     * cleared, the log is stored, and an echo of that input is scheduled.
     */
    method SendMessage() returns (sentNow: bool)
      requires Valid()
      modifies this, store
      ensures Valid()
      ensures sentNow <==> !IsBlank(old(input))
      ensures !sentNow ==> messages == old(messages) && input == old(input) && pending == old(pending)
      ensures !sentNow ==> store.entries == old(store.entries) && sent == old(sent)
      ensures sentNow ==> messages == old(messages) + [Message(UserRole, old(input))] && input == ""
      ensures sentNow ==> pending == old(pending) + [old(input)] && sent == old(sent) + [old(input)]
      ensures sentNow ==> store.entries == old(store.entries)[ChatMessagesKey := EncodeMessages(messages)]
      ensures echoed == old(echoed)
    {
      var ok := CanSend(input);
      if !ok {
        return false;
      }
      var text := input;
      messages := messages + [Message(UserRole, text)];
      input := "";
      pending := pending + [text];
      assert (sent + [text])[echoed..] == sent[echoed..] + [text];
      sent := sent + [text];
      assert pending == sent[echoed..];
      store.SetItem(ChatMessagesKey, EncodeMessages(messages));
      sentNow := true;
    }

    /**
     * The oldest scheduled echo fires: `Echo: ` and the input captured at send
     * time are appended as a bot message and the log is stored. Earlier
     * messages are not touched.
     */
    method DeliverEcho()
      requires Valid() && pending != []
      modifies this`messages, this`pending, this`echoed, store
      ensures Valid()
      ensures messages == old(messages) + [Message(BotRole, EchoPrefix + old(pending)[0])]
      ensures pending == old(pending)[1..] && echoed == old(echoed) + 1
      ensures old(pending)[0] == sent[old(echoed)]
      ensures store.entries == old(store.entries)[ChatMessagesKey := EncodeMessages(messages)]
    {
      var text := pending[0];
      messages := messages + [Message(BotRole, EchoPrefix + text)];
      assert sent[echoed + 1..] == sent[echoed..][1..];
      pending := pending[1..];
      echoed := echoed + 1;
      store.SetItem(ChatMessagesKey, EncodeMessages(messages));
    }

    /** `handleKeyDown`: Enter without Shift sends; any other key does nothing. */
    method KeyDown(key: string, shiftKey: bool) returns (sentNow: bool)
      requires Valid()
      modifies this, store
      ensures Valid()
      ensures sentNow <==> SendsOnKey(key, shiftKey) && !IsBlank(old(input))
      ensures !sentNow ==> messages == old(messages) && input == old(input) && pending == old(pending)
      ensures !sentNow ==> store.entries == old(store.entries) && sent == old(sent)
      ensures sentNow ==> messages == old(messages) + [Message(UserRole, old(input))] && input == ""
      ensures sentNow ==> pending == old(pending) + [old(input)] && sent == old(sent) + [old(input)]
      ensures sentNow ==> store.entries == old(store.entries)[ChatMessagesKey := EncodeMessages(messages)]
      ensures echoed == old(echoed)
    {
      if SendsOnKey(key, shiftKey) {
        sentNow := SendMessage();
      } else {
        sentNow := false;
      }
    }
  }

  /**
   * The user types and sends each of `inputs` in turn: exactly the non-blank
   * ones are appended as user messages, in order, and each schedules one echo.
   */
  method SendAll(view: ChatView, inputs: seq<string>)
    requires view.Valid()
    modifies view, view.store
    ensures view.Valid() && view.echoed == old(view.echoed)
    ensures view.messages == old(view.messages) + UserMessages(Sendable(inputs))
    ensures view.pending == old(view.pending) + Sendable(inputs)
  {
    ghost var log0, queue0 := view.messages, view.pending;
    ghost var accepted: seq<string> := [];
    var i := 0;
    while i < |inputs|
      invariant 0 <= i <= |inputs|
      invariant view.Valid() && view.echoed == old(view.echoed)
      invariant accepted == Sendable(inputs[..i])
      invariant view.messages == log0 + UserMessages(accepted)
      invariant view.pending == queue0 + accepted
    {
      SendStep(view, inputs[i], log0, queue0, accepted);
      SendablePrefix(inputs, i);
      accepted := Accept(accepted, inputs[i]);
      i := i + 1;
    }
    assert inputs[..|inputs|] == inputs;
  }

  /** One more input typed and sent, after the inputs `accepted` so far. */
  method SendStep(view: ChatView, text: string, ghost log0: seq<Message>, ghost queue0: seq<string>,
                  ghost accepted: seq<string>)
    requires view.Valid()
    requires view.messages == log0 + UserMessages(accepted)
    requires view.pending == queue0 + accepted
    modifies view, view.store
    ensures view.Valid() && view.echoed == old(view.echoed)
    ensures view.messages == log0 + UserMessages(Accept(accepted, text))
    ensures view.pending == queue0 + Accept(accepted, text)
  {
    view.SetInput(text);
    var ok := view.SendMessage();
    if ok {
      assert Accept(accepted, text) == accepted + [text];
      UserMessagesSnoc(accepted, text);
      AppendAssoc(log0, UserMessages(accepted), [Message(UserRole, text)]);
      AppendAssoc(queue0, accepted, [text]);
    } else {
      assert Accept(accepted, text) == accepted;
    }
  }

  /** Every scheduled echo fires, oldest first: one `Echo: ` reply per pending input. */
  method DeliverAll(view: ChatView)
    requires view.Valid()
    modifies view, view.store
    ensures view.Valid() && view.pending == []
    ensures view.messages == old(view.messages) + Echoes(old(view.pending))
  {
    ghost var log0, queue := view.messages, view.pending;
    ghost var delivered: seq<string> := [];
    while view.pending != []
      invariant view.Valid()
      invariant queue == delivered + view.pending
      invariant view.messages == log0 + Echoes(delivered)
      decreases |view.pending|
    {
      ghost var next := view.pending[0];
      DeliverStep(view, log0, delivered);
      AppendAssoc(delivered, [next], view.pending);
      delivered := delivered + [next];
    }
    assert delivered == queue;
  }

  /** One more echo fires, after the echoes of `delivered`. */
  method DeliverStep(view: ChatView, ghost log0: seq<Message>, ghost delivered: seq<string>)
    requires view.Valid() && view.pending != []
    requires view.messages == log0 + Echoes(delivered)
    modifies view, view.store
    ensures view.Valid()
    ensures view.messages == log0 + Echoes(delivered + [old(view.pending)[0]])
    ensures old(view.pending) == [old(view.pending)[0]] + view.pending
  {
    ghost var next := view.pending[0];
    view.DeliverEcho();
    EchoesSnoc(delivered, next);
    AppendAssoc(log0, Echoes(delivered), [Message(BotRole, EchoPrefix + next)]);
  }

  /**
   * A session of the page with no echo pending: after the sends and all their
   * callbacks, the log has grown by one user message and one echo per accepted
   * input, and nothing before it has changed.
   */
  method SendAllThenDeliver(view: ChatView, inputs: seq<string>)
    requires view.Valid() && view.pending == []
    modifies view, view.store
    ensures view.Valid() && view.pending == []
    ensures view.messages == old(view.messages) + UserMessages(Sendable(inputs)) + Echoes(Sendable(inputs))
  {
    SendAll(view, inputs);
    assert view.pending == Sendable(inputs);
    DeliverAll(view);
  }

  /** The inputs a send accepts, in order. */
  function Sendable(inputs: seq<string>): (r: seq<string>)
    ensures |r| <= |inputs|
  {
    if inputs == [] then []
    else if IsBlank(inputs[|inputs| - 1]) then Sendable(inputs[..|inputs| - 1])
    else Sendable(inputs[..|inputs| - 1]) + [inputs[|inputs| - 1]]
  }

  /** Every accepted input has a non-whitespace character, and every such input is accepted. */
  lemma {:induction false} SendableIsNonBlank(inputs: seq<string>)
    ensures forall x :: x in Sendable(inputs) <==> x in inputs && !IsBlank(x)
  {
    if inputs != [] {
      var init := inputs[..|inputs| - 1];
      SendableIsNonBlank(init);
      assert inputs == init + [inputs[|inputs| - 1]];
    }
  }

  /** The accepted inputs after one more send of `x`. */
  function Accept(accepted: seq<string>, x: string): seq<string> {
    if IsBlank(x) then accepted else accepted + [x]
  }

  lemma SendablePrefix(inputs: seq<string>, i: nat)
    requires i < |inputs|
    ensures Sendable(inputs[..i + 1]) == Accept(Sendable(inputs[..i]), inputs[i])
  {
    assert inputs[..i + 1][..i] == inputs[..i];
  }

  function UserMessages(texts: seq<string>): (r: seq<Message>)
    ensures |r| == |texts|
  {
    if texts == [] then [] else UserMessages(texts[..|texts| - 1]) + [Message(UserRole, texts[|texts| - 1])]
  }

  lemma UserMessagesSnoc(texts: seq<string>, x: string)
    ensures UserMessages(texts + [x]) == UserMessages(texts) + [Message(UserRole, x)]
  {
    assert (texts + [x])[..|texts|] == texts;
  }

  /** The bot replies to `texts`, one `Echo: ` message per text, in order. */
  function Echoes(texts: seq<string>): (r: seq<Message>)
    ensures |r| == |texts|
  {
    if texts == [] then [] else Echoes(texts[..|texts| - 1]) + [Message(BotRole, EchoPrefix + texts[|texts| - 1])]
  }

  lemma EchoesSnoc(texts: seq<string>, x: string)
    ensures Echoes(texts + [x]) == Echoes(texts) + [Message(BotRole, EchoPrefix + x)]
  {
    assert (texts + [x])[..|texts|] == texts;
  }
}
