/**
 * The `respond` handler of the chat UI: the transcript shown to the
 * visitor is converted to the model's message format (dropping entries
 * before the first user message), `Me.chat` answers, and the exchange is
 * appended to the transcript in place.
 */
module Ui {
  import opened Wrappers
  import opened Messages
  import opened Dispatch
  import opened Conversation
  import opened Agent

  /** The transcript widget's value; `respond` appends to it in place. */
  class ChatHistory {
    var entries: seq<Entry>

    constructor (entries: seq<Entry>)
      ensures this.entries == entries
    {
      this.entries := entries;
    }
  }

  /**
   * The conversion loop of `respond`: a user entry is always kept, an
   * assistant entry only once something has been kept, anything else is
   * dropped; kept entries keep their content.
   */
  function ApiHistory(entries: seq<Entry>): (history: seq<Message>)
    ensures forall m :: m in history ==> m.Text? && (m.role == UserRole || m.role == AssistantRole)
    ensures history != [] ==> history[0].Text? && history[0].role == UserRole
    ensures |history| <= |entries|
    decreases |entries|
  {
    if entries == [] then []
    else
      var kept := ApiHistory(entries[..|entries| - 1]);
      var e := entries[|entries| - 1];
      if e.role == UserRole then kept + [Text(UserRole, e.content)]
      else if e.role == AssistantRole && kept != [] then kept + [Text(AssistantRole, e.content)]
      else kept
  }

  /** The index of the first user entry, or the length when there is none. */
  function FirstUser(entries: seq<Entry>): (k: nat)
    ensures k <= |entries|
    ensures forall i :: 0 <= i < k ==> entries[i].role != UserRole
    ensures k < |entries| ==> entries[k].role == UserRole
  {
    if entries == [] then 0
    else if entries[0].role == UserRole then 0
    else 1 + FirstUser(entries[1..])
  }

  /** Every user and assistant entry, in order, as a message with its role and content. */
  function Dialogue(entries: seq<Entry>): seq<Message>
  {
    if entries == [] then []
    else
      (if entries[0].role == UserRole || entries[0].role == AssistantRole then [Text(entries[0].role, entries[0].content)] else [])
      + Dialogue(entries[1..])
  }

  lemma {:induction false} DialogueAppend(entries: seq<Entry>, e: Entry)
    ensures Dialogue(entries + [e]) == Dialogue(entries) + Dialogue([e])
  {
    if entries != [] {
      assert (entries + [e])[1..] == entries[1..] + [e];
      DialogueAppend(entries[1..], e);
    }
  }

  lemma {:induction false} FirstUserAppend(entries: seq<Entry>, e: Entry)
    requires FirstUser(entries) < |entries|
    ensures FirstUser(entries + [e]) == FirstUser(entries)
  {
    if entries[0].role != UserRole {
      assert (entries + [e])[1..] == entries[1..] + [e];
      FirstUserAppend(entries[1..], e);
    }
  }

  /**
   * The conversion keeps exactly the user and assistant entries from the
   * first user entry on: greeting messages the assistant posted before the
   * visitor said anything are dropped, nothing after is.
   */
  lemma {:induction false} ApiHistoryIsDialogue(entries: seq<Entry>)
    ensures ApiHistory(entries) == Dialogue(entries[FirstUser(entries)..])
    decreases |entries|
  {
    if entries != [] {
      var n := |entries| - 1;
      var pre, e := entries[..n], entries[n];
      assert entries == pre + [e];
      ApiHistoryIsDialogue(pre);
      DialogueSingle(e);
      if FirstUser(pre) < |pre| {
        var k := FirstUser(pre);
        FirstUserAppend(pre, e);
        assert (pre + [e])[k..] == pre[k..] + [e];
        DialogueAppend(pre[k..], e);
        assert Dialogue(pre[k..]) != [];
      } else {
        FirstUserNone(pre, e);
      }
    }
  }

  lemma DialogueSingle(e: Entry)
    ensures Dialogue([e]) == if e.role == UserRole || e.role == AssistantRole then [Text(e.role, e.content)] else []
  {
    assert [e][1..] == [];
  }

  /** When no earlier entry is a user's, the first user entry is the appended one, if it is a user's. */
  lemma {:induction false} FirstUserNone(entries: seq<Entry>, e: Entry)
    requires FirstUser(entries) == |entries|
    ensures FirstUser(entries + [e]) == if e.role == UserRole then |entries| else |entries| + 1
  {
    if entries != [] {
      assert (entries + [e])[1..] == entries[1..] + [e];
      FirstUserNone(entries[1..], e);
    }
  }

  /** The contents of the user entries, in order. */
  function UserEntries(entries: seq<Entry>): seq<Option<string>>
    decreases |entries|
  {
    if entries == [] then []
    else
      var e := entries[|entries| - 1];
      UserEntries(entries[..|entries| - 1]) + (if e.role == UserRole then [e.content] else [])
  }

  /** The contents of the user messages, in order. */
  function UserTurns(history: seq<Message>): seq<Option<string>>
    decreases |history|
  {
    if history == [] then []
    else
      var m := history[|history| - 1];
      UserTurns(history[..|history| - 1]) + (if m.Text? && m.role == UserRole then [m.content] else [])
  }

  /** No user message is lost or altered by the conversion. */
  lemma {:induction false} ApiHistoryKeepsUserTurns(entries: seq<Entry>)
    ensures UserTurns(ApiHistory(entries)) == UserEntries(entries)
    decreases |entries|
  {
    if entries != [] {
      var pre := entries[..|entries| - 1];
      var kept := ApiHistory(pre);
      ApiHistoryKeepsUserTurns(pre);
      var e := entries[|entries| - 1];
      if e.role == UserRole || (e.role == AssistantRole && kept != []) {
        var m := Text(e.role, e.content);
        assert (kept + [m])[..|kept|] == kept;
      }
    }
  }

  /**
   * After `respond` has appended an exchange, the next conversion carries
   * it: the user's message and the reply, in that order.
   */
  lemma ExchangeIsKept(entries: seq<Entry>, message: string, reply: Option<string>)
    ensures ApiHistory(entries + [Entry(UserRole, Some(message)), Entry(AssistantRole, reply)])
         == ApiHistory(entries) + [Text(UserRole, Some(message)), Text(AssistantRole, reply)]
  {
    var withUser := entries + [Entry(UserRole, Some(message))];
    var both := withUser + [Entry(AssistantRole, reply)];
    assert entries + [Entry(UserRole, Some(message)), Entry(AssistantRole, reply)] == both;
    assert both[..|both| - 1] == withUser;
    assert withUser[..|withUser| - 1] == entries;
  }

  /** The conversion loop of `respond`. */
  method ConvertHistory(chatHistory: seq<Entry>) returns (apiHistory: seq<Message>)
    ensures apiHistory == ApiHistory(chatHistory)
  {
    apiHistory := [];
    for i := 0 to |chatHistory|
      invariant apiHistory == ApiHistory(chatHistory[..i])
    {
      assert chatHistory[..i + 1][..i] == chatHistory[..i];
      var msg := chatHistory[i];
      if msg.role == UserRole {
        apiHistory := apiHistory + [Text(UserRole, msg.content)];
      } else if msg.role == AssistantRole && apiHistory != [] {
        apiHistory := apiHistory + [Text(AssistantRole, msg.content)];
      }
    }
    assert chatHistory[..|chatHistory|] == chatHistory;
  }

  /**
   * `respond`: the transcript converted, `me.chat` run on it; when the
   * turn is answered, the user's message and the reply are appended to
   * the transcript and the textbox is cleared (`Some("")`). A turn that
   * raises or is not answered leaves the transcript as it was and
   * returns no textbox value (`None`).
   */
  method Respond(me: Me, message: string, chatHistory: ChatHistory, script: seq<Response>)
    returns (textbox: Option<string>, run: ChatRun)
    modifies chatHistory, me.outbox
    ensures run == Converse(Execute, me.Opening(ApiHistory(old(chatHistory.entries)), message), script)
    ensures me.outbox.sent == old(me.outbox.sent) + Notified(Execute, me.Opening(ApiHistory(old(chatHistory.entries)), message), script)
    ensures run.end.Answered? ==>
      && textbox == Some("")
      && chatHistory.entries == old(chatHistory.entries) + [Entry(UserRole, Some(message)), Entry(AssistantRole, run.end.reply)]
    ensures !run.end.Answered? ==> textbox == None && chatHistory.entries == old(chatHistory.entries)
  {
    var apiHistory := ConvertHistory(chatHistory.entries);
    run := me.Chat(message, apiHistory, script);
    if !run.end.Answered? {
      return None, run;
    }
    chatHistory.entries := chatHistory.entries + [Entry(UserRole, Some(message))];
    chatHistory.entries := chatHistory.entries + [Entry(AssistantRole, run.end.reply)];
    textbox := Some("");
  }
}
