/** The chat session: the persona-tagged conversation kept for context, the
    persona last spoken to, and the two things the interface asks of it — take
    a turn, and start over. */
module Chat {
  import opened Wrappers
  import Text
  import Personas
  import Gemini

  /** How many of the most recent conversation entries go into a prompt. */
  const ContextSize: nat := 6

  /** One row of the chat display: what the user wrote and, once it is known,
      the reply. */
  datatype Row = Row(user: string, bot: Option<string>)

  /** The display list the interface owns and hands to each turn, which
      changes it in place. */
  class Transcript {
    var rows: seq<Row>

    constructor (rows: seq<Row>)
      ensures this.rows == rows
    {
      this.rows := rows;
    }
  }

  /** The most recent `ContextSize` entries, or all of them when there are
      fewer, in their original order. */
  function Window(h: seq<string>): (w: seq<string>)
    ensures |w| == if |h| <= ContextSize then |h| else ContextSize
    ensures w == h[|h| - |w|..]
  {
    if |h| > ContextSize then h[|h| - ContextSize..] else h
  }

  /** The recent conversation as one text, entries separated by line breaks;
      with few enough entries that is all of them. */
  function ConversationContext(h: seq<string>): (context: string)
    ensures h == [] ==> context == ""
    ensures |h| <= ContextSize ==> context == Text.Join(h, '\n')
  {
    Text.Join(Window(h), '\n')
  }

  /** When no entry holds a line break of its own, splitting the context at
      line breaks gives back exactly the recent entries. */
  lemma ContextSplitsIntoWindow(h: seq<string>)
    requires h != []
    requires forall i :: 0 <= i < |h| ==> '\n' !in h[i]
    ensures Text.Split(ConversationContext(h), '\n') == Window(h)
  {
    var w := Window(h);
    forall k | 0 <= k < |w|
      ensures '\n' !in w[k]
    {
      assert w[k] == h[|h| - |w| + k];
    }
    Text.SplitJoin(w, '\n');
  }

  /** The conversation as the session keeps it: a user entry and a persona
      entry for every turn, the user entry first. */
  predicate Alternating(h: seq<string>) {
    |h| % 2 == 0 && forall i :: 0 <= i < |h| && i % 2 == 0 ==> Gemini.StartsWith(h[i], "User: ")
  }

  /** Adding a turn's two entries keeps the conversation alternating. */
  lemma AddTurnKeepsAlternating(h: seq<string>, message: string, line: string)
    requires Alternating(h)
    ensures Alternating(h + ["User: " + message, line])
  {
    var h' := h + ["User: " + message, line];
    forall i | 0 <= i < |h'| && i % 2 == 0
      ensures Gemini.StartsWith(h'[i], "User: ")
    {
      if i == |h| {
        assert h'[i] == "User: " + message;
        assert h'[i][..6] == "User: ";
      } else {
        assert h'[i] == h[i];
      }
    }
  }

  class RoleBasedChat {
    /** Every entry of the conversation so far, oldest first. */
    var conversationHistory: seq<string>
    /** The persona of the latest turn, none before the first. */
    var currentRole: Option<string>
    /** The key read from the environment at start-up; absent or empty means
        no call can be made. */
    const apiKey: Option<string>
    const apiUrl: string
    /** The persona table, keyed by the names the interface offers. */
    const rolePrompts: map<string, Personas.Role>

    constructor (apiKey: Option<string>)
      ensures conversationHistory == [] && currentRole == None
      ensures this.apiKey == apiKey && apiUrl == Gemini.ApiUrl && rolePrompts == Personas.Table()
    {
      conversationHistory := [];
      currentRole := None;
      this.apiKey := apiKey;
      apiUrl := Gemini.ApiUrl;
      rolePrompts := Personas.Table();
    }

    /** The recent conversation as one text; see `ConversationContext`. */
    function GetConversationContext(): string
      reads this`conversationHistory
    {
      ConversationContext(conversationHistory)
    }

    /** One turn. A message that is blank once surrounding whitespace is
        stripped changes nothing and sends nothing. Otherwise the display gets
        a row for the message, the call is made with the context as it stood
        before the turn, the reply (a failure report included) fills the
        row and is added to the conversation after the user's entry, and the
        persona becomes the current one. The display and an empty input box
        are handed back. */
    method ChatResponse(message: string, role: string, history: Transcript, net: Gemini.NetResult)
      returns (shown: Transcript, input: string, sent: Option<Gemini.Request>)
      modifies this`conversationHistory, this`currentRole, history`rows
      ensures shown == history && input == ""
      ensures Text.IsBlank(message) ==>
                conversationHistory == old(conversationHistory) && currentRole == old(currentRole) &&
                history.rows == old(history.rows) && sent.None?
      ensures !Text.IsBlank(message) ==>
                var x := Gemini.Call(apiUrl, apiKey, rolePrompts, old(GetConversationContext()), message, role, net);
                && conversationHistory == old(conversationHistory) + ["User: " + message, role + ": " + x.reply]
                && history.rows == old(history.rows) + [Row(message, Some(x.reply))]
                && currentRole == Some(role)
                && sent == x.sent
      ensures Alternating(old(conversationHistory)) ==> Alternating(conversationHistory)
    {
      if Text.Strip(message) == [] {
        return history, "", None;
      }
      currentRole := Some(role);
      history.rows := history.rows + [Row(message, None)];
      var x := Gemini.Call(apiUrl, apiKey, rolePrompts, GetConversationContext(), message, role, net);
      ghost var before := conversationHistory;
      conversationHistory := conversationHistory + ["User: " + message];
      conversationHistory := conversationHistory + [role + ": " + x.reply];
      assert conversationHistory == before + ["User: " + message, role + ": " + x.reply];
      if Alternating(before) {
        AddTurnKeepsAlternating(before, message, role + ": " + x.reply);
      }
      var last := |history.rows| - 1;
      history.rows := history.rows[last := history.rows[last].(bot := Some(x.reply))];
      return history, "", x.sent;
    }

    /** Starting over: the conversation is emptied and the interface gets an
        empty display and an empty input box. The persona table, the key and
        the current persona are left as they are. */
    method ClearChat() returns (shown: Transcript, input: string)
      modifies this`conversationHistory
      ensures conversationHistory == [] && ConversationContext(conversationHistory) == ""
      ensures fresh(shown) && shown.rows == [] && input == ""
    {
      conversationHistory := [];
      shown := new Transcript([]);
      input := "";
    }
  }
}
