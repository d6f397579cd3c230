# Role-based chat session

This project models the session object behind a persona chat front end. The user picks one of eight personas ("Mom", "Teacher", "Best Friend", ...) and types a message. The session builds a prompt from four parts: the persona's instruction text, the last few lines of the conversation, the new message, and the persona's first word. It posts the prompt to a hosted text-generation endpoint and reads the generated text out of the JSON reply. The reply is recorded both in its own conversation list and in the display list of the interface.

The modules follow the pieces of the session:

- `Wrappers`: `Option`, for Python's `None`.
- `Text`: the parts of Python's string behaviour the session relies on:
  - `isspace`;
  - `strip()` and the blank-message test;
  - `split()[0]`, the first word of a persona name;
  - `"\n".join` and its inverse `split("\n")`;
  - `str(int)` and its inverse.
- `Json`: the decoded reply document, plus a generic path lookup `At`. `At` is the reference definition that reply extraction is checked against.
- `Personas`: the eight-entry persona table, with the real names, instruction texts and emoji.
- `Gemini`: one call to the endpoint:
  - the missing-key short circuit;
  - the persona lookup and the prompt;
  - the request that is sent;
  - reading what came back into an `Outcome`;
  - the reply string of each outcome.

  The network is an input: `NetResult` is what `requests.post` produced, whether a timeout, a connection failure, another request failure, or a response with a status, a text and that text read as JSON.
- `Chat`:
  - the display list `Transcript`, which the interface owns and each turn changes in place;
  - the class `RoleBasedChat`, with its conversation list, its current persona, its key, its endpoint and its persona table;
  - the context window `GetConversationContext`, which reads `ConversationContext` over the conversation list;
  - the turn `ChatResponse`;
  - the reset `ClearChat`.

The classify/reply pair is used to show that every failure has its own reply string. `Classify` reads a reply string back into the outcome it reports. `ClassifyReplyText` proves that this undoes `ReplyText` for every failure outcome, so no two failures can be confused.

## Model

| member | source | states |
|---|---|---|
| Personas.TableHoldsEightRoles | app.py:15-48 | the table has exactly eight entries, one per persona, each under that persona's display name; the selector's starting value is one of them |
| Personas.TableRolesHaveAWord | app.py:72 | every table key has a first whitespace-separated word, so the prompt's `split()[0]` never fails for a persona from the table |
| Personas.RoleFirstWord | app.py:72 | for every persona, the word the prompt asks the model to answer as is the first word of its name: "Mom", "Dad", "Big", "Sister", "Best", "Teacher", "Counselor", "Motivational" |
| Text.Strip | app.py:140 | stripping gives the empty string exactly when the message is all whitespace; otherwise the result starts and ends with a non-space |
| Text.FirstWord | app.py:72 | `split()[0]` exists exactly when the string is not all whitespace, and it is a non-empty run without whitespace |
| Text.FirstWordOfName | app.py:72 | a word followed by whitespace (or by nothing) is the first word of the string |
| Text.SplitJoin | app.py:135-136 | joining entries that hold no separator and splitting at the separator gives the entries back |
| Text.ParseNatToString | app.py:118 | the decimal text of a status code reads back as that code |
| Gemini.ClassifyReplyText | app.py:54-130 | every failure reply reads back as exactly the failure it reports |
| Gemini.FailureRepliesDistinct | app.py:54-130 | two different failures never produce the same reply string |
| Gemini.ClassifyApiErrorReply | app.py:117-119 | the API error reply carries the status code and the response text, and both can be read back |
| Gemini.ExtractFollowsPath | app.py:102-116 | a 200 reply gives generated text exactly when a string sits at `candidates[0].content.parts[0].text`; "no candidates" exactly when `candidates` is missing or empty; "no content" exactly when `candidates[0]` lacks `content`; "no parts" exactly when `content` lacks `parts`; any other shape is an unexpected failure |
| Gemini.Interpret | app.py:101-130 | text is generated only from a 200 response whose JSON holds a string at the text path; any other status gives the API error with that status and text; the extraction and decoding failures arise only from a 200 response; the missing-key failure never arises here |
| Gemini.BuildPrompt | app.py:65-72 | the prompt holds the instruction text at its start, then the context, then the message, then the persona's word, each intact at the offset its heading puts it, in this order and without overlap |
| Gemini.Payload | app.py:75-85 | the payload's only key is `contents`, a list of exactly one content whose only key is `parts`, a list of exactly one part whose only key is `text`, and the prompt sits there |
| Text.Repr | app.py:129-130 | the reported key is enclosed in the same quote at both ends, and that quote is a double quote exactly when the key holds a single quote and no double quote |
| Text.ReprOfPlain | app.py:129-130 | a key of printable characters without quote or backslash is reported between single quotes as it is |
| Text.ReprOfJoined | app.py:129-130 | around such printable parts, a zero-width joiner in a key is reported as `\u200d` |
| Gemini.Call | app.py:50-130 | with no key (absent or empty), nothing is sent and the missing-key reply is returned; a request is sent exactly when there is a key, the persona is in the table and its name has a word; the request goes to the session's endpoint with the session's key and carries the built prompt; the reply of a sent request is the reading of what came back; an unknown persona gives the key-lookup failure carrying the `repr` of its name; whenever nothing is sent, the reply reads as a failure |
| Gemini.TableRoleSends | app.py:59-72 | with a key and a persona from the session's table, the call always sends its request |
| Chat.Window | app.py:132-136 | the window is the last min(6, n) entries of the conversation, in order |
| Chat.ConversationContext | app.py:132-136 | the context of an empty conversation is empty, and with six entries or fewer it is all of them joined by line breaks |
| Chat.ContextSplitsIntoWindow | app.py:132-136 | when no entry holds a line break, splitting the context at line breaks gives back exactly the window |
| Chat.AddTurnKeepsAlternating | app.py:153-154 | adding a turn's user entry and persona entry keeps the conversation as user/persona pairs |
| Chat.RoleBasedChat.constructor | app.py:8-48 | a new session has an empty conversation, no current persona, the given key, the fixed endpoint and the eight-entry table |
| Chat.RoleBasedChat.ChatResponse | app.py:138-159 | a blank message changes nothing and sends nothing; otherwise the conversation gains exactly `"User: <message>"` then `"<persona>: <reply>"` after the unchanged earlier entries; the display gains exactly one row, the message with that same reply; the reply is the call's result for the context as it stood before the turn; the persona becomes the current one; the input box comes back empty; user/persona pairing is preserved |
| Chat.RoleBasedChat.ClearChat | app.py:273-275 | the conversation becomes empty, so the next context is empty; the interface gets a new empty display and an empty input; the table, the key and the current persona are untouched |

## Left out

- The interface is not modelled: the Gradio layout, styling, event wiring and launch (app.py:165-320). `Transcript` stands in for the display list the interface passes to a turn.
- The network exchange is a parameter, `NetResult`. This covers the post itself, its 30-second timeout, the headers and the exception classes of `requests`. The texts of the failures come from that library and are carried as opaque strings.
- The JSON body is sent serialised (`json.dumps`). The model keeps the payload as a `Json.Value` and does not model serialisation.
- A reply body that does not parse goes to the JSON-decoding failure, in the order the handlers are written. With newer `requests` releases the decoding error also derives from `RequestException`, so the earlier handler would report it as a request error instead. The installed library version decides which branch runs.
- Gemini.Extract handles levels of the reply with an unexpected type (a list where an object is expected, a non-string `text`, and so on) as one unexpected failure with a fixed detail. Python's own behaviour there depends on the types involved, for example a substring test when `candidates` is a string.
- Gemini.Call: an unknown persona fails with Python's `repr` of its name (`Text.Repr`): the quote choice, the backslash and control escapes, and the `\xNN`/`\uNNNN`/`\UNNNNNNNN` escapes of unprintable characters such as the zero-width joiner (`Text.ReprOfJoined`). `Text.Unprintable` lists the control, format, separator, non-ASCII space and private-use characters; code points the Unicode database leaves unassigned outside those ranges are shown as themselves, where Python escapes them. The missing `text` key reports `'text'` and an empty `parts` list reports "list index out of range", as Python's errors do.
- The key is read from the `GEMINI_API_KEY` environment variable. The model takes it as the constructor's optional argument.
- `on_role_change` (app.py:277-279) is not modelled. The interface never connects it; the role selector's handler does nothing.
- JSON numbers are kept as integers. Nothing in the session reads a number from the reply.
- Each persona's emoji (`Personas.Emoji`) is part of the table but is read only by the unconnected `on_role_change`. No property is stated about it.
