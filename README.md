# Follow-up conversation state machine of the Wassenger AI bot

The bot keeps an in-memory table `follow_up_contacts` from a Wassenger
contact id to a conversation record: a status (`scheduled` or `ongoing`),
the history of role/content turns, and the contact's phone number. Three
handlers change that table:

- the webhook endpoint, which validates a Wassenger event, classifies it as a
  label trigger, a keyword trigger, a patient reply or something to ignore,
  may create a record, and starts either a 24-hour timer for the initial
  message or a thread that answers the patient;
- the initial message, which asks the text-generation service for a greeting,
  sends it, marks the conversation ongoing and records the greeting;
- the reply thread, which records the patient's message, asks for a
  completion of the system prompt followed by the whole history, sends it and
  records it.

The model has five modules:

- `Wrappers` holds `Option`.
- `Text` holds Python's `strip()` and `upper()` over ASCII (`Trim`, `ToUpper`) and what they guarantee.
- `Webhook` holds the payload fields the handler reads, each of which may be absent, and the extraction of the contact id and phone number.
- `Conversation` holds the records and the three transitions as functions of the old table (`Route`, `InitialStep`, `ReplyStep`). It also holds the operations as a datatype (`Op`, `Apply`, `Run`), the invariants every reachable table keeps, and scenario lemmas.
- `FollowUpApp` holds the class `FollowUpContacts`. Its `contacts` field is the table, and each handler is one method that updates the table in place. Each method is proved to reach the state its transition function describes.

External effects are parameters or outputs. The completion service's answer
is a `Completion` parameter (a text, or `Failed` for an exception). A message
handed to the gateway is an `Outbound` output. The prompt sent for completion
is an output. A timer or thread that the webhook starts is an `Action`
output: `ScheduleInitial(id, phone, 86400)` or `SpawnReply(id, phone, body)`.

Behaviour of the code that the model keeps as written:

- A keyword trigger for a contact that already has a record is not deduplicated. The record is left alone, but another 24-hour timer starts and the answer is "Follow-up scheduled" (app.py:125-134). When that second timer fires, a second assistant turn is appended (app.py:49-51). The label trigger, by contrast, does nothing for a known contact (app.py:104).
- When the completion fails in the reply thread, the patient's turn has already been appended (app.py:64) and it stays; no assistant turn follows (app.py:71-83).
- The initial message is sent before the code looks the contact up (app.py:47-49), so it is sent even when there is no record. Gateway failures are caught inside the send (app.py:27-34), so the assistant turn is appended even when delivery failed (app.py:51, app.py:79).
- There is no scheduled time and no polling loop. Each trigger starts its own in-memory timer (app.py:112, app.py:132). The model emits that timer as an action and has no clock.

## Model

| member | source | states |
|---|---|---|
| Text.TrimStart | app.py:119 | the result is the longest suffix of the input that does not start with whitespace; everything cut off is whitespace |
| Text.TrimEnd | app.py:119 | the result is the longest prefix of the input that does not end with whitespace; everything cut off is whitespace |
| Text.Trim | app.py:119 | `strip()`: the result is no longer than the input and neither starts nor ends with ASCII whitespace |
| Text.TrimIsSlice | app.py:119 | what `strip()` keeps is one slice `s[i..j]` of the input, and the parts before and after it are all whitespace |
| Text.TrimIgnoresPadding | app.py:119 | whitespace added on either side of a message does not change its stripped text |
| Text.TrimKeepsUnpadded | app.py:119 | a text without whitespace at either end is unchanged by `strip()` |
| Text.TrimIdempotent | app.py:119 | stripping twice is stripping once |
| Text.ToUpper | app.py:122 | `upper()`: same length, each ASCII lower-case letter replaced by its capital, every other character kept |
| Text.UpperMatchIgnoresCase | app.py:122 | comparing `upper()` of a text with a word that has no lower-case letter holds exactly when the text spells the word letter by letter in either case (`SameIgnoringCase`, defined without `upper()`) |
| Text.MatchIgnoresCaseAndPadding | app.py:119-122 | `upper(strip(...))` of any case variant of such a word, with any whitespace around it, equals the word |
| Text.UpperIdempotent | app.py:122 | upper-casing twice is upper-casing once |
| Webhook.ExtractKeys | app.py:93-98 | keys are found iff (top-level `id` or `data.contact.id` is non-empty) and (`data.phone` or `data.contact.phone` is non-empty); the id is the top-level one when that is non-empty and the contact's otherwise; likewise the phone prefers `data.phone`; both results are non-empty |
| Conversation.Route | app.py:87-144 | 400 "Missing key data" iff keys are missing, and then nothing changes; the only possible change is one new `scheduled` record with empty history for an absent contact; a label trigger creates and schedules only for an absent contact, else plain success; a keyword trigger never overwrites but always schedules and answers "Follow-up scheduled"; a reply thread starts exactly for a `fromMe` False message on an ongoing conversation, with the stripped body; a schedule happens exactly on those two triggers; every other event changes nothing and gets plain success |
| Conversation.InitialStep | app.py:36-55 | the prompt is the one fixed system turn; on a completion the text is sent to the given phone whether or not the contact is known; a known contact becomes ongoing and gets exactly one assistant turn appended; the key set and every other record are unchanged; on a failed completion nothing is sent or changed |
| Conversation.ReplyStep | app.py:57-83 | an unknown contact is skipped with no prompt and no send; otherwise the prompt is the system turn, the old history and the user turn; the history becomes old history + user turn + (assistant turn iff the completion arrived); status and phone are kept; the key set and every other record are unchanged; the reply is sent iff it arrived |
| Conversation.Apply | app.py:49-130 | no operation removes a record, and a record whose contact is not the operation's target is unchanged |
| Conversation.ApplyEvolves | app.py:49-130 | one operation keeps every phone number, only appends to histories and never turns ongoing back into scheduled |
| Conversation.RunEvolves | app.py:49-130 | the same for any sequence of operations: histories are append-only and status is monotonic |
| Conversation.RouteIdempotent | app.py:104-130 | repeating the same webhook event leaves the table as the first delivery left it |
| Conversation.TwoRepliesKeepBothPairs | app.py:64-79 | two reply threads that run one after the other leave both user/assistant pairs in order |
| Conversation.KeywordIgnoresCaseAndPadding | app.py:119-122 | every spelling of "START FOLLOWUP" in any mix of cases ("Start FollowUp", "start followup", ...), with any whitespace around it, passes the keyword test |
| Conversation.KeywordOnlyCaseAndPadding | app.py:119-122 | conversely, a content passes the keyword test only if it is such a spelling padded with whitespace: it splits into whitespace, a case variant of the keyword, and whitespace |
| Conversation.RouteKeepsWellFormed | app.py:104-130 | a webhook call keeps the record invariant (non-empty phone, no system turn stored, scheduled means empty history, ongoing means the history opens with an assistant turn) |
| Conversation.InitialKeepsWellFormed | app.py:49-51 | the initial message keeps the record invariant |
| Conversation.ReplyKeepsWellFormed | app.py:60-79 | a reply thread on an ongoing conversation keeps the record invariant |
| Conversation.ApplyKeepsWellFormed | app.py:49-130 | every enabled operation keeps the record invariant |
| Conversation.RunKeepsWellFormed | app.py:49-130 | every enabled sequence of operations keeps the record invariant |
| Conversation.SpawnedReplyStaysEnabled | app.py:137-139 | a reply thread that the webhook starts finds its contact present and ongoing in every later state |
| Conversation.LabelScenario | app.py:101-114 | a label event for "C1"/"+100" on an empty table creates `{scheduled, [], "+100"}` and schedules the initial message after 86400 s |
| Conversation.InitialScenario | app.py:47-51 | the timer for "C1" sends the greeting to "+100" and leaves `{ongoing, [assistant(greeting)]}` |
| Conversation.PatientMessageScenario | app.py:117-139 | the patient's "I'm fine" on that ongoing conversation starts a reply thread and changes nothing |
| Conversation.ReplyThreadScenario | app.py:64-79 | that thread sends the answer and leaves `[assistant(greeting), user("I'm fine"), assistant(answer)]` |
| FollowUpApp.FollowUpContacts.constructor | app.py:20 | the table starts empty and satisfies the record invariant |
| FollowUpApp.FollowUpContacts.HandleWebhook | app.py:87-144 | the new table, the response and the started action are those of `Route` on the old table; the record invariant is kept |
| FollowUpApp.FollowUpContacts.SendInitialFollowUp | app.py:36-55 | the new table, the prompt and the sent message are those of `InitialStep`; a known contact is ongoing with the greeting appended; the record invariant is kept |
| FollowUpApp.FollowUpContacts.HandleAiReply | app.py:57-83 | the new table, the prompt and the sent message are those of `ReplyStep`; a known contact's history gains the user turn and, if the completion arrived, the assistant turn; the record invariant is kept when the contact is absent or ongoing |

## Left out

- HTTP and JSON handling by Flask is not modelled. The payload is a datatype with optional fields. The response is a code, a status and an optional message.
- Payload values of an unexpected JSON type are not modelled. Examples: a `data`, `contact` or `chat` that is null or not an object; `labels` that is not a list; `content` that is null; ids that are numbers. In the source these raise an exception or follow Python's rules for other types. The model only has strings, lists of strings, and a `fromMe` that is absent, a boolean, or some other value.
- `send_message_to_wassenger` is an HTTP POST whose errors are caught and printed. The model only records the message it is handed (`Outbound`).
- The text-generation calls are taken as an input (`Completion`). The model id and a completion whose content is null are not modelled.
- `threading.Timer` and `threading.Thread` are emitted as actions. Real delays are not modelled. Interleaving inside a running reply thread is not modelled either: each handler is one atomic step, and concurrency is only the freedom of `Run` to order whole steps.
- Environment loading, API keys, `print` logging and the development server are not modelled.
- `Text.ToUpper` and `Text.Trim` handle ASCII only. Python's Unicode whitespace and case mapping, which can change a string's length, are not modelled.
