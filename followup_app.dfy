/**
 * The handlers of the webhook server over the in-memory table of follow-up
 * contacts. Each method updates the table in place the way its handler does
 * and is proved to reach the state its transition function in module
 * Conversation describes.
 */
module FollowUpApp {
  import opened Wrappers
  import opened Text
  import opened Webhook
  import opened Conversation

  class FollowUpContacts {
    /** contact id -> status, history and phone number */
    var contacts: Contacts

    /** The invariant every reachable table keeps. */
    ghost predicate Valid()
      reads this
    {
      WellFormed(contacts)
    }

    /** The server starts with an empty table. */
    constructor ()
      ensures contacts == map[] && Valid()
    {
      contacts := map[];
    }

    /**
     * The webhook endpoint: answers with a response code and body, and
     * starts at most one background action (a delayed initial message or a
     * reply thread).
     */
    method HandleWebhook(p: Payload) returns (response: Response, action: Action)
      modifies this
      ensures Routed(contacts, response, action) == Route(old(contacts), p)
      ensures old(Valid()) ==> Valid()
    {
      var eventType := p.event;
      var keys := ExtractKeys(p);
      if keys.None? {
        response, action := MissingKeyData, NoAction;
        return;
      }
      var contactId, phoneNumber := keys.value.id, keys.value.phone;
      if Valid() {
        RouteKeepsWellFormed(contacts, p);
      }

      if eventType == Some(ContactUpdate) {
        var labels := LabelsOf(p);
        if FollowUpLabel in labels && contactId !in contacts {
          contacts := contacts[contactId := NewRecord(phoneNumber)];
          response, action := FollowUpScheduled, ScheduleInitial(contactId, phoneNumber, InitialDelay);
          return;
        }
      } else if eventType == Some(MessageInNew) {
        var messageBody := BodyOf(p);
        if DataOf(p).fromMe == Bool(true) && ToUpper(messageBody) == StartKeyword {
          if contactId !in contacts {
            contacts := contacts[contactId := NewRecord(phoneNumber)];
          }
          response, action := FollowUpScheduled, ScheduleInitial(contactId, phoneNumber, InitialDelay);
          return;
        } else if DataOf(p).fromMe == Bool(false) && contactId in contacts && contacts[contactId].status == Ongoing {
          response, action := Accepted, SpawnReply(contactId, phoneNumber, messageBody);
          return;
        }
      }
      response, action := Accepted, NoAction;
    }

    /**
     * The delayed initial message: the completion is requested with
     * `prompt` and sent to `phone`; then, if the contact is still in the
     * table, it is marked ongoing and the text is appended to its history.
     */
    method SendInitialFollowUp(id: string, phone: string, completion: Completion)
      returns (prompt: seq<Turn>, sent: Option<Outbound>)
      modifies this
      ensures Effect(contacts, Some(prompt), sent) == InitialStep(old(contacts), id, phone, completion)
      ensures id in old(contacts) && completion.Completed? ==>
                contacts[id].status == Ongoing &&
                contacts[id].history == old(contacts)[id].history + [Turn(Assistant, completion.text)]
      ensures old(Valid()) ==> Valid()
    {
      if Valid() {
        InitialKeepsWellFormed(contacts, id, phone, completion);
      }
      prompt := [Turn(System, InitialPrompt)];
      if completion.Failed? {
        sent := None;
        return;
      }
      var messageText := completion.text;
      sent := Some(Outbound(phone, messageText));
      if id in contacts {
        var entry := contacts[id];
        entry := entry.(status := Ongoing);
        entry := entry.(history := entry.history + [Turn(Assistant, messageText)]);
        contacts := contacts[id := entry];
      }
    }

    /**
     * The reply thread: skip an unknown contact; otherwise append the
     * patient's turn, request the completion with `prompt`, send it and
     * append it. A failed completion leaves the patient's turn in place.
     */
    method HandleAiReply(id: string, phone: string, body: string, completion: Completion)
      returns (prompt: Option<seq<Turn>>, sent: Option<Outbound>)
      modifies this
      ensures Effect(contacts, prompt, sent) == ReplyStep(old(contacts), id, phone, body, completion)
      ensures id in old(contacts) ==>
                contacts[id].history ==
                  old(contacts)[id].history + [Turn(User, body)] +
                  (if completion.Completed? then [Turn(Assistant, completion.text)] else [])
      ensures old(Valid()) && Enabled(old(contacts), ReplyThread(id, phone, body, completion)) ==> Valid()
    {
      if Valid() && Enabled(contacts, ReplyThread(id, phone, body, completion)) {
        ReplyKeepsWellFormed(contacts, id, phone, body, completion);
      }
      if id !in contacts {
        prompt, sent := None, None;
        return;
      }
      contacts := contacts[id := contacts[id].(history := contacts[id].history + [Turn(User, body)])];
      var conversationHistory := contacts[id].history;
      prompt := Some([Turn(System, ReplyPrompt)] + conversationHistory);
      if completion.Failed? {
        sent := None;
        return;
      }
      var aiReply := completion.text;
      sent := Some(Outbound(phone, aiReply));
      contacts := contacts[id := contacts[id].(history := contacts[id].history + [Turn(Assistant, aiReply)])];
    }
  }

  /** The exchange of a label event, the initial message and one patient reply, driven through the handlers. */
  method ConversationScenario(greeting: string, answer: string)
  {
    var app := new FollowUpContacts();
    var response, action := app.HandleWebhook(LabelEventC1);
    LabelScenario();
    assert action == ScheduleInitial("C1", "+100", InitialDelay);

    var prompt, sent := app.SendInitialFollowUp("C1", "+100", Completed(greeting));
    InitialScenario(greeting);
    assert sent == Some(Outbound("+100", greeting));

    response, action := app.HandleWebhook(ReplyEventC1);
    PatientMessageScenario(greeting);
    assert action == SpawnReply("C1", "+100", "I'm fine");

    var replyPrompt, replySent := app.HandleAiReply(action.id, action.phone, action.body, Completed(answer));
    ReplyThreadScenario(greeting, answer);
    assert replySent == Some(Outbound("+100", answer));
    assert app.contacts["C1"].history == [Turn(Assistant, greeting), Turn(User, "I'm fine"), Turn(Assistant, answer)];
    assert app.Valid();
  }
}
