/**
 * The follow-up conversation state machine: the map from contact id to
 * conversation record, and the three transitions the handlers apply to it,
 * written as functions of the old map. The class in module FollowUpApp
 * performs these transitions in place and is proved to agree with them.
 */
module Conversation {
  import opened Wrappers
  import opened Text
  import opened Webhook

  const FollowUpLabel := "Follow-up"
  const ContactUpdate := "contact:update"
  const MessageInNew := "message:in:new"
  const StartKeyword := "START FOLLOWUP"
  /** Seconds between a trigger and the initial message (the timer of 24 hours). */
  const InitialDelay: nat := 86400

  const InitialPrompt := "You are a helpful medical assistant. A patient needs a follow-up. Please write a polite message to ask how they are doing after their recent appointment and if they have any questions. Keep it under 100 words."
  const ReplyPrompt := "You are a professional medical assistant replying to a patient. Be helpful, concise, and empathetic. Do not give medical advice. If the patient asks for an appointment or to speak with a doctor, tell them you will connect them with a human."

  datatype Role = System | User | Assistant
  datatype Turn = Turn(role: Role, content: string)
  datatype Status = Scheduled | Ongoing
  datatype Record = Record(status: Status, history: seq<Turn>, phone: string)
  type Contacts = map<string, Record>

  /** The record a trigger creates. */
  function NewRecord(phone: string): Record {
    Record(Scheduled, [], phone)
  }

  /** The HTTP status code and JSON body the webhook answers with. */
  datatype Response = Response(code: nat, status: string, message: Option<string>)
  const MissingKeyData := Response(400, "error", Some("Missing key data"))
  const FollowUpScheduled := Response(200, "success", Some("Follow-up scheduled"))
  const Accepted := Response(200, "success", None)

  /** What the webhook starts in the background: a delayed initial message or a reply thread. */
  datatype Action =
    | NoAction
    | ScheduleInitial(id: string, phone: string, delay: nat)
    | SpawnReply(id: string, phone: string, body: string)

  datatype Routed = Routed(contacts: Contacts, response: Response, action: Action)

  /** What the text-generation service returned: a text, or an exception. */
  datatype Completion = Completed(text: string) | Failed

  /** A message handed to the messaging gateway. */
  datatype Outbound = Outbound(phone: string, text: string)

  /** The new map, the prompt sent for completion (if any) and the message sent (if any). */
  datatype Effect = Effect(contacts: Contacts, prompt: Option<seq<Turn>>, sent: Option<Outbound>)

  /** A label-update event that carries the follow-up label. */
  predicate IsLabelTrigger(p: Payload) {
    p.event == Some(ContactUpdate) && FollowUpLabel in LabelsOf(p)
  }

  /** A message the operator account sent itself whose stripped, upper-cased text is the keyword. */
  predicate IsKeywordTrigger(p: Payload) {
    p.event == Some(MessageInNew) && DataOf(p).fromMe == Bool(true) && ToUpper(BodyOf(p)) == StartKeyword
  }

  /** A message that is flagged as not coming from the operator account. */
  predicate IsPatientMessage(p: Payload) {
    p.event == Some(MessageInNew) && DataOf(p).fromMe == Bool(false)
  }

  /** The webhook handler: validation, classification, and the record it may create. */
  function Route(c: Contacts, p: Payload): (r: Routed)
    // malformed input is rejected distinctly and has no effect
    ensures r.response.code == 400 <==> ExtractKeys(p).None?
    ensures ExtractKeys(p).None? ==> r == Routed(c, MissingKeyData, NoAction)
    // the only change to the map is one fresh scheduled record for an absent contact
    ensures r.contacts == c || (ExtractKeys(p).Some? && ExtractKeys(p).value.id !in c &&
              r.contacts == c[ExtractKeys(p).value.id := NewRecord(ExtractKeys(p).value.phone)])
    ensures ExtractKeys(p).Some? ==>
              var k := ExtractKeys(p).value;
              // label trigger: create and schedule only when the contact is absent
              (IsLabelTrigger(p) && k.id !in c ==>
                 r == Routed(c[k.id := NewRecord(k.phone)], FollowUpScheduled, ScheduleInitial(k.id, k.phone, InitialDelay))) &&
              (IsLabelTrigger(p) && k.id in c ==> r == Routed(c, Accepted, NoAction)) &&
              // keyword trigger: never overwrites, but schedules in every case
              (IsKeywordTrigger(p) ==>
                 r.response == FollowUpScheduled && r.action == ScheduleInitial(k.id, k.phone, InitialDelay) &&
                 r.contacts == (if k.id in c then c else c[k.id := NewRecord(k.phone)])) &&
              // a reply thread starts exactly for a patient message on an ongoing conversation
              (r.action.SpawnReply? <==> IsPatientMessage(p) && k.id in c && c[k.id].status == Ongoing) &&
              (r.action.SpawnReply? ==> r == Routed(c, Accepted, SpawnReply(k.id, k.phone, BodyOf(p))))
    ensures r.action.ScheduleInitial? <==>
              ExtractKeys(p).Some? &&
              ((IsLabelTrigger(p) && ExtractKeys(p).value.id !in c) || IsKeywordTrigger(p))
    ensures r.action.NoAction? ==> r.contacts == c && r.response == (if ExtractKeys(p).None? then MissingKeyData else Accepted)
  {
    match ExtractKeys(p)
    case None => Routed(c, MissingKeyData, NoAction)
    case Some(Keys(id, phone)) =>
      if p.event == Some(ContactUpdate) then
        if FollowUpLabel in LabelsOf(p) && id !in c then
          Routed(c[id := NewRecord(phone)], FollowUpScheduled, ScheduleInitial(id, phone, InitialDelay))
        else
          Routed(c, Accepted, NoAction)
      else if p.event == Some(MessageInNew) then
        var body := BodyOf(p);
        if DataOf(p).fromMe == Bool(true) && ToUpper(body) == StartKeyword then
          var c' := if id !in c then c[id := NewRecord(phone)] else c;
          Routed(c', FollowUpScheduled, ScheduleInitial(id, phone, InitialDelay))
        else if DataOf(p).fromMe == Bool(false) && id in c && c[id].status == Ongoing then
          Routed(c, Accepted, SpawnReply(id, phone, body))
        else
          Routed(c, Accepted, NoAction)
      else
        Routed(c, Accepted, NoAction)
  }

  /**
   * The delayed initial message: one completion from the fixed system
   * prompt, sent to `phone`; then, if the contact is still known, its status
   * becomes ongoing and the text is appended as an assistant turn.
   */
  function InitialStep(c: Contacts, id: string, phone: string, completion: Completion): (r: Effect)
    ensures r.prompt == Some([Turn(System, InitialPrompt)])
    ensures r.sent == (if completion.Completed? then Some(Outbound(phone, completion.text)) else None)
    ensures r.contacts.Keys == c.Keys
    ensures forall k :: k in c && k != id ==> r.contacts[k] == c[k]
    ensures id in c && completion.Completed? ==>
              r.contacts[id] == Record(Ongoing, c[id].history + [Turn(Assistant, completion.text)], c[id].phone)
    ensures completion.Failed? ==> r.contacts == c
  {
    var prompt := [Turn(System, InitialPrompt)];
    match completion
    case Failed => Effect(c, Some(prompt), None)
    case Completed(text) =>
      var c' := if id in c then c[id := c[id].(status := Ongoing, history := c[id].history + [Turn(Assistant, text)])] else c;
      Effect(c', Some(prompt), Some(Outbound(phone, text)))
  }

  /**
   * The reply thread: skip an unknown contact; otherwise append the patient's
   * turn, ask for a completion of the system prompt followed by the whole
   * history, send it and append it as an assistant turn. When the completion
   * fails, the patient's turn stays and nothing is sent.
   */
  function ReplyStep(c: Contacts, id: string, phone: string, body: string, completion: Completion): (r: Effect)
    ensures id !in c ==> r == Effect(c, None, None)
    ensures id in c ==> r.prompt == Some([Turn(System, ReplyPrompt)] + c[id].history + [Turn(User, body)])
    ensures r.sent == (if id in c && completion.Completed? then Some(Outbound(phone, completion.text)) else None)
    ensures r.contacts.Keys == c.Keys
    ensures forall k :: k in c && k != id ==> r.contacts[k] == c[k]
    ensures id in c ==>
              r.contacts[id].status == c[id].status && r.contacts[id].phone == c[id].phone &&
              r.contacts[id].history ==
                c[id].history + [Turn(User, body)] +
                (if completion.Completed? then [Turn(Assistant, completion.text)] else [])
  {
    if id !in c then Effect(c, None, None)
    else
      var withUser := c[id].history + [Turn(User, body)];
      var prompt := [Turn(System, ReplyPrompt)] + withUser;
      assert prompt == [Turn(System, ReplyPrompt)] + c[id].history + [Turn(User, body)];
      match completion
      case Failed => Effect(c[id := c[id].(history := withUser)], Some(prompt), None)
      case Completed(text) =>
        Effect(c[id := c[id].(history := withUser + [Turn(Assistant, text)])], Some(prompt), Some(Outbound(phone, text)))
  }

  lemma StartKeywordShape()
    ensures NoLowerCase(StartKeyword)
    ensures StartKeyword != [] && !IsSpace(StartKeyword[0]) && !IsSpace(StartKeyword[|StartKeyword| - 1])
  {
  }

  /**
   * Every spelling of the keyword, in any mix of cases and with any
   * whitespace around it, is recognised, e.g. "  Start FollowUp\n".
   */
  lemma KeywordIgnoresCaseAndPadding(before: string, w: string, after: string)
    requires AllSpace(before) && AllSpace(after)
    requires SameIgnoringCase(w, StartKeyword)
    ensures ToUpper(Trim(before + w + after)) == StartKeyword
  {
    StartKeywordShape();
    MatchIgnoresCaseAndPadding(before, w, after, StartKeyword);
  }

  /** Conversely, only such spellings are recognised: the text is the keyword in some case, padded with whitespace. */
  lemma KeywordOnlyCaseAndPadding(s: string)
    requires ToUpper(Trim(s)) == StartKeyword
    ensures exists i, j :: 0 <= i <= j <= |s| && AllSpace(s[..i]) && AllSpace(s[j..]) &&
                           SameIgnoringCase(s[i..j], StartKeyword)
  {
    var i, j := TrimIsSlice(s);
    StartKeywordShape();
    UpperMatchIgnoresCase(Trim(s), StartKeyword);
  }

  /** One thing that can happen to the map: a webhook call, a timer firing, a reply thread running. */
  datatype Op =
    | Event(p: Payload)
    | InitialTimer(id: string, phone: string, completion: Completion)
    | ReplyThread(id: string, phone: string, body: string, completion: Completion)

  /** The contact an operation may touch, if any. */
  function Target(op: Op): Option<string> {
    match op
    case Event(p) => if ExtractKeys(p).Some? then Some(ExtractKeys(p).value.id) else None
    case InitialTimer(id, _, _) => Some(id)
    case ReplyThread(id, _, _, _) => Some(id)
  }

  function Apply(c: Contacts, op: Op): (r: Contacts)
    ensures forall k :: k in c ==> k in r
    ensures forall k :: Target(op) != Some(k) ==> (k in r <==> k in c) && (k in c ==> r[k] == c[k])
  {
    match op
    case Event(p) => Route(c, p).contacts
    case InitialTimer(id, phone, completion) => InitialStep(c, id, phone, completion).contacts
    case ReplyThread(id, phone, body, completion) => ReplyStep(c, id, phone, body, completion).contacts
  }

  function Run(c: Contacts, ops: seq<Op>): Contacts
    decreases |ops|
  {
    if ops == [] then c else Run(Apply(c, ops[0]), ops[1..])
  }

  /**
   * `b` is a possible later state of `a`: no contact disappears, no phone
   * number changes, every history only grows at its end, and an ongoing
   * conversation stays ongoing.
   */
  ghost predicate Evolves(a: Contacts, b: Contacts) {
    forall k :: k in a ==>
      k in b && b[k].phone == a[k].phone && a[k].history <= b[k].history &&
      (a[k].status == Ongoing ==> b[k].status == Ongoing)
  }

  lemma EvolvesTransitive(a: Contacts, b: Contacts, c: Contacts)
    requires Evolves(a, b) && Evolves(b, c)
    ensures Evolves(a, c)
  {
  }

  /** Every single operation is append-only and never moves a status back to scheduled. */
  lemma ApplyEvolves(c: Contacts, op: Op)
    ensures Evolves(c, Apply(c, op))
  {
  }

  /** The same for any sequence of operations. */
  lemma {:induction false} RunEvolves(c: Contacts, ops: seq<Op>)
    ensures Evolves(c, Run(c, ops))
    decreases |ops|
  {
    if ops == [] {
      assert Evolves(c, c) by {
        forall k | k in c ensures c[k].history <= c[k].history { }
      }
    } else {
      ApplyEvolves(c, ops[0]);
      RunEvolves(Apply(c, ops[0]), ops[1..]);
      EvolvesTransitive(c, Apply(c, ops[0]), Run(c, ops));
    }
  }

  /** The map reached by a webhook call does not change when the same call is repeated. */
  lemma RouteIdempotent(c: Contacts, p: Payload)
    ensures Route(Route(c, p).contacts, p).contacts == Route(c, p).contacts
  {
  }

  /** Two reply threads that run one after the other leave both user/assistant pairs, in order. */
  lemma TwoRepliesKeepBothPairs(c: Contacts, id: string, phone: string, m1: string, a1: string, m2: string, a2: string)
    requires id in c
    ensures var c1 := ReplyStep(c, id, phone, m1, Completed(a1)).contacts;
            var c2 := ReplyStep(c1, id, phone, m2, Completed(a2)).contacts;
            c2[id].history == c[id].history + [Turn(User, m1), Turn(Assistant, a1), Turn(User, m2), Turn(Assistant, a2)]
  {
  }

  /**
   * The record invariant of every reachable map: a non-empty phone number,
   * no system turn stored, a scheduled conversation with an empty history,
   * and an ongoing one whose history opens with the assistant's first message.
   */
  ghost predicate WellFormed(c: Contacts) {
    forall k :: k in c ==>
      c[k].phone != "" &&
      (forall i :: 0 <= i < |c[k].history| ==> c[k].history[i].role != System) &&
      (c[k].status == Scheduled ==> c[k].history == []) &&
      (c[k].status == Ongoing ==> c[k].history != [] && c[k].history[0].role == Assistant)
  }

  /**
   * A reply thread is only ever started for an ongoing conversation, and
   * statuses never go back, so when it runs its contact is ongoing.
   */
  predicate Enabled(c: Contacts, op: Op) {
    op.ReplyThread? ==> op.id !in c || c[op.id].status == Ongoing
  }

  predicate EnabledRun(c: Contacts, ops: seq<Op>)
    decreases |ops|
  {
    ops == [] || (Enabled(c, ops[0]) && EnabledRun(Apply(c, ops[0]), ops[1..]))
  }

  /** A webhook call only ever adds a scheduled record with an empty history and a non-empty phone. */
  lemma RouteKeepsWellFormed(c: Contacts, p: Payload)
    requires WellFormed(c)
    ensures WellFormed(Route(c, p).contacts)
  {
  }

  /** The initial message makes the first turn of a conversation the assistant's. */
  lemma InitialKeepsWellFormed(c: Contacts, id: string, phone: string, completion: Completion)
    requires WellFormed(c)
    ensures WellFormed(InitialStep(c, id, phone, completion).contacts)
  {
  }

  /** A reply thread on an ongoing conversation keeps its first turn and stores no system turn. */
  lemma ReplyKeepsWellFormed(c: Contacts, id: string, phone: string, body: string, completion: Completion)
    requires WellFormed(c)
    requires id !in c || c[id].status == Ongoing
    ensures WellFormed(ReplyStep(c, id, phone, body, completion).contacts)
  {
  }

  lemma ApplyKeepsWellFormed(c: Contacts, op: Op)
    requires WellFormed(c) && Enabled(c, op)
    ensures WellFormed(Apply(c, op))
  {
    match op
    case Event(p) => RouteKeepsWellFormed(c, p);
    case InitialTimer(id, phone, completion) => InitialKeepsWellFormed(c, id, phone, completion);
    case ReplyThread(id, phone, body, completion) => ReplyKeepsWellFormed(c, id, phone, body, completion);
  }

  lemma {:induction false} RunKeepsWellFormed(c: Contacts, ops: seq<Op>)
    requires WellFormed(c) && EnabledRun(c, ops)
    ensures WellFormed(Run(c, ops))
    decreases |ops|
  {
    if ops != [] {
      ApplyKeepsWellFormed(c, ops[0]);
      RunKeepsWellFormed(Apply(c, ops[0]), ops[1..]);
    }
  }

  /**
   * A reply thread the webhook starts is enabled in every later state,
   * whatever runs in between and whatever its completion turns out to be.
   */
  lemma SpawnedReplyStaysEnabled(c: Contacts, p: Payload, later: Contacts, completion: Completion)
    requires Route(c, p).action.SpawnReply?
    requires Evolves(Route(c, p).contacts, later)
    ensures var a := Route(c, p).action;
            Enabled(later, ReplyThread(a.id, a.phone, a.body, completion)) && a.id in later
  {
  }

  /** A label event for contact "C1" with phone "+100" (its ids sit under `data`). */
  const LabelEventC1 := Payload(Some(ContactUpdate), None,
                                Some(Data(Some("+100"), Some(Contact(Some("C1"), None)), Some(Chat(Some([FollowUpLabel]))), None, Missing)))

  /** The patient's message "I'm fine" for contact "C1". */
  const ReplyEventC1 := Payload(Some(MessageInNew), Some("C1"),
                                Some(Data(Some("+100"), None, None, Some("I'm fine"), Bool(false))))

  /** The label event creates the scheduled record of "C1" and schedules its initial message. */
  lemma LabelScenario()
    ensures var r := Route(map[], LabelEventC1);
            r.contacts == map["C1" := Record(Scheduled, [], "+100")] &&
            r.action == ScheduleInitial("C1", "+100", InitialDelay)
  {
  }

  /** When its timer fires, "C1" becomes ongoing with the greeting as its first turn, sent to "+100". */
  lemma InitialScenario(greeting: string)
    ensures var e := InitialStep(map["C1" := Record(Scheduled, [], "+100")], "C1", "+100", Completed(greeting));
            e.sent == Some(Outbound("+100", greeting)) &&
            e.contacts == map["C1" := Record(Ongoing, [Turn(Assistant, greeting)], "+100")]
  {
    assert [] + [Turn(Assistant, greeting)] == [Turn(Assistant, greeting)];
  }

  lemma ReplyEventBody()
    ensures BodyOf(ReplyEventC1) == "I'm fine"
  {
    TrimKeepsUnpadded("I'm fine");
  }

  /** On the ongoing conversation of "C1", the patient's "I'm fine" starts a reply thread and changes nothing else. */
  lemma PatientMessageScenario(greeting: string)
    ensures var c := map["C1" := Record(Ongoing, [Turn(Assistant, greeting)], "+100")];
            Route(c, ReplyEventC1) == Routed(c, Accepted, SpawnReply("C1", "+100", "I'm fine"))
  {
    ReplyEventBody();
  }

  /** The reply thread records "I'm fine" and the answer after the greeting, and sends the answer. */
  lemma ReplyThreadScenario(greeting: string, answer: string)
    ensures var c := map["C1" := Record(Ongoing, [Turn(Assistant, greeting)], "+100")];
            var e := ReplyStep(c, "C1", "+100", "I'm fine", Completed(answer));
            e.sent == Some(Outbound("+100", answer)) &&
            e.contacts["C1"].history == [Turn(Assistant, greeting), Turn(User, "I'm fine"), Turn(Assistant, answer)]
  {
  }

}
