/**
 * The part of an inbound Wassenger webhook payload that the handler reads.
 * Every key the handler looks up with `get` may be absent, so each one is an
 * `Option`; a missing nested object behaves like the empty object the
 * handler substitutes for it.
 */
module Webhook {
  import opened Wrappers
  import opened Text

  /** The value under `fromMe`, as far as the identity tests `is True` / `is False` can tell. */
  datatype Flag = Missing | Bool(b: bool) | NotBool

  datatype Contact = Contact(id: Option<string>, phone: Option<string>)

  datatype Chat = Chat(labels: Option<seq<string>>)

  datatype Data = Data(
    phone: Option<string>,
    contact: Option<Contact>,
    chat: Option<Chat>,
    content: Option<string>,
    fromMe: Flag)

  datatype Payload = Payload(event: Option<string>, id: Option<string>, data: Option<Data>)

  /** The contact and phone number an event is about, once both are known to be non-empty. */
  datatype Keys = Keys(id: string, phone: string)

  /** `payload.get("data", {})` */
  function DataOf(p: Payload): Data {
    p.data.GetOr(Data(None, None, None, None, Missing))
  }

  /** `payload.get("data", {}).get("contact", {})` */
  function ContactOf(p: Payload): Contact {
    DataOf(p).contact.GetOr(Contact(None, None))
  }

  /** `payload.get("data", {}).get("chat", {}).get("labels", [])` */
  function LabelsOf(p: Payload): seq<string> {
    DataOf(p).chat.GetOr(Chat(None)).labels.GetOr([])
  }

  /** The message text after `.get("content", "").strip()`. */
  function BodyOf(p: Payload): string {
    Trim(DataOf(p).content.GetOr(""))
  }

  /** Python truthiness of a string-valued lookup: present and non-empty. */
  predicate Truthy(v: Option<string>) {
    v.Some? && v.value != ""
  }

  /** Python's `a or b` on two lookups. */
  function Or(a: Option<string>, b: Option<string>): Option<string> {
    if Truthy(a) then a else b
  }

  /**
   * The contact id (top-level `id`, else `data.contact.id`) and the phone
   * number (`data.phone`, else `data.contact.phone`); `None` when either
   * comes out missing or empty, which the handler answers with a 400.
   */
  function ExtractKeys(p: Payload): (r: Option<Keys>)
    ensures r.Some? <==>
              (Truthy(p.id) || Truthy(ContactOf(p).id)) &&
              (Truthy(DataOf(p).phone) || Truthy(ContactOf(p).phone))
    ensures r.Some? ==> r.value.id != "" && r.value.phone != ""
    ensures r.Some? && Truthy(p.id) ==> r.value.id == p.id.value
    ensures r.Some? && !Truthy(p.id) ==> ContactOf(p).id == Some(r.value.id)
    ensures r.Some? && Truthy(DataOf(p).phone) ==> r.value.phone == DataOf(p).phone.value
    ensures r.Some? && !Truthy(DataOf(p).phone) ==> ContactOf(p).phone == Some(r.value.phone)
  {
    var contactId := Or(p.id, ContactOf(p).id);
    var phoneNumber := Or(DataOf(p).phone, ContactOf(p).phone);
    if !Truthy(phoneNumber) || !Truthy(contactId) then None
    else Some(Keys(contactId.value, phoneNumber.value))
  }
}
