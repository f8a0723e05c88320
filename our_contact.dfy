/** The "our contact" screen: contact records with three localized addresses and working
    times, and editable lists of phone numbers and e-mails. */
module OurContact {
  import opened Common
  import opened Http

  /** A record as the server sends it; the localized fields may be missing. */
  datatype ServerContact = ServerContact(
    id: nat, address: string, workingTime: string,
    addressUz: Option<string>, addressRu: Option<string>, addressEn: Option<string>,
    workingTimeUz: Option<string>, workingTimeRu: Option<string>, workingTimeEn: Option<string>,
    phoneNumbers: seq<string>, emails: seq<string>)

  /** A record as the screen keeps it: every localized field is a string. */
  datatype Contact = Contact(
    id: nat, address: string, workingTime: string,
    addressUz: string, addressRu: string, addressEn: string,
    workingTimeUz: string, workingTimeRu: string, workingTimeEn: string,
    phoneNumbers: seq<string>, emails: seq<string>)

  datatype ContactForm = ContactForm(
    addressUz: string, addressRu: string, addressEn: string,
    phoneNumbers: seq<string>, emails: seq<string>,
    workingTimeUz: string, workingTimeRu: string, workingTimeEn: string)

  function EmptyForm(): ContactForm {
    ContactForm("", "", "", [], [], "", "", "")
  }

  /** A fetched record with "" for every missing localized field; the rest is kept. */
  function Localize(s: ServerContact): (c: Contact)
    ensures c.id == s.id && c.address == s.address && c.workingTime == s.workingTime
    ensures c.phoneNumbers == s.phoneNumbers && c.emails == s.emails
    ensures c.addressUz == OrEmpty(s.addressUz) && c.addressRu == OrEmpty(s.addressRu)
            && c.addressEn == OrEmpty(s.addressEn)
    ensures c.workingTimeUz == OrEmpty(s.workingTimeUz) && c.workingTimeRu == OrEmpty(s.workingTimeRu)
            && c.workingTimeEn == OrEmpty(s.workingTimeEn)
  {
    Contact(s.id, s.address, s.workingTime,
            OrEmpty(s.addressUz), OrEmpty(s.addressRu), OrEmpty(s.addressEn),
            OrEmpty(s.workingTimeUz), OrEmpty(s.workingTimeRu), OrEmpty(s.workingTimeEn),
            s.phoneNumbers, s.emails)
  }

  /** The server's copy of a written record, with the form's six localized fields laid over it. */
  function Overlay(s: ServerContact, f: ContactForm): (c: Contact)
    ensures c.id == s.id && c.address == s.address && c.workingTime == s.workingTime
    ensures c.phoneNumbers == s.phoneNumbers && c.emails == s.emails
    ensures c.addressUz == f.addressUz && c.addressRu == f.addressRu && c.addressEn == f.addressEn
    ensures c.workingTimeUz == f.workingTimeUz && c.workingTimeRu == f.workingTimeRu
            && c.workingTimeEn == f.workingTimeEn
  {
    Contact(s.id, s.address, s.workingTime, f.addressUz, f.addressRu, f.addressEn,
            f.workingTimeUz, f.workingTimeRu, f.workingTimeEn, s.phoneNumbers, s.emails)
  }

  /** Overlaying the form's fields wins over whatever localized fields the server sent. */
  lemma OverlayIgnoresServerLocalized(s: ServerContact, t: ServerContact, f: ContactForm)
    requires s.id == t.id && s.address == t.address && s.workingTime == t.workingTime
    requires s.phoneNumbers == t.phoneNumbers && s.emails == t.emails
    ensures Overlay(s, f) == Overlay(t, f)
  {
  }

  /** The form fields written back into an edit dialog for record `c`. */
  function FormOf(c: Contact): (f: ContactForm)
    ensures f.phoneNumbers == c.phoneNumbers && f.emails == c.emails
    ensures f.addressUz == c.addressUz && f.workingTimeEn == c.workingTimeEn
  {
    ContactForm(c.addressUz, c.addressRu, c.addressEn, c.phoneNumbers, c.emails,
                c.workingTimeUz, c.workingTimeRu, c.workingTimeEn)
  }

  /** Opening the edit dialog on a record and writing it back unchanged gives the same record. */
  lemma OverlayOfOwnForm(c: Contact, s: ServerContact)
    requires s.id == c.id && s.address == c.address && s.workingTime == c.workingTime
    requires s.phoneNumbers == c.phoneNumbers && s.emails == c.emails
    ensures Overlay(s, FormOf(c)) == c
  {
  }

  function SubmitBody(f: ContactForm): Body {
    Json([Field("address_uz", Str(f.addressUz)), Field("address_ru", Str(f.addressRu)),
          Field("address_en", Str(f.addressEn)), Field("phone_numbers", Strs(f.phoneNumbers)),
          Field("emails", Strs(f.emails)), Field("working_time_uz", Str(f.workingTimeUz)),
          Field("working_time_ru", Str(f.workingTimeRu)), Field("working_time_en", Str(f.workingTimeEn))])
  }

  /** The remove button beside a phone number or e-mail is shown only while the list has
      more than one entry. */
  predicate ShowsRemove(entries: seq<string>) {
    |entries| > 1
  }

  /** Through the shown controls a non-empty list never becomes empty. */
  lemma RemoveThroughControlsKeepsOne(entries: seq<string>, i: int)
    requires ShowsRemove(entries)
    ensures |RemoveAt(entries, i)| >= 1
  {
  }

  const ContactPath := "/about/our-contact/"

  function HasId(id: nat): Contact -> bool {
    (c: Contact) => c.id == id
  }

  class OurContactManagement {
    var contactData: seq<Contact>
    var isLoading: bool
    var isDialogOpen: bool
    var editingItem: Option<Contact>
    var formData: ContactForm
    const client: Client

    constructor (client: Client)
      ensures this.client == client && contactData == [] && isLoading && !isDialogOpen
      ensures editingItem == None && formData == EmptyForm()
    {
      this.client := client;
      contactData := [];
      isLoading := true;
      isDialogOpen := false;
      editingItem := None;
      formData := EmptyForm();
    }

    method FetchContactData(reply: Reply<seq<ServerContact>>)
      modifies this, client
      ensures contactData == (if reply.Ok? then Map(reply.body, Localize) else old(contactData)) && !isLoading
      ensures isDialogOpen == old(isDialogOpen) && editingItem == old(editingItem) && formData == old(formData)
      ensures client.sent == old(client.sent) + [Request(GET, ContactPath, NoBody)]
    {
      isLoading := true;
      client.Send(Request(GET, ContactPath, NoBody));
      if reply.Ok? {
        contactData := Map(reply.body, Localize);
      }
      isLoading := false;
    }

    /** Write the form: PUT to the edited record's path, else POST. On an ok response the server's
        record, overlaid with the form's localized fields, replaces the edited id or is appended;
        the dialog closes and the form resets. On failure nothing changes. */
    method HandleSubmit(reply: Reply<ServerContact>)
      modifies this, client
      ensures client.sent == old(client.sent) + [if old(editingItem).Some?
                                                 then Request(PUT, ItemPath(ContactPath, old(editingItem).value.id), SubmitBody(old(formData)))
                                                 else Request(POST, ContactPath, SubmitBody(old(formData)))]
      ensures reply.Ok? && old(editingItem).Some? ==>
                contactData == ReplaceWhere(old(contactData), HasId(old(editingItem).value.id), Overlay(reply.body, old(formData)))
      ensures reply.Ok? && old(editingItem).None? ==> contactData == old(contactData) + [Overlay(reply.body, old(formData))]
      ensures reply.Ok? ==> !isDialogOpen && editingItem == None && formData == EmptyForm()
      ensures !reply.Ok? ==>
                contactData == old(contactData) && isDialogOpen == old(isDialogOpen)
                && editingItem == old(editingItem) && formData == old(formData)
    {
      var body := SubmitBody(formData);
      if editingItem.Some? {
        client.Send(Request(PUT, ItemPath(ContactPath, editingItem.value.id), body));
        if !reply.Ok? {
          return;
        }
        contactData := ReplaceWhere(contactData, HasId(editingItem.value.id), Overlay(reply.body, formData));
      } else {
        client.Send(Request(POST, ContactPath, body));
        if !reply.Ok? {
          return;
        }
        contactData := contactData + [Overlay(reply.body, formData)];
      }
      isDialogOpen := false;
      ResetForm();
    }

    method HandleEdit(item: Contact)
      modifies this
      ensures editingItem == Some(item) && formData == FormOf(item) && isDialogOpen
      ensures contactData == old(contactData)
    {
      editingItem := Some(item);
      formData := FormOf(item);
      isDialogOpen := true;
    }

    method ResetForm()
      modifies this
      ensures editingItem == None && formData == EmptyForm()
      ensures contactData == old(contactData) && isDialogOpen == old(isDialogOpen) && isLoading == old(isLoading)
    {
      editingItem := None;
      formData := EmptyForm();
    }

    method AddPhoneNumber()
      modifies this
      ensures formData == old(formData).(phoneNumbers := old(formData).phoneNumbers + [""])
      ensures contactData == old(contactData) && editingItem == old(editingItem)
    {
      formData := formData.(phoneNumbers := formData.phoneNumbers + [""]);
    }

    method RemovePhoneNumber(i: int)
      modifies this
      ensures formData == old(formData).(phoneNumbers := RemoveAt(old(formData).phoneNumbers, i))
      ensures contactData == old(contactData) && editingItem == old(editingItem)
    {
      formData := formData.(phoneNumbers := RemoveAt(formData.phoneNumbers, i));
    }

    /** Replace the number at `i`; the input rows only ever pass their own index. */
    method UpdatePhoneNumber(i: int, val: string)
      requires 0 <= i < |formData.phoneNumbers|
      modifies this
      ensures formData == old(formData).(phoneNumbers := old(formData).phoneNumbers[i := val])
      ensures contactData == old(contactData) && editingItem == old(editingItem)
    {
      var updated := formData.phoneNumbers;
      updated := updated[i := val];
      formData := formData.(phoneNumbers := updated);
    }

    method AddEmail()
      modifies this
      ensures formData == old(formData).(emails := old(formData).emails + [""])
      ensures contactData == old(contactData) && editingItem == old(editingItem)
    {
      formData := formData.(emails := formData.emails + [""]);
    }

    method RemoveEmail(i: int)
      modifies this
      ensures formData == old(formData).(emails := RemoveAt(old(formData).emails, i))
      ensures contactData == old(contactData) && editingItem == old(editingItem)
    {
      formData := formData.(emails := RemoveAt(formData.emails, i));
    }

    method UpdateEmail(i: int, val: string)
      requires 0 <= i < |formData.emails|
      modifies this
      ensures formData == old(formData).(emails := old(formData).emails[i := val])
      ensures contactData == old(contactData) && editingItem == old(editingItem)
    {
      var updated := formData.emails;
      updated := updated[i := val];
      formData := formData.(emails := updated);
    }
  }
}
