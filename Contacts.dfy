// The emergency contacts screen: a list of contacts that the user adds to
// through a form, deletes, and calls.

module Contacts {
  import opened Common

  datatype Contact = Contact(id: string, name: string, relation: string, phone: string)

  /** The add-contact form: everything but the id. */
  datatype Form = Form(name: string, relation: string, phone: string)

  const EmptyForm: Form := Form("", "", "")

  /** Name and phone are required; the relation is not checked. */
  predicate Complete(f: Form) {
    f.name != "" && f.phone != ""
  }

  class Screen {
    var contacts: seq<Contact>
    var form: Form
    var open: bool

    constructor ()
      ensures |contacts| == 3 && form == EmptyForm && !open
    {
      contacts := [
        Contact("1", "John Smith", "Son", "(555) 123-4567"),
        Contact("2", "Mary Johnson", "Daughter", "(555) 987-6543"),
        Contact("3", "Dr. Wilson", "Doctor", "(555) 246-8101")
      ];
      form := EmptyForm;
      open := false;
    }

    /** handleAdd; `newId` stands for `Date.now().toString()`. */
    method Add(newId: string) returns (added: bool)
      modifies this
      ensures added == Complete(old(form))
      ensures !added ==> contacts == old(contacts) && form == old(form) && open == old(open)
      ensures added ==>
        && contacts == old(contacts) + [Contact(newId, old(form).name, old(form).relation, old(form).phone)]
        && form == EmptyForm && !open
    {
      if !Complete(form) {
        return false;
      }
      contacts := contacts + [Contact(newId, form.name, form.relation, form.phone)];
      form := EmptyForm;
      open := false;
      added := true;
    }

    /** handleDelete */
    method Delete(id: string)
      modifies this
      ensures contacts == WithoutId(old(contacts), (c: Contact) => c.id, id)
      ensures form == old(form) && open == old(open)
    {
      contacts := WithoutId(contacts, (c: Contact) => c.id, id);
    }

    /** handleCall: calling changes nothing on the screen (the method may
        modify nothing). The two results stand for the notification it
        shows, naming the contact and the number being dialled. */
    method Call(c: Contact) returns (title: string, description: string)
      ensures title == "Calling " + c.name
      ensures description == "Dialing " + c.phone + "..."
    {
      title := "Calling " + c.name;
      description := "Dialing " + c.phone + "...";
    }
  }
}
