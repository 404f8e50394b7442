/** The contact page: a four-field form and a submission that persists nothing; a delayed
    completion step thanks the sender, clears the form and lowers the submitting flag. */
module Contact {
  import opened Entities
  import opened Forms

  const NameField := "name"
  const EmailField := "email"
  const SubjectField := "subject"
  const MessageField := "message"
  const FieldNames: seq<string> := [NameField, EmailField, SubjectField, MessageField]

  const SentToast := Toast("MESSAGE SENT", "Thank you for contacting us. We will get back to you shortly.", false)

  /** The form as first rendered and as reset after a submission: all four fields empty. */
  function InitialForm(): (f: Form)
    ensures f.Keys == {NameField, EmailField, SubjectField, MessageField}
    ensures forall k :: k in f ==> f[k] == ""
  {
    Blank(FieldNames)
  }

  /** The page's state; `pendingCompletions` counts the delayed completion steps scheduled and
      not yet run. */
  class ContactPage {
    var formData: Form
    var isSubmitting: bool
    var pendingCompletions: nat
    var toasts: seq<Toast>

    constructor ()
      ensures formData == InitialForm() && !isSubmitting && pendingCompletions == 0 && toasts == []
    {
      formData := InitialForm();
      isSubmitting := false;
      pendingCompletions := 0;
      toasts := [];
    }

    /** `handleChange`: one field takes the new value, every other keeps its own. */
    method HandleChange(field: string, value: string)
      modifies this`formData
      ensures formData == WithField(old(formData), field, value)
    {
      formData := WithField(formData, field, value);
    }

    /** `handleSubmit`: raises the submitting flag and schedules the completion step; nothing
        is sent anywhere and the form is kept until the step runs. */
    method HandleSubmit()
      modifies this`isSubmitting, this`pendingCompletions
      ensures isSubmitting
      ensures pendingCompletions == old(pendingCompletions) + 1
    {
      isSubmitting := true;
      pendingCompletions := pendingCompletions + 1;
    }

    /** The delayed completion step: it always succeeds, thanks the sender, clears all four
        fields and lowers the flag. */
    method CompleteSubmission()
      requires pendingCompletions > 0
      modifies this
      ensures toasts == old(toasts) + [SentToast]
      ensures formData == InitialForm()
      ensures !isSubmitting
      ensures pendingCompletions == old(pendingCompletions) - 1
    {
      toasts := toasts + [SentToast];
      formData := InitialForm();
      isSubmitting := false;
      pendingCompletions := pendingCompletions - 1;
    }
  }

  /** Whatever was typed, a submission followed by its completion returns the page to a form
      equal to the initial one, with the flag down and one thank-you toast. */
  method FillAndSubmit(name: string, email: string, subject: string, message: string) returns (page: ContactPage)
    ensures fresh(page)
    ensures page.formData == InitialForm() && !page.isSubmitting && page.pendingCompletions == 0
    ensures page.toasts == [SentToast]
  {
    page := new ContactPage();
    page.HandleChange(NameField, name);
    page.HandleChange(EmailField, email);
    page.HandleChange(SubjectField, subject);
    page.HandleChange(MessageField, message);
    page.HandleSubmit();
    assert page.isSubmitting && page.formData[MessageField] == message;
    page.CompleteSubmission();
  }
}
