/**
 * The contact modal of the results page: clicking "Contact" on a partner
 * opens it, the backdrop or the close button dismisses it unless the form
 * has just been submitted, and a submission shows a confirmation that a
 * timer later clears, closing the modal and emptying the form.
 */
module ContactModal {
  import opened Wrappers
  import JsValues

  datatype ContactField = FirstName | LastName | Email | Phone | ZipCode

  datatype ContactForm = ContactForm(firstName: string, lastName: string, email: string, phone: string, zipCode: string)
  {
    function Get(f: ContactField): string {
      match f
      case FirstName => firstName
      case LastName => lastName
      case Email => email
      case Phone => phone
      case ZipCode => zipCode
    }

    /** `{ ...contactForm, [f]: v }`. */
    function With(f: ContactField, v: string): (r: ContactForm)
      ensures r.Get(f) == v
      ensures forall g :: g != f ==> r.Get(g) == Get(g)
    {
      match f
      case FirstName => this.(firstName := v)
      case LastName => this.(lastName := v)
      case Email => this.(email := v)
      case Phone => this.(phone := v)
      case ZipCode => this.(zipCode := v)
    }
  }

  const EmptyContactForm := ContactForm("", "", "", "", "")

  class Modal {
    var selectedPartner: Option<string>
    var contactForm: ContactForm
    var formSubmitted: bool

    /** The modal is rendered while a (non-empty) partner name is selected. */
    predicate IsOpen()
      reads this
      ensures IsOpen() <==> selectedPartner.Some? && JsValues.Truthy(JsValues.Str(selectedPartner.value))
    {
      selectedPartner.Some? && selectedPartner.value != ""
    }

    constructor ()
      ensures selectedPartner == None && contactForm == EmptyContactForm && !formSubmitted
      ensures !IsOpen()
    {
      selectedPartner := None;
      contactForm := EmptyContactForm;
      formSubmitted := false;
    }

    /** "Contact" on a partner card. */
    method SelectPartner(name: string)
      modifies this
      ensures selectedPartner == Some(name)
      ensures contactForm == old(contactForm) && formSubmitted == old(formSubmitted)
    {
      selectedPartner := Some(name);
    }

    /** A click on the backdrop closes the modal only before submission. */
    method ClickBackdrop()
      modifies this
      ensures old(formSubmitted) ==> selectedPartner == old(selectedPartner)
      ensures !old(formSubmitted) ==> selectedPartner == None && !IsOpen()
      ensures contactForm == old(contactForm) && formSubmitted == old(formSubmitted)
    {
      if !formSubmitted {
        selectedPartner := None;
      }
    }

    /** The close button, which is only shown before submission. */
    method ClickClose()
      requires !formSubmitted
      modifies this
      ensures selectedPartner == None && !IsOpen()
      ensures contactForm == old(contactForm) && formSubmitted == old(formSubmitted)
    {
      selectedPartner := None;
    }

    /** `updateContactForm(f, v)`. */
    method UpdateContactForm(f: ContactField, v: string)
      modifies this
      ensures contactForm == old(contactForm).With(f, v)
      ensures selectedPartner == old(selectedPartner) && formSubmitted == old(formSubmitted)
    {
      contactForm := contactForm.With(f, v);
    }

    /** `handleContactSubmit`: the form is shown only while open and not yet submitted. */
    method Submit()
      requires IsOpen() && !formSubmitted
      modifies this
      ensures formSubmitted && IsOpen()
      ensures selectedPartner == old(selectedPartner) && contactForm == old(contactForm)
    {
      formSubmitted := true;
    }

    /** The timer set by a submission: close, clear the flag, empty all five fields. */
    method SubmissionTimerFires()
      modifies this
      ensures selectedPartner == None && !formSubmitted && contactForm == EmptyContactForm
      ensures !IsOpen()
    {
      selectedPartner := None;
      formSubmitted := false;
      contactForm := EmptyContactForm;
    }
  }

  /** After a submission the backdrop cannot close the modal until the timer fires. */
  method SubmittedModalIgnoresBackdrop(m: Modal)
    requires m.IsOpen() && !m.formSubmitted
    modifies m
    ensures m.IsOpen() && m.formSubmitted
  {
    m.Submit();
    m.ClickBackdrop();
  }
}
