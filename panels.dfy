/**
  The page's panels and forms as small state machines: the mobile navigation
  panel, the event registration modal, the contact panel, and the join form.
  All three panels lock page scrolling through the same body style while
  open; nothing keeps two of them from being open at once.

  Timers become explicit events: each pending `setTimeout` is counted (or,
  for a submission, held) and a `Fire...`/`FinishSubmit` method is the moment
  it runs.  Their relative order in real time is not modelled.  Alerts are
  the values the methods return.
*/
module Panels {
  import opened Wrappers
  import opened Forms

  /** document.body: `scrollLocked` is style.overflow == 'hidden'. */
  class Body {
    var scrollLocked: bool

    constructor ()
      ensures !scrollLocked
    {
      scrollLocked := false;
    }
  }

  /** A submit button's textContent and disabled flag. */
  datatype SubmitButton = SubmitButton(text: string, disabled: bool)

  /** An accepted submission waiting out its 1500 ms: the label to restore
      (captured before it was changed) and the values the confirmation shows. */
  datatype PendingSubmit<F> = PendingSubmit(originalLabel: string, payload: F)

  const SubmittingLabel := "Submitting..."
  const SendingLabel := "Sending..."

  /** The registration form's payload: its fields and the event shown in the modal. */
  datatype Registration = Registration(fields: RegistrationFields, event: string, date: string)

  /** Setting textContent to an absent attribute (null) leaves the element empty. */
  function TextOf(attribute: Option<string>): (text: string)
    ensures attribute.Some? ==> text == attribute.value
    ensures attribute.None? ==> text == ""
  {
    attribute.GetOr("")
  }

  /** The date line `Date: ${eventDate}`: a template literal renders an
      absent attribute (null) as "null". */
  function DateLine(dataDate: Option<string>): (line: string)
    ensures |line| >= 6 && line[..6] == "Date: "
    ensures dataDate.Some? ==> line[6..] == dataDate.value
    ensures dataDate.None? ==> line[6..] == "null"
  {
    "Date: " + dataDate.GetOr("null")
  }

  /** The mobile navigation panel and its hamburger button (script.js:12-47). */
  class MobileNav {
    const body: Body
    var panelActive: bool
    var hamburgerActive: bool

    /** The hamburger is marked active exactly while the panel is. */
    ghost predicate Valid()
      reads this
    {
      panelActive == hamburgerActive
    }

    constructor (body: Body)
      ensures this.body == body && Valid() && !panelActive
    {
      this.body := body;
      panelActive, hamburgerActive := false, false;
    }

    /** A click on the hamburger. */
    method Open()
      modifies this, body
      ensures Valid() && panelActive && body.scrollLocked
    {
      panelActive := true;
      hamburgerActive := true;
      body.scrollLocked := true;
    }

    /** closeMobileNav: the close button, the overlay and every nav link call it. */
    method Close()
      modifies this, body
      ensures Valid() && !panelActive && !body.scrollLocked
    {
      panelActive := false;
      hamburgerActive := false;
      body.scrollLocked := false;
    }

    /** The Escape key closes the panel only when it is open. */
    method PressEscape()
      requires Valid()
      modifies this, body
      ensures Valid()
      ensures old(panelActive) ==> !panelActive && !body.scrollLocked
      ensures !old(panelActive) ==> unchanged(this, body)
    {
      if panelActive {
        Close();
      }
    }
  }

  /** The join form and its submit button (script.js:234-265). */
  class JoinForm {
    var fields: JoinFields
    var button: SubmitButton
    var pending: Option<PendingSubmit<JoinFields>>

    /** The button is disabled exactly while a submission is pending. */
    ghost predicate Valid()
      reads this
    {
      button.disabled <==> pending.Some?
    }

    constructor (text: string)
      ensures Valid() && fields == BlankJoin && button == SubmitButton(text, false)
    {
      fields, button, pending := BlankJoin, SubmitButton(text, false), None;
    }

    /** The user types into the fields. */
    method Edit(f: JoinFields)
      modifies this
      ensures fields == f && button == old(button) && pending == old(pending)
    {
      fields := f;
    }

    /** The submit handler.  A rejected submission changes nothing; an
        accepted one marks the button pending and schedules the confirmation.
        The browser dispatches no submit while the button is disabled. */
    method Submit() returns (v: Verdict)
      requires Valid() && !button.disabled
      modifies this
      ensures Valid()
      ensures v == ValidateJoin(old(fields))
      ensures v != Accepted ==> unchanged(this)
      ensures v == Accepted ==>
        fields == old(fields) && button == SubmitButton(SubmittingLabel, true)
        && pending == Some(PendingSubmit(old(button.text), old(fields)))
    {
      v := ValidateJoin(fields);
      if v != Accepted {
        return;
      }
      var originalText := button.text;
      button := SubmitButton(SubmittingLabel, true);
      pending := Some(PendingSubmit(originalText, fields));
    }

    /** The 1500 ms timer: confirm, reset the form, restore the button. */
    method FinishSubmit() returns (confirmed: JoinFields)
      requires Valid() && pending.Some?
      modifies this
      ensures Valid()
      ensures confirmed == old(pending.value.payload)
      ensures fields == BlankJoin && pending == None
      ensures button == SubmitButton(old(pending.value.originalLabel), false)
    {
      confirmed := pending.value.payload;
      fields := BlankJoin;
      button := SubmitButton(pending.value.originalLabel, false);
      pending := None;
    }
  }

  /** What the registration modal shows and holds: its `active` class, the
      two text lines, the form fields, the submit button and the pending
      confirmation. */
  datatype ModalView = ModalView(active: bool, eventName: string, eventDate: string,
                                 fields: RegistrationFields, button: SubmitButton,
                                 pending: Option<PendingSubmit<Registration>>)

  /** closeModal's effect on the modal: `active` goes and the form is reset;
      the text lines, the button and a pending confirmation are not touched. */
  function ModalClosed(v: ModalView): ModalView {
    v.(active := false, fields := BlankRegistration)
  }

  /** The event registration modal (script.js:339-425). */
  class RegistrationModal {
    const body: Body
    var active: bool
    var eventName: string   // modalEventName.textContent
    var eventDate: string   // modalEventDate.textContent
    var fields: RegistrationFields
    var button: SubmitButton
    var pending: Option<PendingSubmit<Registration>>

    function View(): ModalView
      reads this
    {
      ModalView(active, eventName, eventDate, fields, button, pending)
    }

    ghost predicate Valid()
      reads this
    {
      button.disabled <==> pending.Some?
    }

    constructor (body: Body, text: string)
      ensures this.body == body && Valid()
      ensures View() == ModalView(false, "", "", BlankRegistration, SubmitButton(text, false), None)
    {
      this.body := body;
      active, eventName, eventDate := false, "", "";
      fields, button, pending := BlankRegistration, SubmitButton(text, false), None;
    }

    /** A click on a `.btn-register` carrying data-event and data-date. */
    method OpenFor(dataEvent: Option<string>, dataDate: Option<string>)
      modifies this, body
      ensures body.scrollLocked
      ensures View() == old(View()).(active := true, eventName := TextOf(dataEvent), eventDate := DateLine(dataDate))
    {
      eventName := TextOf(dataEvent);
      eventDate := DateLine(dataDate);
      active := true;
      body.scrollLocked := true;
    }

    /** closeModal: the close and cancel buttons, the overlay, Escape and a
        finished submission call it.  The button is not touched. */
    method Close()
      modifies this, body
      ensures !body.scrollLocked && View() == ModalClosed(old(View()))
    {
      active := false;
      body.scrollLocked := false;
      fields := BlankRegistration;
    }

    /** A click inside the modal closes it only when it lands on the modal
        itself or on its overlay. */
    method Click(onModalOrOverlay: bool)
      modifies this, body
      ensures onModalOrOverlay ==> !body.scrollLocked && View() == ModalClosed(old(View()))
      ensures !onModalOrOverlay ==> unchanged(this, body)
    {
      if onModalOrOverlay {
        Close();
      }
    }

    /** The Escape key closes the modal only when it is open. */
    method PressEscape()
      modifies this, body
      ensures old(active) ==> !body.scrollLocked && View() == ModalClosed(old(View()))
      ensures !old(active) ==> unchanged(this, body)
    {
      if active {
        Close();
      }
    }

    method Edit(f: RegistrationFields)
      modifies this
      ensures View() == old(View()).(fields := f)
    {
      fields := f;
    }

    /** The submit handler (script.js:385-417).  The payload captures the
        fields and the two text lines as they are at this moment. */
    method Submit() returns (v: Verdict)
      requires Valid() && !button.disabled
      modifies this
      ensures Valid()
      ensures v == ValidateRegistration(old(fields))
      ensures v != Accepted ==> unchanged(this)
      ensures v == Accepted ==>
        View() == old(View()).(button := SubmitButton(SubmittingLabel, true),
                               pending := Some(PendingSubmit(old(button.text),
                                 Registration(old(fields), old(eventName), old(eventDate)))))
    {
      var formData := Registration(fields, eventName, eventDate);
      v := ValidateRegistration(fields);
      if v != Accepted {
        return;
      }
      var originalText := button.text;
      button := SubmitButton(SubmittingLabel, true);
      pending := Some(PendingSubmit(originalText, formData));
    }

    /** The 1500 ms timer (script.js:419-424): confirm, close the modal, restore the button. */
    method FinishSubmit() returns (confirmed: Registration)
      requires Valid() && pending.Some?
      modifies this, body
      ensures Valid()
      ensures confirmed == old(pending.value.payload)
      ensures !body.scrollLocked
      ensures View() == ModalClosed(old(View())).(button := SubmitButton(old(pending.value.originalLabel), false),
                                                 pending := None)
    {
      var p := pending.value;
      confirmed := p.payload;
      Close();
      button := SubmitButton(p.originalLabel, false);
      pending := None;
    }
  }

  /** What the contact panel and its overlay show and hold, with the number
      of each kind of timer still to fire. */
  datatype ContactView = ContactView(
    panelActive: bool,       // class 'active' on the panel
    panelDisplayed: bool,    // panel style.display is 'block' rather than 'none'
    panelVisible: bool,      // panel style.visibility is 'visible'
    overlayActive: bool,
    overlayDisplayed: bool,
    fields: ContactFields,
    button: SubmitButton,
    pending: Option<PendingSubmit<ContactFields>>,
    activations: nat,        // pending 50 ms timers that add 'active' to the panel
    panelHides: nat,         // pending 400 ms timers that hide the panel
    overlayHides: nat)       // pending 300 ms timers that hide the overlay

  /** closeContactPanel's effect: both `active` classes go, one hide timer of
      each kind is scheduled and the form is reset; the displays, the button
      and a pending confirmation are not touched. */
  function ContactClosed(v: ContactView): ContactView {
    v.(panelActive := false, overlayActive := false, fields := BlankContact,
       panelHides := v.panelHides + 1, overlayHides := v.overlayHides + 1)
  }

  /** The contact panel and its overlay (script.js:431-551). */
  class ContactPanel {
    const body: Body
    var panelActive: bool
    var panelDisplayed: bool
    var panelVisible: bool
    var overlayActive: bool
    var overlayDisplayed: bool
    var fields: ContactFields
    var button: SubmitButton
    var pending: Option<PendingSubmit<ContactFields>>
    var activations: nat
    var panelHides: nat
    var overlayHides: nat

    function View(): ContactView
      reads this
    {
      ContactView(panelActive, panelDisplayed, panelVisible, overlayActive, overlayDisplayed,
                  fields, button, pending, activations, panelHides, overlayHides)
    }

    ghost predicate Valid()
      reads this
    {
      button.disabled <==> pending.Some?
    }

    constructor (body: Body, text: string)
      ensures this.body == body && Valid()
      ensures View() == ContactView(false, false, false, false, false, BlankContact,
                                    SubmitButton(text, false), None, 0, 0, 0)
    {
      this.body := body;
      panelActive, panelDisplayed, panelVisible := false, false, false;
      overlayActive, overlayDisplayed := false, false;
      fields, button, pending := BlankContact, SubmitButton(text, false), None;
      activations, panelHides, overlayHides := 0, 0, 0;
    }

    /** A click on the sidebar's contact button: overlay and panel are shown
        at once, the panel's `active` class only 50 ms later. */
    method Open()
      modifies this, body
      ensures body.scrollLocked
      ensures View() == old(View()).(overlayDisplayed := true, overlayActive := true,
                                     panelDisplayed := true, panelVisible := true,
                                     activations := old(activations) + 1)
    {
      overlayDisplayed := true;
      overlayActive := true;
      panelDisplayed := true;
      panelVisible := true;
      activations := activations + 1;
      body.scrollLocked := true;
    }

    /** The 50 ms timer scheduled by Open. */
    method FireActivation()
      requires activations > 0
      modifies this
      ensures View() == old(View()).(panelActive := true, activations := old(activations) - 1)
    {
      panelActive := true;
      activations := activations - 1;
    }

    /** The 400 ms timer scheduled by Close. */
    method FirePanelHide()
      requires panelHides > 0
      modifies this
      ensures View() == old(View()).(panelDisplayed := false, panelHides := old(panelHides) - 1)
    {
      panelDisplayed := false;
      panelHides := panelHides - 1;
    }

    /** The 300 ms timer scheduled by Close. */
    method FireOverlayHide()
      requires overlayHides > 0
      modifies this
      ensures View() == old(View()).(overlayDisplayed := false, overlayHides := old(overlayHides) - 1)
    {
      overlayDisplayed := false;
      overlayHides := overlayHides - 1;
    }

    /** closeContactPanel: the `active` classes go at once, the display
        later; scrolling is released and the form reset.  The hide timers
        are scheduled even when the panel is already closed. */
    method Close()
      modifies this, body
      ensures !body.scrollLocked && View() == ContactClosed(old(View()))
    {
      panelActive := false;
      panelHides := panelHides + 1;
      overlayActive := false;
      overlayHides := overlayHides + 1;
      body.scrollLocked := false;
      fields := BlankContact;
    }

    /** A click on the overlay closes the panel only when it hits the overlay itself. */
    method ClickOverlay(onOverlayItself: bool)
      modifies this, body
      ensures onOverlayItself ==> !body.scrollLocked && View() == ContactClosed(old(View()))
      ensures !onOverlayItself ==> unchanged(this, body)
    {
      if onOverlayItself {
        Close();
      }
    }

    /** The Escape key closes the panel only when it carries `active`; during
        the first 50 ms after Open it does not yet. */
    method PressEscape()
      modifies this, body
      ensures old(panelActive) ==> !body.scrollLocked && View() == ContactClosed(old(View()))
      ensures !old(panelActive) ==> unchanged(this, body)
    {
      if panelActive {
        Close();
      }
    }

    method Edit(f: ContactFields)
      modifies this
      ensures View() == old(View()).(fields := f)
    {
      fields := f;
    }

    /** The submit handler (script.js:507-541). */
    method Submit() returns (v: Verdict)
      requires Valid() && !button.disabled
      modifies this
      ensures Valid()
      ensures v == ValidateContact(old(fields))
      ensures v != Accepted ==> unchanged(this)
      ensures v == Accepted ==>
        View() == old(View()).(button := SubmitButton(SendingLabel, true),
                               pending := Some(PendingSubmit(old(button.text), old(fields))))
    {
      v := ValidateContact(fields);
      if v != Accepted {
        return;
      }
      var originalText := button.text;
      button := SubmitButton(SendingLabel, true);
      pending := Some(PendingSubmit(originalText, fields));
    }

    /** The 1500 ms timer (script.js:544-549): confirm, close, restore the button. */
    method FinishSubmit() returns (confirmed: ContactFields)
      requires Valid() && pending.Some?
      modifies this, body
      ensures Valid()
      ensures confirmed == old(pending.value.payload)
      ensures !body.scrollLocked
      ensures View() == ContactClosed(old(View())).(button := SubmitButton(old(pending.value.originalLabel), false),
                                                   pending := None)
    {
      var p := pending.value;
      confirmed := p.payload;
      Close();
      button := SubmitButton(p.originalLabel, false);
      pending := None;
    }
  }
}
