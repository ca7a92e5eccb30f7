/**
  Event sequences on the page's widgets, with the outcome each one must have.
*/
module Scenarios {
  import opened Wrappers
  import opened Email
  import opened Forms
  import opened Panels

  /** A register button with data-event "Hack Day" and data-date
      "2024-05-01" fills the modal; Escape then closes it, releases the
      scroll lock and clears what was typed. */
  method RegisterThenEscape() returns (shownEvent: string, shownDate: string, openAfter: bool,
                                       lockedAfter: bool, fieldsAfter: RegistrationFields)
    ensures shownEvent == "Hack Day" && shownDate == "Date: 2024-05-01"
    ensures !openAfter && !lockedAfter && fieldsAfter == BlankRegistration
  {
    var body := new Body();
    var modal := new RegistrationModal(body, "Register");
    modal.OpenFor(Some("Hack Day"), Some("2024-05-01"));
    shownEvent, shownDate := modal.eventName, modal.eventDate;
    modal.Edit(RegistrationFields("21CS001", "Ann", "ann@x.co", "TY", "CSE"));
    modal.PressEscape();
    openAfter, lockedAfter, fieldsAfter := modal.active, body.scrollLocked, modal.fields;
  }

  /** A register button without data attributes: the name is left empty
      and the date line reads "Date: null". */
  method RegisterWithoutAttributes() returns (shownEvent: string, shownDate: string)
    ensures shownEvent == "" && shownDate == "Date: null"
  {
    var body := new Body();
    var modal := new RegistrationModal(body, "Register");
    modal.OpenFor(None, None);
    shownEvent, shownDate := modal.eventName, modal.eventDate;
  }

  /** Joining as Ann: the button shows the pending label and is disabled
      until the simulated delay ends; then the confirmation carries Ann's
      name and address, the form is empty and the button is restored. */
  method JoinAsAnn() returns (pendingButton: SubmitButton, confirmed: JoinFields,
                              fieldsAfter: JoinFields, buttonAfter: SubmitButton)
    ensures pendingButton == SubmitButton(SubmittingLabel, true)
    ensures confirmed.name == "Ann" && confirmed.email == "ann@x.co"
    ensures fieldsAfter == BlankJoin && buttonAfter == SubmitButton("Submit Application", false)
  {
    var form := new JoinForm("Submit Application");
    form.Edit(JoinFields("Ann", "ann@x.co", "web", ""));
    var verdict := form.Submit();
    pendingButton := form.button;
    confirmed := form.FinishSubmit();
    fieldsAfter, buttonAfter := form.fields, form.button;
  }

  /** A contact message with the address "foo@bar" is refused: the panel
      stays open and locked, the fields and the button stay as they were. */
  method ContactWithBadAddress() returns (verdict: Verdict, stillOpen: bool, locked: bool,
                                          buttonAfter: SubmitButton, fieldsAfter: ContactFields)
    ensures verdict == InvalidEmail
    ensures stillOpen && locked
    ensures buttonAfter == SubmitButton("Send Message", false)
    ensures fieldsAfter == ContactFields("Ann", "foo@bar", "hi")
  {
    var body := new Body();
    var panel := new ContactPanel(body, "Send Message");
    panel.Open();
    panel.FireActivation();
    panel.Edit(ContactFields("Ann", "foo@bar", "hi"));
    SpecifiedExamples();
    verdict := panel.Submit();
    stillOpen, locked := panel.panelActive, body.scrollLocked;
    buttonAfter, fieldsAfter := panel.button, panel.fields;
  }

  /** Closing the contact panel within 50 ms of opening it: the pending
      activation still fires afterwards, so once the hide timers have run the
      panel carries `active` while it is hidden and scrolling is free. */
  method ContactClosedBeforeActivation() returns (active: bool, displayed: bool, locked: bool)
    ensures active && !displayed && !locked
  {
    var body := new Body();
    var panel := new ContactPanel(body, "Send Message");
    panel.Open();
    panel.ClickOverlay(true);
    panel.FireActivation();
    panel.FireOverlayHide();
    panel.FirePanelHide();
    active, displayed, locked := panel.panelActive, panel.panelDisplayed, body.scrollLocked;
  }

  /** Closing an already closed contact panel changes no flag, though each
      call schedules another pair of hide timers, which only hide again. */
  method ContactClosedTwice() returns (active: bool, displayed: bool, overlayShown: bool, hides: nat)
    ensures !active && !displayed && !overlayShown && hides == 0
  {
    var body := new Body();
    var panel := new ContactPanel(body, "Send Message");
    panel.Open();
    panel.FireActivation();
    panel.Close();
    panel.Close();
    assert panel.panelHides == 2 && panel.overlayHides == 2;
    panel.FirePanelHide();
    panel.FirePanelHide();
    panel.FireOverlayHide();
    panel.FireOverlayHide();
    active, displayed, overlayShown := panel.panelActive, panel.panelDisplayed, panel.overlayDisplayed;
    hides := panel.panelHides + panel.overlayHides;
  }

  /** The three panels share the body's scroll lock: closing the mobile
      navigation releases it even while the registration modal is open. */
  method SharedScrollLock() returns (modalOpen: bool, locked: bool)
    ensures modalOpen && !locked
  {
    var body := new Body();
    var nav := new MobileNav(body);
    var modal := new RegistrationModal(body, "Register");
    modal.OpenFor(Some("Hack Day"), Some("2024-05-01"));
    nav.Open();
    nav.Close();
    modalOpen, locked := modal.active, body.scrollLocked;
  }

  /** A registration submitted and then closed with Escape before its
      1500 ms timer: the timer still confirms the event that was shown when
      the form was submitted, and restores the button. */
  method RegisterSubmitThenEscape() returns (confirmed: Registration, buttonAfter: SubmitButton,
                                             openAfter: bool)
    ensures confirmed == Registration(RegistrationFields("21CS001", "Ann", "a@b.co", "TY", "CSE"),
                                      "Hack Day", "Date: 2024-05-01")
    ensures buttonAfter == SubmitButton("Register", false) && !openAfter
  {
    var body := new Body();
    var modal := new RegistrationModal(body, "Register");
    modal.OpenFor(Some("Hack Day"), Some("2024-05-01"));
    assert modal.eventName == "Hack Day" && modal.eventDate == "Date: 2024-05-01";
    var ann := RegistrationFields("21CS001", "Ann", "a@b.co", "TY", "CSE");
    modal.Edit(ann);
    SpecifiedExamples();
    assert ValidateRegistration(ann) == Accepted;
    var verdict := modal.Submit();
    assert modal.pending == Some(PendingSubmit("Register", Registration(ann, "Hack Day", "Date: 2024-05-01")));
    modal.PressEscape();
    assert modal.pending.Some? && modal.button.disabled;
    confirmed := modal.FinishSubmit();
    buttonAfter, openAfter := modal.button, modal.active;
  }

  /** An accepted contact message: once the 1500 ms timer has closed the
      panel, its hide timers hide the panel and the overlay. */
  method ContactSentThenHidden() returns (confirmed: ContactFields, displayed: bool,
                                          overlayShown: bool, buttonAfter: SubmitButton)
    ensures confirmed == ContactFields("Ann", "a@b.co", "hi")
    ensures !displayed && !overlayShown && buttonAfter == SubmitButton("Send Message", false)
  {
    var body := new Body();
    var panel := new ContactPanel(body, "Send Message");
    panel.Open();
    panel.FireActivation();
    panel.Edit(ContactFields("Ann", "a@b.co", "hi"));
    SpecifiedExamples();
    var verdict := panel.Submit();
    confirmed := panel.FinishSubmit();
    panel.FirePanelHide();
    panel.FireOverlayHide();
    displayed, overlayShown, buttonAfter := panel.panelDisplayed, panel.overlayDisplayed, panel.button;
  }
}
