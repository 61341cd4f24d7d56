/** The page script (`src/scripts/main.ts`): the mobile menu and the booking
    modal. The page's elements are replaced by the few facts the handlers read
    and write: whether the modal has its `active` class, whether the body's
    overflow is `hidden`, the four inputs of the booking form, whether the
    mobile menu has its `hidden` class, the URL last assigned to
    `window.location.href` (a `mailto` URL is handed to the mail client and the
    page stays open), and how many 500 ms close timers are still to fire. */
module Page {
  import opened Wrappers
  import opened Text
  import opened Uri
  import opened Url

  /** The booking form's inputs: the three the visitor types and the hidden
      category input. */
  datatype Form = Form(name: string, email: string, phone: string, category: string)

  /** What `form.reset()` restores every input to. */
  const EmptyForm: Form := Form("", "", "", "")

  datatype State = State(
    modalActive: bool,
    scrollLocked: bool,
    form: Form,
    menuHidden: bool,
    location: string,
    pendingCloses: nat)

  /** The inputs a visitor can type into. */
  datatype Input = UserName | UserEmail | UserPhone

  /** Where a click on the modal element landed: on the backdrop itself, or on
      something inside the modal's content. */
  datatype ModalTarget = Backdrop | Content

  /** Where a click on an industry card landed: on (or inside) its button, or
      elsewhere on the card. */
  datatype CardTarget = CardButton | CardElsewhere

  /** What submitting the booking form does for the visitor: a blocking alert, or
      navigation to a link. */
  datatype Outcome = Alert(message: string) | Navigated(url: string)

  const RequiredFieldsAlert: string := "Please fill in all required fields."

  /** The subject line of a booking request. */
  function BookingSubject(category: string): string {
    "Book " + category + " Website"
  }

  /** The text of a booking request, as the submit handler writes it. */
  function BookingBody(name: string, email: string, phone: string, category: string): string {
    "Hello,\n\nI would like to book a website for " + category + " category.\n\n"
      + "Details:\n"
      + "Name: " + name + "\n"
      + "Email: " + email + "\n"
      + "Phone: " + phone + "\n"
      + "Category: " + category + "\n\n"
      + "Please contact me to proceed with the booking.\n\n"
      + "Thank you!"
  }

  /** The lines of a booking request's text, as a mail client shows them. */
  function BookingLines(name: string, email: string, phone: string, category: string): seq<string> {
    ["Hello,", "", "I would like to book a website for " + category + " category.", "",
     "Details:", "Name: " + name, "Email: " + email, "Phone: " + phone, "Category: " + category, "",
     "Please contact me to proceed with the booking.", "", "Thank you!"]
  }

  /** Where booking requests are mailed: the submit handler writes this address
      in itself rather than taking the site's contact address. */
  const BookingAddress: string := "mailto:harishchoure312@gmail.com"

  /** A `mailto` link to the booking address with the given subject and body. */
  function BookingLink(subject: string, body: string): string {
    BookingAddress + "?subject=" + Encode(subject) + "&body=" + Encode(body)
  }

  /** The `mailto` link the submit handler navigates to. */
  function BookingMailto(name: string, email: string, phone: string, category: string): string {
    BookingLink(BookingSubject(category), BookingBody(name, email, phone, category))
  }

  // The handlers as functions of the page state. Each keeps the body's scroll
  // lock in step with the modal.

  /** The page as loaded: the modal hidden, scrolling free, the form empty and
      no close timer armed. */
  function Initial(pageUrl: string, menuHidden: bool): (r: State)
    ensures !r.modalActive && ScrollLockMatchesModal(r) && r.form == EmptyForm && r.pendingCloses == 0
  {
    State(false, false, EmptyForm, menuHidden, pageUrl, 0)
  }

  /** The modal's shown state and form are as they were. */
  predicate KeepsModal(s: State, r: State) {
    r.modalActive == s.modalActive && r.scrollLocked == s.scrollLocked && r.form == s.form
  }

  /** The menu, the last assigned URL and the armed timers are as they were. */
  predicate KeepsMenuAndWindow(s: State, r: State) {
    r.menuHidden == s.menuHidden && r.location == s.location && r.pendingCloses == s.pendingCloses
  }

  /** `openBookingModal(category)`: the modal shown, scrolling locked and the
      category recorded; what was typed into the other inputs stays, since the
      form is not reset on opening. */
  function Opened(s: State, category: string): (r: State)
    ensures r.modalActive && ScrollLockMatchesModal(r) && r.form.category == category
    ensures r.form.name == s.form.name && r.form.email == s.form.email && r.form.phone == s.form.phone
    ensures KeepsMenuAndWindow(s, r)
  {
    s.(form := s.form.(category := category), modalActive := true, scrollLocked := true)
  }

  /** `closeBookingModal()`: the modal hidden, scrolling free and every input
      reset. */
  function Closed(s: State): (r: State)
    ensures !r.modalActive && ScrollLockMatchesModal(r) && r.form == EmptyForm
    ensures KeepsMenuAndWindow(s, r)
  {
    s.(modalActive := false, scrollLocked := false, form := EmptyForm)
  }

  /** The visitor types `value` into an input; nothing but that input changes. */
  function Typed(s: State, input: Input, value: string): (r: State)
    ensures r.modalActive == s.modalActive && r.scrollLocked == s.scrollLocked
    ensures r.form.category == s.form.category && KeepsMenuAndWindow(s, r)
    ensures input == UserName ==> r.form.name == value && r.form.email == s.form.email && r.form.phone == s.form.phone
    ensures input == UserEmail ==> r.form.email == value && r.form.name == s.form.name && r.form.phone == s.form.phone
    ensures input == UserPhone ==> r.form.phone == value && r.form.name == s.form.name && r.form.email == s.form.email
    ensures ScrollLockMatchesModal(s) ==> ScrollLockMatchesModal(r)
  {
    match input
    case UserName => s.(form := s.form.(name := value))
    case UserEmail => s.(form := s.form.(email := value))
    case UserPhone => s.(form := s.form.(phone := value))
  }

  /** A click on an industry card. Its button's listener stops propagation, so
      the card's own listener never sees a click on the button, and sees no other
      click it acts on: only the button opens the modal, and only when the card
      carries a non-empty `data-category`. */
  function CardClicked(s: State, target: CardTarget, dataCategory: Option<string>): (r: State)
    ensures r.modalActive <==> s.modalActive || (target == CardButton && dataCategory.Some? && dataCategory.value != [])
    ensures target == CardButton && dataCategory.Some? && dataCategory.value != [] ==> r == Opened(s, dataCategory.value)
    ensures r != s ==> target == CardButton && dataCategory.Some? && r == Opened(s, dataCategory.value)
    ensures ScrollLockMatchesModal(s) ==> ScrollLockMatchesModal(r)
  {
    if target == CardButton && dataCategory.Some? && dataCategory.value != [] then Opened(s, dataCategory.value)
    else s
  }

  /** A click on the modal element, which closes the modal only when the click
      landed on the backdrop itself. */
  function ModalClicked(s: State, target: ModalTarget): (r: State)
    ensures target == Backdrop ==> !r.modalActive && r.form == EmptyForm
    ensures target == Content ==> r == s
    ensures ScrollLockMatchesModal(s) ==> ScrollLockMatchesModal(r)
  {
    if target == Backdrop then Closed(s) else s
  }

  /** A key press anywhere on the page: after Escape the modal is hidden, and
      any other key, or Escape while it is hidden already, changes nothing. */
  function KeyPressed(s: State, key: string): (r: State)
    ensures key == "Escape" ==> !r.modalActive
    ensures key != "Escape" || !s.modalActive ==> r == s
    ensures ScrollLockMatchesModal(s) ==> ScrollLockMatchesModal(r)
  {
    if key == "Escape" && s.modalActive then Closed(s) else s
  }

  /** `url` is assigned to `window.location.href` and one more close timer is
      armed; the modal and the form stay as they were. */
  function LinkFollowed(s: State, url: string): (r: State)
    ensures r.location == url && r.pendingCloses == s.pendingCloses + 1
    ensures KeepsModal(s, r) && r.menuHidden == s.menuHidden
    ensures ScrollLockMatchesModal(s) ==> ScrollLockMatchesModal(r)
  {
    s.(location := url, pendingCloses := s.pendingCloses + 1)
  }

  /** The booking form's submit handler: the new state and what the visitor
      sees. Whatever the outcome, the modal stays as it was: it is not closed
      at once. */
  function Submitted(s: State): (r: (State, Outcome))
    ensures KeepsModal(s, r.0) && r.0.menuHidden == s.menuHidden
    ensures ScrollLockMatchesModal(s) ==> ScrollLockMatchesModal(r.0)
  {
    var name, email, phone := Trim(s.form.name), Trim(s.form.email), Trim(s.form.phone);
    if name == [] || email == [] || phone == [] then
      (s, Alert(RequiredFieldsAlert))
    else
      var url := BookingMailto(name, email, phone, s.form.category);
      (LinkFollowed(s, url), Navigated(url))
  }

  /** One armed close timer fires: it closes the modal as `closeBookingModal`
      does, and is used up. */
  function TimerFired(s: State): (r: State)
    requires s.pendingCloses > 0
    ensures !r.modalActive && ScrollLockMatchesModal(r) && r.form == EmptyForm
    ensures r.pendingCloses == s.pendingCloses - 1 && r.menuHidden == s.menuHidden && r.location == s.location
  {
    Closed(s).(pendingCloses := s.pendingCloses - 1)
  }

  /** The menu button flips the menu's `hidden` class and nothing else. */
  function MenuToggled(s: State): (r: State)
    ensures r.menuHidden == !s.menuHidden
    ensures KeepsModal(s, r) && r.location == s.location && r.pendingCloses == s.pendingCloses
    ensures ScrollLockMatchesModal(s) ==> ScrollLockMatchesModal(r)
  {
    s.(menuHidden := !s.menuHidden)
  }

  /** A menu link leaves the menu hidden, whatever it was, and nothing else
      changes. */
  function MenuLinkClicked(s: State): (r: State)
    ensures r.menuHidden
    ensures KeepsModal(s, r) && r.location == s.location && r.pendingCloses == s.pendingCloses
    ensures ScrollLockMatchesModal(s) ==> ScrollLockMatchesModal(r)
  {
    s.(menuHidden := true)
  }

  /** The body is scroll-locked exactly while the modal is shown. */
  predicate ScrollLockMatchesModal(s: State) {
    s.scrollLocked == s.modalActive
  }

  /** A field the visitor left empty or filled with whitespace only. */
  predicate Blank(value: string) {
    forall k | 0 <= k < |value| :: IsWhitespace(value[k])
  }

  /** A value with no whitespace at either end, which trimming leaves as it is. */
  predicate Trimmed(value: string) {
    value != [] && !IsWhitespace(value[0]) && !IsWhitespace(value[|value| - 1])
  }

  // Solver helpers: facts about the template's literals, and splitting a
  // thirteen-line text, each kept to a small proof of its own. They state
  // nothing about the page beyond the spelling of its texts.

  lemma AddressHasNoDelimiters()
    ensures '?' !in BookingAddress && '&' !in BookingAddress
  {}

  lemma FieldLiterals()
    ensures "?" + "subject" + "=" == "?subject=" && "&" + "body" + "=" == "&body="
    ensures '&' !in "subject" && '=' !in "subject" && '&' !in "body" && '=' !in "body"
    ensures "subject" != "body"
  {}

  lemma GreetingLines()
    ensures "Hello,\n\nI would like to book a website for " == "Hello," + "\n" + "" + "\n" + "I would like to book a website for "
  {}

  lemma CategoryLineEnd()
    ensures " category.\n\n" == " category." + "\n" + "" + "\n"
  {}

  lemma ClosingLines()
    ensures "Please contact me to proceed with the booking.\n\n" == "Please contact me to proceed with the booking." + "\n" + "" + "\n"
    ensures "Details:\n" == "Details:" + "\n" && "\n\n" == "\n" + "" + "\n"
  {}

  lemma HeadShape(category: string)
    ensures "Hello,\n\nI would like to book a website for " + category + " category.\n\n"
      == "Hello," + "\n" + "" + "\n" + ("I would like to book a website for " + category + " category.") + "\n" + "" + "\n"
  {
    GreetingLines();
    CategoryLineEnd();
  }

  lemma MiddleShape(x: string, y: string, name: string, email: string, phone: string)
    requires x == y
    ensures x + "Details:\n" + "Name: " + name + "\n" + "Email: " + email + "\n" + "Phone: " + phone + "\n"
      == y + "Details:" + "\n" + ("Name: " + name) + "\n" + ("Email: " + email) + "\n" + ("Phone: " + phone) + "\n"
  {
    ClosingLines();
  }

  lemma TailShape(x: string, y: string, category: string)
    requires x == y
    ensures x + "Category: " + category + "\n\n" + "Please contact me to proceed with the booking.\n\n" + "Thank you!"
      == y + ("Category: " + category) + "\n" + "" + "\n" + "Please contact me to proceed with the booking." + "\n" + "" + "\n" + "Thank you!"
  {
    ClosingLines();
  }

  lemma ShortLinesHaveNoNewline()
    ensures '\n' !in "Hello," && '\n' !in "Details:" && '\n' !in "Thank you!" && '\n' !in " category."
    ensures '\n' !in "Name: " && '\n' !in "Email: " && '\n' !in "Phone: " && '\n' !in "Category: "
  {}

  lemma GreetingHasNoNewline()
    ensures '\n' !in "I would like to book a website for "
  {}

  lemma ClosingPieces()
    ensures "Please contact me to proceed with the booking." == "Please contact me " + "to proceed " + "with the booking."
  {}

  lemma ClosingPiecesHaveNoNewline()
    ensures '\n' !in "Please contact me " && '\n' !in "to proceed " && '\n' !in "with the booking."
  {}

  lemma ClosingHasNoNewline()
    ensures '\n' !in "Please contact me to proceed with the booking."
  {
    ClosingPieces();
    ClosingPiecesHaveNoNewline();
  }

  lemma TemplateLinesHaveNoNewline()
    ensures '\n' !in "Hello," && '\n' !in "Details:" && '\n' !in "Thank you!"
    ensures '\n' !in "I would like to book a website for " && '\n' !in " category."
    ensures '\n' !in "Name: " && '\n' !in "Email: " && '\n' !in "Phone: " && '\n' !in "Category: "
    ensures '\n' !in "Please contact me to proceed with the booking."
  {
    ShortLinesHaveNoNewline();
    GreetingHasNoNewline();
    ClosingHasNoNewline();
  }

  // What the handlers promise.

  /** Cut at its newlines, the text of a booking request is the greeting, the
      `Name:`, `Email:`, `Phone:` and `Category:` lines in that order, and the
      closing, provided no value holds a newline of its own. */
  lemma BookingBodyLines(name: string, email: string, phone: string, category: string)
    requires '\n' !in name && '\n' !in email && '\n' !in phone && '\n' !in category
    ensures Split(BookingBody(name, email, phone, category), '\n') == BookingLines(name, email, phone, category)
  {
    var l3 := "I would like to book a website for " + category + " category.";
    var l6, l7, l8, l9 := "Name: " + name, "Email: " + email, "Phone: " + phone, "Category: " + category;
    var head := "Hello,\n\nI would like to book a website for " + category + " category.\n\n";
    var head' := "Hello," + "\n" + "" + "\n" + l3 + "\n" + "" + "\n";
    HeadShape(category);
    var middle := head + "Details:\n" + "Name: " + name + "\n" + "Email: " + email + "\n" + "Phone: " + phone + "\n";
    var middle' := head' + "Details:" + "\n" + l6 + "\n" + l7 + "\n" + l8 + "\n";
    MiddleShape(head, head', name, email, phone);
    TailShape(middle, middle', category);
    TemplateLinesHaveNoNewline();
    assert BookingBody(name, email, phone, category) ==
      "Hello," + "\n" + "" + "\n" + l3 + "\n" + "" + "\n" + "Details:" + "\n" + l6 + "\n" + l7 + "\n" + l8 + "\n" + l9
      + "\n" + "" + "\n" + "Please contact me to proceed with the booking." + "\n" + "" + "\n" + "Thank you!";
    SplitThirteen("Hello,", "", l3, "", "Details:", l6, l7, l8, l9, "", "Please contact me to proceed with the booking.", "", "Thank you!");
  }

  /** A booking link is the booking address with the two fields `subject` and
      `body`, in that order; it holds exactly one `&`, and each field decodes
      to the text written into it. */
  lemma BookingLinkReadsBack(subject: string, body: string)
    ensures var url := BookingLink(subject, body);
      && url == Build(BookingAddress, [Field("subject", Encode(subject)), Field("body", Encode(body))])
      && Target(url) == BookingAddress
      && Param(url, "subject") == Some(subject)
      && Param(url, "body") == Some(body)
      && multiset(url)['&'] == 1
  {
    AddressHasNoDelimiters();
    FieldLiterals();
    BuildTwo(BookingAddress, "subject", Encode(subject), "body", Encode(body));
    TwoFieldUrlReadsBack(BookingAddress, "subject", subject, "body", body);
    TwoFieldUrlAmpersand(BookingAddress, "subject", subject, "body", body);
  }

  /** The link a booking sends reads back as the subject and body the submit
      handler wrote from the form. */
  lemma BookingMailtoReadsBack(name: string, email: string, phone: string, category: string)
    ensures var url := BookingMailto(name, email, phone, category);
      && Target(url) == BookingAddress
      && Param(url, "subject") == Some(BookingSubject(category))
      && Param(url, "body") == Some(BookingBody(name, email, phone, category))
  {
    BookingLinkReadsBack(BookingSubject(category), BookingBody(name, email, phone, category));
  }

  /** Submitting raises the alert exactly when the name, the email or the phone
      is blank, and then changes nothing. */
  lemma SubmitRefusesBlankFields(s: State)
    ensures Submitted(s).1.Alert? <==> Blank(s.form.name) || Blank(s.form.email) || Blank(s.form.phone)
    ensures Submitted(s).1.Alert? ==> Submitted(s) == (s, Alert(RequiredFieldsAlert))
  {
    TrimEmptyIff(s.form.name);
    TrimEmptyIff(s.form.email);
    TrimEmptyIff(s.form.phone);
  }

  /** Otherwise `window.location.href` is set to the booking link built from the trimmed name,
      email and phone and the untrimmed category (which reads back as the
      subject and body the handler wrote, by `BookingMailtoReadsBack`), one close
      timer is armed, and nothing else changes. */
  lemma SubmitSendsBooking(s: State)
    requires !Blank(s.form.name) && !Blank(s.form.email) && !Blank(s.form.phone)
    ensures var url := BookingMailto(Trim(s.form.name), Trim(s.form.email), Trim(s.form.phone), s.form.category);
      Submitted(s) == (LinkFollowed(s, url), Navigated(url))
  {
    TrimEmptyIff(s.form.name);
    TrimEmptyIff(s.form.email);
    TrimEmptyIff(s.form.phone);
  }

  /** The body an accepted booking hands to the mail client, decoded and cut at
      its newlines: the template's lines around the trimmed name, email and
      phone and the category, in that order (when no field holds a newline). */
  lemma SubmittedBodyLines(s: State)
    requires !Blank(s.form.name) && !Blank(s.form.email) && !Blank(s.form.phone)
    requires '\n' !in s.form.name && '\n' !in s.form.email && '\n' !in s.form.phone && '\n' !in s.form.category
    ensures Submitted(s).1.Navigated?
    ensures var body := Param(Submitted(s).1.url, "body");
      && body.Some?
      && Split(body.value, '\n') == BookingLines(Trim(s.form.name), Trim(s.form.email), Trim(s.form.phone), s.form.category)
  {
    var name, email, phone := Trim(s.form.name), Trim(s.form.email), Trim(s.form.phone);
    SubmitSendsBooking(s);
    TrimKeepsCharacters(s.form.name, '\n');
    TrimKeepsCharacters(s.form.email, '\n');
    TrimKeepsCharacters(s.form.phone, '\n');
    BookingMailtoReadsBack(name, email, phone, s.form.category);
    BookingBodyLines(name, email, phone, s.form.category);
  }

  /** When the close timer of an accepted submission fires, the modal is closed
      and the form cleared, the booking link is still the last assigned URL, and the count
      of armed timers is back where it was. */
  lemma SubmitThenTimer(s: State)
    requires !Blank(s.form.name) && !Blank(s.form.email) && !Blank(s.form.phone)
    ensures var after, outcome := Submitted(s).0, Submitted(s).1;
      && outcome.Navigated? && after.pendingCloses > 0
      && after.modalActive == s.modalActive && after.scrollLocked == s.scrollLocked && after.form == s.form
      && TimerFired(after) == Closed(s).(location := outcome.url)
  {
    SubmitSendsBooking(s);
  }

  /** A whole booking on a fresh page: the visitor clicks the button of a card
      whose category is `category`, types a name, an email and a phone, and
      submits; `window.location.href` is set to the booking link for exactly those
      values, and once the timer fires the page is back to its initial state
      apart from that last assigned URL. */
  lemma BookingFromFreshPage(pageUrl: string, menuHidden: bool, category: string, name: string, email: string, phone: string)
    requires category != [] && Trimmed(name) && Trimmed(email) && Trimmed(phone)
    ensures var shown := CardClicked(Initial(pageUrl, menuHidden), CardButton, Some(category));
      var filled := Typed(Typed(Typed(shown, UserName, name), UserEmail, email), UserPhone, phone);
      var after, outcome := Submitted(filled).0, Submitted(filled).1;
      var url := BookingMailto(name, email, phone, category);
      && shown.modalActive && shown.scrollLocked
      && outcome == Navigated(url)
      && after.modalActive && after.pendingCloses == 1
      && TimerFired(after) == Initial(url, menuHidden)
  {
    var filled := State(true, true, Form(name, email, phone, category), menuHidden, pageUrl, 0);
    assert Typed(Typed(Typed(CardClicked(Initial(pageUrl, menuHidden), CardButton, Some(category)), UserName, name), UserEmail, email), UserPhone, phone) == filled;
    TrimKeepsTrimmed(name);
    TrimKeepsTrimmed(email);
    TrimKeepsTrimmed(phone);
    assert Submitted(filled) == (LinkFollowed(filled, BookingMailto(name, email, phone, category)), Navigated(BookingMailto(name, email, phone, category)));
  }

  /** Escape while the modal is shown, a click on the backdrop and the close
      button all close the modal the same way, and closing twice is closing
      once. */
  lemma CloseRoutesAgree(s: State)
    requires s.modalActive
    ensures KeyPressed(s, "Escape") == Closed(s)
    ensures ModalClicked(s, Backdrop) == Closed(s)
    ensures Closed(Closed(s)) == Closed(s)
    ensures !Closed(s).modalActive && !Closed(s).scrollLocked && Closed(s).form == EmptyForm
  {}

  /** Events the handlers ignore leave the page as it was: another key, Escape
      while the modal is hidden, a click inside the modal's content, and a click
      on a card away from its button or on a card without a category. */
  lemma IgnoredEvents(s: State, key: string, dataCategory: Option<string>)
    ensures key != "Escape" || !s.modalActive ==> KeyPressed(s, key) == s
    ensures ModalClicked(s, Content) == s
    ensures CardClicked(s, CardElsewhere, dataCategory) == s
    ensures dataCategory.None? || dataCategory.value == [] ==> CardClicked(s, CardButton, dataCategory) == s
  {}

  /** The menu button toggles the menu, so two clicks cancel out; a menu link
      always leaves the menu hidden. */
  lemma MenuHandlers(s: State)
    ensures MenuToggled(s).menuHidden == !s.menuHidden
    ensures MenuToggled(MenuToggled(s)) == s
    ensures MenuLinkClicked(s).menuHidden
    ensures MenuLinkClicked(MenuLinkClicked(s)) == MenuLinkClicked(s)
  {}

  /** The page's elements, updated in place by its event handlers. */
  class BookingPage {
    var modalActive: bool
    var scrollLocked: bool
    var name: string
    var email: string
    var phone: string
    var category: string
    var menuHidden: bool
    var location: string
    var pendingCloses: nat

    function Snapshot(): State
      reads this
    {
      State(modalActive, scrollLocked, Form(name, email, phone, category), menuHidden, location, pendingCloses)
    }

    constructor (pageUrl: string, menuStartsHidden: bool)
      ensures Snapshot() == Initial(pageUrl, menuStartsHidden)
    {
      modalActive, scrollLocked := false, false;
      name, email, phone, category := "", "", "", "";
      menuHidden := menuStartsHidden;
      location := pageUrl;
      pendingCloses := 0;
    }

    method OpenBookingModal(c: string)
      modifies this
      ensures Snapshot() == Opened(old(Snapshot()), c)
    {
      category := c;
      modalActive := true;
      scrollLocked := true;
    }

    method CloseBookingModal()
      modifies this
      ensures Snapshot() == Closed(old(Snapshot()))
    {
      modalActive := false;
      scrollLocked := false;
      name, email, phone, category := "", "", "", "";
    }

    method Type(input: Input, value: string)
      modifies this
      ensures Snapshot() == Typed(old(Snapshot()), input, value)
    {
      match input
      case UserName => name := value;
      case UserEmail => email := value;
      case UserPhone => phone := value;
    }

    method IndustryCardClick(target: CardTarget, dataCategory: Option<string>)
      modifies this
      ensures Snapshot() == CardClicked(old(Snapshot()), target, dataCategory)
    {
      if target == CardButton {
        if dataCategory.Some? && dataCategory.value != [] {
          OpenBookingModal(dataCategory.value);
        }
      }
    }

    method CloseButtonClick()
      modifies this
      ensures Snapshot() == Closed(old(Snapshot()))
    {
      CloseBookingModal();
    }

    method ModalClick(target: ModalTarget)
      modifies this
      ensures Snapshot() == ModalClicked(old(Snapshot()), target)
    {
      if target == Backdrop {
        CloseBookingModal();
      }
    }

    method KeyDown(key: string)
      modifies this
      ensures Snapshot() == KeyPressed(old(Snapshot()), key)
    {
      if key == "Escape" && modalActive {
        CloseBookingModal();
      }
    }

    method SubmitBooking() returns (outcome: Outcome)
      modifies this
      ensures (Snapshot(), outcome) == Submitted(old(Snapshot()))
    {
      var n := Trim(name);
      var e := Trim(email);
      var p := Trim(phone);
      var c := category;
      if n == [] || e == [] || p == [] {
        outcome := Alert(RequiredFieldsAlert);
        return;
      }
      var link := BookingMailto(n, e, p, c);
      FollowLink(link);
      outcome := Navigated(link);
    }

    /** `window.location.href = url`, then a close of the modal scheduled for
        500 ms later. */
    method FollowLink(url: string)
      modifies this
      ensures Snapshot() == LinkFollowed(old(Snapshot()), url)
    {
      location := url;
      pendingCloses := pendingCloses + 1;
    }

    method CloseTimerFires()
      requires pendingCloses > 0
      modifies this
      ensures Snapshot() == TimerFired(old(Snapshot()))
    {
      pendingCloses := pendingCloses - 1;
      CloseBookingModal();
    }

    method MenuButtonClick()
      modifies this
      ensures Snapshot() == MenuToggled(old(Snapshot()))
    {
      menuHidden := !menuHidden;
    }

    method MenuLinkClick()
      modifies this
      ensures Snapshot() == MenuLinkClicked(old(Snapshot()))
    {
      menuHidden := true;
    }
  }
}
