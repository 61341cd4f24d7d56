# Quick Launch site: contact links and booking modal

This project models the two pieces of the Quick Launch agency website that do
more than move pixels:

- **The contact links** (`src/constants/contact.ts`). The site keeps its phone
  number, WhatsApp number, e-mail address, company name and default message as
  constants. From them it builds three links:
  - a WhatsApp chat link `https://wa.me/<number>?text=<message>`;
  - a `mailto` link with a `subject` and a `body` field (RFC 6068);
  - a `tel` link (RFC 3966).

  Missing or empty arguments fall back to defaults. The numbers lose their
  spaces, and every text is passed through `encodeURIComponent` (ECMA-262,
  section 19.2.6).
- **The page script** (`src/scripts/main.ts`). It covers:
  - the mobile menu's toggle and link handlers;
  - the booking modal, which industry-card buttons open and which the close
    button, a click on the backdrop or Escape close;
  - the booking form's submit handler. It validates the trimmed name, e-mail
    and phone, sends the visitor to a `mailto` link carrying a booking request,
    and closes the modal 500 ms later.

Modules, one file each:

- `Wrappers` (`wrappers.dfy`): `Option`.
- `Text` (`text.dfy`): the ECMAScript whitespace class, `String.prototype.trim`
  and `replace(/\s/g, "")`.
- `Uri` (`uri.dfy`): `encodeURIComponent` and `decodeURIComponent` over Unicode
  scalar values, by way of UTF-8 (RFC 3629).
- `Url` (`url.dfy`): reading a link back. This is the part before `?` and the
  `name=value` fields joined by `&`, the shape of section 2 of RFC 6068 and
  section 3.4 of RFC 3986. It is the reader used to state what the built links
  say.
- `Contact` (`contact.dfy`): the constants and the three link builders, as pure
  functions.
- `Page` (`page.dfy`): the page state.
  - A `State` value and one function per handler specify it.
  - A class `BookingPage` whose fields are the page's mutable facts implements
    it. Each of its methods is proved to move the snapshot of its fields exactly
    as the matching function does.
  - Lemmas state what the handlers promise.

## Model

| member | source | states |
|---|---|---|
| Text.Trim | src/scripts/main.ts:128-130 | `trim()` leaves a string that is empty or starts and ends with a non-whitespace character |
| Text.TrimIsSlice | src/scripts/main.ts:128-130 | what `trim()` keeps is one contiguous slice of the input, and everything cut off on either side is whitespace |
| Text.TrimEmptyIff | src/scripts/main.ts:128-133 | a value trims to the empty string exactly when it is all whitespace, so a whitespace-only field counts as empty |
| Text.TrimKeepsCharacters | src/scripts/main.ts:128-130 | trimming adds no character that was not in the value |
| Text.TrimKeepsTrimmed | src/scripts/main.ts:128-130 | a value with no whitespace at either end is its own trim |
| Text.TrimIdempotent | src/scripts/main.ts:128-130 | trimming twice is trimming once |
| Text.RemoveWhitespace | src/constants/contact.ts:15 | `replace(/\s/g, "")` leaves no whitespace and never lengthens the string |
| Text.RemoveWhitespaceAppend | src/constants/contact.ts:15 | removing whitespace from a concatenation removes it from each part |
| Text.RemoveWhitespaceKeeps | src/constants/contact.ts:15 | a string without whitespace is unchanged |
| Text.RemoveWhitespaceSkip | src/constants/contact.ts:15 | a whitespace character after a visible prefix is dropped and the rest is processed |
| Text.RemoveWhitespaceCounts | src/constants/contact.ts:15-27 | every visible character survives as many times as it occurred |
| Uri.HexDigit | src/constants/contact.ts:14 | escapes use upper-case hexadecimal digits |
| Uri.HexRoundTrip | src/constants/contact.ts:14 | reading back either hex digit of a byte gives the nibble it was written for |
| Uri.Utf8 | src/constants/contact.ts:14 | a code point is written as one to four UTF-8 bytes |
| Uri.Utf8RoundTrip | src/constants/contact.ts:14 | decoding the UTF-8 bytes of a code point gives it back, and its first byte announces the sequence's length |
| Uri.PercentEncode | src/constants/contact.ts:14 | every byte becomes one three-character `%XX` escape |
| Uri.EncodeChar | src/constants/contact.ts:14 | a character is copied exactly when it is unescaped, and is otherwise written as one to four `%XX` triples |
| Uri.Encode | src/constants/contact.ts:14-21 | `encodeURIComponent` gives a string of the encoded shape (unescaped characters and `%XX` escapes with upper-case digits) from which `decodeURIComponent` recovers the input exactly and without error |
| Uri.Decode | src/constants/contact.ts:14-21 | `decodeURIComponent` copies a text without `%` unchanged and never lengthens its input |
| Uri.ReadEscapesRoundTrip | src/constants/contact.ts:14 | reading back the escapes of a byte sequence gives those bytes, whatever follows |
| Uri.DecodeEncodeChar | src/constants/contact.ts:14 | decoding one encoded character followed by any text gives that character and then the text's decoding |
| Uri.EncodeInjective | src/constants/contact.ts:14-21 | different texts never encode to the same component |
| Uri.EncodeLineBreakAndSpace | src/constants/contact.ts:14 | a line break is written `%0A` and a space `%20` |
| Uri.EncodedCharacters | src/constants/contact.ts:14-21 | every character of an encoded text is a letter, a digit, one of `-_.!~*'()`, `%` or an upper-case hex digit |
| Uri.EncodeHasNoDelimiters | src/constants/contact.ts:14-22 | an encoded text never holds a raw `&`, `=`, `?`, `#`, space or line break |
| Url.SplitOnce | src/constants/contact.ts:22 | cutting at the first delimiter gives a part free of it, and the pieces rebuild the input |
| Url.Split | src/scripts/main.ts:140-149 | cutting at every delimiter gives at least one part and no part holds the delimiter |
| Url.SplitLast | src/scripts/main.ts:140-149 | appending a delimiter and a piece free of it adds exactly that piece as one more part |
| Url.SplitJoin | src/constants/contact.ts:22 | splitting undoes joining parts that do not hold the delimiter |
| Url.JoinSplit | src/constants/contact.ts:22 | joining undoes splitting |
| Url.QueryOfBuild | src/constants/contact.ts:15-22 | a link built from a `?`-free target and separable fields reads back as that target and those fields, in order |
| Url.BuildOne | src/constants/contact.ts:15 | a one-field link is `target?name=value` |
| Url.BuildTwo | src/constants/contact.ts:22 | a two-field link is `target?n1=v1&n2=v2` |
| Url.BuildTwoAmpersand | src/constants/contact.ts:22 | a two-field link whose parts hold no `&` holds exactly one `&` |
| Url.TwoFieldUrlReadsBack | src/constants/contact.ts:20-22 | a two-field link of encoded texts reads back as its target and its two fields, and each field decodes to its own text |
| Url.TwoFieldUrlAmpersand | src/constants/contact.ts:20-22 | such a link holds exactly one `&` when its target and field names hold none |
| Url.ParamOfBuild | src/constants/contact.ts:15-22 | the decoded value of the first field with a given name is the text that was encoded into it |
| Url.LookupFirst | src/constants/contact.ts:22 | looking a name up finds its first field |
| Url.OneFieldUrlReadsBack | src/constants/contact.ts:13-16 | a one-field link of an encoded text reads back as its target and that field, which decodes to the text |
| Contact.OrDefault | src/constants/contact.ts:14-21 | JavaScript or-defaulting of an optional string: an absent or empty argument is replaced by the fallback, and a non-empty one is kept |
| Contact.TemplateTexts | src/constants/contact.ts:6-20 | the default message is `Hello Quick Launch! I'm interested in your services. Please get back to me.` and the default subject is `Inquiry from Quick Launch Website` |
| Contact.NumbersWithoutSpaces | src/constants/contact.ts:15-27 | both numbers without their whitespace are `+919876543210`, with the `+` kept |
| Contact.GetWhatsAppUrl | src/constants/contact.ts:13-16 | the WhatsApp link is `https://wa.me/+919876543210?text=` plus the encoded message or default; read back, its target is the chat address, its query is the single `text` field, and that field decodes to the message or default exactly |
| Contact.GetEmailUrl | src/constants/contact.ts:19-23 | the mail link is `mailto:hello@quicklaunch.com?subject=<enc>&body=<enc>`; read back, it holds exactly one `&` and the fields `subject` and `body` in that order, each decoding to its argument or, when that is missing or empty, to its own default |
| Contact.GetPhoneUrl | src/constants/contact.ts:26-28 | the phone link is `tel:+919876543210` and holds no whitespace |
| Contact.WhatsAppMessageDefaults | src/constants/contact.ts:14 | an absent or empty message gives exactly the link the default message gives |
| Contact.EmailFieldsIndependent | src/constants/contact.ts:20-21 | the decoded subject depends on the first argument alone, and the decoded body on the second alone |
| Contact.TelUrlHasNoWhitespace | src/constants/contact.ts:27 | `tel:` followed by any number stripped of whitespace holds no whitespace |
| Page.Initial | src/scripts/main.ts:44-49 | the page as loaded has the modal hidden, scrolling free, an empty form and no close timer armed |
| Page.Opened | src/scripts/main.ts:78-86 | `openBookingModal` shows the modal, locks scrolling and records the category, and leaves the typed name, e-mail and phone, the menu, the last assigned URL and the timers as they were |
| Page.Closed | src/scripts/main.ts:88-96 | `closeBookingModal` hides the modal, frees scrolling and resets every input, and leaves the menu, the last assigned URL and the timers as they were |
| Page.Typed | src/scripts/main.ts:124-126 | typing `value` into the name, e-mail or phone input leaves that input holding `value` and the other two inputs, the category, the modal, the scroll lock, the menu, the last assigned URL and the timers as they were |
| Page.CardClicked | src/scripts/main.ts:52-76 | a click on the button of a card with a non-empty category is `openBookingModal` of that category, even when the modal is already shown; after a card click the modal is shown exactly when it was shown before or the click was such a button click; any change is that opening, and the scroll lock stays in step |
| Page.ModalClicked | src/scripts/main.ts:103-110 | a click on the backdrop hides the modal and clears the form, a click on the content changes nothing, and the scroll lock stays in step |
| Page.KeyPressed | src/scripts/main.ts:112-117 | after Escape the modal is hidden; another key, or Escape while it is hidden, changes nothing; the scroll lock stays in step |
| Page.LinkFollowed | src/scripts/main.ts:155-160 | assigning `window.location.href` records the URL and arms one more close timer, and leaves the modal, the form and the menu as they were |
| Page.Submitted | src/scripts/main.ts:119-161 | whatever the outcome, submitting leaves the modal's visibility, the scroll lock and the form as they were (it does not close at once), and keeps the scroll lock in step with the modal |
| Page.TimerFired | src/scripts/main.ts:158-160 | a firing close timer hides the modal, frees scrolling and resets the form, and is used up; the menu and the last assigned URL stay |
| Page.MenuToggled | src/scripts/main.ts:8-10 | the menu button flips the menu's `hidden` class and changes nothing else |
| Page.MenuLinkClicked | src/scripts/main.ts:13-17 | a menu link leaves the menu hidden whatever it was, and changes nothing else |
| Page.BookingBodyLines | src/scripts/main.ts:140-149 | the booking text cut at its line breaks is the greeting, `Details:`, the `Name:`, `Email:`, `Phone:` and `Category:` lines in that order, and the closing, when no value holds a line break |
| Page.BookingLinkReadsBack | src/scripts/main.ts:139-152 | a booking link has the hard-coded booking address as its target and exactly one `&`, and its `subject` and `body` fields decode to the texts written into them |
| Page.BookingMailtoReadsBack | src/scripts/main.ts:139-152 | the link for a booking decodes to subject `Book <category> Website` and to the booking text for the given values |
| Page.SubmitRefusesBlankFields | src/scripts/main.ts:128-136 | submitting alerts `Please fill in all required fields.` exactly when the name, e-mail or phone is empty or whitespace only, and then nothing in the page changes |
| Page.SubmitSendsBooking | src/scripts/main.ts:128-160 | when all three fields have visible text, submitting navigates to the booking link for the trimmed name, e-mail and phone and the untrimmed category, arms one close timer, and changes nothing else |
| Page.SubmittedBodyLines | src/scripts/main.ts:128-152 | the body of an accepted submission, decoded and cut at its line breaks, holds the trimmed values and the category in the template's lines and order |
| Page.SubmitThenTimer | src/scripts/main.ts:155-160 | an accepted submission leaves the modal, scroll lock and form as they were, with a timer armed, and when that timer fires the page is exactly as `closeBookingModal` leaves it, with the booking link still the last URL assigned to `window.location.href` |
| Page.BookingFromFreshPage | src/scripts/main.ts:64-160 | on a fresh page, clicking a card button, typing the three values and submitting navigates to the booking link for those values, and after the timer the page is back in its initial state apart from the last assigned URL, which is the booking link |
| Page.CloseRoutesAgree | src/scripts/main.ts:88-117 | with the modal shown, Escape, a backdrop click and closing all give the same state, which hides the modal, unlocks scrolling and clears the form, and closing twice is closing once |
| Page.IgnoredEvents | src/scripts/main.ts:64-117 | another key, Escape with the modal hidden, a click on the modal's content, and a card click off its button or without a category all change nothing |
| Page.MenuHandlers | src/scripts/main.ts:7-18 | the menu button flips `hidden`, so two clicks cancel out, and a menu link always leaves the menu hidden, idempotently |
| Page.BookingPage.constructor | src/scripts/main.ts:44-49 | a fresh page has the modal hidden, scrolling free, an empty form and no timer armed |
| Page.BookingPage.OpenBookingModal | src/scripts/main.ts:78-86 | `openBookingModal` moves the page as `Opened` does |
| Page.BookingPage.CloseBookingModal | src/scripts/main.ts:88-96 | `closeBookingModal` moves the page as `Closed` does |
| Page.BookingPage.Type | src/scripts/main.ts:124-126 | typing into an input changes that input only |
| Page.BookingPage.IndustryCardClick | src/scripts/main.ts:52-76 | a card click moves the page as `CardClicked` does: only a click on the button of a card with a category opens the modal |
| Page.BookingPage.CloseButtonClick | src/scripts/main.ts:98-101 | the close button closes the modal |
| Page.BookingPage.ModalClick | src/scripts/main.ts:103-110 | a click on the modal closes it only when it lands on the backdrop |
| Page.BookingPage.KeyDown | src/scripts/main.ts:112-117 | Escape closes the modal only while it is shown |
| Page.BookingPage.SubmitBooking | src/scripts/main.ts:119-161 | the submit handler's outcome and new page state are those of `Submitted` |
| Page.BookingPage.FollowLink | src/scripts/main.ts:155-160 | assigning `window.location.href` records the URL and arms one more close timer |
| Page.BookingPage.CloseTimerFires | src/scripts/main.ts:158-160 | a firing timer closes the modal and is used up |
| Page.BookingPage.MenuButtonClick | src/scripts/main.ts:8-10 | the menu button toggles the menu |
| Page.BookingPage.MenuLinkClick | src/scripts/main.ts:13-17 | a menu link hides the menu |

## Left out

- Smooth scrolling of in-page anchors (`src/scripts/main.ts:20-32`). It is DOM animation and changes none of the modelled state.
- The handler on the page's first `form` (`src/scripts/main.ts:34-42`). It only shows a thank-you alert and resets that form, and which form it finds depends on the page markup, which is not part of this model.
- Listener registration, event bubbling and `stopPropagation`. Only the outcome of the card handlers is modelled. The button's listener stops propagation, so the card's own listener never sees a button click and opens nothing. Its condition at `src/scripts/main.ts:55` opens only for clicks on a button, even though its comment says the opposite.
- Real time, `alert` and `window.location`. The alert is an `Alert` outcome and navigation is the `location` field: the URL last assigned to `window.location.href`. A browser hands a `mailto` URL to the mail client and the page stays loaded, so `location` is not a claim that the page was left. Each successful submit arms its own 500 ms timer, so pending closes are counted (`pendingCloses`) rather than flagged. Which timer fires when is left to the caller of `CloseTimerFires`.
- The null checks on missing page elements (`if (bookingModal)`, `?.value || ''`). The model assumes every element exists, as the page markup provides.
- `form.reset()` is modelled as clearing every input of the booking form, the hidden category input included. The markup is not part of this model, and the browser may differ here. If `#selectedCategory` is an `<input type="hidden">`, then `selectedCategoryInput.value = category` (`src/scripts/main.ts:80`) sets its default value. `bookingForm.reset()` (`src/scripts/main.ts:94`) would then bring back the last category instead of clearing it. Page.Closed, Page.TimerFired and Page.BookingFromFreshPage state the cleared category. Under that markup, the category after a close would instead be the last one opened.
- The `URIError` that `encodeURIComponent` raises on lone UTF-16 surrogates. Dafny strings hold Unicode scalar values, so that input cannot be written. `Uri.Decode` returns `None` where `decodeURIComponent` would throw.
- `COMPANY_TAGLINE` is declared as a constant but takes part in no link.
- The Tailwind configuration (`tailwind.config.mjs`). It is styling data with no behaviour.
- Page.SubmittedBodyLines: stated only for values without line breaks of their own. A line break typed into a field would add lines to the body.
- Where the documented behaviour of the site and the code differ, the model follows the code:
  - only the booking modal exists, with no hire modal, WhatsApp confirmation view or step indicator;
  - opening the modal does not reset the form;
  - the booking request goes only by `mailto`, to the address hard-coded at `src/scripts/main.ts:152` rather than to `EMAIL_ADDRESS`.
