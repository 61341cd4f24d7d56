/** The site's contact constants and the three links built from them
    (`src/constants/contact.ts`): a WhatsApp chat link, a `mailto` link
    (RFC 6068) and a `tel` link (RFC 3966). */
module Contact {
  import opened Wrappers
  import opened Text
  import opened Uri
  import opened Url

  const PhoneNumber: string := "+91 98765 43210"
  const WhatsAppNumber: string := "+91 98765 43210"
  const EmailAddress: string := "hello@quicklaunch.com"
  const CompanyName: string := "Quick Launch"
  const CompanyTagline: string := "Empowering brands through creative solutions. From web development to branding, we deliver innovative strategies that elevate your brand."
  const DefaultMessage: string := "Hello " + CompanyName + "! I'm interested in your services. Please get back to me."
  const DefaultSubject: string := "Inquiry from " + CompanyName + " Website"

  /** `value || fallback` for an optional string argument: both `undefined` and
      the empty string are falsy, any other string is kept. */
  function OrDefault(value: Option<string>, fallback: string): (r: string)
    ensures value.Some? && value.value != [] ==> r == value.value
    ensures value.None? || value.value == [] ==> r == fallback
  {
    match value
    case Some(v) => if v != [] then v else fallback
    case None => fallback
  }

  /** `getWhatsAppUrl(message)`: the chat link for the number without its
      spaces, whose one query field `text` decodes to the message, or to the
      default message when none or an empty one is given. */
  function GetWhatsAppUrl(message: Option<string>): (r: string)
    ensures var m := OrDefault(message, DefaultMessage);
      && r == "https://wa.me/+919876543210?text=" + Encode(m)
      && Target(r) == "https://wa.me/+919876543210"
      && Query(r) == [Field("text", Encode(m))]
      && Param(r, "text") == Some(m)
  {
    var m := OrDefault(message, DefaultMessage);
    WhatsAppLinkShape(m);
    WhatsAppSeparators();
    OneFieldUrlReadsBack("https://wa.me/+919876543210", "text", m);
    "https://wa.me/" + RemoveWhitespace(WhatsAppNumber) + "?text=" + Encode(m)
  }

  /** `getEmailUrl(subject, body)`: a `mailto` link to the site's address with
      exactly one `&` and the two query fields `subject` and `body`, in that
      order, each decoding to its argument or, when that is missing or empty,
      to its own default. */
  function GetEmailUrl(subject: Option<string>, body: Option<string>): (r: string)
    ensures var s, b := OrDefault(subject, DefaultSubject), OrDefault(body, DefaultMessage);
      && r == "mailto:hello@quicklaunch.com?subject=" + Encode(s) + "&body=" + Encode(b)
      && Target(r) == "mailto:hello@quicklaunch.com"
      && Query(r) == [Field("subject", Encode(s)), Field("body", Encode(b))]
      && Param(r, "subject") == Some(s)
      && Param(r, "body") == Some(b)
      && multiset(r)['&'] == 1
  {
    var s, b := OrDefault(subject, DefaultSubject), OrDefault(body, DefaultMessage);
    EmailLinkShape(s, b);
    EmailSeparators();
    FieldNames();
    TwoFieldUrlReadsBack("mailto:hello@quicklaunch.com", "subject", s, "body", b);
    TwoFieldUrlAmpersand("mailto:hello@quicklaunch.com", "subject", s, "body", b);
    "mailto:" + EmailAddress + "?subject=" + Encode(s) + "&body=" + Encode(b)
  }

  /** `getPhoneUrl()`: the number without its spaces, `+` kept, and no
      whitespace anywhere in the link. */
  function GetPhoneUrl(): (r: string)
    ensures r == "tel:+919876543210"
    ensures NoWhitespace(r)
  {
    NumbersWithoutSpaces();
    PhoneUrlSpelled();
    TelUrlHasNoWhitespace(PhoneNumber);
    "tel:" + RemoveWhitespace(PhoneNumber)
  }

  /** The two template constants spelled out. */
  lemma TemplateTexts()
    ensures DefaultMessage == "Hello Quick Launch! I'm interested in your services. Please get back to me."
    ensures DefaultSubject == "Inquiry from Quick Launch Website"
  {
    Spelled1(); Spelled2(); Spelled3(); Spelled4(); Spelled5(); Spelled6(); Spelled7();
    Glue("Hello Quick Launch", "! I'm interested in your services. Please get back to me.",
      "! I'm interested", " in your services.", " Please get back to me.",
      "Hello Quick Launch! I'm interested in your services. Please get back to me.");
  }

  /** Stripping the spaces from both numbers leaves the E.164 form, `+` kept. */
  lemma NumbersWithoutSpaces()
    ensures RemoveWhitespace(WhatsAppNumber) == "+919876543210"
    ensures RemoveWhitespace(PhoneNumber) == "+919876543210"
  {
    NumberPieces();
    RemoveWhitespaceKeeps("43210");
    RemoveWhitespaceSkip("98765", ' ', "43210");
    RemoveWhitespaceSkip("+91", ' ', "98765" + [' '] + "43210");
  }

  /** A missing or empty message gives the very link the default message gives. */
  lemma WhatsAppMessageDefaults(message: Option<string>)
    requires message.None? || message == Some([])
    ensures GetWhatsAppUrl(message) == GetWhatsAppUrl(Some(DefaultMessage))
  {
  }

  /** The fields of the mail link default independently: the decoded subject
      depends on the first argument alone, the decoded body on the second alone. */
  lemma EmailFieldsIndependent(x: Option<string>, y1: Option<string>, y2: Option<string>)
    ensures Param(GetEmailUrl(x, y1), "subject") == Param(GetEmailUrl(x, y2), "subject")
    ensures Param(GetEmailUrl(y1, x), "body") == Param(GetEmailUrl(y2, x), "body")
  {
  }

  /** `tel:` followed by any number stripped of its whitespace holds no
      whitespace, whatever the number constant holds. */
  lemma TelUrlHasNoWhitespace(number: string)
    ensures NoWhitespace("tel:" + RemoveWhitespace(number))
  {
    assert NoWhitespace("tel:");
    NoWhitespaceAppend("tel:", RemoveWhitespace(number));
  }

  // Solver helpers: facts about the literals, each kept to a small proof of its
  // own so that the members above only chain equalities. They state nothing
  // about the site beyond the spelling of its constants.

  lemma Glue(h: string, l: string, a: string, b: string, c: string, full: string)
    requires l == a + b + c && h + a + b + c == full
    ensures h + l == full
  {
  }

  lemma Spelled1() ensures "Hello " + "Quick Launch" == "Hello Quick Launch" {}
  lemma Spelled2() ensures "! I'm interested" + " in your services." == "! I'm interested in your services." {}
  lemma Spelled3()
    ensures "! I'm interested in your services." + " Please get back to me."
      == "! I'm interested in your services. Please get back to me."
  {}
  lemma Spelled4() ensures "Hello Quick Launch" + "! I'm interested" == "Hello Quick Launch! I'm interested" {}
  lemma Spelled5()
    ensures "Hello Quick Launch! I'm interested" + " in your services."
      == "Hello Quick Launch! I'm interested in your services."
  {}
  lemma Spelled6()
    ensures "Hello Quick Launch! I'm interested in your services." + " Please get back to me."
      == "Hello Quick Launch! I'm interested in your services. Please get back to me."
  {}
  lemma Spelled7() ensures "Inquiry from " + "Quick Launch" + " Website" == "Inquiry from Quick Launch Website" {}

  lemma NumberPieces()
    ensures PhoneNumber == "+91" + [' '] + ("98765" + [' '] + "43210")
    ensures NoWhitespace("+91") && NoWhitespace("98765") && NoWhitespace("43210")
    ensures "+91" + ("98765" + "43210") == "+919876543210"
  {
  }

  lemma WhatsAppLiterals()
    ensures "https://wa.me/" + "+919876543210" == "https://wa.me/+919876543210"
    ensures "https://wa.me/+919876543210" + "?text=" == "https://wa.me/+919876543210?text="
    ensures "?" + "text" + "=" == "?text="
  {}

  lemma WhatsAppSeparators()
    ensures '?' !in "https://wa.me/+919876543210"
    ensures '&' !in "text" && '=' !in "text"
  {}

  /** The WhatsApp link's text spelled out, and as a one-field link. */
  lemma WhatsAppLinkShape(m: string)
    ensures var r := "https://wa.me/" + RemoveWhitespace(WhatsAppNumber) + "?text=" + Encode(m);
      && r == "https://wa.me/+919876543210?text=" + Encode(m)
      && r == Build("https://wa.me/+919876543210", [Field("text", Encode(m))])
  {
    NumbersWithoutSpaces();
    WhatsAppLiterals();
    BuildOne("https://wa.me/+919876543210", "text", Encode(m));
  }

  lemma EmailLiterals()
    ensures "mailto:" + EmailAddress == "mailto:hello@quicklaunch.com"
    ensures "mailto:hello@quicklaunch.com" + "?subject=" == "mailto:hello@quicklaunch.com?subject="
    ensures "?" + "subject" + "=" == "?subject="
    ensures "&" + "body" + "=" == "&body="
  {}

  lemma EmailSeparators()
    ensures '?' !in "mailto:hello@quicklaunch.com" && '&' !in "mailto:hello@quicklaunch.com"
  {}

  lemma FieldNames()
    ensures '&' !in "subject" && '=' !in "subject" && '&' !in "body" && '=' !in "body"
    ensures "subject" != "body"
  {}

  /** The mail link's text spelled out, and as a two-field link. */
  lemma EmailLinkShape(s: string, b: string)
    ensures var r := "mailto:" + EmailAddress + "?subject=" + Encode(s) + "&body=" + Encode(b);
      && r == "mailto:hello@quicklaunch.com?subject=" + Encode(s) + "&body=" + Encode(b)
      && r == Build("mailto:hello@quicklaunch.com", [Field("subject", Encode(s)), Field("body", Encode(b))])
  {
    EmailLiterals();
    BuildTwo("mailto:hello@quicklaunch.com", "subject", Encode(s), "body", Encode(b));
  }

  lemma PhoneUrlSpelled()
    ensures "tel:" + "+919876543210" == "tel:+919876543210"
  {
  }
}
