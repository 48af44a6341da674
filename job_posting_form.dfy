/** The customer's job-posting form: its ordered validation, the payload it
    builds from the fields, and what its submit handler does with a stored
    token and the server's answer. */
module JobPostingForm {
  import opened Js
  import opened Text

  /** The six inputs of the form, and the six properties of the payload. */
  datatype Fields = Fields(
    pickup: string,
    delivery: string,
    packageDetails: string,
    customerName: string,
    phone: string,
    email: string)

  const EmptyFields: Fields := Fields("", "", "", "", "", "")

  const PickupTooShort: string := "Pickup location is too short."
  const DeliveryTooShort: string := "Delivery location is too short."
  const DetailsTooShort: string := "Package details are too short."
  const NameTooShort: string := "Customer name is too short."
  const InvalidPhone: string := "Invalid phone number."
  const InvalidEmail: string := "Invalid email address."

  const NotLoggedIn: string := "You must be logged in to post a job."
  const PostedDefault: string := "Job posted successfully!"
  const NotAuthorized: string := "Unauthorized. Please log in again."
  const PostFallback: string := "Failed to post job."

  /** The class `[0-9+\-() ]`. */
  predicate IsPhoneChar(c: char) {
    ('0' <= c <= '9') || c == '+' || c == '-' || c == '(' || c == ')' || c == ' '
  }

  /** `/^[0-9+\-() ]{7,15}$/`: seven to fifteen characters of the class. */
  predicate IsPhone(s: string) {
    7 <= |s| <= 15 && forall i :: 0 <= i < |s| ==> IsPhoneChar(s[i])
  }

  /** A formatted number passes; a number with dots, or one too short,
      does not. */
  lemma PhoneExamples()
    ensures IsPhone("(555) 123-4567") && IsPhone("+1 555 0100")
    ensures !IsPhone("555.123.4567") && !IsPhone("555-12")
  {
    assert !IsPhoneChar("555.123.4567"[3]);
  }

  /** Trimming a valid phone number only removes spaces at its ends: what
      is left is still of the class and no longer, so it fails the pattern
      only by falling under seven characters. */
  lemma TrimmedPhoneKeepsClass(s: string)
    requires IsPhone(s)
    ensures |Trim(s)| <= 15
    ensures forall i :: 0 <= i < |Trim(s)| ==> IsPhoneChar(Trim(s)[i])
    ensures IsPhone(Trim(s)) <==> |Trim(s)| >= 7
  {
    TrimIsSlice(s);
    var t := Trim(s);
    var k :| 0 <= k <= |s| - |t| && t == s[k..k + |t|]
             && AllWhitespace(s[..k]) && AllWhitespace(s[k + |t|..]);
    forall i | 0 <= i < |t| ensures IsPhoneChar(t[i]) {
      assert t[i] == s[k + i];
    }
  }

  /** The class `[^\s@]`. */
  predicate IsEmailChar(c: char) {
    !IsWhitespace(c) && c != '@'
  }

  predicate EmailChars(s: string) {
    forall i :: 0 <= i < |s| ==> IsEmailChar(s[i])
  }

  /** `s` matches the email pattern with its '@' at `at` and the '.' that
      ends the host part at `dot`: every other character is of the class,
      and the local part, the host and the final part are not empty. */
  predicate EmailShape(s: string, at: int, dot: int) {
    && 0 < at && at + 1 < dot && dot + 1 < |s|
    && s[at] == '@' && s[dot] == '.'
    && forall i :: 0 <= i < |s| && i != at ==> IsEmailChar(s[i])
  }

  /** `/^[^\s@]+@[^\s@]+\.[^\s@]+$/`, read by positions. */
  predicate IsEmail(s: string) {
    exists at, dot | 0 <= at < |s| && 0 <= dot < |s| :: EmailShape(s, at, dot)
  }

  /** Every address of the pattern's form `local@host.tld` passes. */
  lemma EmailFromParts(local: string, host: string, tld: string)
    requires local != [] && host != [] && tld != []
    requires EmailChars(local) && EmailChars(host) && EmailChars(tld)
    ensures IsEmail(local + "@" + host + "." + tld)
  {
    var s := local + "@" + host + "." + tld;
    var at, dot := |local|, |local| + 1 + |host|;
    forall i | 0 <= i < |s| && i != at
      ensures IsEmailChar(s[i])
    {
      if i < at {
        assert s[i] == local[i];
      } else if i < dot {
        assert s[i] == host[i - at - 1];
      } else if i > dot {
        assert s[i] == tld[i - dot - 1];
      }
    }
    assert EmailShape(s, at, dot);
  }

  /** ... and every address that passes has that form. */
  lemma EmailToParts(s: string) returns (local: string, host: string, tld: string)
    requires IsEmail(s)
    ensures local != [] && host != [] && tld != []
    ensures EmailChars(local) && EmailChars(host) && EmailChars(tld)
    ensures s == local + "@" + host + "." + tld
  {
    var at, dot :| 0 <= at < |s| && 0 <= dot < |s| && EmailShape(s, at, dot);
    local, host, tld := s[..at], s[at + 1..dot], s[dot + 1..];
    assert forall i :: 0 <= i < |host| ==> host[i] == s[at + 1 + i];
    assert forall i :: 0 <= i < |tld| ==> tld[i] == s[dot + 1 + i];
    assert s == local + "@" + host + "." + tld;
  }

  /** A valid address holds no white space, so `trim` leaves it alone. */
  lemma EmailHasNoWhitespace(s: string)
    requires IsEmail(s)
    ensures NoWhitespace(s) && Trim(s) == s
  {
    var at, dot :| 0 <= at < |s| && 0 <= dot < |s| && EmailShape(s, at, dot);
    assert !IsWhitespace(s[at]);
    TrimNoWhitespace(s);
  }

  /** A valid address holds exactly one '@'. */
  lemma EmailHasOneAt(s: string)
    requires IsEmail(s)
    ensures exists at :: 0 <= at < |s| && s[at] == '@' && forall i :: 0 <= i < |s| && i != at ==> s[i] != '@'
  {
    var at, dot :| 0 <= at < |s| && 0 <= dot < |s| && EmailShape(s, at, dot);
  }

  /** Lower-casing a valid address keeps it valid. */
  lemma LowerEmailStaysValid(s: string)
    requires IsEmail(s)
    ensures IsEmail(ToLower(s))
  {
    var at, dot :| 0 <= at < |s| && 0 <= dot < |s| && EmailShape(s, at, dot);
    var l := ToLower(s);
    forall i | 0 <= i < |s|
      ensures IsEmailChar(s[i]) ==> IsEmailChar(l[i])
    {
      LowerCharKeepsClass(s[i]);
    }
    LowerCharKeepsClass(s[at]);
    LowerCharKeepsClass(s[dot]);
    assert EmailShape(l, at, dot);
  }

  /** `validateForm`: the message of the first check that fails, in the
      order pickup, delivery, package details, customer name, phone, email;
      none when all pass. Every message is non-empty, so the handler's
      `if (validationError)` sees each one. */
  function ValidateForm(f: Fields): (r: Option<string>)
    ensures r.Some? ==> Truthy(r.value)
  {
    if |Trim(f.pickup)| < 3 then Some(PickupTooShort)
    else if |Trim(f.delivery)| < 3 then Some(DeliveryTooShort)
    else if |Trim(f.packageDetails)| < 5 then Some(DetailsTooShort)
    else if |Trim(f.customerName)| < 2 then Some(NameTooShort)
    else if !IsPhone(f.phone) then Some(InvalidPhone)
    else if !IsEmail(f.email) then Some(InvalidEmail)
    else None
  }

  /** The form passes exactly when every check passes: the trimmed lengths
      reach their minimums, and the phone and email as typed match their
      patterns. Otherwise the message is that of the first failing check:
      each check is reported exactly when all the checks before it pass and
      it fails. */
  lemma ValidationRule(f: Fields)
    ensures ValidateForm(f).None? <==>
              && |Trim(f.pickup)| >= 3 && |Trim(f.delivery)| >= 3
              && |Trim(f.packageDetails)| >= 5 && |Trim(f.customerName)| >= 2
              && IsPhone(f.phone) && IsEmail(f.email)
    ensures |Trim(f.pickup)| < 3 ==> ValidateForm(f) == Some(PickupTooShort)
    ensures |Trim(f.pickup)| >= 3 && |Trim(f.delivery)| < 3 ==> ValidateForm(f) == Some(DeliveryTooShort)
    ensures |Trim(f.pickup)| >= 3 && |Trim(f.delivery)| >= 3 && |Trim(f.packageDetails)| < 5 ==>
              ValidateForm(f) == Some(DetailsTooShort)
    ensures && |Trim(f.pickup)| >= 3 && |Trim(f.delivery)| >= 3 && |Trim(f.packageDetails)| >= 5
            && |Trim(f.customerName)| < 2 ==>
              ValidateForm(f) == Some(NameTooShort)
    ensures && |Trim(f.pickup)| >= 3 && |Trim(f.delivery)| >= 3 && |Trim(f.packageDetails)| >= 5
            && |Trim(f.customerName)| >= 2 && !IsPhone(f.phone) ==>
              ValidateForm(f) == Some(InvalidPhone)
    ensures && |Trim(f.pickup)| >= 3 && |Trim(f.delivery)| >= 3 && |Trim(f.packageDetails)| >= 5
            && |Trim(f.customerName)| >= 2 && IsPhone(f.phone) && !IsEmail(f.email) ==>
              ValidateForm(f) == Some(InvalidEmail)
  {
    var pickup, delivery, details, name := Trim(f.pickup), Trim(f.delivery), Trim(f.packageDetails), Trim(f.customerName);
    var phoneOk, emailOk := IsPhone(f.phone), IsEmail(f.email);
    assert ValidateForm(f) ==
      if |pickup| < 3 then Some(PickupTooShort)
      else if |delivery| < 3 then Some(DeliveryTooShort)
      else if |details| < 5 then Some(DetailsTooShort)
      else if |name| < 2 then Some(NameTooShort)
      else if !phoneOk then Some(InvalidPhone)
      else if !emailOk then Some(InvalidEmail)
      else None;
  }

  /** `jobData`: every field trimmed, and the email also lower-cased. */
  function Normalize(f: Fields): (p: Fields)
    ensures Trimmed(p.pickup) && |p.pickup| <= |f.pickup|
    ensures Trimmed(p.delivery) && |p.delivery| <= |f.delivery|
    ensures Trimmed(p.packageDetails) && |p.packageDetails| <= |f.packageDetails|
    ensures Trimmed(p.customerName) && |p.customerName| <= |f.customerName|
    ensures Trimmed(p.phone) && |p.phone| <= |f.phone|
    ensures p.email == ToLower(Trim(f.email))
  {
    Fields(Trim(f.pickup), Trim(f.delivery), Trim(f.packageDetails),
           Trim(f.customerName), Trim(f.phone), ToLower(Trim(f.email)))
  }

  /** Each trimmed field of the payload is what is left of the input field
      once the white space at its two ends is cut off: with `Trimmed` this
      determines the field. */
  lemma NormalizeCutsOnlyEnds(f: Fields)
    ensures var p := Normalize(f);
            && SliceBetweenWhitespace(p.pickup, f.pickup)
            && SliceBetweenWhitespace(p.delivery, f.delivery)
            && SliceBetweenWhitespace(p.packageDetails, f.packageDetails)
            && SliceBetweenWhitespace(p.customerName, f.customerName)
            && SliceBetweenWhitespace(p.phone, f.phone)
  {
    var p := Normalize(f);
    assert p.pickup == Trim(f.pickup) && p.delivery == Trim(f.delivery);
    assert p.packageDetails == Trim(f.packageDetails) && p.customerName == Trim(f.customerName);
    assert p.phone == Trim(f.phone);
    TrimIsSlice(f.pickup);
    TrimIsSlice(f.delivery);
    TrimIsSlice(f.packageDetails);
    TrimIsSlice(f.customerName);
    TrimIsSlice(f.phone);
  }

  /** Building the payload from a payload changes nothing. */
  lemma NormalizeIdempotent(f: Fields)
    ensures Normalize(Normalize(f)) == Normalize(f)
  {
    TrimIdempotent(f.pickup);
    TrimIdempotent(f.delivery);
    TrimIdempotent(f.packageDetails);
    TrimIdempotent(f.customerName);
    TrimIdempotent(f.phone);
    LowerTrimmedIsTrimmed(Trim(f.email));
  }

  /** Lower-casing a trimmed string, then trimming and lower-casing it
      again, changes nothing. */
  lemma LowerTrimmedIsTrimmed(t: string)
    requires Trimmed(t)
    ensures ToLower(Trim(ToLower(t))) == ToLower(t)
  {
    var l := ToLower(t);
    if l != [] {
      LowerCharKeepsClass(t[0]);
      LowerCharKeepsClass(t[|t| - 1]);
    }
    TrimOfTrimmed(l);
    ToLowerIdempotent(t);
  }

  /** The payload of a form that passed validation keeps the checked
      lengths, and its email is the typed one lower-cased and still valid. */
  lemma PayloadOfValidForm(f: Fields)
    requires ValidateForm(f).None?
    ensures var p := Normalize(f);
            && |p.pickup| >= 3 && |p.delivery| >= 3 && |p.packageDetails| >= 5 && |p.customerName| >= 2
            && p.email == ToLower(f.email) && IsEmail(p.email)
  {
    ValidationRule(f);
    EmailHasNoWhitespace(f.email);
    LowerEmailStaysValid(f.email);
  }

  /** A filled-in form whose phone ends in a space. */
  const SampleForm: Fields := Fields("Main St", "Elm St", "Boxes", "Ann", "123456 ", "ann@example.com")

  /** The phone is checked as typed but sent trimmed, so a number that
      passes may arrive shorter than seven characters. */
  lemma PhonePayloadMayBeShort()
    ensures ValidateForm(SampleForm).None?
    ensures Normalize(SampleForm).phone == "123456" && !IsPhone(Normalize(SampleForm).phone)
  {
    SampleFormPasses();
    SamplePhoneTrims();
  }

  lemma SampleFormPasses()
    ensures ValidateForm(SampleForm).None?
  {
    var f := SampleForm;
    TrimOfTrimmed(f.pickup);
    TrimOfTrimmed(f.delivery);
    TrimOfTrimmed(f.packageDetails);
    TrimOfTrimmed(f.customerName);
    SampleEmailPasses();
    assert IsPhone(f.phone);
    ValidationRule(f);
  }

  lemma SampleEmailPasses()
    ensures IsEmail(SampleForm.email)
  {
    assert EmailChars("ann") && EmailChars("example") && EmailChars("com");
    EmailFromParts("ann", "example", "com");
    assert "ann" + "@" + "example" + "." + "com" == SampleForm.email;
  }

  lemma SamplePhoneTrims()
    ensures Trim(SampleForm.phone) == "123456"
  {
    var phone := SampleForm.phone;
    assert SkipLeading(phone, 0) == 0;
    assert SkipTrailing(phone, 0, 7) == SkipTrailing(phone, 0, 6) == 6;
  }

  /** The request `POST /api/jobs` carries: the payload and the
      `Authorization` header. */
  datatype PostRequest = PostRequest(body: Fields, authorization: string)

  /** The server's answer to the post: the `message` of a success body, or
      the error. */
  datatype PostReply = Posted(message: Option<string>) | PostFailed(error: HttpError)

  /** The message shown for a failed post. */
  function FailureMessage(error: HttpError): (m: string)
    ensures error.status == Some(401) || error.status == Some(403) ==> m == NotAuthorized
    ensures !(error.status == Some(401) || error.status == Some(403)) ==> m == OrElse(error.message, PostFallback)
    ensures Truthy(m)
  {
    if error.status == Some(401) || error.status == Some(403) then NotAuthorized
    else OrElse(error.message, PostFallback)
  }

  class PostingForm {
    var fields: Fields
    var message: string
    var error: string
    var loading: bool

    constructor ()
      ensures fields == EmptyFields && message == "" && error == "" && !loading
    {
      fields := EmptyFields;
      message, error := "", "";
      loading := false;
    }

    /** `handleSubmit`, given the token in storage and the server's answer.
        An invalid form shows the first failing check and sends nothing; a
        valid form without a token shows the login notice and sends
        nothing; otherwise the payload goes out with the bearer token. A
        success shows the server's message (or the default) and clears the
        inputs; a failure shows the authorization notice for 401 and 403 and
        the server's message (or the fallback) otherwise, keeping the
        inputs. At most one of message and error is non-empty afterwards. */
    method HandleSubmit(storedToken: Option<string>, reply: PostReply) returns (sent: Option<PostRequest>)
      modifies this
      ensures ValidateForm(old(fields)).Some? ==>
                sent.None? && error == ValidateForm(old(fields)).value && message == ""
                && fields == old(fields) && loading == old(loading)
      ensures ValidateForm(old(fields)).None? && !TruthyOpt(storedToken) ==>
                sent.None? && error == NotLoggedIn && message == "" && fields == old(fields) && !loading
      ensures sent.Some? <==> ValidateForm(old(fields)).None? && TruthyOpt(storedToken)
      ensures sent.Some? ==>
                sent.value == PostRequest(Normalize(old(fields)), "Bearer " + storedToken.value) && !loading
      ensures sent.Some? && reply.Posted? ==>
                message == OrElse(reply.message, PostedDefault) && error == "" && fields == EmptyFields
      ensures sent.Some? && reply.PostFailed? ==>
                error == FailureMessage(reply.error) && message == "" && fields == old(fields)
      ensures !(Truthy(message) && Truthy(error))
    {
      message := "";
      error := "";
      var failure := ValidateForm(fields);
      if failure.Some? {
        error := failure.value;
        sent := None;
        return;
      }
      var body := Normalize(fields);
      loading := true;
      if !TruthyOpt(storedToken) {
        error := NotLoggedIn;
        sent := None;
      } else {
        sent := Some(PostRequest(body, "Bearer " + storedToken.value));
        match reply {
          case Posted(m) =>
            message := OrElse(m, PostedDefault);
            fields := EmptyFields;
          case PostFailed(e) =>
            error := FailureMessage(e);
        }
      }
      loading := false;
    }
  }
}
