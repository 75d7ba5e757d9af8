/** The order-draft store: the checkout fields, phone normalisation, and the
    validators of the delivery step and of the contacts step. */
module Order {
  import opened Types
  import opened JsText

  const MinAddressLength := 10

  const AddressMissing := "Необходимо указать адрес"
  const AddressTooShort := "Адрес должен содержать минимум 10 символов"
  const PaymentMissing := "Необходимо указать способ оплаты"
  const EmailInvalid := "Введите корректный email"
  const PhoneInvalid := "Введите номер в формате +7XXXXXXXXXX"

  /** The event the delivery-step validator emits. */
  const AddressErrorsEvent := "formErrors:address"
  /** The event the contacts-step validator emits. */
  const ContactsErrorsEvent := "formErrors:change"

  const EmptyRequest := OrderRequest("", "", "", "", [], 0)

  /** `s.startsWith(prefix)` */
  predicate StartsWith(s: string, prefix: string) {
    prefix <= s
  }

  // ---------------------------------------------------------------------------
  // Phone numbers

  /** `/^\+7\d{10}$/.test(s)`: the canonical form `+7` and ten digits. */
  predicate IsCanonicalPhone(s: string) {
    |s| == 12 && s[0] == '+' && s[1] == '7' && AllChars(s[2..], IsDigit)
  }

  /** The digits of a number that can be put in canonical form: eleven, the first `7`. */
  predicate IsNationalNumber(digits: string) {
    |digits| == 11 && digits[0] == '7'
  }

  /** A canonical phone carries its digits after the `+`. */
  lemma CanonicalPhoneDigits(s: string)
    requires IsCanonicalPhone(s)
    ensures DigitsOf(s) == s[1..] && IsNationalNumber(DigitsOf(s))
  {
    assert s == [s[0]] + s[1..];
    assert AllChars(s[1..], IsDigit) by {
      assert s[1..] == [s[1]] + s[2..];
    }
  }

  /** Putting a national number in canonical form keeps its digits. */
  lemma NationalToCanonical(digits: string)
    requires AllChars(digits, IsDigit) && IsNationalNumber(digits)
    ensures IsCanonicalPhone("+7" + digits[1..])
    ensures DigitsOf("+7" + digits[1..]) == digits
  {
    var r := "+7" + digits[1..];
    assert r[2..] == digits[1..];
    assert r[1..] == digits;
    CanonicalPhoneDigits(r);
  }

  /** The phone that `setPhone(value)` stores: `value` itself when it is
      already canonical, else `+7` and the last ten of its digits when they
      are eleven starting with `7`, else the empty string. */
  function NormalizePhone(value: string): (r: string)
    ensures r == "" || IsCanonicalPhone(r)
    ensures IsCanonicalPhone(value) ==> r == value
    ensures r == "" <==> !IsNationalNumber(DigitsOf(value))
    ensures r != "" ==> DigitsOf(r) == DigitsOf(value)
  {
    var digits := DigitsOf(value);
    assert IsCanonicalPhone(value) ==> StartsWith(value, "+7") by {
      if IsCanonicalPhone(value) {
        assert value[..2] == "+7";
      }
    }
    if StartsWith(value, "+7") && IsCanonicalPhone(value) then
      CanonicalPhoneDigits(value);
      value
    else if |digits| == 11 && StartsWith(digits, "7") then
      NationalToCanonical(digits);
      "+7" + digits[1..]
    else
      ""
  }

  /** A stored phone is always `+7` followed by the input's digits after the
      leading 7: the rewrite of the second branch, which the first branch
      agrees with. */
  lemma NormalizePhoneRewrite(value: string)
    ensures NormalizePhone(value) != "" ==> NormalizePhone(value) == "+7" + DigitsOf(value)[1..]
  {
    var r := NormalizePhone(value);
    if r != "" {
      CanonicalPhoneDigits(r);
      assert r == [r[0]] + r[1..] && r[1..] == [r[1]] + r[2..];
    }
  }

  /** A canonical phone is determined by its digits. */
  lemma CanonicalPhoneFromDigits(a: string, b: string)
    requires IsCanonicalPhone(a) && IsCanonicalPhone(b) && DigitsOf(a) == DigitsOf(b)
    ensures a == b
  {
    CanonicalPhoneDigits(a);
    CanonicalPhoneDigits(b);
    assert a == [a[0]] + a[1..];
    assert b == [b[0]] + b[1..];
  }

  /** The contract of NormalizePhone leaves exactly one possible result. */
  lemma NormalizePhoneUnique(value: string, r: string)
    requires r == "" || IsCanonicalPhone(r)
    requires r == "" <==> !IsNationalNumber(DigitsOf(value))
    requires r != "" ==> DigitsOf(r) == DigitsOf(value)
    ensures r == NormalizePhone(value)
  {
    if r != "" {
      CanonicalPhoneFromDigits(r, NormalizePhone(value));
    }
  }

  /** Normalising a stored phone again changes nothing. */
  lemma NormalizePhoneIdempotent(value: string)
    ensures NormalizePhone(NormalizePhone(value)) == NormalizePhone(value)
  {
  }

  /** A number already in canonical form is stored as it is. */
  lemma PhoneExampleCanonical(s: string)
    requires s == "+79991234567"
    ensures NormalizePhone(s) == s
  {
    assert s[2..] == "9991234567";
  }

  /** A number written with the domestic leading 8 is rejected, not rewritten. */
  lemma PhoneExampleLeadingEight(s: string)
    requires s == "89991234567"
    ensures NormalizePhone(s) == ""
  {
    assert AllChars(s, IsDigit);
  }

  /** `+7 (ddd) ddd-dd-dd`: the usual written form of a number. */
  function Formatted(d: string): string
    requires |d| == 10
  {
    "+7 (" + (d[..3] + (") " + (d[3..6] + ("-" + (d[6..8] + ("-" + d[8..]))))))
  }

  /** A leading run of digits is kept in front of the other digits. */
  lemma PrependDigitRun(run: string, x: string)
    requires AllChars(run, IsDigit)
    ensures DigitsOf(run + x) == run + DigitsOf(x)
  {
    DigitsOfAppend(run, x);
  }

  /** A leading separator without digits is dropped. */
  lemma PrependSeparator(sep: string, x: string)
    requires sep == ") " || sep == "-"
    ensures DigitsOf(sep + x) == DigitsOf(x)
  {
    DigitsOfAppend(sep, x);
    assert DigitsOf(sep) == [];
  }

  /** A slice of a run of digits is a run of digits. */
  lemma DigitSlice(d: string, i: nat, j: nat)
    requires AllChars(d, IsDigit) && i <= j <= |d|
    ensures AllChars(d[i..j], IsDigit)
  {
    assert forall k :: 0 <= k < j - i ==> d[i..j][k] == d[i + k];
  }

  /** The digits of the last two groups `-dd-dd` of a formatted number. */
  lemma FormattedLastDigits(d: string)
    requires |d| == 10 && AllChars(d, IsDigit)
    ensures DigitsOf("-" + (d[6..8] + ("-" + d[8..]))) == d[6..]
  {
    var c, e := d[6..8], d[8..];
    DigitSlice(d, 6, 8);
    DigitSlice(d, 8, 10);
    assert d[8..10] == e;
    PrependSeparator("-", e);
    PrependDigitRun(c, "-" + e);
    assert c + e == d[6..];
    PrependSeparator("-", c + ("-" + e));
  }

  /** The digits of a formatted number after its area code are its last seven digits. */
  lemma FormattedTailDigits(d: string)
    requires |d| == 10 && AllChars(d, IsDigit)
    ensures DigitsOf(") " + (d[3..6] + ("-" + (d[6..8] + ("-" + d[8..]))))) == d[3..]
  {
    var b := d[3..6];
    var rest := "-" + (d[6..8] + ("-" + d[8..]));
    FormattedLastDigits(d);
    DigitSlice(d, 3, 6);
    PrependDigitRun(b, rest);
    assert b + d[6..] == d[3..];
    PrependSeparator(") ", b + rest);
  }

  /** The digits of a formatted number are its seven and its ten digits. */
  lemma FormattedDigits(d: string)
    requires |d| == 10 && AllChars(d, IsDigit)
    ensures DigitsOf(Formatted(d)) == "7" + d
  {
    var a := d[..3];
    var rest := ") " + (d[3..6] + ("-" + (d[6..8] + ("-" + d[8..]))));
    FormattedTailDigits(d);
    DigitSlice(d, 0, 3);
    PrependDigitRun(a, rest);
    assert a + d[3..] == d;
    var lead := "+7 (";
    DigitsOfAppend(lead, a + rest);
    assert DigitsOf(lead) == "7";
  }

  /** A number written as `+7 (ddd) ddd-dd-dd` is stored as `+7` and its ten digits. */
  lemma PhoneFormattedRewritten(d: string)
    requires |d| == 10 && AllChars(d, IsDigit)
    ensures NormalizePhone(Formatted(d)) == "+7" + d
  {
    FormattedDigits(d);
    assert ("7" + d)[1..] == d;
  }

  /** A number written with spaces, brackets and dashes is rewritten from its digits. */
  lemma PhoneExampleFormatted(s: string)
    requires s == "+7 (999) 123-45-67"
    ensures NormalizePhone(s) == "+79991234567"
  {
    var d := "9991234567";
    FormattedExample(d);
    PhoneFormattedRewritten(d);
  }

  lemma FormattedExample(d: string)
    requires d == "9991234567"
    ensures AllChars(d, IsDigit) && Formatted(d) == "+7 (999) 123-45-67"
    ensures "+7" + d == "+79991234567"
  {
    assert d[..3] == "999" && d[3..6] == "123" && d[6..8] == "45" && d[8..] == "67";
  }

  /** Too few digits: rejected. */
  lemma PhoneExampleTooShort(s: string)
    requires s == "123"
    ensures NormalizePhone(s) == ""
  {
    assert AllChars(s, IsDigit);
  }

  // ---------------------------------------------------------------------------
  // E-mail addresses

  /** `[\w.-]` */
  predicate IsEmailNameChar(c: char) {
    IsWordChar(c) || c == '.' || c == '-'
  }

  /** `s` reads `A@B.C` with `A` = s[..at] and `B` = s[at + 1..dot] non-empty
      runs of `[\w.-]` and `C` = s[dot + 1..] at least two ASCII letters: one
      way `^[\w.-]+@[\w.-]+\.[A-Za-z]{2,}$` can match `s`. */
  ghost predicate EmailSplitAt(s: string, at: int, dot: int) {
    && 1 <= at && at + 2 <= dot && dot + 3 <= |s|
    && s[at] == '@' && s[dot] == '.'
    && (forall i :: 0 <= i < at ==> IsEmailNameChar(s[i]))
    && (forall i :: at < i < dot ==> IsEmailNameChar(s[i]))
    && (forall i :: dot < i < |s| ==> IsLetter(s[i]))
  }

  /** `/^[\w.-]+@[\w.-]+\.[A-Za-z]{2,}$/` matches `s`. */
  ghost predicate MatchesEmailPattern(s: string) {
    exists at, dot :: EmailSplitAt(s, at, dot)
  }

  /** `/^[\w.-]+@[\w.-]+\.[A-Za-z]{2,}$/.test(s)`, decided with one scan from
      each end: the top-level domain is the longest run of letters at the
      end, the local part the longest run of `[\w.-]` at the start. */
  function IsValidEmail(s: string): bool {
    var tld := SuffixSpan(s, IsLetter);
    var dot := |s| - tld - 1;
    if tld < 2 || dot < 0 || s[dot] != '.' then false
    else
      var at := PrefixSpan(s[..dot], IsEmailNameChar);
      1 <= at && at + 2 <= dot && s[at] == '@'
      && PrefixSpan(s[at + 1..dot], IsEmailNameChar) == dot - at - 1
  }

  /** Wherever the pattern matches, the top-level domain and the local part
      are the longest runs the scan finds. */
  lemma EmailSplitIsScan(s: string, at: int, dot: int)
    requires EmailSplitAt(s, at, dot)
    ensures SuffixSpan(s, IsLetter) == |s| - dot - 1
    ensures PrefixSpan(s[..dot], IsEmailNameChar) == at
    ensures PrefixSpan(s[at + 1..dot], IsEmailNameChar) == dot - at - 1
  {
    SuffixSpanExact(s, IsLetter, |s| - dot - 1);
    var local := s[..dot];
    assert forall i :: 0 <= i < at ==> local[i] == s[i];
    PrefixSpanExact(local, IsEmailNameChar, at);
    var domain := s[at + 1..dot];
    assert forall i :: 0 <= i < |domain| ==> domain[i] == s[at + 1 + i];
    PrefixSpanExact(domain, IsEmailNameChar, dot - at - 1);
  }

  /** The scan accepts exactly the strings the pattern matches. */
  lemma IsValidEmailCorrect(s: string)
    ensures IsValidEmail(s) <==> MatchesEmailPattern(s)
  {
    if IsValidEmail(s) {
      var tld := SuffixSpan(s, IsLetter);
      var dot := |s| - tld - 1;
      var at := PrefixSpan(s[..dot], IsEmailNameChar);
      var domain := s[at + 1..dot];
      assert forall i :: at < i < dot ==> s[i] == domain[i - at - 1];
      assert EmailSplitAt(s, at, dot);
    }
    if at, dot :| EmailSplitAt(s, at, dot) {
      EmailSplitIsScan(s, at, dot);
    }
  }

  lemma EmailExampleAccepted(s: string)
    requires s == "user@example.com"
    ensures IsValidEmail(s)
  {
    assert EmailSplitAt(s, 4, 12);
    IsValidEmailCorrect(s);
  }

  /** A one-letter top-level domain does not match. */
  lemma EmailExampleShortDomain()
    ensures !IsValidEmail("a@b.c")
  {
    var s := "a@b.c";
    SuffixSpanExact(s, IsLetter, 1);
  }

  lemma EmailExampleNoAt()
    ensures !IsValidEmail("not-an-email")
  {
    var s := "not-an-email";
    SuffixSpanExact(s, IsLetter, 5);
  }

  // ---------------------------------------------------------------------------
  // The two validators as functions of the fields

  /** The errors of the delivery step: an address error when the trimmed
      address is empty or shorter than 10 characters, else a payment error
      when no payment method is chosen. */
  function AddressPaymentErrors(address: string, payment: string): (errors: FormErrors)
    ensures errors.Keys <= {Address} || errors.Keys <= {Payment}
    ensures Address in errors <==> |Trim(address)| < MinAddressLength
    ensures Address in errors ==>
      errors[Address] == if Trim(address) == "" then AddressMissing else AddressTooShort
    ensures Payment in errors <==> |Trim(address)| >= MinAddressLength && payment == ""
    ensures Payment in errors ==> errors[Payment] == PaymentMissing
    ensures errors == map[] <==> |Trim(address)| >= MinAddressLength && payment != ""
  {
    var trimmed := Trim(address);
    if trimmed == "" then map[Address := AddressMissing]
    else if |trimmed| < MinAddressLength then map[Address := AddressTooShort]
    else if payment == "" then map[Payment := PaymentMissing]
    else map[]
  }

  /** A two-letter address draws the short-address error, whatever the payment. */
  lemma AddressExampleTooShort()
    ensures AddressPaymentErrors("ул", "card") == map[Address := AddressTooShort]
  {
  }

  /** What the contacts-step validator finds: `Incomplete` when it gives up
      early, otherwise the errors it reports. */
  datatype ContactsOutcome = Incomplete | Checked(errors: FormErrors)

  /** The contacts step: incomplete when the trimmed e-mail or the trimmed
      phone is empty; otherwise an e-mail error exactly when the trimmed
      e-mail fails the pattern and a phone error exactly when the phone is not
      canonical, both possibly at once. */
  function ContactsCheck(email: string, phone: string): (r: ContactsOutcome)
    ensures r.Incomplete? <==> Trim(email) == "" || Trim(phone) == ""
    ensures r.Checked? ==> r.errors.Keys <= {Email, Phone}
    ensures r.Checked? ==> (Email in r.errors <==> !MatchesEmailPattern(Trim(email)))
    ensures r.Checked? && Email in r.errors ==> r.errors[Email] == EmailInvalid
    ensures r.Checked? ==> (Phone in r.errors <==> !IsCanonicalPhone(phone))
    ensures r.Checked? && Phone in r.errors ==> r.errors[Phone] == PhoneInvalid
  {
    if Trim(email) == "" || Trim(phone) == "" then Incomplete
    else
      IsValidEmailCorrect(Trim(email));
      var errors: FormErrors := if IsValidEmail(Trim(email)) then map[] else map[Email := EmailInvalid];
      Checked(if IsCanonicalPhone(phone) then errors else errors[Phone := PhoneInvalid])
  }

  /** A phone stored by setPhone never draws a phone error. */
  lemma NormalizedPhoneNotFlagged(email: string, value: string)
    ensures var r := ContactsCheck(email, NormalizePhone(value));
      r.Checked? ==> Phone !in r.errors
  {
  }

  // ---------------------------------------------------------------------------
  // The store

  /** What an `emit` call carries. */
  datatype Payload =
    | ErrorsPayload(errors: FormErrors)
    | ValidityPayload(errors: FormErrors, isValid: bool)

  /** One `events.emit(name, payload)` call. */
  datatype Event = Event(name: string, payload: Payload)

  class OrderForm {
    var payment: string
    var email: string
    var phone: string
    var address: string
    var total: int
    var items: seq<string>
    var formErrors: FormErrors
    /** Every event emitted so far, oldest first. */
    ghost var emitted: seq<Event>

    /** The six fields of the order, as the request sent to the server. */
    function GetOrderRequest(): (r: OrderRequest)
      reads this
      ensures r.payment == payment && r.email == email && r.phone == phone
      ensures r.address == address && r.total == total && r.items == items
    {
      OrderRequest(email, phone, payment, address, items, total)
    }

    /** The effect of the delivery-step validator on the errors and the events. */
    ghost predicate AddressValidated(emittedBefore: seq<Event>)
      reads this
    {
      && formErrors == AddressPaymentErrors(address, payment)
      && emitted == emittedBefore + [Event(AddressErrorsEvent, ErrorsPayload(formErrors))]
    }

    /** The effect of the contacts-step validator on the errors and the events. */
    ghost predicate ContactsValidated(errorsBefore: FormErrors, emittedBefore: seq<Event>)
      reads this
    {
      match ContactsCheck(email, phone)
      case Incomplete =>
        formErrors == errorsBefore && emitted == emittedBefore
      case Checked(errors) =>
        && formErrors == errors
        && emitted == emittedBefore + [Event(ContactsErrorsEvent, ValidityPayload(errors, errors == map[]))]
    }

    constructor ()
      ensures GetOrderRequest() == EmptyRequest
      ensures formErrors == map[] && emitted == []
    {
      payment, email, phone, address := "", "", "", "";
      total, items := 0, [];
      formErrors := map[];
      emitted := [];
    }

    method SetAddress(value: string)
      modifies this
      ensures GetOrderRequest() == old(GetOrderRequest()).(address := value)
      ensures AddressValidated(old(emitted))
    {
      address := value;
      var valid := ValidateAddressAndPayment();
    }

    method SetPayment(value: string)
      modifies this
      ensures GetOrderRequest() == old(GetOrderRequest()).(payment := value)
      ensures AddressValidated(old(emitted))
    {
      payment := value;
      var valid := ValidateAddressAndPayment();
    }

    method SetEmail(value: string)
      modifies this
      ensures GetOrderRequest() == old(GetOrderRequest()).(email := value)
      ensures ContactsValidated(old(formErrors), old(emitted))
    {
      email := value;
      var valid := ValidateContacts();
    }

    /** Stores the normalised phone, then validates the contacts. */
    method SetPhone(value: string)
      modifies this
      ensures phone == "" || IsCanonicalPhone(phone)
      ensures GetOrderRequest() == old(GetOrderRequest()).(phone := NormalizePhone(value))
      ensures ContactsValidated(old(formErrors), old(emitted))
    {
      phone := NormalizePhone(value);
      var valid := ValidateContacts();
    }

    method SetItems(ids: seq<string>)
      modifies this
      ensures GetOrderRequest() == old(GetOrderRequest()).(items := ids)
      ensures formErrors == old(formErrors) && emitted == old(emitted)
    {
      items := ids;
    }

    method SetTotal(amount: int)
      modifies this
      ensures GetOrderRequest() == old(GetOrderRequest()).(total := amount)
      ensures formErrors == old(formErrors) && emitted == old(emitted)
    {
      total := amount;
    }

    /** Resets every field; emits nothing. */
    method Clear()
      modifies this
      ensures GetOrderRequest() == EmptyRequest
      ensures formErrors == map[] && emitted == old(emitted)
    {
      payment := "";
      email := "";
      phone := "";
      address := "";
      total := 0;
      items := [];
      formErrors := map[];
    }

    /** Stores the errors, emits them under `eventName`, and reports whether there are none. */
    method HandleValidation(errors: FormErrors, eventName: string) returns (valid: bool)
      modifies this
      ensures valid <==> errors == map[]
      ensures formErrors == errors
      ensures emitted == old(emitted) + [Event(eventName, ErrorsPayload(errors))]
      ensures GetOrderRequest() == old(GetOrderRequest())
    {
      formErrors := errors;
      emitted := emitted + [Event(eventName, ErrorsPayload(formErrors))];
      valid := |errors| == 0;
    }

    /** The delivery-step validator. */
    method ValidateAddressAndPayment() returns (valid: bool)
      modifies this
      ensures valid <==> |Trim(address)| >= MinAddressLength && payment != ""
      ensures GetOrderRequest() == old(GetOrderRequest())
      ensures AddressValidated(old(emitted))
    {
      var errors := AddressPaymentErrors(address, payment);
      valid := HandleValidation(errors, AddressErrorsEvent);
    }

    /** The contacts-step validator. */
    method ValidateContacts() returns (valid: bool)
      modifies this
      ensures valid <==>
        && Trim(email) != "" && Trim(phone) != ""
        && MatchesEmailPattern(Trim(email)) && IsCanonicalPhone(phone)
      ensures GetOrderRequest() == old(GetOrderRequest())
      ensures ContactsValidated(old(formErrors), old(emitted))
    {
      ghost var outcome := ContactsCheck(email, phone);
      var trimmedEmail := Trim(email);
      var trimmedPhone := Trim(phone);
      IsValidEmailCorrect(trimmedEmail);
      var errors: FormErrors := map[];
      if trimmedEmail == "" {
        return false;
      } else if !IsValidEmail(trimmedEmail) {
        errors := errors[Email := EmailInvalid];
      }
      if trimmedPhone == "" {
        return false;
      } else if !IsCanonicalPhone(phone) {
        errors := errors[Phone := PhoneInvalid];
      }
      assert outcome == Checked(errors);
      valid := |errors| == 0;
      formErrors := errors;
      emitted := emitted + [Event(ContactsErrorsEvent, ValidityPayload(formErrors, valid))];
    }
  }
}
