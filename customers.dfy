/**
 * Customer search, creation and the customer utilities
 * (src/composables/useCustomers.ts). The development switch
 * (`import.meta.env.DEV`), the query and mutation outcomes and the
 * `Date.now()` id suffix are parameters.
 */
module Customers {
  import opened Wrappers
  import opened Text
  import opened Types
  import opened Validation

  // ---------------------------------------------------------------------
  // Mock search

  const MockCustomers: seq<Customer> := [
    Customer("1", "John", "Doe", "john.doe@example.com", "+639171234567", "John Doe"),
    Customer("2", "Maria", "Santos", "maria.santos@gmail.com", "+639171234568", "Maria Santos"),
    Customer("3", "Jose", "Rizal", "jose.rizal@email.com", "+639171234569", "Jose Rizal"),
    Customer("4", "Ana", "Cruz", "ana.cruz@yahoo.com", "+639171234570", "Ana Cruz"),
    Customer("5", "Miguel", "Rodriguez", "miguel.rodriguez@hotmail.com", "+639171234571", "Miguel Rodriguez")
  ]

  /** `customers.filter(keep)`: the kept customers, in their order. */
  function Filter(cs: seq<Customer>, keep: Customer -> bool): (r: seq<Customer>)
    ensures |r| <= |cs|
    ensures forall c :: c in r ==> c in cs && keep(c)
    ensures forall i :: 0 <= i < |cs| && keep(cs[i]) ==> cs[i] in r
  {
    if cs == [] then []
    else
      var rest := Filter(cs[1..], keep);
      assert forall i :: 0 < i < |cs| ==> cs[i] == cs[1..][i - 1];
      (if keep(cs[0]) then [cs[0]] else []) + rest
  }

  /** Filtering two lists laid end to end keeps the order of both. */
  lemma {:induction false} FilterAppend(a: seq<Customer>, b: seq<Customer>, keep: Customer -> bool)
    ensures Filter(a + b, keep) == Filter(a, keep) + Filter(b, keep)
  {
    if a == [] {
      assert a + b == b;
    } else {
      assert (a + b)[0] == a[0];
      assert (a + b)[1..] == a[1..] + b;
      FilterAppend(a[1..], b, keep);
    }
  }

  /** Two tests that agree on every customer of the list keep the same customers. */
  lemma {:induction false} FilterSameTest(cs: seq<Customer>, p: Customer -> bool, q: Customer -> bool)
    requires forall c :: c in cs ==> p(c) == q(c)
    ensures Filter(cs, p) == Filter(cs, q)
  {
    if cs != [] {
      assert cs[0] in cs;
      assert forall c :: c in cs[1..] ==> c in cs;
      FilterSameTest(cs[1..], p, q);
    }
  }

  /** The email search: the email or the full name contains the query, ignoring case. */
  predicate EmailMatch(c: Customer, query: string) {
    Includes(ToLower(c.email), ToLower(query)) || Includes(ToLower(c.fullName), ToLower(query))
  }

  /** The phone search: the phone contains the query as typed, or the full name contains it ignoring case. */
  predicate PhoneMatch(c: Customer, query: string) {
    Includes(c.phone, query) || Includes(ToLower(c.fullName), ToLower(query))
  }

  /** The customers of `customers` the email search keeps. */
  function EmailSearch(customers: seq<Customer>, query: string): seq<Customer> {
    Filter(customers, c => EmailMatch(c, query))
  }

  /** The customers of `customers` the phone search keeps. */
  function PhoneSearch(customers: seq<Customer>, query: string): seq<Customer> {
    Filter(customers, c => PhoneMatch(c, query))
  }

  /** The email search does not depend on the case of the query. */
  lemma EmailSearchIgnoresCase(customers: seq<Customer>, query: string)
    ensures EmailSearch(customers, ToLower(query)) == EmailSearch(customers, query)
  {
    ToLowerIdempotent(query);
    FilterSameTest(customers, c => EmailMatch(c, ToLower(query)), c => EmailMatch(c, query));
  }

  /** Every customer found by the email search matches it, and every matching customer is found. */
  lemma EmailSearchFinds(customers: seq<Customer>, query: string, i: int)
    requires 0 <= i < |customers|
    ensures customers[i] in EmailSearch(customers, query) <==> EmailMatch(customers[i], query)
  {
  }

  /** The same for the phone search. */
  lemma PhoneSearchFinds(customers: seq<Customer>, query: string, i: int)
    requires 0 <= i < |customers|
    ensures customers[i] in PhoneSearch(customers, query) <==> PhoneMatch(customers[i], query)
  {
  }

  datatype SearchKind = ByEmail | ByPhone

  /** The search composable's two result lists. */
  class CustomerSearch {
    /** The list the development search filters. */
    const mockCustomers: seq<Customer>
    var emailResults: seq<Customer>
    var phoneResults: seq<Customer>

    constructor ()
      ensures mockCustomers == MockCustomers
      ensures emailResults == [] && phoneResults == []
    {
      mockCustomers := MockCustomers;
      emailResults := [];
      phoneResults := [];
    }

    /** searchCustomersMock: fill the list of the given kind with the matching mock customers. */
    method SearchCustomersMock(kind: SearchKind, query: string)
      modifies this
      ensures kind == ByEmail ==> emailResults == EmailSearch(mockCustomers, query) && phoneResults == old(phoneResults)
      ensures kind == ByPhone ==> phoneResults == PhoneSearch(mockCustomers, query) && emailResults == old(emailResults)
    {
      if kind == ByEmail {
        emailResults := EmailSearch(mockCustomers, query);
      } else {
        phoneResults := PhoneSearch(mockCustomers, query);
      }
    }

    /**
     * searchByEmail: a query shorter than 3 characters clears the results
     * without searching; otherwise the mock search in development, or the
     * customers the query returned (none when it failed or returned nothing).
     */
    method SearchByEmail(email: string, dev: bool, response: CallOutcome<seq<Customer>>)
      modifies this
      ensures phoneResults == old(phoneResults)
      ensures |email| < 3 ==> emailResults == []
      ensures |email| >= 3 && dev ==> emailResults == EmailSearch(mockCustomers, email)
      ensures |email| >= 3 && !dev && response.Returned? && response.payload.Some? ==>
        emailResults == response.payload.value
      ensures |email| >= 3 && !dev && !(response.Returned? && response.payload.Some?) ==> emailResults == []
    {
      if email == "" || |email| < 3 {
        emailResults := [];
        return;
      }
      if dev {
        SearchCustomersMock(ByEmail, email);
        return;
      }
      match response
      case Threw =>
        emailResults := [];
      case Returned(customers) =>
        emailResults := customers.GetOr([]);
    }

    /** searchByPhone: the same, with a threshold of 4 characters. */
    method SearchByPhone(phone: string, dev: bool, response: CallOutcome<seq<Customer>>)
      modifies this
      ensures emailResults == old(emailResults)
      ensures |phone| < 4 ==> phoneResults == []
      ensures |phone| >= 4 && dev ==> phoneResults == PhoneSearch(mockCustomers, phone)
      ensures |phone| >= 4 && !dev && response.Returned? && response.payload.Some? ==>
        phoneResults == response.payload.value
      ensures |phone| >= 4 && !dev && !(response.Returned? && response.payload.Some?) ==> phoneResults == []
    {
      if phone == "" || |phone| < 4 {
        phoneResults := [];
        return;
      }
      if dev {
        SearchCustomersMock(ByPhone, phone);
        return;
      }
      match response
      case Threw =>
        phoneResults := [];
      case Returned(customers) =>
        phoneResults := customers.GetOr([]);
    }
  }

  // ---------------------------------------------------------------------
  // validatePhoneNumber: /^(\+639|09)\d{9}$/

  /** The pattern as written: one of the two prefixes, then exactly nine digits. */
  ghost predicate MobilePattern(phone: string) {
    exists p, d :: p in ["+639", "09"] && phone == p + d && |d| == 9 && AllDigits(d)
  }

  predicate ValidatePhoneNumber(phone: string) {
    (|phone| == 13 && StartsWith(phone, "+639") && AllDigits(phone[4..]))
    || (|phone| == 11 && StartsWith(phone, "09") && AllDigits(phone[2..]))
  }

  lemma MobilePatternIsValidate(phone: string)
    ensures MobilePattern(phone) <==> ValidatePhoneNumber(phone)
  {
    if ValidatePhoneNumber(phone) {
      if |phone| == 13 && StartsWith(phone, "+639") {
        assert phone == "+639" + phone[4..];
      } else {
        assert phone == "09" + phone[2..];
      }
    }
  }

  /** Every number the customer form accepts is also accepted by the general phone check. */
  lemma {:induction false} ValidateImpliesIsValid(phone: string)
    requires ValidatePhoneNumber(phone)
    ensures IsValidPhoneNumber(phone)
  {
    if |phone| == 13 && StartsWith(phone, "+639") {
      NothingToStrip(phone);
      assert phone[..3] == "+63";
      assert MobileDigits(phone[3..]);
    } else {
      NothingToStrip(phone);
      assert MobileDigits(phone[1..]);
    }
  }

  // ---------------------------------------------------------------------
  // formatPhoneNumber

  /** `(\+639)(\d{2})(\d{3})(\d{4})` matches at index i. */
  predicate InternationalAt(s: string, i: int) {
    0 <= i && i + 13 <= |s| && s[i..i + 4] == "+639" && AllDigits(s[i + 4..i + 13])
  }

  /** `(\d{4})(\d{3})(\d{4})` matches at index i. */
  predicate LocalAt(s: string, i: int) {
    0 <= i && i + 11 <= |s| && AllDigits(s[i..i + 11])
  }

  /** The leftmost index from `from` on where `matchAt` holds, as an unanchored `replace` searches. */
  function FirstMatch(s: string, matchAt: (string, int) -> bool, from: nat): (r: Option<nat>)
    requires from <= |s|
    ensures r.Some? ==> from <= r.value <= |s| && matchAt(s, r.value)
    ensures r.Some? ==> forall j :: from <= j < r.value ==> !matchAt(s, j)
    ensures r.None? ==> forall j :: from <= j <= |s| ==> !matchAt(s, j)
    decreases |s| - from
  {
    if matchAt(s, from) then Some(from)
    else if from == |s| then None
    else FirstMatch(s, matchAt, from + 1)
  }

  /** The replacement '$1 $2 $3 $4' of an international match at i. */
  function InternationalRewrite(s: string, i: int): (r: string)
    requires InternationalAt(s, i)
    ensures |r| == |s| + 3
  {
    s[..i] + "+639 " + s[i + 4..i + 6] + " " + s[i + 6..i + 9] + " " + s[i + 9..i + 13] + s[i + 13..]
  }

  /** The replacement '$1 $2 $3' of a local match at i. */
  function LocalRewrite(s: string, i: int): (r: string)
    requires LocalAt(s, i)
    ensures |r| == |s| + 2
  {
    s[..i] + s[i..i + 4] + " " + s[i + 4..i + 7] + " " + s[i + 7..i + 11] + s[i + 11..]
  }

  /**
   * formatPhoneNumber: a '+639' number gets spaces after its prefix, its
   * next two and next three digits; a '09' number gets spaces after its
   * first four and next three digits. Only the first match is rewritten,
   * and anything else is returned as it is.
   */
  function FormatPhoneNumber(phone: string): (r: string)
    ensures !StartsWith(phone, "+639") && !StartsWith(phone, "09") ==> r == phone
    ensures r == phone || |r| == |phone| + 3 || |r| == |phone| + 2
  {
    if StartsWith(phone, "+639") then
      match FirstMatch(phone, InternationalAt, 0)
      case None => phone
      case Some(i) => InternationalRewrite(phone, i)
    else if StartsWith(phone, "09") then
      match FirstMatch(phone, LocalAt, 0)
      case None => phone
      case Some(i) => LocalRewrite(phone, i)
    else phone
  }

  /** A valid '+639' number comes out as '+639 DD DDD DDDD'. */
  lemma FormatInternational(phone: string)
    requires |phone| == 13 && StartsWith(phone, "+639") && AllDigits(phone[4..])
    ensures FormatPhoneNumber(phone) == "+639 " + phone[4..6] + " " + phone[6..9] + " " + phone[9..13]
  {
    assert InternationalAt(phone, 0) by {
      assert phone[0..4] == phone[..4] && phone[4..13] == phone[4..];
    }
    assert FirstMatch(phone, InternationalAt, 0) == Some(0);
    assert FormatPhoneNumber(phone) == InternationalRewrite(phone, 0);
    assert phone[..0] == [] && phone[13..] == [];
  }

  /** An 11-digit '09' number comes out as 'DDDD DDD DDDD'. */
  lemma FormatLocal(phone: string)
    requires |phone| == 11 && AllDigits(phone) && StartsWith(phone, "09")
    ensures FormatPhoneNumber(phone) == phone[..4] + " " + phone[4..7] + " " + phone[7..11]
  {
    assert !StartsWith(phone, "+639") by {
      assert phone[0] == phone[..2][0] == '0';
      assert phone[..4][0] == '0';
    }
    assert LocalAt(phone, 0) by {
      assert phone[0..11] == phone;
    }
    assert FirstMatch(phone, LocalAt, 0) == Some(0);
    assert FormatPhoneNumber(phone) == LocalRewrite(phone, 0);
    assert phone[..0] == [] && phone[11..] == [] && phone[0..4] == phone[..4];
  }

  /** A space added between two parts is removed again by the separator stripping. */
  lemma StripSpace(x: string, y: string)
    ensures StripSeparators(x + " " + y) == StripSeparators(x + y)
  {
    assert Separator(' ');
    StripDropsSeparator(x, ' ', y);
    assert x + " " + y == x + [' '] + y;
  }

  /** Two spaces between three parts are removed again. */
  lemma {:induction false} StripTwoSpaces(p: string, a: string, q: string)
    ensures StripSeparators(p + " " + a + " " + q) == StripSeparators(p + a + q)
  {
    assert p + " " + a + " " + q == p + " " + (a + " " + q);
    StripSpace(p, a + " " + q);
    assert p + (a + " " + q) == (p + a) + " " + q;
    StripSpace(p + a, q);
  }

  /** Three spaces between four parts are removed again. */
  lemma {:induction false} StripThreeSpaces(p: string, a: string, b: string, q: string)
    ensures StripSeparators(p + " " + a + " " + b + " " + q) == StripSeparators(p + a + b + q)
  {
    assert p + " " + a + " " + b + " " + q == p + " " + (a + " " + b + " " + q);
    StripSpace(p, a + " " + b + " " + q);
    assert p + (a + " " + b + " " + q) == (p + a) + " " + (b + " " + q);
    StripSpace(p + a, b + " " + q);
    assert (p + a) + (b + " " + q) == (p + a + b) + " " + q;
    StripSpace(p + a + b, q);
  }

  /** Rewriting an international match at i only adds spaces. */
  lemma {:induction false} InternationalOnlyAddsSpaces(phone: string, i: int)
    requires InternationalAt(phone, i)
    ensures StripSeparators(InternationalRewrite(phone, i)) == StripSeparators(phone)
  {
    var pre, a, b, q := phone[..i + 4], phone[i + 4..i + 6], phone[i + 6..i + 9], phone[i + 9..];
    assert phone[..i + 4] == phone[..i] + "+639";
    assert phone[i + 9..] == phone[i + 9..i + 13] + phone[i + 13..];
    assert phone[..i] + "+639 " + a + " " + b + " " + phone[i + 9..i + 13] + phone[i + 13..]
        == pre + " " + a + " " + b + " " + q;
    StripThreeSpaces(pre, a, b, q);
    assert pre + a + b + q == phone;
  }

  /** Rewriting a local match at i only adds spaces. */
  lemma {:induction false} LocalOnlyAddsSpaces(phone: string, i: int)
    requires LocalAt(phone, i)
    ensures StripSeparators(LocalRewrite(phone, i)) == StripSeparators(phone)
  {
    var pre, a, q := phone[..i + 4], phone[i + 4..i + 7], phone[i + 7..];
    assert phone[..i + 4] == phone[..i] + phone[i..i + 4];
    assert phone[i + 7..] == phone[i + 7..i + 11] + phone[i + 11..];
    assert phone[..i] + phone[i..i + 4] + " " + a + " " + phone[i + 7..i + 11] + phone[i + 11..]
        == pre + " " + a + " " + q;
    StripTwoSpaces(pre, a, q);
    assert pre + a + q == phone;
  }

  /** Formatting only adds spaces: stripping the separators again gives the same characters. */
  lemma {:induction false} FormatOnlyAddsSpaces(phone: string)
    ensures StripSeparators(FormatPhoneNumber(phone)) == StripSeparators(phone)
  {
    if StartsWith(phone, "+639") {
      var m := FirstMatch(phone, InternationalAt, 0);
      if m.Some? {
        InternationalOnlyAddsSpaces(phone, m.value);
      }
    } else if StartsWith(phone, "09") {
      var m := FirstMatch(phone, LocalAt, 0);
      if m.Some? {
        LocalOnlyAddsSpaces(phone, m.value);
      }
    }
  }

  /** So the general phone check gives the same answer before and after formatting. */
  lemma FormatKeepsValidity(phone: string)
    ensures IsValidPhoneNumber(FormatPhoneNumber(phone)) <==> IsValidPhoneNumber(phone)
  {
    FormatOnlyAddsSpaces(phone);
  }

  // ---------------------------------------------------------------------
  // createCustomerMock and createCustomer

  const DuplicateEmail := "duplicate@example.com"

  // The messages the mock pushes.
  const FirstNameRequired := "First name is required"
  const LastNameRequired := "Last name is required"
  const EmailRequired := "Email is required"
  const EmailInvalid := "Please enter a valid email address"
  const PhoneRequired := "Phone number is required"
  const PhoneInvalid := "Please enter a valid Philippine phone number"
  const EmailTaken := "A customer with this email already exists"

  function FieldError(field: string, message: string): ApiError {
    ApiError(message, Some(field))
  }

  /** The checks of the mock, in the order they push their errors. */
  function CustomerErrors(form: CustomerForm): seq<ApiError> {
    NameErrors(form) + EmailErrors(form) + PhoneErrors(form) + DuplicateErrors(form)
  }

  function NameErrors(form: CustomerForm): seq<ApiError> {
    (if form.firstName == "" then [FieldError("firstName", FirstNameRequired)] else [])
    + (if form.lastName == "" then [FieldError("lastName", LastNameRequired)] else [])
  }

  function EmailErrors(form: CustomerForm): seq<ApiError> {
    if form.email == "" then [FieldError("email", EmailRequired)]
    else if !IsValidEmail(form.email) then [FieldError("email", EmailInvalid)]
    else []
  }

  function PhoneErrors(form: CustomerForm): seq<ApiError> {
    if form.phone == "" then [FieldError("phone", PhoneRequired)]
    else if !ValidatePhoneNumber(form.phone) then [FieldError("phone", PhoneInvalid)]
    else []
  }

  function DuplicateErrors(form: CustomerForm): seq<ApiError> {
    if form.email == DuplicateEmail then [FieldError("email", EmailTaken)] else []
  }

  /** The customer the mock creates, with id `customer-<now>`. */
  function NewCustomer(form: CustomerForm, now: string): Customer {
    Customer("customer-" + now, form.firstName, form.lastName, form.email, form.phone,
             form.firstName + " " + form.lastName)
  }

  function MockCreation(form: CustomerForm, now: string): MutationResponse<Customer> {
    var errors := CustomerErrors(form);
    if |errors| > 0 then Failure(errors, "Validation failed")
    else MutationResponse(true, Some(NewCustomer(form, now)), None, Some("Customer created successfully"))
  }

  /** createCustomerMock: push an error for each failed check, in order; succeed when there is none. */
  method CreateCustomerMock(form: CustomerForm, now: string) returns (r: MutationResponse<Customer>)
    ensures r == MockCreation(form, now)
  {
    var errors: seq<ApiError> := [];
    if form.firstName == "" {
      errors := errors + [FieldError("firstName", FirstNameRequired)];
    }
    if form.lastName == "" {
      errors := errors + [FieldError("lastName", LastNameRequired)];
    }
    assert errors == NameErrors(form);
    if form.email == "" {
      errors := errors + [FieldError("email", EmailRequired)];
    } else if !IsValidEmail(form.email) {
      errors := errors + [FieldError("email", EmailInvalid)];
    }
    assert errors == NameErrors(form) + EmailErrors(form);
    if form.phone == "" {
      errors := errors + [FieldError("phone", PhoneRequired)];
    } else if !ValidatePhoneNumber(form.phone) {
      errors := errors + [FieldError("phone", PhoneInvalid)];
    }
    assert errors == NameErrors(form) + EmailErrors(form) + PhoneErrors(form);
    if form.email == DuplicateEmail {
      errors := errors + [FieldError("email", EmailTaken)];
    }
    assert errors == CustomerErrors(form);
    if |errors| > 0 {
      return Failure(errors, "Validation failed");
    }
    return MutationResponse(true, Some(NewCustomer(form, now)), None, Some("Customer created successfully"));
  }

  /**
   * The mock succeeds exactly when both names are given, the email and
   * phone are valid and the email is not the taken one; the customer then
   * carries the form's fields and the full name 'first last'.
   */
  lemma MockCreationOutcome(form: CustomerForm, now: string)
    ensures MockCreation(form, now).success <==>
      form.firstName != "" && form.lastName != "" && IsValidEmail(form.email)
      && ValidatePhoneNumber(form.phone) && form.email != DuplicateEmail
    ensures MockCreation(form, now).success ==>
      MockCreation(form, now).data == Some(Customer("customer-" + now, form.firstName, form.lastName,
        form.email, form.phone, form.firstName + " " + form.lastName))
    ensures !MockCreation(form, now).success ==> MockCreation(form, now).errors.Some? && |MockCreation(form, now).errors.value| > 0
  {
    if form.email != "" && !IsValidEmail(form.email) {
      assert |CustomerErrors(form)| > 0;
    }
    if IsValidEmail(form.email) {
      EmailHasNoSpace(form.email);
    }
  }

  /** The errors come in check order: a missing first name is always reported first. */
  lemma MockErrorOrder(form: CustomerForm)
    ensures form.firstName == "" ==> CustomerErrors(form)[0] == FieldError("firstName", FirstNameRequired)
    ensures form.firstName != "" && form.lastName == "" ==>
      CustomerErrors(form)[0] == FieldError("lastName", LastNameRequired)
    ensures form.email == DuplicateEmail ==>
      CustomerErrors(form)[|CustomerErrors(form)| - 1] == FieldError("email", EmailTaken)
    ensures |CustomerErrors(form)| <= 5
  {
  }

  /** What `createCustomer` mutation returns under `data.createCustomer`. */
  datatype CustomerPayload = CustomerPayload(customer: Option<Customer>, errors: Option<seq<ApiError>>)

  const UnknownCreation := "Unknown error occurred during customer creation"
  const NetworkError := "Network error or server unavailable"

  /** createCustomer: the mock in development, otherwise the mutation's outcome classified. */
  function CreateCustomer(form: CustomerForm, dev: bool, now: string, outcome: CallOutcome<CustomerPayload>): (r: MutationResponse<Customer>)
    ensures dev ==> r == MockCreation(form, now)
    ensures !dev && outcome.Threw? ==> r == Failure(OneError(NetworkError), "Failed to create customer")
    ensures !dev ==> (r.success <==>
      (outcome.Returned? && outcome.payload.Some? && outcome.payload.value.customer.Some?
       && (outcome.payload.value.errors.None? || |outcome.payload.value.errors.value| == 0)))
    ensures !dev && r.success ==> r.data == outcome.payload.value.customer
    ensures (!dev && outcome.Returned? && outcome.payload.Some? && outcome.payload.value.errors.Some?
             && |outcome.payload.value.errors.value| > 0) ==>
      r == MutationResponse(false, None, outcome.payload.value.errors, Some("Customer creation failed with validation errors"))
    ensures !dev && r.success ==> r.message == Some("Customer created successfully")
    ensures (!dev && outcome.Returned?
             && !(outcome.payload.Some? && outcome.payload.value.errors.Some? && |outcome.payload.value.errors.value| > 0)
             && !(outcome.payload.Some? && outcome.payload.value.customer.Some?)) ==>
      r == Failure(OneError(UnknownCreation), "Customer creation failed")
  {
    if dev then MockCreation(form, now)
    else
      match outcome
      case Threw => Failure(OneError(NetworkError), "Failed to create customer")
      case Returned(None) => Failure(OneError(UnknownCreation), "Customer creation failed")
      case Returned(Some(p)) =>
        if p.errors.Some? && |p.errors.value| > 0 then
          MutationResponse(false, None, p.errors, Some("Customer creation failed with validation errors"))
        else if p.customer.Some? then
          MutationResponse(true, p.customer, None, Some("Customer created successfully"))
        else Failure(OneError(UnknownCreation), "Customer creation failed")
  }
}
