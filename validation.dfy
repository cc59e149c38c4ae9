/**
 * The product form's rule table and the storefront's stand-alone
 * validators (src/utils/validation.ts). The regular expressions are
 * written out twice: once as the shape the pattern matches, once as the
 * description of what it accepts, with a lemma that the two agree.
 */
module Validation {
  import opened Wrappers
  import opened Text
  import opened Records
  import opened FormValidation

  // ---------------------------------------------------------------------
  // productValidationRules

  const PriceTooLow := "Price must be greater than \U{20B1}0.01"
  const PriceTooHigh := "Price must be less than \U{20B1}1,000,000.00"

  /** The largest price in cents: one million pesos. */
  const MaxPriceCents := 100000000

  /**
   * The custom rule on priceCents: a falsy value, or one that compares
   * below 1, is too low; one above 100000000 is too high. A value that is
   * not a number (NaN) compares false both ways and passes.
   */
  function PriceCheck(v: FormValue): CustomResult {
    if !Truthy(v) || (NumberOf(v).Some? && NumberOf(v).value < 1) then Message(PriceTooLow)
    else if NumberOf(v).Some? && NumberOf(v).value > MaxPriceCents then Message(PriceTooHigh)
    else Pass
  }

  const NameRules := [NoRule.(required := true), NoRule.(minLength := Some(2)), NoRule.(maxLength := Some(100))]
  const DescriptionRules := [NoRule.(maxLength := Some(500))]
  const CategoryIdRules := [NoRule.(required := true)]
  const ProductTypeRules := [NoRule.(required := true)]
  const PriceCentsRules := [NoRule.(required := true), NoRule.(custom := Some(PriceCheck))]

  const ProductValidationRules: seq<(string, seq<ValidationRule>)> := [
    ("name", NameRules),
    ("description", DescriptionRules),
    ("categoryId", CategoryIdRules),
    ("productType", ProductTypeRules),
    ("priceCents", PriceCentsRules)
  ]

  /** The table names each field once, so a validator can be built from it. */
  lemma ProductRulesDistinct()
    ensures DistinctKeys(ProductValidationRules)
    ensures Lookup(ProductValidationRules, "name") == Some(NameRules)
    ensures Lookup(ProductValidationRules, "priceCents") == Some(PriceCentsRules)
    ensures Lookup(ProductValidationRules, "description") == Some(DescriptionRules)
  {
    LookupDistinct(ProductValidationRules, 0);
    LookupDistinct(ProductValidationRules, 1);
    LookupDistinct(ProductValidationRules, 4);
  }

  /** A name is required and holds 2 to 100 characters; each failure has its own message. */
  lemma NameRulesOutcome(s: string)
    ensures FirstFailure(NameRules, Str(s)) ==
      if s == "" then Some(RequiredMessage)
      else if |s| < 2 then Some(MinLengthMessage(2))
      else if |s| > 100 then Some(MaxLengthMessage(100))
      else None
  {
    assert NameRules[1..][1..] == [NameRules[2]];
  }

  lemma NameAccepts(s: string)
    ensures FirstFailure(NameRules, Str(s)).None? <==> 2 <= |s| <= 100
  {
    NameRulesOutcome(s);
  }

  /** A description is optional and holds at most 500 characters. */
  lemma DescriptionRulesOutcome(s: string)
    ensures FirstFailure(DescriptionRules, Str(s)) ==
      if |s| > 500 then Some(MaxLengthMessage(500)) else None
    ensures FirstFailure(DescriptionRules, Null).None? && FirstFailure(DescriptionRules, Undefined).None?
  {
  }

  /**
   * A price in cents passes exactly from 1 to 100000000; 0 or below gets
   * the first message, above the maximum the second.
   */
  lemma PriceRulesOutcome(n: int)
    ensures FirstFailure(PriceCentsRules, Num(n)) ==
      if n < 1 then Some(PriceTooLow)
      else if n > MaxPriceCents then Some(PriceTooHigh)
      else None
  {
    CustomOutcome(PriceCheck, Num(n));
  }

  lemma PriceAccepts(n: int)
    ensures FirstFailure(PriceCentsRules, Num(n)).None? <==> 1 <= n <= MaxPriceCents
  {
    PriceRulesOutcome(n);
  }

  /** An absent or empty price fails on `required` before the custom rule runs. */
  lemma MissingPrice(v: FormValue)
    requires IsBlank(v)
    ensures FirstFailure(PriceCentsRules, v) == Some(RequiredMessage)
  {
  }

  // ---------------------------------------------------------------------
  // validateImageFile

  /** The part of a `File` the check reads: its MIME type and size in bytes. */
  datatype ImageFile = ImageFile(mimeType: string, size: int)

  datatype FileCheck = FileCheck(valid: bool, error: Option<string>)

  const MaxImageBytes := 5 * 1024 * 1024
  const AllowedImageTypes := ["image/jpeg", "image/png", "image/webp", "image/jpg"]
  const InvalidImageType := "Please select a valid image file (JPEG, PNG, or WebP)"
  const ImageTooLarge := "File size must be less than 5MB"

  function ValidateImageFile(file: ImageFile): (r: FileCheck)
    ensures r.valid <==> r.error.None?
    ensures file.mimeType !in AllowedImageTypes ==> r == FileCheck(false, Some(InvalidImageType))
    ensures file.mimeType in AllowedImageTypes && file.size > 5242880 ==> r == FileCheck(false, Some(ImageTooLarge))
    ensures r.valid <==> (file.mimeType in AllowedImageTypes && file.size <= 5242880)
  {
    if file.mimeType !in AllowedImageTypes then FileCheck(false, Some(InvalidImageType))
    else if file.size > MaxImageBytes then FileCheck(false, Some(ImageTooLarge))
    else FileCheck(true, None)
  }

  /** Exactly 5 MiB is accepted, one byte more is not, and a bad type is reported before a bad size. */
  lemma ImageFileBoundary(mimeType: string)
    ensures ValidateImageFile(ImageFile("image/png", 5242880)).valid
    ensures !ValidateImageFile(ImageFile("image/png", 5242881)).valid
    ensures mimeType !in AllowedImageTypes ==>
      ValidateImageFile(ImageFile(mimeType, 5242881)).error == Some(InvalidImageType)
  {
  }

  // ---------------------------------------------------------------------
  // isValidEmail: /^[^\s@]+@[^\s@]+\.[^\s@]+$/

  /** `[^\s@]`: neither white space nor '@'. */
  predicate EmailChar(c: char) {
    !IsSpace(c) && c != '@'
  }

  /** Every character of s[a..b] is an EmailChar. */
  predicate EmailChars(s: string, a: int, b: int)
    requires 0 <= a <= b <= |s|
  {
    forall k :: a <= k < b ==> EmailChar(s[k])
  }

  /** The pattern matches with its '@' at `at` and its '.' at `dot`. */
  predicate EmailMatchAt(s: string, at: int, dot: int) {
    0 < at && at + 1 < dot && dot + 1 < |s| && s[at] == '@' && s[dot] == '.'
    && EmailChars(s, 0, at) && EmailChars(s, at + 1, dot) && EmailChars(s, dot + 1, |s|)
  }

  /** The regular expression matches the whole string. */
  ghost predicate EmailPattern(s: string) {
    exists at, dot :: EmailMatchAt(s, at, dot)
  }

  /** The index of the first occurrence of `c`, if any. */
  function IndexOf(s: string, c: char): (r: Option<nat>)
    ensures r.None? <==> forall k :: 0 <= k < |s| ==> s[k] != c
    ensures r.Some? ==> r.value < |s| && s[r.value] == c && forall k :: 0 <= k < r.value ==> s[k] != c
  {
    if s == [] then None
    else if s[0] == c then Some(0)
    else
      match IndexOf(s[1..], c)
      case None => None
      case Some(i) => Some(i + 1)
  }

  /**
   * isValidEmail: no white space, exactly one '@', something before it,
   * and after it a '.' that is neither the first nor the last character
   * of the domain.
   */
  predicate IsValidEmail(s: string) {
    match IndexOf(s, '@')
    case None => false
    case Some(at) =>
      at > 0 && EmailChars(s, 0, at) && EmailChars(s, at + 1, |s|)
      && exists dot :: at + 1 < dot < |s| - 1 && s[dot] == '.'
  }

  lemma {:induction false} EmailPatternIsValidEmail(s: string)
    ensures EmailPattern(s) <==> IsValidEmail(s)
  {
    if EmailPattern(s) {
      var at, dot :| EmailMatchAt(s, at, dot);
      assert IndexOf(s, '@') == Some(at);
      assert EmailChars(s, at + 1, |s|) by {
        forall k | at + 1 <= k < |s| ensures EmailChar(s[k]) {
          if k < dot {
            assert EmailChars(s, at + 1, dot);
          } else if k > dot {
            assert EmailChars(s, dot + 1, |s|);
          }
        }
      }
      assert at + 1 < dot < |s| - 1 && s[dot] == '.';
    }
    if IsValidEmail(s) {
      var at := IndexOf(s, '@').value;
      var dot :| at + 1 < dot < |s| - 1 && s[dot] == '.';
      assert EmailMatchAt(s, at, dot);
    }
  }

  /** An accepted address holds no white space and no '@' besides its one separator. */
  lemma EmailHasNoSpace(s: string)
    requires IsValidEmail(s)
    ensures forall k :: 0 <= k < |s| ==> !IsSpace(s[k])
    ensures forall k :: 0 <= k < |s| && s[k] == '@' ==> IndexOf(s, '@') == Some(k)
  {
    var at := IndexOf(s, '@').value;
    forall k | 0 <= k < |s|
      ensures !IsSpace(s[k]) && (s[k] == '@' ==> k == at)
    {
      if k < at {
        assert EmailChars(s, 0, at);
      } else if k > at {
        assert EmailChars(s, at + 1, |s|);
      }
    }
  }

  // ---------------------------------------------------------------------
  // isValidPhoneNumber: strip /[\s\-\(\)]/g, then /^(\+63|63|0)?[89]\d{9}$/

  /** The characters the phone check removes before matching. */
  predicate Separator(c: char) {
    IsSpace(c) || c == '-' || c == '(' || c == ')'
  }

  /** `phone.replace(/[\s\-\(\)]/g, '')`: the string without its separators, in order. */
  function StripSeparators(s: string): (r: string)
    ensures |r| <= |s|
    ensures forall k :: 0 <= k < |r| ==> !Separator(r[k])
    ensures (forall k :: 0 <= k < |s| ==> !Separator(s[k])) ==> r == s
  {
    if s == [] then []
    else if Separator(s[0]) then StripSeparators(s[1..])
    else
      var rest := StripSeparators(s[1..]);
      assert forall k :: 0 < k < |s| ==> s[k] == s[1..][k - 1];
      [s[0]] + rest
  }

  lemma {:induction false} StripAppend(a: string, b: string)
    ensures StripSeparators(a + b) == StripSeparators(a) + StripSeparators(b)
  {
    if a == [] {
      assert a + b == b;
    } else {
      assert (a + b)[0] == a[0];
      assert (a + b)[1..] == a[1..] + b;
      StripAppend(a[1..], b);
    }
  }

  lemma StripIdempotent(s: string)
    ensures StripSeparators(StripSeparators(s)) == StripSeparators(s)
  {
  }

  /** `[89]\d{9}`: ten digits, the first 8 or 9. */
  predicate MobileDigits(t: string) {
    |t| == 10 && (t[0] == '8' || t[0] == '9') && AllDigits(t)
  }

  /** The regular expression with its optional group: some allowed prefix, then the ten digits. */
  ghost predicate PhonePattern(t: string) {
    exists p :: p in ["", "+63", "63", "0"] && |p| <= |t| && t[..|p|] == p && MobileDigits(t[|p|..])
  }

  /** The same match decided by length: 10, 11 ('0'), 12 ('63') or 13 ('+63') characters. */
  predicate PhoneDigits(t: string) {
    if |t| == 10 then MobileDigits(t)
    else if |t| == 11 then t[0] == '0' && MobileDigits(t[1..])
    else if |t| == 12 then t[..2] == "63" && MobileDigits(t[2..])
    else if |t| == 13 then t[..3] == "+63" && MobileDigits(t[3..])
    else false
  }

  lemma PhonePatternByLength(t: string)
    ensures PhonePattern(t) <==> PhoneDigits(t)
  {
    if PhoneDigits(t) {
      if |t| == 10 {
        assert t[..0] == "" && t[0..] == t;
      } else if |t| == 11 {
        assert t[..1] == "0";
      } else if |t| == 13 {
        assert "+63" in ["", "+63", "63", "0"];
      }
    }
  }

  predicate IsValidPhoneNumber(phone: string) {
    PhoneDigits(StripSeparators(phone))
  }

  /** Stripping removes a separator wherever it stands. */
  lemma {:induction false} StripDropsSeparator(a: string, c: char, b: string)
    requires Separator(c)
    ensures StripSeparators(a + [c] + b) == StripSeparators(a + b)
  {
    StripAppend(a + [c], b);
    StripAppend(a, [c]);
    StripAppend(a, b);
    assert StripSeparators([c]) == [];
    assert StripSeparators(a + [c]) == StripSeparators(a);
  }

  /** So separators anywhere are ignored by the phone check. */
  lemma PhoneIgnoresSeparator(a: string, c: char, b: string)
    requires Separator(c)
    ensures IsValidPhoneNumber(a + [c] + b) <==> IsValidPhoneNumber(a + b)
  {
    StripDropsSeparator(a, c, b);
  }

  /** A string of digits and '+' signs has nothing to strip. */
  lemma NothingToStrip(t: string)
    requires forall k :: 0 <= k < |t| ==> IsDigit(t[k]) || t[k] == '+'
    ensures StripSeparators(t) == t
  {
  }

  /** Each of the four written forms of a mobile number is accepted. */
  lemma {:induction false} PhoneForms(d: string)
    requires MobileDigits(d)
    ensures IsValidPhoneNumber(d)
    ensures IsValidPhoneNumber("0" + d)
    ensures IsValidPhoneNumber("63" + d)
    ensures IsValidPhoneNumber("+63" + d)
  {
    NothingToStrip(d);
    NothingToStrip("0" + d);
    NothingToStrip("63" + d);
    NothingToStrip("+63" + d);
    assert ("0" + d)[1..] == d;
    assert ("63" + d)[..2] == "63" && ("63" + d)[2..] == d;
    assert ("+63" + d)[..3] == "+63" && ("+63" + d)[3..] == d;
  }

  // ---------------------------------------------------------------------
  // isValidPrice

  /** isValidPrice on a finite price in pesos. */
  predicate IsValidPrice(price: real) {
    0.0 < price <= 1000000.0
  }

  /** A whole number of cents is a valid price in pesos exactly when the price rule accepts it. */
  lemma PriceInPesosAgrees(cents: int)
    ensures IsValidPrice(cents as real / 100.0) <==> FirstFailure(PriceCentsRules, Num(cents)).None?
  {
    PriceAccepts(cents);
  }
}
