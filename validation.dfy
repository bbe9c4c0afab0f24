/**
 * The input validators and the sanitiser of the backend: total functions over strings and dates
 * with exact bounds, and the token generator over a fixed alphabet. Lengths are JavaScript
 * lengths, counted in UTF-16 code units (`Utf16Length`).
 */
module Validation {
  import opened Wrappers
  import opened JsStrings
  import Sequences

  /** The `{ valid, error? }` record several validators return. */
  datatype FieldCheck = FieldCheck(valid: bool, error: Option<string>)

  // ---------------------------------------------------------------------------------------------
  // validateEmail

  const MaxEmailLength := 255

  /** No character of `e` from `lo` up to `hi` is whitespace or `@`: one `[^\s@]` run. */
  predicate PlainRun(e: string, lo: int, hi: int)
    requires 0 <= lo <= hi <= |e|
  {
    forall k :: lo <= k < hi ==> !IsWhitespace(e[k]) && e[k] != '@'
  }

  /** The address pattern `^[^\s@]+@[^\s@]+\.[^\s@]+$` read literally: three non-empty runs free of
      whitespace and `@`, joined by an `@` at `i` and a `.` at `j`. */
  ghost predicate MatchesEmailPattern(e: string) {
    exists i, j :: 0 < i && i + 1 < j && j + 1 < |e| && e[i] == '@' && e[j] == '.'
                   && PlainRun(e, 0, i) && PlainRun(e, i + 1, j) && PlainRun(e, j + 1, |e|)
  }

  /** The domain, the text after the `@` at `at`, has a `.` with a character on each side. */
  predicate HasInnerDot(e: string, at: nat) {
    exists p :: at + 1 < p < |e| - 1 && e[p] == '.'
  }

  /** The address shape, check by check: no whitespace, exactly one `@`, a non-empty local part, and
      a domain with an inner dot. */
  predicate EmailShape(e: string) {
    && NoWhitespace(e)
    && match IndexOf(e, '@')
       case None => false
       case Some(k) => k > 0 && (forall q :: k < q < |e| ==> e[q] != '@') && HasInnerDot(e, k)
  }

  lemma EmailShapeMatchesPattern(e: string)
    requires EmailShape(e)
    ensures MatchesEmailPattern(e)
  {
    var k := IndexOf(e, '@').value;
    assert forall q :: 0 <= q < k ==> e[q] == e[..k][q];
    var j :| k + 1 < j < |e| - 1 && e[j] == '.';
    assert PlainRun(e, 0, k) && PlainRun(e, k + 1, j) && PlainRun(e, j + 1, |e|);
  }

  lemma PatternHasEmailShape(e: string)
    requires MatchesEmailPattern(e)
    ensures EmailShape(e)
  {
    var i, j :| 0 < i && i + 1 < j && j + 1 < |e| && e[i] == '@' && e[j] == '.'
                && PlainRun(e, 0, i) && PlainRun(e, i + 1, j) && PlainRun(e, j + 1, |e|);
    assert '@' !in e[..i] by {
      forall q | 0 <= q < i ensures e[..i][q] != '@' { assert e[..i][q] == e[q]; }
    }
    IndexOfFirst(e, '@', i);
    RunsJoined(e, i, j);
    assert HasInnerDot(e, i);
  }

  /** Three plain runs joined by `@` and `.` hold no whitespace, and no `@` after the first. */
  lemma RunsJoined(e: string, i: nat, j: nat)
    requires i < j < |e| && e[i] == '@' && e[j] == '.'
    requires PlainRun(e, 0, i) && PlainRun(e, i + 1, j) && PlainRun(e, j + 1, |e|)
    ensures NoWhitespace(e)
    ensures forall q :: i < q < |e| ==> e[q] != '@'
  {
    forall k | 0 <= k < |e|
      ensures !IsWhitespace(e[k])
      ensures i < k ==> e[k] != '@'
    {
      if k < i {
        assert PlainRun(e, 0, i);
      } else if k == i {
        assert e[k] == '@';
      } else if k < j {
        assert PlainRun(e, i + 1, j);
      } else if k == j {
        assert e[k] == '.';
      } else {
        assert PlainRun(e, j + 1, |e|);
      }
    }
  }

  lemma EmailShapeIsPattern(e: string)
    ensures EmailShape(e) <==> MatchesEmailPattern(e)
  {
    if EmailShape(e) { EmailShapeMatchesPattern(e); }
    if MatchesEmailPattern(e) { PatternHasEmailShape(e); }
  }

  /** validateEmail: the pattern matches and the address is at most 255 code units long. */
  function ValidateEmail(email: string): (r: bool)
    ensures r <==> MatchesEmailPattern(email) && Utf16Length(email) <= MaxEmailLength
    ensures r <==> EmailShape(email) && Utf16Length(email) <= MaxEmailLength
  {
    EmailShapeIsPattern(email);
    EmailShape(email) && Utf16Length(email) <= MaxEmailLength
  }

  // ---------------------------------------------------------------------------------------------
  // validatePassword

  const MinPasswordLength := 8
  const MaxPasswordLength := 128
  const PasswordTooShort := "Password must be at least 8 characters long"
  const PasswordTooLong := "Password must not exceed 128 characters"

  datatype PasswordCheck = PasswordCheck(valid: bool, errors: seq<string>)

  /** validatePassword: at most one of the two length errors, and valid exactly when none. */
  function ValidatePassword(password: string): (r: PasswordCheck)
    ensures r.valid <==> r.errors == []
    ensures r.valid <==> MinPasswordLength <= Utf16Length(password) <= MaxPasswordLength
    ensures |r.errors| <= 1
    ensures Utf16Length(password) < MinPasswordLength ==> r.errors == [PasswordTooShort]
    ensures Utf16Length(password) > MaxPasswordLength ==> r.errors == [PasswordTooLong]
  {
    var n := Utf16Length(password);
    var errors := (if n < MinPasswordLength then [PasswordTooShort] else [])
                  + (if n > MaxPasswordLength then [PasswordTooLong] else []);
    PasswordCheck(|errors| == 0, errors)
  }

  // ---------------------------------------------------------------------------------------------
  // validateAge

  /** A calendar date as the local-time getters give it; only the ordering of months and days is
      used, so whether months count from 0 or from 1 does not matter. */
  datatype Date = Date(year: int, month: int, day: int)

  /** `a` is on or before `b` in calendar order. */
  predicate OnOrBefore(a: Date, b: Date) {
    a.year < b.year || (a.year == b.year && (a.month < b.month || (a.month == b.month && a.day <= b.day)))
  }

  /** The same month and day `n` years after `d`. */
  function YearsAfter(d: Date, n: int): Date {
    Date(d.year + n, d.month, d.day)
  }

  /** This year's birthday has not been reached yet (validation.ts's month/day comparison). */
  predicate BirthdayPending(birth: Date, today: Date) {
    var monthDiff := today.month - birth.month;
    monthDiff < 0 || (monthDiff == 0 && today.day < birth.day)
  }

  /** The age the source computes: the difference of years, less one before the birthday. */
  function AgeOn(birth: Date, today: Date): int {
    today.year - birth.year - (if BirthdayPending(birth, today) then 1 else 0)
  }

  /** The age is the number of completed years: the anniversary `AgeOn` years after birth has been
      reached, and the next has not. */
  lemma AgeIsCompletedYears(birth: Date, today: Date)
    ensures OnOrBefore(YearsAfter(birth, AgeOn(birth, today)), today)
    ensures !OnOrBefore(YearsAfter(birth, AgeOn(birth, today) + 1), today)
    ensures AgeOn(birth, today) < 0 <==> !OnOrBefore(birth, today)
  {
  }

  const MinAge := 18
  const MaxAge := 150
  const InvalidBirthDate := "Invalid date of birth"
  const FutureBirthDate := "Date of birth cannot be in the future"
  const UnderAge := "You must be at least 18 years old to register"
  const ImplausibleAge := "Please enter a valid date of birth"

  datatype AgeCheck = AgeCheck(valid: bool, age: int, error: Option<string>)

  /** validateAge. `birth` is the parsed date of birth, `None` when it is not a valid date; `today`
      is the current local date. */
  function ValidateAge(birth: Option<Date>, today: Date): (r: AgeCheck)
    ensures r.valid <==> r.error.None?
    ensures r.valid <==> birth.Some? && MinAge <= AgeOn(birth.value, today) <= MaxAge
    ensures birth.None? ==> r == AgeCheck(false, 0, Some(InvalidBirthDate))
    ensures birth.Some? && AgeOn(birth.value, today) < 0 ==> r == AgeCheck(false, 0, Some(FutureBirthDate))
    ensures birth.Some? && AgeOn(birth.value, today) >= 0 ==> r.age == AgeOn(birth.value, today)
    ensures birth.Some? && 0 <= AgeOn(birth.value, today) < MinAge ==> r.error == Some(UnderAge)
    ensures birth.Some? && AgeOn(birth.value, today) > MaxAge ==> r.error == Some(ImplausibleAge)
  {
    match birth
    case None => AgeCheck(false, 0, Some(InvalidBirthDate))
    case Some(b) =>
      var age := AgeOn(b, today);
      if age < 0 then AgeCheck(false, 0, Some(FutureBirthDate))
      else if age < MinAge then AgeCheck(false, age, Some(UnderAge))
      else if age > MaxAge then AgeCheck(false, age, Some(ImplausibleAge))
      else AgeCheck(true, age, None)
  }

  // ---------------------------------------------------------------------------------------------
  // validatePhone

  /** `phone.replace(/\D/g, "")`: the ASCII digits of `phone`, in order. */
  function PhoneDigits(phone: string): (r: string)
    ensures forall k :: 0 <= k < |r| ==> IsAsciiDigit(r[k])
    ensures forall c :: IsAsciiDigit(c) ==> multiset(r)[c] == multiset(phone)[c]
  {
    Sequences.Filter(phone, IsAsciiDigit)
  }

  /** validatePhone: an empty phone is accepted (it is optional); otherwise it must hold 10 to 15
      digits, whatever else it contains. */
  function ValidatePhone(phone: string): (r: bool)
    ensures phone == [] ==> r
    ensures phone != [] ==> (r <==> 10 <= |PhoneDigits(phone)| <= 15)
  {
    if phone == [] then true
    else var digits := PhoneDigits(phone); |digits| >= 10 && |digits| <= 15
  }

  // ---------------------------------------------------------------------------------------------
  // validateCurrencyCode

  const ValidCurrencies: seq<string> :=
    ["USD", "EUR", "GBP", "JPY", "CAD", "AUD", "CHF", "CNY", "INR", "MXN", "BRL"]

  /** validateCurrencyCode: the upper-cased code is one of the eleven listed ISO 4217 codes. */
  function ValidateCurrencyCode(code: string): (r: bool)
    ensures r ==> |code| == 3
    ensures r ==> forall k :: 0 <= k < |code| ==>
                    IsAsciiLetter(code[k]) || code[k] == '\U{0131}' || code[k] == '\U{017F}'
  {
    var upper := ToUpper(code);
    if upper in ValidCurrencies then
      assert |upper| == 3;
      assert forall k :: 0 <= k < 3 ==> 'A' <= upper[k] <= 'Z';
      true
    else false
  }

  lemma {:induction false} ToUpperIdempotent(s: string)
    ensures ToUpper(ToUpper(s)) == ToUpper(s)
  {
    assert forall k :: 0 <= k < |s| ==> UpperChar(UpperChar(s[k])) == UpperChar(s[k]);
  }

  /** The check ignores case: a code and its upper-case form are accepted alike. */
  lemma {:induction false} CurrencyCodeIgnoresCase(code: string)
    ensures ValidateCurrencyCode(ToUpper(code)) == ValidateCurrencyCode(code)
  {
    ToUpperIdempotent(code);
  }

  /** Every listed code is accepted, in upper and in lower case. */
  lemma ListedCurrenciesAccepted(k: nat)
    requires k < |ValidCurrencies|
    ensures ValidateCurrencyCode(ValidCurrencies[k])
    ensures ValidateCurrencyCode(ToLower(ValidCurrencies[k]))
  {
    var c := ValidCurrencies[k];
    assert ToUpper(c) == c;
    assert ToUpper(ToLower(c)) == c;
  }

  /** Upper-casing is Unicode's: U+017F (long s) upper-cases to `S`, so "uſd" is accepted. */
  lemma LongSIsAcceptedInUsd()
    ensures ValidateCurrencyCode("u\U{017F}d")
  {
    assert ToUpper("u\U{017F}d") == "USD";
  }

  /** `c` is a way of writing the upper-case ASCII letter `u`: the letter itself, its lower case,
      or the one non-ASCII letter that upper-cases to it (U+0131 for `I`, U+017F for `S`). */
  predicate SpellsLetter(c: char, u: char) {
    c == u || c == LowerChar(u) || (u == 'I' && c == '\U{0131}') || (u == 'S' && c == '\U{017F}')
  }

  /** `code` spells the listed code `listed` letter by letter, in any case. */
  predicate SpellsCode(code: string, listed: string) {
    |code| == |listed| && forall i :: 0 <= i < |code| ==> SpellsLetter(code[i], listed[i])
  }

  lemma UpperCharSpells(c: char, u: char)
    requires 'A' <= u <= 'Z'
    ensures UpperChar(c) == u <==> SpellsLetter(c, u)
  {
  }

  /** A code is accepted exactly when it spells one of the eleven listed codes, in any case. */
  lemma {:induction false} CurrencyCodeAccepted(code: string)
    ensures ValidateCurrencyCode(code) <==>
              exists k :: 0 <= k < |ValidCurrencies| && SpellsCode(code, ValidCurrencies[k])
  {
    forall k | 0 <= k < |ValidCurrencies|
      ensures ToUpper(code) == ValidCurrencies[k] <==> SpellsCode(code, ValidCurrencies[k])
    {
      var listed := ValidCurrencies[k];
      assert |listed| == 3 && forall i :: 0 <= i < 3 ==> 'A' <= listed[i] <= 'Z';
      if |code| == 3 {
        forall i | 0 <= i < 3 ensures UpperChar(code[i]) == listed[i] <==> SpellsLetter(code[i], listed[i]) {
          UpperCharSpells(code[i], listed[i]);
        }
      }
    }
  }

  // ---------------------------------------------------------------------------------------------
  // sanitizeString

  const MaxSanitizedLength := 1000

  predicate IsAngle(c: char) { c == '<' || c == '>' }

  predicate NotAngle(c: char) { !IsAngle(c) }

  /** `s.replace(/[<>]/g, "")`. */
  function StripAngles(s: string): (r: string)
    ensures '<' !in r && '>' !in r
    ensures forall c :: NotAngle(c) ==> multiset(r)[c] == multiset(s)[c]
  {
    Sequences.Filter(s, NotAngle)
  }

  /** `s.substring(0, n)` with `n` counted in UTF-16 code units: the longest prefix of `s` that
      fits in `n` units. */
  function TakeUnits(s: string, n: nat): (r: string)
    ensures |r| <= |s| && r == s[..|r|]
    ensures Utf16Length(r) <= n
    ensures Utf16Length(s) <= n ==> r == s
    ensures |r| < |s| ==> Utf16Length(r) + CodeUnits(s[|r|]) > n
  {
    if s == [] || CodeUnits(s[0]) > n then []
    else
      var rest := TakeUnits(s[1..], n - CodeUnits(s[0]));
      assert [s[0]] + rest == s[..1 + |rest|];
      assert ([s[0]] + rest)[1..] == rest;
      [s[0]] + rest
  }

  /** sanitizeString: trim, delete every `<` and `>`, and keep at most 1000 code units. */
  function SanitizeString(input: string): (r: string)
    ensures Utf16Length(r) <= MaxSanitizedLength && |r| <= MaxSanitizedLength
    ensures '<' !in r && '>' !in r
    ensures |r| <= |StripAngles(Trim(input))|
    ensures r == StripAngles(Trim(input))[..|r|]
    ensures Utf16Length(StripAngles(Trim(input))) <= MaxSanitizedLength ==> r == StripAngles(Trim(input))
    ensures r != StripAngles(Trim(input)) ==> Utf16Length(r) >= MaxSanitizedLength - 1
  {
    var stripped := StripAngles(Trim(input));
    TakeUnits(stripped, MaxSanitizedLength)
  }

  /** Sanitising is not idempotent: trimming comes before stripping, so a space left in front of a
      deleted `>` survives the first pass and is trimmed by the second. */
  lemma SanitizeIsNotIdempotent()
    ensures SanitizeString("a >") == "a "
    ensures SanitizeString(SanitizeString("a >")) == "a"
  {
    SampleTrims();
    SampleStrips();
    SampleTakes();
    assert StripAngles(Trim("a >")) == "a ";
    assert SanitizeString("a >") == TakeUnits("a ", MaxSanitizedLength);
    assert StripAngles(Trim("a ")) == "a";
    assert SanitizeString("a ") == TakeUnits("a", MaxSanitizedLength);
  }

  lemma SampleTrims()
    ensures Trim("a >") == "a >" && Trim("a ") == "a"
  {
    assert LeadingWhitespace("a >") == 0 && TrailingWhitespace("a >") == 0;
    assert LeadingWhitespace("a ") == 0 && TrailingWhitespace("a ") == 1 by {
      assert "a "[..1] == "a";
    }
  }

  lemma SampleStrips()
    ensures StripAngles("a >") == "a " && StripAngles("a") == "a"
  {
    StripsSplit();
    StripsKept("a ");
    StripsKept("a");
    StripsLoneAngle();
  }

  lemma StripsSplit()
    ensures StripAngles("a >") == StripAngles("a ") + StripAngles(">")
  {
    assert "a >" == "a " + ">";
    Sequences.FilterAppend("a ", ">", NotAngle);
  }

  lemma StripsKept(s: string)
    requires '<' !in s && '>' !in s
    ensures StripAngles(s) == s
  {
    Sequences.FilterAllKept(s, NotAngle);
  }

  lemma StripsLoneAngle()
    ensures StripAngles(">") == []
  {
    assert ">"[1..] == [];
    assert !NotAngle('>');
  }

  lemma SampleTakes()
    ensures TakeUnits("a ", MaxSanitizedLength) == "a " && TakeUnits("a", MaxSanitizedLength) == "a"
  {
    assert "a "[1..] == " " && " "[1..] == [] && "a"[1..] == [];
  }

  // ---------------------------------------------------------------------------------------------
  // validateWalletName, validateName

  const MaxWalletNameLength := 100
  const WalletNameRequired := "Wallet name is required"
  const WalletNameTooLong := "Wallet name must not exceed 100 characters"

  /** validateWalletName: the trimmed name holds 1 to 100 code units. */
  function ValidateWalletName(name: string): (r: FieldCheck)
    ensures r.valid <==> r.error.None?
    ensures r.valid <==> 1 <= Utf16Length(Trim(name)) <= MaxWalletNameLength
    ensures Trim(name) == [] ==> r.error == Some(WalletNameRequired)
    ensures Utf16Length(Trim(name)) > MaxWalletNameLength ==> r.error == Some(WalletNameTooLong)
  {
    var n := Utf16Length(Trim(name));
    if n < 1 then FieldCheck(false, Some(WalletNameRequired))
    else if n > MaxWalletNameLength then FieldCheck(false, Some(WalletNameTooLong))
    else FieldCheck(true, None)
  }

  const MaxNameLength := 255
  const NameRequired := "Name is required"
  const NameTooLong := "Name must not exceed 255 characters"
  const NameNeedsLetter := "Name must contain at least one letter"

  predicate HasAsciiLetter(s: string) {
    exists k :: 0 <= k < |s| && IsAsciiLetter(s[k])
  }

  /** validateName: the trimmed name holds 1 to 255 code units and an ASCII letter; the length
      checks are made first. */
  function ValidateName(name: string): (r: FieldCheck)
    ensures r.valid <==> r.error.None?
    ensures r.valid <==> 1 <= Utf16Length(Trim(name)) <= MaxNameLength && HasAsciiLetter(Trim(name))
    ensures Trim(name) == [] ==> r.error == Some(NameRequired)
    ensures Utf16Length(Trim(name)) > MaxNameLength ==> r.error == Some(NameTooLong)
    ensures r.error == Some(NameNeedsLetter) <==>
              1 <= Utf16Length(Trim(name)) <= MaxNameLength && !HasAsciiLetter(Trim(name))
  {
    var trimmed := Trim(name);
    var n := Utf16Length(trimmed);
    if n < 1 then FieldCheck(false, Some(NameRequired))
    else if n > MaxNameLength then FieldCheck(false, Some(NameTooLong))
    else if !HasAsciiLetter(trimmed) then FieldCheck(false, Some(NameNeedsLetter))
    else FieldCheck(true, None)
  }

  // ---------------------------------------------------------------------------------------------
  // generateToken

  /** The alphabet of the source, "ABC…XYZabc…xyz012…789": the 26 upper-case letters, the 26
      lower-case letters and the 10 digits, in that order. */
  const Charset: string :=
    seq(26, i requires 0 <= i < 26 => ('A' as int + i) as char)
    + seq(26, i requires 0 <= i < 26 => ('a' as int + i) as char)
    + seq(10, i requires 0 <= i < 10 => ('0' as int + i) as char)

  predicate IsAlphanumeric(c: char) { IsAsciiLetter(c) || IsAsciiDigit(c) }

  /** The alphabet has 62 characters, and they are exactly the ASCII letters and digits. */
  lemma CharsetIsAlphanumeric()
    ensures |Charset| == 62
    ensures forall k :: 0 <= k < |Charset| ==> IsAlphanumeric(Charset[k])
    ensures forall c :: IsAlphanumeric(c) ==> c in Charset
  {
    forall c | IsAlphanumeric(c) ensures c in Charset {
      if 'A' <= c <= 'Z' {
        assert Charset[c as int - 'A' as int] == c;
      } else if 'a' <= c <= 'z' {
        assert Charset[26 + c as int - 'a' as int] == c;
      } else {
        assert Charset[52 + c as int - '0' as int] == c;
      }
    }
  }

  /** The token the random positions `picks` select from the alphabet. */
  function TokenOf(picks: seq<nat>): (token: string)
    requires forall i :: 0 <= i < |picks| ==> picks[i] < |Charset|
    ensures |token| == |picks|
    ensures forall i :: 0 <= i < |token| ==> IsAlphanumeric(token[i])
  {
    CharsetIsAlphanumeric();
    seq(|picks|, i requires 0 <= i < |picks| => Charset[picks[i]])
  }

  /** generateToken. `picks[i]` is the i-th `Math.floor(Math.random() * charset.length)`, which lies
      in 0..61; the token is the characters of the alphabet at those positions. */
  method GenerateToken(length: nat, picks: seq<nat>) returns (token: string)
    requires |picks| == length
    requires forall i :: 0 <= i < |picks| ==> picks[i] < |Charset|
    ensures |token| == length
    ensures forall i :: 0 <= i < length ==> token[i] == Charset[picks[i]]
    ensures forall i :: 0 <= i < length ==> IsAlphanumeric(token[i])
    ensures token == TokenOf(picks)
  {
    CharsetIsAlphanumeric();
    token := "";
    for i := 0 to length
      invariant |token| == i
      invariant forall k :: 0 <= k < i ==> token[k] == Charset[picks[k]]
    {
      token := token + [Charset[picks[i]]];
    }
  }
}
