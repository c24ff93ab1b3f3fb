/** The contact-form check of main.js: three required fields, then an email shape test. */
module ContactForm {
  import opened Text

  /** What a submission comes to: the first failing rule, or the acknowledged sender. */
  datatype Outcome = MissingField | InvalidEmail | Ok(name: string, email: string)

  /** `[^\s@]`: a character allowed in each of the three parts of the address. */
  predicate AddressChar(c: char) {
    !IsSpace(c) && c != '@'
  }

  /** `[^\s@]+` without the length: every character of `t` is an address character. */
  predicate AllAddressChars(t: string) {
    forall i :: 0 <= i < |t| ==> AddressChar(t[i])
  }

  /** The pattern `^[^\s@]+@[^\s@]+\.[^\s@]+$` read as a regular expression: the
      string splits at some `@` (position `at`) and some later `.` (position `dot`)
      into three non-empty runs of address characters. */
  ghost predicate MatchesEmailPattern(s: string) {
    exists at, dot ::
      && 0 < at && at + 1 < dot && dot + 1 < |s|
      && s[at] == '@' && s[dot] == '.'
      && AllAddressChars(s[..at]) && AllAddressChars(s[at + 1..dot]) && AllAddressChars(s[dot + 1..])
  }

  predicate NoSpace(s: string) {
    forall i :: 0 <= i < |s| ==> !IsSpace(s[i])
  }

  /** `at` is the position of the one and only `@` in `s`. */
  predicate OnlyAtSignAt(s: string, at: int) {
    && 0 <= at < |s| && s[at] == '@'
    && forall k :: 0 <= k < |s| && k != at ==> s[k] != '@'
  }

  /** `d` has a `.` that is neither its first nor its last character. */
  predicate HasInnerDot(d: string) {
    exists k :: 0 < k < |d| - 1 && d[k] == '.'
  }

  /** The same test stated by the parts of the address: exactly one `@`, no
      whitespace, a non-empty part before the `@`, and a part after it with a
      `.` that is neither its first nor its last character. */
  predicate EmailShape(s: string) {
    && NoSpace(s)
    && exists at | 0 < at < |s| :: OnlyAtSignAt(s, at) && HasInnerDot(s[at + 1..])
  }

  /** Every string the regular expression accepts has the structural shape. */
  lemma PatternHasShape(s: string)
    requires MatchesEmailPattern(s)
    ensures EmailShape(s)
  {
    var at, dot :|
      && 0 < at && at + 1 < dot && dot + 1 < |s|
      && s[at] == '@' && s[dot] == '.'
      && AllAddressChars(s[..at]) && AllAddressChars(s[at + 1..dot]) && AllAddressChars(s[dot + 1..]);
    forall k | 0 <= k < |s| && k != at
      ensures s[k] != '@' && !IsSpace(s[k])
    {
      if k < at {
        assert s[..at][k] == s[k];
      } else if k < dot {
        assert s[at + 1..dot][k - at - 1] == s[k];
      } else if k > dot {
        assert s[dot + 1..][k - dot - 1] == s[k];
      }
    }
    assert OnlyAtSignAt(s, at);
    assert s[at + 1..][dot - at - 1] == '.';
    assert HasInnerDot(s[at + 1..]);
  }

  /** Every string of the structural shape is accepted by the regular expression. */
  lemma ShapeMatchesPattern(s: string)
    requires EmailShape(s)
    ensures MatchesEmailPattern(s)
  {
    var at :| 0 < at < |s| && OnlyAtSignAt(s, at) && HasInnerDot(s[at + 1..]);
    var domain := s[at + 1..];
    var k :| 0 < k < |domain| - 1 && domain[k] == '.';
    var dot := at + 1 + k;
    assert s[dot] == '.';
    var local, host, top := s[..at], s[at + 1..dot], s[dot + 1..];
    forall i | 0 <= i < |local| ensures AddressChar(local[i]) {
      assert local[i] == s[i];
    }
    forall i | 0 <= i < |host| ensures AddressChar(host[i]) {
      assert host[i] == s[at + 1 + i];
    }
    forall i | 0 <= i < |top| ensures AddressChar(top[i]) {
      assert top[i] == s[dot + 1 + i];
    }
  }

  /** The regular expression accepts exactly the strings of the structural shape. */
  lemma PatternIsShape(s: string)
    ensures MatchesEmailPattern(s) <==> EmailShape(s)
  {
    if MatchesEmailPattern(s) {
      PatternHasShape(s);
    }
    if EmailShape(s) {
      ShapeMatchesPattern(s);
    }
  }

  /** `handleFormSubmit` without the page: a falsy (empty) field rejects first, then
      the email pattern, and otherwise the submission is acknowledged with the
      name and email as given. */
  function Validate(name: string, email: string, message: string): (r: Outcome)
    ensures r == MissingField <==> name == "" || email == "" || message == ""
    ensures r == InvalidEmail <==>
      name != "" && email != "" && message != "" && !MatchesEmailPattern(email)
    ensures r.Ok? <==> name != "" && message != "" && MatchesEmailPattern(email)
    ensures r.Ok? ==> r.name == name && r.email == email
  {
    PatternIsShape(email);
    if name == "" || email == "" || message == "" then MissingField
    else if !EmailShape(email) then InvalidEmail
    else Ok(name, email)
  }

  /** Three sample submissions: an empty name, a malformed email, a valid one. */
  lemma ValidationExamples()
    ensures Validate("", "a@b.com", "hi") == MissingField
    ensures Validate("Jo", "not-an-email", "hi") == InvalidEmail
    ensures Validate("Jo", "a@b.com", "hi") == Ok("Jo", "a@b.com")
  {
    var good := "a@b.com";
    assert good[..1] == "a" && good[2..3] == "b" && good[4..] == "com";
    assert AllAddressChars(good[..1]) && AllAddressChars(good[2..3]) && AllAddressChars(good[4..]);
    assert good[1] == '@' && good[3] == '.';
    assert MatchesEmailPattern(good);
    var bad := "not-an-email";
    assert forall i :: 0 <= i < |bad| ==> bad[i] != '@';
  }
}
