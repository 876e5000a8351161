/**
 * The validation constraints declared on the entity fields, as predicates.
 * A field value is an `Option<string>` (PHP's `?string`); a group set says
 * which validation groups are active. A constraint declared without a group
 * belongs to the `Default` group. Lengths count characters, as `mb_strlen` does.
 */
module Constraints {
  import opened Wrappers

  datatype Group = Default | UtilisateurCreate | UtilisateurUpdate

  /** The groups a user creation validates against. */
  const CreateGroups: set<Group> := {UtilisateurCreate, Default}
  /** The groups a user update validates against. */
  const UpdateGroups: set<Group> := {UtilisateurUpdate, Default}

  // ---- The generic constraints -------------------------------------------

  /** `NotNull`. */
  predicate NotNull(v: Option<string>) { v.Some? }

  /**
   * `NotBlank` (no normaliser): null and the empty string are blank; a string
   * of spaces is not.
   */
  predicate NotBlank(v: Option<string>) { v.Some? && v.value != "" }

  /** `Length(min, max)`: null passes; otherwise the length lies in [min, max]. */
  predicate Length(v: Option<string>, min: nat, max: nat) {
    v.None? || min <= |v.value| <= max
  }

  // ---- Character classes of the password pattern -----------------------

  datatype CharClass = Lower | Upper | Digit

  /** `[a-z]`, `[A-Z]`, `\d` (ASCII digits: the pattern has no `u` modifier). */
  predicate InClass(c: char, k: CharClass) {
    match k
    case Lower => 'a' <= c <= 'z'
    case Upper => 'A' <= c <= 'Z'
    case Digit => '0' <= c <= '9'
  }

  /** `[a-zA-Z\d]`. */
  predicate IsAlphanumeric(c: char) {
    InClass(c, Lower) || InClass(c, Upper) || InClass(c, Digit)
  }

  /** Some character of `s` belongs to class `k`. */
  predicate HasClass(s: string, k: CharClass) {
    exists i :: 0 <= i < |s| && InClass(s[i], k)
  }

  // ---- The password pattern, transcribed operator by operator -------------

  /**
   * `(?=.*[k])` at the start of the subject: a character of class `k` occurs
   * before the first line break (`.` does not match a line break).
   */
  predicate LookaheadFinds(s: string, k: CharClass) {
    exists i :: 0 <= i < |s| && InClass(s[i], k) && forall j :: 0 <= j < i ==> s[j] != '\n'
  }

  /**
   * `^[a-zA-Z\d]{8,30}$` with the repetition taking `k` characters. With
   * `dollarEndOnly` false (PCRE's default, the pattern carries no `D`
   * modifier) `$` also matches just before a final line break; with it true
   * `$` matches only at the end of the subject.
   */
  predicate BodyOfLength(s: string, k: nat, dollarEndOnly: bool) {
    8 <= k <= 30 && k <= |s|
    && (forall j :: 0 <= j < k ==> IsAlphanumeric(s[j]))
    && (k == |s| || (!dollarEndOnly && k == |s| - 1 && s[k] == '\n'))
  }

  /** `^[a-zA-Z\d]{8,30}$`: some length of the repetition lets `$` match. */
  predicate AnchoredBody(s: string, dollarEndOnly: bool) {
    exists k: nat | k <= |s| :: BodyOfLength(s, k, dollarEndOnly)
  }

  /** `#^(?=.*[a-z])(?=.*[A-Z])(?=.*\d)[a-zA-Z\d]{8,30}$#`, under the chosen `$`. */
  predicate PasswordPatternMatches(s: string, dollarEndOnly: bool) {
    LookaheadFinds(s, Lower) && LookaheadFinds(s, Upper) && LookaheadFinds(s, Digit)
    && AnchoredBody(s, dollarEndOnly)
  }

  /** `Regex`: null and the empty string pass; anything else must match. */
  predicate RegexPasses(v: Option<string>, dollarEndOnly: bool) {
    v.None? || v.value == "" || PasswordPatternMatches(v.value, dollarEndOnly)
  }

  /**
   * With `$` anchored at the very end, the pattern accepts exactly the
   * strings of 8 to 30 ASCII letters and digits holding a lower-case letter,
   * an upper-case letter and a digit.
   */
  lemma PasswordPatternMeaning(s: string)
    ensures PasswordPatternMatches(s, true) <==>
      8 <= |s| <= 30 && (forall j :: 0 <= j < |s| ==> IsAlphanumeric(s[j]))
      && HasClass(s, Lower) && HasClass(s, Upper) && HasClass(s, Digit)
  {
    if PasswordPatternMatches(s, true) {
      var k: nat :| k <= |s| && BodyOfLength(s, k, true);
      assert k == |s|;
    }
    if 8 <= |s| <= 30 && (forall j :: 0 <= j < |s| ==> IsAlphanumeric(s[j])) {
      assert BodyOfLength(s, |s|, true);
      forall c: CharClass | HasClass(s, c) ensures LookaheadFinds(s, c) {
        var i :| 0 <= i < |s| && InClass(s[i], c);
        assert forall j :: 0 <= j < i ==> IsAlphanumeric(s[j]);
      }
    }
  }

  // ---- The field constraints ---------------------------------------------

  /** `login`: Length(3, 20); NotNull and NotBlank in the creation group. */
  predicate LoginValid(login: Option<string>, groups: set<Group>) {
    (Default in groups ==> Length(login, 3, 20))
    && (UtilisateurCreate in groups ==> NotNull(login) && NotBlank(login))
  }

  /**
   * `mail`: Email (null and the empty string pass; the syntax check itself is
   * the `isEmail` parameter); NotNull and NotBlank in the creation group.
   */
  predicate MailValid(mail: Option<string>, groups: set<Group>, isEmail: string -> bool) {
    (Default in groups ==> mail.None? || mail.value == "" || isEmail(mail.value))
    && (UtilisateurCreate in groups ==> NotNull(mail) && NotBlank(mail))
  }

  /**
   * `plainPassword` as declared: Length(8, 30) and the Regex under PCRE's
   * default `$`; NotNull and NotBlank in the creation group.
   */
  predicate PlainPasswordValidAsWritten(pw: Option<string>, groups: set<Group>) {
    (Default in groups ==> Length(pw, 8, 30) && RegexPasses(pw, false))
    && (UtilisateurCreate in groups ==> NotNull(pw) && NotBlank(pw))
  }

  /** `plainPassword` as intended: the same, with `$` matching only at the end. */
  predicate PlainPasswordValid(pw: Option<string>, groups: set<Group>) {
    (Default in groups ==> Length(pw, 8, 30) && RegexPasses(pw, true))
    && (UtilisateurCreate in groups ==> NotNull(pw) && NotBlank(pw))
  }

  /** `message`: Length(4, 200), NotBlank and NotNull, all in the default group. */
  predicate MessageValid(message: Option<string>) {
    Length(message, 4, 200) && NotBlank(message) && NotNull(message)
  }

  // ---- What the constraints accept ---------------------------------------

  /** On creation a login is required and has 3 to 20 characters. */
  lemma LoginOnCreate(login: Option<string>)
    ensures LoginValid(login, CreateGroups) <==> login.Some? && 3 <= |login.value| <= 20
  {
  }

  /** On update a login may be absent; if present it has 3 to 20 characters. */
  lemma LoginOnUpdate(login: Option<string>)
    ensures LoginValid(login, UpdateGroups) <==> login.None? || 3 <= |login.value| <= 20
  {
  }

  /** On creation a mail is required, non-empty and accepted by the syntax check. */
  lemma MailOnCreate(mail: Option<string>, isEmail: string -> bool)
    ensures MailValid(mail, CreateGroups, isEmail) <==>
      mail.Some? && mail.value != "" && isEmail(mail.value)
  {
  }

  /**
   * On creation the intended password rule accepts exactly 8 to 30 ASCII
   * letters and digits with a lower-case letter, an upper-case letter and a digit.
   */
  lemma PlainPasswordOnCreate(pw: Option<string>)
    ensures PlainPasswordValid(pw, CreateGroups) <==>
      pw.Some? && 8 <= |pw.value| <= 30
      && (forall j :: 0 <= j < |pw.value| ==> IsAlphanumeric(pw.value[j]))
      && HasClass(pw.value, Lower) && HasClass(pw.value, Upper) && HasClass(pw.value, Digit)
  {
    if pw.Some? {
      PasswordPatternMeaning(pw.value);
    }
  }

  /** On update the password may be absent; if present the same rule applies. */
  lemma PlainPasswordOnUpdate(pw: Option<string>)
    ensures PlainPasswordValid(pw, UpdateGroups) <==>
      pw.None? || (8 <= |pw.value| <= 30
      && (forall j :: 0 <= j < |pw.value| ==> IsAlphanumeric(pw.value[j]))
      && HasClass(pw.value, Lower) && HasClass(pw.value, Upper) && HasClass(pw.value, Digit))
  {
    if pw.Some? {
      PasswordPatternMeaning(pw.value);
    }
  }

  /**
   * As declared, the password rule lets a final line break through:
   * "Passw0rd\n" has 9 characters and matches the pattern, yet is not made
   * of letters and digits only; the intended rule refuses it.
   */
  lemma PasswordFinalLineBreakAccepted()
    ensures PlainPasswordValidAsWritten(Some("Passw0rd\n"), CreateGroups)
    ensures !PlainPasswordValid(Some("Passw0rd\n"), CreateGroups)
  {
    var s := "Passw0rd\n";
    assert InClass(s[0], Upper) && InClass(s[1], Lower) && InClass(s[5], Digit);
    assert BodyOfLength(s, 8, false);
    assert !IsAlphanumeric(s[8]);
    PlainPasswordOnCreate(Some(s));
  }

  /** A message is valid exactly when it is present and has 4 to 200 characters. */
  lemma MessageMeaning(message: Option<string>)
    ensures MessageValid(message) <==> message.Some? && 4 <= |message.value| <= 200
  {
  }

  /** NotBlank does not trim: a message of four spaces passes. */
  lemma SpacesMessageAccepted()
    ensures MessageValid(Some("    "))
  {
  }
}
