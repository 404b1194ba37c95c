/** `signupSchema`: the validation of the account form of the signup page. */
module Signup {
  import opened Wrappers
  import opened Schema

  /** `terms` is a checkbox: None stands for a value that was never set. */
  datatype SignupForm = SignupForm(name: string, email: string, password: string,
                                   confirmPassword: string, terms: Option<bool>)

  datatype SignupErrors = SignupErrors(name: Option<string>, email: Option<string>, password: Option<string>,
                                       confirmPassword: Option<string>, terms: Option<string>)

  const PasswordClassesMessage :=
    "Password must contain at least one uppercase letter, one lowercase letter, and one number"
  const PasswordsMustMatch := "Passwords must match"
  const TermsRequired := "You must accept the terms"
  const TermsNotAccepted := "You must accept the terms and privacy policy"

  const NameRules := [Required("Full name is required"), Min(2, "Name must be at least 2 characters")]
  const EmailRules := [Required("Email is required"), Email("Please enter a valid email address")]
  const PasswordRules := [Required("Password is required"), Min(8, "Password must be at least 8 characters"),
                          Lookaheads([Lower, Upper, Digit], PasswordClassesMessage)]

  /**
   * `required(…).oneOf([yup.ref("password")], …)`, the reference resolved to
   * the password being validated. yup runs the `oneOf` check first.
   */
  function ConfirmRules(password: string): seq<Rule> {
    [Required("Please confirm your password"), OneOf([password], PasswordsMustMatch)]
  }

  /**
   * The two tests of the boolean `terms` field. Both are checks yup runs
   * before any ordinary test: `required` refuses an unset value, and
   * `oneOf` skips an unset value and otherwise demands one of the allowed.
   */
  datatype FlagRule = Defined(message: string) | Allows(allowed: seq<bool>, message: string)

  predicate FlagPasses(rule: FlagRule, v: Option<bool>) {
    match rule
    case Defined(_) => v.Some?
    case Allows(allowed, _) => v == None || v.value in allowed
  }

  /** The message of the first failing test of a boolean field, or None when it is accepted. */
  function FirstFlagError(rules: seq<FlagRule>, v: Option<bool>): Option<string> {
    if rules == [] then None
    else if !FlagPasses(rules[0], v) then Some(rules[0].message)
    else FirstFlagError(rules[1..], v)
  }

  /** `yup.boolean().required(…).oneOf([true], …)`. */
  const TermsRules := [Defined(TermsRequired), Allows([true], TermsNotAccepted)]

  /** Only a ticked box is accepted; an unset box and an unticked one get different messages. */
  function TermsError(terms: Option<bool>): (r: Option<string>)
    ensures r == None <==> terms == Some(true)
    ensures terms == None ==> r == Some(TermsRequired)
    ensures terms == Some(false) ==> r == Some(TermsNotAccepted)
  {
    var accepts := Allows([true], TermsNotAccepted);
    assert TermsRules[1..] == [accepts] && [accepts][1..] == [];
    assert FirstFlagError([accepts], terms) == if FlagPasses(accepts, terms) then None else Some(TermsNotAccepted);
    FirstFlagError(TermsRules, terms)
  }

  function ValidateSignup(form: SignupForm, f: Formats): SignupErrors {
    SignupErrors(FieldError(NameRules, form.name, f),
                 FieldError(EmailRules, form.email, f),
                 FieldError(PasswordRules, form.password, f),
                 FieldError(ConfirmRules(form.password), form.confirmPassword, f),
                 TermsError(form.terms))
  }

  const NoErrors := SignupErrors(None, None, None, None, None)

  predicate ValidName(name: string) { name != "" && |name| >= 2 }

  predicate ValidEmail(email: string, f: Formats) { email != "" && f.isEmail(email) }

  predicate ValidPassword(password: string) {
    password != "" && |password| >= 8
    && HasBeforeLineBreak(password, Lower)
    && HasBeforeLineBreak(password, Upper)
    && HasBeforeLineBreak(password, Digit)
  }

  predicate ValidConfirm(confirmPassword: string, password: string) {
    confirmPassword != "" && confirmPassword == password
  }

  predicate ValidSignup(form: SignupForm, f: Formats) {
    ValidName(form.name) && ValidEmail(form.email, f) && ValidPassword(form.password)
    && ValidConfirm(form.confirmPassword, form.password) && form.terms == Some(true)
  }

  lemma NameMessages(name: string, f: Formats)
    ensures FieldError(NameRules, name, f) ==
            if name == "" then Some("Full name is required")
            else if |name| < 2 then Some("Name must be at least 2 characters")
            else None
  {
    var required, min := Required("Full name is required"), Min(2, "Name must be at least 2 characters");
    assert RunOrder(NameRules) == NameRules;
    assert NameRules == [required] + ([min] + []);
    FirstErrorCons(required, [min] + [], name, f);
    FirstErrorCons(min, [], name, f);
  }

  lemma EmailMessages(email: string, f: Formats)
    ensures FieldError(EmailRules, email, f) ==
            if email == "" then Some("Email is required")
            else if !f.isEmail(email) then Some("Please enter a valid email address")
            else None
  {
    var required, email' := Required("Email is required"), Email("Please enter a valid email address");
    assert RunOrder(EmailRules) == EmailRules;
    assert EmailRules == [required] + ([email'] + []);
    FirstErrorCons(required, [email'] + [], email, f);
    FirstErrorCons(email', [], email, f);
  }

  /** The password's message: required, then the length, then the character classes. */
  lemma PasswordMessages(password: string, f: Formats)
    ensures FieldError(PasswordRules, password, f) ==
            if password == "" then Some("Password is required")
            else if |password| < 8 then Some("Password must be at least 8 characters")
            else if !(HasBeforeLineBreak(password, Lower) && HasBeforeLineBreak(password, Upper)
                      && HasBeforeLineBreak(password, Digit)) then Some(PasswordClassesMessage)
            else None
  {
    LookaheadMeaning(password, Lower);
    LookaheadMeaning(password, Upper);
    LookaheadMeaning(password, Digit);
    var ks := [Lower, Upper, Digit];
    var classes := Lookaheads(ks, PasswordClassesMessage);
    assert Passes(classes, password, f) <==>
           HasBeforeLineBreak(password, Lower) && HasBeforeLineBreak(password, Upper)
           && HasBeforeLineBreak(password, Digit) by {
      assert forall k :: k in ks <==> k == Lower || k == Upper || k == Digit;
    }
    var required, min := Required("Password is required"), Min(8, "Password must be at least 8 characters");
    assert RunOrder(PasswordRules) == PasswordRules;
    assert PasswordRules == [required] + ([min] + ([classes] + []));
    FirstErrorCons(required, [min] + ([classes] + []), password, f);
    FirstErrorCons(min, [classes] + [], password, f);
    FirstErrorCons(classes, [], password, f);
  }

  /** A confirmation that differs from the password gets "must match", even when it is empty. */
  lemma ConfirmMessages(confirmPassword: string, password: string, f: Formats)
    ensures FieldError(ConfirmRules(password), confirmPassword, f) ==
            if confirmPassword != password then Some(PasswordsMustMatch)
            else if confirmPassword == "" then Some("Please confirm your password")
            else None
  {
    var required, same := Required("Please confirm your password"), OneOf([password], PasswordsMustMatch);
    assert ConfirmRules(password)[1..] == [same] && [same][1..] == [];
    assert Whitelists([same]) == [same] && Ordinary([same]) == [];
    assert Whitelists(ConfirmRules(password)) == [same];
    assert Ordinary(ConfirmRules(password)) == [required];
    assert RunOrder(ConfirmRules(password)) == [same] + ([required] + []);
    FirstErrorCons(same, [required] + [], confirmPassword, f);
    FirstErrorCons(required, [], confirmPassword, f);
  }

  /** The signup form is accepted exactly when every field meets its stated condition. */
  lemma ValidateSignupMeaning(form: SignupForm, f: Formats)
    ensures ValidateSignup(form, f) == NoErrors <==> ValidSignup(form, f)
  {
    NameMessages(form.name, f);
    EmailMessages(form.email, f);
    PasswordMessages(form.password, f);
    ConfirmMessages(form.confirmPassword, form.password, f);
  }

  /** A digit that comes only after a line break does not satisfy the lookahead. */
  lemma DigitAfterLineBreakRejected(f: Formats)
    ensures FieldError(PasswordRules, "Password\n1", f) == Some(PasswordClassesMessage)
  {
    var bad := "Password\n1";
    assert !HasBeforeLineBreak(bad, Digit) by {
      forall i | 0 <= i < |bad| && InClass(bad[i], Digit)
        ensures exists j :: 0 <= j < i && IsLineTerminator(bad[j])
      {
        assert i == 9;
        assert IsLineTerminator(bad[8]);
      }
    }
    PasswordMessages(bad, f);
  }

  /** A password with all three classes on its first line is accepted. */
  lemma MixedPasswordAccepted(f: Formats)
    ensures FieldError(PasswordRules, "Password1", f) == None
  {
    var good := "Password1";
    assert HasBeforeLineBreak(good, Upper) by { assert InClass(good[0], Upper); }
    assert HasBeforeLineBreak(good, Lower) by {
      assert InClass(good[1], Lower) && !IsLineTerminator(good[0]);
    }
    assert HasBeforeLineBreak(good, Digit) by {
      assert InClass(good[8], Digit);
      assert forall j :: 0 <= j < 8 ==> !IsLineTerminator(good[j]);
    }
    PasswordMessages(good, f);
  }
}
