/** `ValidationService` (src/services/validation/validation.service.ts): ordered checks on the
    action inputs, each of which either returns or throws a fixed message. */
module Validation {
  import opened Wrappers
  import Strings

  // --- character classes of the password rules ------------------------------------

  predicate IsUpper(c: char) { 'A' <= c <= 'Z' }
  predicate IsLower(c: char) { 'a' <= c <= 'z' }
  predicate IsDigit(c: char) { '0' <= c <= '9' }

  /** The punctuation of `[!@#$%^&*(),.?":{}|<>]`. */
  predicate IsSpecial(c: char)
  {
    c == '!' || c == '@' || c == '#' || c == '$' || c == '%' || c == '^' || c == '&' || c == '*'
    || c == '(' || c == ')' || c == ',' || c == '.' || c == '?' || c == '"' || c == ':'
    || c == '{' || c == '}' || c == '|' || c == '<' || c == '>'
  }

  /** The accepted set `[a-zA-Z0-9!@#$%^&*(),.?":{}|<>]`. */
  predicate IsAllowed(c: char) { IsUpper(c) || IsLower(c) || IsDigit(c) || IsSpecial(c) }

  predicate AllAllowed(p: string) { forall i | 0 <= i < |p| :: IsAllowed(p[i]) }
  predicate HasUpper(p: string) { exists i | 0 <= i < |p| :: IsUpper(p[i]) }
  predicate HasLower(p: string) { exists i | 0 <= i < |p| :: IsLower(p[i]) }
  predicate HasDigit(p: string) { exists i | 0 <= i < |p| :: IsDigit(p[i]) }
  predicate HasSpecial(p: string) { exists i | 0 <= i < |p| :: IsSpecial(p[i]) }

  // --- messages ------------------------------------------------------------------

  const PasswordRequired := "Encryption password is required"

  function TooShort(length: nat): string
  {
    "Encryption password must be at least 8 characters (got " + Strings.NatToString(length) + ")"
  }

  const ForbiddenCharacters :=
    "Encryption password can only contain alphanumeric characters and the following special characters: !@#$%^&*(),.?\":{}|<>. "
    + "Emojis, unicode characters, and other symbols are not allowed."
  const MissingUpper := "Encryption password must contain at least one uppercase letter"
  const MissingLower := "Encryption password must contain at least one lowercase letter"
  const MissingDigit := "Encryption password must contain at least one digit"
  const MissingSpecial := "Encryption password must contain at least one special character (!@#$%^&*(),.?\":{}|<>)"

  const MinPasswordLength := 8

  /** `password.length`: JavaScript counts UTF-16 code units, so a character outside the
      Basic Multilingual Plane counts twice. */
  function Utf16Length(p: string): (n: nat)
    ensures |p| <= n <= 2 * |p|
    ensures (forall i | 0 <= i < |p| :: (p[i] as int) < 0x10000) ==> n == |p|
    ensures AllAllowed(p) ==> n == |p|
  {
    if p == [] then 0
    else (if (p[0] as int) < 0x10000 then 1 else 2) + Utf16Length(p[1..])
  }

  /** The password policy as one statement: what `validatePassword` lets through. */
  ghost predicate AcceptablePassword(p: string)
  {
    && Utf16Length(p) >= MinPasswordLength
    && (forall c :: c in p ==> IsAllowed(c))
    && (exists c :: c in p && IsUpper(c))
    && (exists c :: c in p && IsLower(c))
    && (exists c :: c in p && IsDigit(c))
    && (exists c :: c in p && IsSpecial(c))
  }

  /** `validatePassword`: empty, then length, then the accepted set, then the four classes in
      the order uppercase, lowercase, digit, special; the first failing check is reported. */
  function ValidatePassword(p: string): (r: Outcome)
    ensures p == [] ==> r == Fail(PasswordRequired)
    ensures p != [] && Utf16Length(p) < MinPasswordLength ==> r == Fail(TooShort(Utf16Length(p)))
    ensures Utf16Length(p) >= MinPasswordLength && !AllAllowed(p) ==> r == Fail(ForbiddenCharacters)
    ensures Utf16Length(p) >= MinPasswordLength && AllAllowed(p) && !HasUpper(p) ==> r == Fail(MissingUpper)
    ensures (Utf16Length(p) >= MinPasswordLength && AllAllowed(p) && HasUpper(p) && !HasLower(p))
              ==> r == Fail(MissingLower)
    ensures (Utf16Length(p) >= MinPasswordLength && AllAllowed(p) && HasUpper(p) && HasLower(p) && !HasDigit(p))
              ==> r == Fail(MissingDigit)
    ensures (Utf16Length(p) >= MinPasswordLength && AllAllowed(p) && HasUpper(p) && HasLower(p) && HasDigit(p)
             && !HasSpecial(p))
              ==> r == Fail(MissingSpecial)
  {
    if p == [] then Fail(PasswordRequired)
    else if Utf16Length(p) < MinPasswordLength then Fail(TooShort(Utf16Length(p)))
    else if !AllAllowed(p) then Fail(ForbiddenCharacters)
    else if !HasUpper(p) then Fail(MissingUpper)
    else if !HasLower(p) then Fail(MissingLower)
    else if !HasDigit(p) then Fail(MissingDigit)
    else if !HasSpecial(p) then Fail(MissingSpecial)
    else Pass
  }

  /** The policy in one statement: a password is accepted exactly when it has at least 8
      code units, only characters of the accepted set, and one character of each class. */
  lemma PasswordPolicy(p: string)
    ensures ValidatePassword(p).Pass? <==> AcceptablePassword(p)
  {
    if AcceptablePassword(p) {
      assert AllAllowed(p) by {
        forall i | 0 <= i < |p| ensures IsAllowed(p[i]) { assert p[i] in p; }
      }
      var u :| u in p && IsUpper(u);
      var l :| l in p && IsLower(l);
      var d :| d in p && IsDigit(d);
      var s :| s in p && IsSpecial(s);
      assert HasUpper(p) && HasLower(p) && HasDigit(p) && HasSpecial(p);
    }
  }

  /** The length reported for a short password is its actual length. */
  lemma ShortPasswordReportsLength(p: string)
    requires p != [] && Utf16Length(p) < MinPasswordLength
    ensures var prefix := "Encryption password must be at least 8 characters (got ";
            var msg := ValidatePassword(p).error;
            |msg| == |prefix| + 2
            && Strings.ParseNat(msg[|prefix|..|msg| - 1]) == Utf16Length(p)
  {
    var prefix := "Encryption password must be at least 8 characters (got ";
    var digits := Strings.NatToString(Utf16Length(p));
    assert |digits| == 1;
    assert ValidatePassword(p).error[|prefix|..|prefix| + 1] == digits;
    Strings.ParseNatToString(Utf16Length(p));
  }

  /** A compliant password is accepted. */
  lemma AcceptsCompliantExample(p: string)
    requires p == "MyPassword123!"
    ensures ValidatePassword(p) == Pass
  {
    assert AllAllowed(p) && Utf16Length(p) == 14;
    assert IsUpper(p[0]) && IsLower(p[1]) && IsDigit(p[10]) && IsSpecial(p[13]);
  }

  /** The forbidden-character check runs before the class checks: a password that would
      otherwise pass fails on its emoji. */
  lemma RejectsEmojiBeforeClasses(p: string)
    requires p == "MyPassword123!\U{1F680}"
    ensures ValidatePassword(p) == Fail(ForbiddenCharacters)
  {
    assert !IsAllowed(p[14]);
  }

  /** The length is counted in UTF-16 code units: four emoji are long enough and are then
      refused for their characters, not for their length. */
  lemma EmojiCountTwice(p: string)
    requires p == "\U{1F680}\U{1F680}\U{1F680}\U{1F680}"
    ensures Utf16Length(p) == 8
    ensures ValidatePassword(p) == Fail(ForbiddenCharacters)
  {
    assert Utf16Length(p[4..]) == 0;
    assert Utf16Length(p[3..]) == 2 + Utf16Length(p[3..][1..]) && p[3..][1..] == p[4..];
    assert Utf16Length(p[2..]) == 2 + Utf16Length(p[2..][1..]) && p[2..][1..] == p[3..];
    assert Utf16Length(p[1..]) == 2 + Utf16Length(p[1..][1..]) && p[1..][1..] == p[2..];
    assert !IsAllowed(p[0]);
  }

  /** The class checks report only the first missing class, in the order uppercase,
      lowercase, digit, special. */
  lemma ReportsMissingUpperFirst(p: string)
    requires p == "mypassword123!"
    ensures ValidatePassword(p) == Fail(MissingUpper)
  {
    assert AllAllowed(p);
  }

  lemma ReportsMissingLower(p: string)
    requires p == "MYPASSWORD123!"
    ensures ValidatePassword(p) == Fail(MissingLower)
  {
    assert AllAllowed(p);
    assert IsUpper(p[0]);
  }

  lemma ReportsMissingDigit(p: string)
    requires p == "MyPassword!"
    ensures ValidatePassword(p) == Fail(MissingDigit)
  {
    assert AllAllowed(p);
    assert IsUpper(p[0]) && IsLower(p[1]);
  }

  lemma ReportsMissingSpecial(p: string)
    requires p == "MyPassword123"
    ensures ValidatePassword(p) == Fail(MissingSpecial)
  {
    assert AllAllowed(p);
    assert IsUpper(p[0]) && IsLower(p[1]) && IsDigit(p[10]);
  }

  // --- action type, OTP method, restore inputs -----------------------------------

  const ActionRequired := "Action type is required"
  const InvalidAction := "Invalid action type. Must be 'backup' or 'restore'"

  /** `validateActionType`: only "backup" and "restore" pass; empty has its own message. */
  function ValidateActionType(action: string): (r: Outcome)
    ensures r.Pass? <==> action == "backup" || action == "restore"
    ensures action == "" ==> r == Fail(ActionRequired)
    ensures r.Fail? && action != "" ==> r == Fail(InvalidAction)
  {
    if action == "" then Fail(ActionRequired)
    else if action != "backup" && action != "restore" then Fail(InvalidAction)
    else Pass
  }

  const OtpMethodRequired := "OTP delivery method is required"
  const InvalidOtpMethod := "Invalid otp_delivery_method. Must be 'MAIL' or 'AUTHENTICATOR'"

  /** `validateOtpMethod`: only "MAIL" and "AUTHENTICATOR" pass. */
  function ValidateOtpMethod(deliveryMethod: string): (r: Outcome)
    ensures r.Pass? <==> deliveryMethod == "MAIL" || deliveryMethod == "AUTHENTICATOR"
    ensures deliveryMethod == "" ==> r == Fail(OtpMethodRequired)
    ensures r.Fail? && deliveryMethod != "" ==> r == Fail(InvalidOtpMethod)
  {
    if deliveryMethod == "" then Fail(OtpMethodRequired)
    else if deliveryMethod != "MAIL" && deliveryMethod != "AUTHENTICATOR" then Fail(InvalidOtpMethod)
    else Pass
  }

  /** A JavaScript value received for the optional `suspendActions` parameter. */
  datatype JsValue = Undefined | Boolean(b: bool) | NonBoolean

  const FileVersionRequired := "Input 'file_version_id' is required when action is 'restore'"
  const SuspendRequired := "Input 'suspend_actions' is required when action is 'restore'"
  const InvalidSuspend := "Invalid suspend_actions. Must be 'true' or 'false'"

  /** `validateRestoreInputs`: an absent or empty file version id first, then an undefined
      suspend flag, then a suspend flag that is not a boolean. */
  function ValidateRestoreInputs(fileVersionId: Option<string>, suspendActions: JsValue): (r: Outcome)
    ensures r.Pass? <==> fileVersionId.Some? && fileVersionId.value != "" && suspendActions.Boolean?
    ensures (fileVersionId.None? || fileVersionId.value == "") ==> r == Fail(FileVersionRequired)
    ensures (fileVersionId.Some? && fileVersionId.value != "" && suspendActions.Undefined?)
              ==> r == Fail(SuspendRequired)
    ensures (fileVersionId.Some? && fileVersionId.value != "" && suspendActions.NonBoolean?)
              ==> r == Fail(InvalidSuspend)
  {
    if fileVersionId.None? || fileVersionId.value == "" then Fail(FileVersionRequired)
    else if suspendActions.Undefined? then Fail(SuspendRequired)
    else if !suspendActions.Boolean? then Fail(InvalidSuspend)
    else Pass
  }
}
