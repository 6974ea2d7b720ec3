/** Form validation (frontend/src/utils/validation.ts): a `Validator` whose
    checks push messages onto its error list, and the `validate*` helpers
    built from a fresh validator.  A checked value is an `Option<Json>`
    (`None` is `undefined`). */
module Validation {
  import opened Wrappers
  import opened Text
  import opened Json

  datatype ValidationResult = ValidationResult(isValid: bool, errors: seq<string>)

  /** `null`, `undefined` or the empty string. */
  predicate Missing(value: Option<Json>) { value.None? || value == Some(JNull) || value == Some(JStr("")) }

  predicate IsString(value: Option<Json>) { value.Some? && value.value.JStr? }

  predicate IsNumber(value: Option<Json>) { value.Some? && value.value.JNum? }

  predicate IsArray(value: Option<Json>) { value.Some? && value.value.JArr? }

  predicate IsBoolean(value: Option<Json>) { value.Some? && value.value.JBool? }

  /** The characters of the regular-expression class `\s`. */
  predicate RegexSpace(c: char) {
    c == ' ' || c == '\t' || c == '\n' || c == '\r' || c == '\U{000B}' || c == '\U{000C}' || c == '\U{00A0}' ||
    c == '\U{1680}' || ('\U{2000}' <= c <= '\U{200A}') || c == '\U{2028}' || c == '\U{2029}' || c == '\U{202F}' ||
    c == '\U{205F}' || c == '\U{3000}' || c == '\U{FEFF}'
  }

  /** A run of the class `[^\s@]`. */
  predicate NoSpaceOrAt(t: string) { forall k :: 0 <= k < |t| ==> !RegexSpace(t[k]) && t[k] != '@' }

  /** `/^[^\s@]+@[^\s@]+\.[^\s@]+$/.test(s)`: some `@` and some later `.`
      split `s` into three non-empty runs of `[^\s@]`. */
  predicate EmailMatches(s: string) {
    exists i, j | 0 < i && i + 1 < j < |s| - 1 ::
      s[i] == '@' && s[j] == '.' && NoSpaceOrAt(s[..i]) && NoSpaceOrAt(s[i + 1..j]) && NoSpaceOrAt(s[j + 1..])
  }

  /** A slice is a `[^\s@]` run iff every position in its range is. */
  lemma SliceNoSpaceOrAt(s: string, lo: int, hi: int)
    requires 0 <= lo <= hi <= |s|
    ensures NoSpaceOrAt(s[lo..hi]) <==> forall k :: lo <= k < hi ==> !RegexSpace(s[k]) && s[k] != '@'
  {
    var t := s[lo..hi];
    assert forall k :: lo <= k < hi ==> t[k - lo] == s[k];
  }

  /** The whitespace-free, single-`@` shape of an address. */
  predicate EmailShaped(s: string) {
    (forall k :: 0 <= k < |s| ==> !RegexSpace(s[k])) &&
    exists i :: 0 < i < |s| && s[i] == '@' && (forall k :: 0 <= k < |s| && s[k] == '@' ==> k == i) &&
                exists j :: i + 1 < j < |s| - 1 && s[j] == '.'
  }

  lemma EmailShapedMatches(s: string)
    requires EmailShaped(s)
    ensures EmailMatches(s)
  {
    var i :| 0 < i < |s| && s[i] == '@' && (forall k :: 0 <= k < |s| && s[k] == '@' ==> k == i) &&
             exists j :: i + 1 < j < |s| - 1 && s[j] == '.';
    var j :| i + 1 < j < |s| - 1 && s[j] == '.';
    SliceNoSpaceOrAt(s, 0, i);
    SliceNoSpaceOrAt(s, i + 1, j);
    SliceNoSpaceOrAt(s, j + 1, |s|);
    assert s[0..i] == s[..i];
    assert s[j + 1..|s|] == s[j + 1..];
  }

  lemma EmailMatchesShaped(s: string)
    requires EmailMatches(s)
    ensures EmailShaped(s)
  {
    var i, j :| 0 < i && i + 1 < j < |s| - 1 &&
      s[i] == '@' && s[j] == '.' && NoSpaceOrAt(s[..i]) && NoSpaceOrAt(s[i + 1..j]) && NoSpaceOrAt(s[j + 1..]);
    assert s[0..i] == s[..i];
    assert s[j + 1..|s|] == s[j + 1..];
    SliceNoSpaceOrAt(s, 0, i);
    SliceNoSpaceOrAt(s, i + 1, j);
    SliceNoSpaceOrAt(s, j + 1, |s|);
    forall k | 0 <= k < |s| && k != i
      ensures !RegexSpace(s[k]) && s[k] != '@'
    {
      if k == j {
      } else if k < i {
      } else if k < j {
      } else {
      }
    }
  }

  /** The shape of an accepted address, stated without the split: no
      whitespace, exactly one `@`, not first, and a `.` at least two places
      after it and before the last character. */
  lemma EmailShape(s: string)
    ensures EmailMatches(s) <==> EmailShaped(s)
  {
    if EmailShaped(s) {
      EmailShapedMatches(s);
    }
    if EmailMatches(s) {
      EmailMatchesShaped(s);
    }
  }

  /** `/^\+?[1-9]\d{1,14}$/.test(s)`. */
  predicate PhoneMatches(s: string) {
    var d := if |s| > 0 && s[0] == '+' then s[1..] else s;
    2 <= |d| <= 15 && '1' <= d[0] <= '9' && AllDigits(d)
  }

  /** The national part of a phone number: 2 to 15 digits, not starting
      with 0. */
  predicate PhoneDigits(d: string) { 2 <= |d| <= 15 && d[0] != '0' && AllDigits(d) }

  /** The phone pattern accepts exactly such digits, with or without one
      leading `+`. */
  lemma PhoneShape(s: string)
    ensures PhoneMatches(s) <==> PhoneDigits(s) || (|s| > 0 && s[0] == '+' && PhoneDigits(s[1..]))
  {
  }

  /** `/[A-Z]/.test(s)`, `/[a-z]/.test(s)` and `/\d/.test(s)`. */
  predicate HasUpper(s: string) { exists i :: 0 <= i < |s| && IsAsciiUpper(s[i]) }

  predicate HasLower(s: string) { exists i :: 0 <= i < |s| && IsAsciiLower(s[i]) }

  predicate HasDigit(s: string) { exists i :: 0 <= i < |s| && IsDigit(s[i]) }

  /** `[a-zA-Z0-9_-]`. */
  predicate NicknameChar(c: char) { IsAsciiUpper(c) || IsAsciiLower(c) || IsDigit(c) || c == '_' || c == '-' }

  /** `/^[a-zA-Z0-9_-]+$/.test(s)`. */
  predicate NicknameMatches(s: string) { |s| > 0 && forall i :: 0 <= i < |s| ==> NicknameChar(s[i]) }

  /** `/^[a-z]{2}$/.test(s)`. */
  predicate LanguageCode(s: string) { |s| == 2 && IsAsciiLower(s[0]) && IsAsciiLower(s[1]) }

  /** The message each built-in check adds for a field. */
  function RequiredMsg(field: string): string { field + " is required" }
  function StringMsg(field: string): string { field + " must be a string" }
  function MinLengthMsg(field: string, min: int): string { field + " must be at least " + IntToString(min) + " characters long" }
  function MaxLengthMsg(field: string, max: int): string { field + " must be no more than " + IntToString(max) + " characters long" }
  function EmailMsg(field: string): string { field + " must be a valid email address" }
  function PhoneMsg(field: string): string { field + " must be a valid phone number" }
  function NumberMsg(field: string): string { field + " must be a number" }
  function MinMsg(field: string, min: int): string { field + " must be at least " + IntToString(min) }
  function MaxMsg(field: string, max: int): string { field + " must be no more than " + IntToString(max) }
  function ArrayMsg(field: string): string { field + " must be an array" }
  function MinItemsMsg(field: string, min: int): string { field + " must have at least " + IntToString(min) + " items" }
  function MaxItemsMsg(field: string, max: int): string { field + " must have no more than " + IntToString(max) + " items" }
  function BooleanMsg(field: string): string { field + " must be a boolean" }
  function DateMsg(field: string): string { field + " must be a valid date" }

  /** The messages a check may add: `[message]` when it fails, else none. */
  function When(failed: bool, message: string): (r: seq<string>)
    ensures message in r <==> failed
    ensures |r| <= 1
  {
    if failed then [message] else []
  }

  class Validator {
    var errors: seq<string>

    /** `validate()` / `new Validator()`. */
    constructor ()
      ensures errors == []
    {
      errors := [];
    }

    method Reset()
      modifies this
      ensures errors == []
    {
      errors := [];
    }

    method AddError(message: string)
      modifies this
      ensures errors == old(errors) + [message]
    {
      errors := errors + [message];
    }

    /** Records `message` when `failed`; every check below is one of these. */
    method Check(failed: bool, message: string)
      modifies this
      ensures errors == old(errors) + When(failed, message)
    {
      if failed {
        errors := errors + [message];
      }
    }

    method Required(value: Option<Json>, fieldName: string)
      modifies this
      ensures errors == old(errors) + When(Missing(value), RequiredMsg(fieldName))
    {
      Check(Missing(value), RequiredMsg(fieldName));
    }

    method String(value: Option<Json>, fieldName: string)
      modifies this
      ensures errors == old(errors) + When(!Nullish(value) && !IsString(value), StringMsg(fieldName))
    {
      Check(!Nullish(value) && !IsString(value), StringMsg(fieldName));
    }

    method MinLength(value: Option<Json>, min: int, fieldName: string)
      modifies this
      ensures errors == old(errors) +
        When(IsString(value) && |value.value.s| < min, MinLengthMsg(fieldName, min))
    {
      Check(IsString(value) && |value.value.s| < min, MinLengthMsg(fieldName, min));
    }

    method MaxLength(value: Option<Json>, max: int, fieldName: string)
      modifies this
      ensures errors == old(errors) +
        When(IsString(value) && |value.value.s| > max, MaxLengthMsg(fieldName, max))
    {
      Check(IsString(value) && |value.value.s| > max, MaxLengthMsg(fieldName, max));
    }

    method Email(value: Option<Json>, fieldName: string)
      modifies this
      ensures errors == old(errors) +
        When(IsString(value) && !EmailMatches(value.value.s), EmailMsg(fieldName))
    {
      Check(IsString(value) && !EmailMatches(value.value.s), EmailMsg(fieldName));
    }

    method Phone(value: Option<Json>, fieldName: string)
      modifies this
      ensures errors == old(errors) +
        When(IsString(value) && !PhoneMatches(value.value.s), PhoneMsg(fieldName))
    {
      Check(IsString(value) && !PhoneMatches(value.value.s), PhoneMsg(fieldName));
    }

    method Number(value: Option<Json>, fieldName: string)
      modifies this
      ensures errors == old(errors) + When(!Nullish(value) && !IsNumber(value), NumberMsg(fieldName))
    {
      Check(!Nullish(value) && !IsNumber(value), NumberMsg(fieldName));
    }

    method Min(value: Option<Json>, min: int, fieldName: string)
      modifies this
      ensures errors == old(errors) +
        When(IsNumber(value) && value.value.n < min, MinMsg(fieldName, min))
    {
      Check(IsNumber(value) && value.value.n < min, MinMsg(fieldName, min));
    }

    method Max(value: Option<Json>, max: int, fieldName: string)
      modifies this
      ensures errors == old(errors) +
        When(IsNumber(value) && value.value.n > max, MaxMsg(fieldName, max))
    {
      Check(IsNumber(value) && value.value.n > max, MaxMsg(fieldName, max));
    }

    method Array(value: Option<Json>, fieldName: string)
      modifies this
      ensures errors == old(errors) + When(!Nullish(value) && !IsArray(value), ArrayMsg(fieldName))
    {
      Check(!Nullish(value) && !IsArray(value), ArrayMsg(fieldName));
    }

    method MinItems(value: Option<Json>, min: int, fieldName: string)
      modifies this
      ensures errors == old(errors) +
        When(IsArray(value) && |value.value.items| < min, MinItemsMsg(fieldName, min))
    {
      Check(IsArray(value) && |value.value.items| < min, MinItemsMsg(fieldName, min));
    }

    method MaxItems(value: Option<Json>, max: int, fieldName: string)
      modifies this
      ensures errors == old(errors) +
        When(IsArray(value) && |value.value.items| > max, MaxItemsMsg(fieldName, max))
    {
      Check(IsArray(value) && |value.value.items| > max, MaxItemsMsg(fieldName, max));
    }

    method Boolean(value: Option<Json>, fieldName: string)
      modifies this
      ensures errors == old(errors) + When(!Nullish(value) && !IsBoolean(value), BooleanMsg(fieldName))
    {
      Check(!Nullish(value) && !IsBoolean(value), BooleanMsg(fieldName));
    }

    /** `date`: whether `new Date(value)` is a valid date is the `parses`
        parameter. */
    method Date(value: Option<Json>, parses: bool, fieldName: string)
      modifies this
      ensures errors == old(errors) + When(!Nullish(value) && !parses, DateMsg(fieldName))
    {
      Check(!Nullish(value) && !parses, DateMsg(fieldName));
    }

    method Custom(holds: bool, message: string)
      modifies this
      ensures errors == old(errors) + When(!holds, message)
    {
      Check(!holds, message);
    }

    /** `getResult`: valid iff no check failed, with a copy of the messages. */
    function GetResult(): (r: ValidationResult)
      reads this
      ensures r.isValid <==> |errors| == 0
      ensures r.errors == errors
    {
      ValidationResult(|errors| == 0, errors)
    }
  }

  /** `validateMessage`: required, at most 1000 characters. */
  method ValidateMessage(content: string) returns (r: ValidationResult)
    ensures r.isValid <==> 1 <= |content| <= 1000
    ensures content == "" ==> r.errors == [RequiredMsg("Message content"), MinLengthMsg("Message content", 1)]
    ensures |content| > 1000 ==> r.errors == [MaxLengthMsg("Message content", 1000)]
  {
    var v := new Validator();
    var c := Some(JStr(content));
    v.Required(c, "Message content");
    v.String(c, "Message content");
    v.MinLength(c, 1, "Message content");
    v.MaxLength(c, 1000, "Message content");
    r := v.GetResult();
  }

  method ValidateEmail(email: string) returns (r: ValidationResult)
    ensures r.isValid <==> EmailMatches(email)
    ensures email == "" ==> r.errors == [RequiredMsg("Email"), EmailMsg("Email")]
  {
    var v := new Validator();
    var e := Some(JStr(email));
    v.Required(e, "Email");
    v.String(e, "Email");
    v.Email(e, "Email");
    r := v.GetResult();
  }

  method ValidatePhone(phone: string) returns (r: ValidationResult)
    ensures r.isValid <==> PhoneMatches(phone)
    ensures phone == "" ==> r.errors == [RequiredMsg("Phone"), PhoneMsg("Phone")]
  {
    var v := new Validator();
    var p := Some(JStr(phone));
    v.Required(p, "Phone");
    v.String(p, "Phone");
    v.Phone(p, "Phone");
    r := v.GetResult();
  }

  const PasswordTooShort := MinLengthMsg("Password", 8)
  const PasswordNoUpper := "Password must contain at least one uppercase letter"
  const PasswordNoLower := "Password must contain at least one lowercase letter"
  const PasswordNoDigit := "Password must contain at least one number"

  /** The errors of `validatePassword`, check by check. */
  function PasswordErrors(password: string): (r: seq<string>)
    ensures |r| <= 5
    ensures forall m :: m in r ==>
      m in [RequiredMsg("Password"), PasswordTooShort, PasswordNoUpper, PasswordNoLower, PasswordNoDigit]
    ensures password == "" ==> r == [RequiredMsg("Password"), PasswordTooShort, PasswordNoUpper, PasswordNoLower, PasswordNoDigit]
    ensures password != "" ==> RequiredMsg("Password") !in r
  {
    When(password == "", RequiredMsg("Password")) + When(|password| < 8, PasswordTooShort) +
    When(!HasUpper(password), PasswordNoUpper) + When(!HasLower(password), PasswordNoLower) +
    When(!HasDigit(password), PasswordNoDigit)
  }

  /** One message per unmet rule, and none when all are met. */
  lemma PasswordRules(password: string)
    ensures PasswordErrors(password) == [] <==>
              |password| >= 8 && HasUpper(password) && HasLower(password) && HasDigit(password)
    ensures PasswordTooShort in PasswordErrors(password) <==> |password| < 8
    ensures PasswordNoUpper in PasswordErrors(password) <==> !HasUpper(password)
    ensures PasswordNoLower in PasswordErrors(password) <==> !HasLower(password)
    ensures PasswordNoDigit in PasswordErrors(password) <==> !HasDigit(password)
  {
    var msgs := [RequiredMsg("Password"), PasswordTooShort, PasswordNoUpper, PasswordNoLower, PasswordNoDigit];
    assert PasswordNoUpper[35] != PasswordNoLower[35];
    assert forall i, j :: 0 <= i < j < 5 ==> msgs[i] != msgs[j];
  }

  /** `validatePassword`. */
  method ValidatePassword(password: string) returns (r: ValidationResult)
    ensures r.errors == PasswordErrors(password)
    ensures r.isValid <==> |password| >= 8 && HasUpper(password) && HasLower(password) && HasDigit(password)
  {
    var v := new Validator();
    var p := Some(JStr(password));
    v.Required(p, "Password");
    assert v.errors == When(password == "", RequiredMsg("Password"));
    v.String(p, "Password");
    v.MinLength(p, 8, "Password");
    ghost var e := When(password == "", RequiredMsg("Password")) + When(|password| < 8, PasswordTooShort);
    assert v.errors == e;
    v.Custom(HasUpper(password), PasswordNoUpper);
    e := e + When(!HasUpper(password), PasswordNoUpper);
    v.Custom(HasLower(password), PasswordNoLower);
    e := e + When(!HasLower(password), PasswordNoLower);
    v.Custom(HasDigit(password), PasswordNoDigit);
    e := e + When(!HasDigit(password), PasswordNoDigit);
    assert v.errors == e == PasswordErrors(password);
    r := v.GetResult();
    PasswordRules(password);
  }

  const NicknameInvalid := "Nickname can only contain letters, numbers, underscores, and hyphens"

  /** `validateNickname`: 2 to 20 characters from `[A-Za-z0-9_-]`. */
  method ValidateNickname(nickname: string) returns (r: ValidationResult)
    ensures r.isValid <==> 2 <= |nickname| <= 20 && NicknameMatches(nickname)
    ensures nickname == "" ==>
      r.errors == [RequiredMsg("Nickname"), MinLengthMsg("Nickname", 2), NicknameInvalid]
  {
    var v := new Validator();
    var n := Some(JStr(nickname));
    v.Required(n, "Nickname");
    v.String(n, "Nickname");
    v.MinLength(n, 2, "Nickname");
    v.MaxLength(n, 20, "Nickname");
    v.Custom(NicknameMatches(nickname), NicknameInvalid);
    r := v.GetResult();
  }

  predicate ThemeRejected(theme: Option<Json>) {
    OptJsTruthy(theme) && theme.value !in {JStr("light"), JStr("dark"), JStr("auto")}
  }

  /** The language test converts the value with `String` first. */
  predicate LanguageRejected(language: Option<Json>) {
    OptJsTruthy(language) && !LanguageCode(JsString(language.value))
  }

  const ThemeInvalid := "Theme must be light, dark, or auto"
  const LanguageInvalid := "Language must be a valid 2-letter code"

  /** The first checks of `validateUserSettings`: present, and string-typed
      language and theme. */
  function SettingsStringErrors(settings: Json): (r: seq<string>)
  {
    var language := Get(settings, "language");
    var theme := Get(settings, "theme");
    When(settings == JStr(""), RequiredMsg("Settings")) +
    When(!Nullish(language) && !IsString(language), StringMsg("Language")) +
    When(!Nullish(theme) && !IsString(theme), StringMsg("Theme"))
  }

  /** The boolean-typed notification flags. */
  function SettingsBooleanErrors(settings: Json): (r: seq<string>)
  {
    var push := Get(settings, "pushNotifications");
    var sound := Get(settings, "soundNotifications");
    var email := Get(settings, "emailNotifications");
    When(!Nullish(push) && !IsBoolean(push), BooleanMsg("Push notifications")) +
    When(!Nullish(sound) && !IsBoolean(sound), BooleanMsg("Sound notifications")) +
    When(!Nullish(email) && !IsBoolean(email), BooleanMsg("Email notifications"))
  }

  /** The errors of `validateUserSettings` for non-null settings: the type
      checks, then the theme and language rules. */
  function SettingsErrors(settings: Json): (r: seq<string>)
  {
    SettingsStringErrors(settings) + SettingsBooleanErrors(settings) +
    When(ThemeRejected(Get(settings, "theme")), ThemeInvalid) +
    When(LanguageRejected(Get(settings, "language")), LanguageInvalid)
  }

  /** The theme must be light, dark or auto and the language two lower-case
      letters; each rule has its own message. */
  lemma SettingsRules(settings: Json)
    ensures ThemeInvalid in SettingsErrors(settings) <==> ThemeRejected(Get(settings, "theme"))
    ensures LanguageInvalid in SettingsErrors(settings) <==> LanguageRejected(Get(settings, "language"))
    ensures SettingsErrors(settings) == [] ==>
              !ThemeRejected(Get(settings, "theme")) && !LanguageRejected(Get(settings, "language"))
  {
    var others := [RequiredMsg("Settings"), StringMsg("Language"), StringMsg("Theme"),
                   BooleanMsg("Push notifications"), BooleanMsg("Sound notifications"), BooleanMsg("Email notifications")];
    assert forall i :: 0 <= i < |others| ==> others[i] != ThemeInvalid && others[i] != LanguageInvalid;
  }

  lemma AppendAssoc(a: seq<string>, b: seq<string>, c: seq<string>)
    ensures (a + b) + c == a + (b + c)
  {
  }

  /** The chained string checks at the start of `validateUserSettings`. */
  method CheckSettingsStrings(v: Validator, settings: Option<Json>)
    requires !Nullish(settings)
    modifies v
    ensures v.errors == old(v.errors) + SettingsStringErrors(settings.value)
  {
    var s := settings.value;
    var language, theme := Get(s, "language"), Get(s, "theme");
    ghost var e0 := v.errors;
    v.Required(settings, "Settings");
    ghost var a := When(s == JStr(""), RequiredMsg("Settings"));
    ghost var w := When(!Nullish(language) && !IsString(language), StringMsg("Language"));
    v.String(language, "Language");
    AppendAssoc(e0, a, w);
    a := a + w;
    w := When(!Nullish(theme) && !IsString(theme), StringMsg("Theme"));
    v.String(theme, "Theme");
    AppendAssoc(e0, a, w);
  }

  /** The chained boolean checks that follow. */
  method CheckSettingsBooleans(v: Validator, settings: Json)
    modifies v
    ensures v.errors == old(v.errors) + SettingsBooleanErrors(settings)
  {
    var push, sound, email := Get(settings, "pushNotifications"), Get(settings, "soundNotifications"),
                              Get(settings, "emailNotifications");
    ghost var e0 := v.errors;
    v.Boolean(push, "Push notifications");
    ghost var a := When(!Nullish(push) && !IsBoolean(push), BooleanMsg("Push notifications"));
    ghost var w := When(!Nullish(sound) && !IsBoolean(sound), BooleanMsg("Sound notifications"));
    v.Boolean(sound, "Sound notifications");
    AppendAssoc(e0, a, w);
    a := a + w;
    w := When(!Nullish(email) && !IsBoolean(email), BooleanMsg("Email notifications"));
    v.Boolean(email, "Email notifications");
    AppendAssoc(e0, a, w);
  }

  /** `validateUserSettings`: `None` when the settings are `null` or
      `undefined`, where reading `settings.language` throws. */
  method ValidateUserSettings(settings: Option<Json>) returns (r: Option<ValidationResult>)
    ensures r.None? <==> Nullish(settings)
    ensures r.Some? ==> r.value.errors == SettingsErrors(settings.value)
    ensures r.Some? ==> (r.value.isValid <==> SettingsErrors(settings.value) == [])
  {
    if Nullish(settings) {
      return None;
    }
    var v := new Validator();
    var s := settings.value;
    CheckSettingsStrings(v, settings);
    CheckSettingsBooleans(v, s);
    assert v.errors == SettingsStringErrors(s) + SettingsBooleanErrors(s);
    if ThemeRejected(Get(s, "theme")) {
      v.AddError(ThemeInvalid);
    }
    assert v.errors == SettingsStringErrors(s) + SettingsBooleanErrors(s) + When(ThemeRejected(Get(s, "theme")), ThemeInvalid);
    if LanguageRejected(Get(s, "language")) {
      v.AddError(LanguageInvalid);
    }
    r := Some(v.GetResult());
  }
}
