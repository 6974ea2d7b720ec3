/** The profile set-up form shown after registration
    (frontend/src/components/profile/ProfileSetupForm.tsx): its validation
    schema, the language and interest pickers, the suggested interests and
    the submission that registers the user, signs in and opens the
    dashboard.  The server's answers are parameters. */
module ProfileSetup {
  import opened Wrappers
  import opened Text
  import opened Sorting
  import opened Locations
  import opened ProfileFields

  /** The values the form library holds. */
  datatype FormData = FormData(
    nickname: string, birthDate: string, country: string, city: string,
    languages: seq<string>, interests: seq<string>)

  /** The yup schema: a nickname of 2 to 20 characters, a `DD.MM.YYYY` birth
      date, a country and a city, and at least one language and one
      interest. */
  predicate SchemaValid(d: FormData) {
    2 <= |d.nickname| <= 20 && DisplayDate(d.birthDate) &&
    d.country != "" && d.city != "" && |d.languages| >= 1 && |d.interests| >= 1
  }

  /** `getTranslatedInterests(...).filter(not selected).slice(0, 12)`: the
      first twelve interests not yet chosen. */
  function SuggestedInterests(translated: seq<Choice>, selected: seq<string>): (r: seq<Choice>)
    ensures |r| <= 12
    ensures forall c :: c in r ==> c in translated && c.value !in selected
    ensures |Filter(translated, (c: Choice) => c.value !in selected)| <= 12 ==>
      forall c :: c in translated && c.value !in selected ==> c in r
  {
    var eligible := Filter(translated, (c: Choice) => c.value !in selected);
    var r := Take(eligible, 12);
    assert forall c :: c in r ==> c in eligible;
    r
  }

  /** Choosing a suggestion removes it from the suggestions. */
  lemma ChosenSuggestionLeaves(translated: seq<Choice>, selected: seq<string>, c: Choice)
    requires c in SuggestedInterests(translated, selected)
    ensures c.value !in selected
    ensures c !in SuggestedInterests(translated, Toggle(selected, c.value))
  {
  }

  // ---------------------------------------------------------------------
  // Submission

  datatype FieldValue = Plain(text: string) | Strings(items: seq<string>) | File(name: string)

  datatype Field = Field(name: string, value: FieldValue)

  /** What the registration page passes on; `None` where a value is
      missing. */
  datatype Registration = Registration(
    interfaceLanguage: Option<string>, inputType: Option<string>,
    identifier: Option<string>, password: Option<string>)

  /** `FormData.append` of a possibly missing value: `undefined` becomes the
      text "undefined". */
  function Appended(v: Option<string>): (r: string)
    ensures v.Some? ==> r == v.value
    ensures v.None? ==> r == "undefined"
  {
    if v.Some? then v.value else "undefined"
  }

  /** The field that carries the identifier: `phone` for a phone sign-up,
      else `email`. */
  function IdentifierField(reg: Registration): (r: string)
    ensures r == "phone" <==> reg.inputType == Some("phone")
    ensures r == "phone" || r == "email"
  {
    if reg.inputType == Some("phone") then "phone" else "email"
  }

  /** The first value under `name`. */
  function ValueOf(fields: seq<Field>, name: string): (r: Option<FieldValue>)
    ensures r.None? <==> forall i :: 0 <= i < |fields| ==> fields[i].name != name
    ensures r.Some? ==> Field(name, r.value) in fields
  {
    if fields == [] then None
    else if fields[0].name == name then Some(fields[0].value)
    else
      var rest := ValueOf(fields[1..], name);
      assert forall i :: 0 < i < |fields| ==> fields[i] == fields[1..][i - 1];
      rest
  }

  lemma {:induction false} ValueOfAppend(a: seq<Field>, b: seq<Field>, name: string)
    ensures ValueOf(a + b, name) == if ValueOf(a, name).Some? then ValueOf(a, name) else ValueOf(b, name)
  {
    if a == [] {
      assert a + b == b;
    } else {
      assert (a + b)[1..] == a[1..] + b;
      ValueOfAppend(a[1..], b, name);
    }
  }

  /** The registration body in the order `onSubmit` appends it, before the
      avatar. */
  function BaseFields(d: FormData, reg: Registration, uiLanguage: string): seq<Field>
  {
    [Field("birth_date", Plain(IsoFromDisplay(d.birthDate))),
     Field("nickname", Plain(d.nickname)),
     Field("country", Plain(d.country)),
     Field("city", Plain(d.city)),
     Field("languages", Strings(d.languages)),
     Field("interests", Strings(d.interests)),
     Field("interface_language", Plain(if reg.interfaceLanguage.Some? && reg.interfaceLanguage.value != ""
                                       then reg.interfaceLanguage.value else uiLanguage)),
     Field("theme", Plain("Светлая"))]
  }

  /** The fixed part of the body carries no picture and no identifier. */
  lemma BaseFieldsOmit(d: FormData, reg: Registration, uiLanguage: string, name: string)
    requires name == "avatar" || name == "phone" || name == "email"
    ensures ValueOf(BaseFields(d, reg, uiLanguage), name).None?
  {
    var f := BaseFields(d, reg, uiLanguage);
    assert name[0] == 'a' || name[0] == 'p' || name[0] == 'e';
    assert f[7].name[0] == 't' && |f[7].name| == 5;
    assert forall i :: 0 <= i < 7 ==> |f[i].name| != |name|;
  }

  function Credentials(reg: Registration): seq<Field>
  {
    [Field(IdentifierField(reg), Plain(Appended(reg.identifier))),
     Field("password", Plain(Appended(reg.password))),
     Field("password2", Plain(Appended(reg.password)))]
  }

  /** The credentials carry the identifier under its field only. */
  lemma CredentialsLookup(reg: Registration)
    ensures ValueOf(Credentials(reg), IdentifierField(reg)) == Some(Plain(Appended(reg.identifier)))
    ensures ValueOf(Credentials(reg), if IdentifierField(reg) == "phone" then "email" else "phone").None?
  {
    var c := Credentials(reg);
    var other := if IdentifierField(reg) == "phone" then "email" else "phone";
    assert other != IdentifierField(reg) by { assert other[0] != IdentifierField(reg)[0]; }
    assert c[1].name[1] == 'a' && c[2].name[1] == 'a' && other[1] != 'a';
  }

  /** The body as written: the avatar is read from `data.avatar`, a value
      the form never registers, so it is never sent. */
  function RegistrationFieldsAsWritten(d: FormData, reg: Registration, uiLanguage: string, image: Option<string>): (r: seq<Field>)
    ensures ValueOf(r, "avatar").None?
  {
    BaseFieldsOmit(d, reg, uiLanguage, "avatar");
    ValueOfAppend(BaseFields(d, reg, uiLanguage), Credentials(reg), "avatar");
    BaseFields(d, reg, uiLanguage) + Credentials(reg)
  }

  /** The body with the chosen picture attached as `avatar`. */
  function RegistrationFields(d: FormData, reg: Registration, uiLanguage: string, image: Option<string>): (r: seq<Field>)
    ensures image.Some? ==> ValueOf(r, "avatar") == Some(File(image.value))
    ensures image.None? ==> ValueOf(r, "avatar").None?
  {
    var base := BaseFields(d, reg, uiLanguage);
    var avatar := if image.Some? then [Field("avatar", File(image.value))] else [];
    BaseFieldsOmit(d, reg, uiLanguage, "avatar");
    ValueOfAppend(base, avatar, "avatar");
    ValueOfAppend(base + avatar, Credentials(reg), "avatar");
    base + avatar + Credentials(reg)
  }

  /** As written, a picture chosen in the form never reaches the server. */
  lemma ChosenPictureDroppedAsWritten(d: FormData, reg: Registration, uiLanguage: string, name: string)
    ensures ValueOf(RegistrationFieldsAsWritten(d, reg, uiLanguage, Some(name)), "avatar").None?
    ensures ValueOf(RegistrationFields(d, reg, uiLanguage, Some(name)), "avatar") == Some(File(name))
  {
  }

  /** A valid form sends its birth date in the server's `YYYY-MM-DD` form,
      its day, month and year in place. */
  lemma RegistrationSendsIsoDate(d: FormData, reg: Registration, uiLanguage: string, image: Option<string>)
    requires SchemaValid(d)
    ensures var iso := IsoFromDisplay(d.birthDate);
      ValueOf(RegistrationFields(d, reg, uiLanguage, image), "birth_date") == Some(Plain(iso)) &&
      IsoDate(iso) && iso[..4] == d.birthDate[6..] && iso[5..7] == d.birthDate[3..5] && iso[8..] == d.birthDate[..2]
  {
    DateConvertsToIso(d.birthDate);
    BirthDateSentFirst(d, reg, uiLanguage, image);
  }

  /** The birth date is the first field of the body. */
  lemma BirthDateSentFirst(d: FormData, reg: Registration, uiLanguage: string, image: Option<string>)
    ensures ValueOf(RegistrationFields(d, reg, uiLanguage, image), "birth_date") == Some(Plain(IsoFromDisplay(d.birthDate)))
  {
    var f := RegistrationFields(d, reg, uiLanguage, image);
    assert f[0] == Field("birth_date", Plain(IsoFromDisplay(d.birthDate)));
  }

  /** The identifier goes under `phone` or `email`, never both. */
  lemma RegistrationIdentifier(d: FormData, reg: Registration, uiLanguage: string, image: Option<string>)
    ensures var f := RegistrationFields(d, reg, uiLanguage, image);
      ValueOf(f, IdentifierField(reg)) == Some(Plain(Appended(reg.identifier))) &&
      ValueOf(f, if IdentifierField(reg) == "phone" then "email" else "phone").None?
  {
    var base := BaseFields(d, reg, uiLanguage);
    var avatar := if image.Some? then [Field("avatar", File(image.value))] else [];
    var name := IdentifierField(reg);
    var other := if name == "phone" then "email" else "phone";
    CredentialsLookup(reg);
    BaseFieldsOmit(d, reg, uiLanguage, name);
    BaseFieldsOmit(d, reg, uiLanguage, other);
    assert ValueOf(avatar, name).None? && ValueOf(avatar, other).None? by {
      assert name[0] != 'a' && other[0] != 'a';
    }
    ValueOfAppend(base, avatar, name);
    ValueOfAppend(base, avatar, other);
    ValueOfAppend(base + avatar, Credentials(reg), name);
    ValueOfAppend(base + avatar, Credentials(reg), other);
  }

  /** How far `onSubmit` gets: the registration, the sign-in that returns
      the tokens, and the profile request. */
  datatype SubmitSteps =
    | RegisterRejected
    | LoginRejected
    | ProfileRejected(access: string, refresh: string)
    | Completed(access: string, refresh: string)

  const GenericError := "Произошла ошибка. Попробуйте позже."

  class SetupForm {
    var form: FormData
    var selectedLanguages: seq<string>
    var selectedInterests: seq<string>
    var customInterest: string
    var selectedCountry: string
    var selectedCity: string
    /** the chosen picture, by file name */
    var image: Option<string>
    var error: Option<string>
    var isLoading: bool
    /** the registration bodies posted, oldest first */
    var registrations: seq<seq<Field>>
    /** the tokens kept in local storage */
    var tokens: Option<(string, string)>
    var onDashboard: bool

    /** The pickers' own state and the form library's values agree, and no
        language or interest is chosen twice. */
    ghost predicate Valid()
      reads this
    {
      form.languages == selectedLanguages && form.interests == selectedInterests &&
      form.country == selectedCountry && form.city == selectedCity &&
      NoDuplicates(selectedLanguages) && NoDuplicates(selectedInterests)
    }

    constructor ()
      ensures Valid()
      ensures form == FormData("", "", "", "", [], []) && customInterest == "" && image.None?
      ensures error.None? && !isLoading && registrations == [] && tokens.None? && !onDashboard
    {
      form := FormData("", "", "", "", [], []);
      selectedLanguages := [];
      selectedInterests := [];
      customInterest := "";
      selectedCountry := "";
      selectedCity := "";
      image := None;
      error := None;
      isLoading := false;
      registrations := [];
      tokens := None;
      onDashboard := false;
    }

    method NicknameInput(value: string)
      requires Valid()
      modifies this`form
      ensures Valid() && form == old(form).(nickname := value)
    {
      form := form.(nickname := value);
    }

    /** `handleBirthDateChange`: the field shows the formatted text. */
    method BirthDateInput(value: string)
      requires Valid()
      modifies this`form
      ensures Valid() && form == old(form).(birthDate := FormatBirthDate(value))
    {
      form := form.(birthDate := FormatBirthDate(value));
    }

    /** `handleImageUpload`. */
    method ImageChosen(name: string)
      modifies this`image
      ensures image == Some(name)
    {
      image := Some(name);
    }

    /** `handleCountryChange`: a new country clears the city. */
    method CountryChange(country: string)
      requires Valid()
      modifies this`form, this`selectedCountry, this`selectedCity
      ensures Valid()
      ensures selectedCountry == country && selectedCity == "" && form == old(form).(country := country, city := "")
    {
      selectedCountry := country;
      selectedCity := "";
      form := form.(country := country, city := "");
    }

    method CityChange(city: string)
      requires Valid()
      modifies this`form, this`selectedCity
      ensures Valid()
      ensures selectedCity == city && form == old(form).(city := city)
    {
      selectedCity := city;
      form := form.(city := city);
    }

    /** `toggleLanguage`. */
    method ToggleLanguage(language: string)
      requires Valid()
      modifies this`form, this`selectedLanguages
      ensures Valid()
      ensures selectedLanguages == Toggle(old(selectedLanguages), language)
      ensures form == old(form).(languages := selectedLanguages)
    {
      ToggleKeepsDistinct(selectedLanguages, language);
      selectedLanguages := Toggle(selectedLanguages, language);
      form := form.(languages := selectedLanguages);
    }

    /** `toggleInterest`. */
    method ToggleInterest(interest: string)
      requires Valid()
      modifies this`form, this`selectedInterests
      ensures Valid()
      ensures selectedInterests == Toggle(old(selectedInterests), interest)
      ensures form == old(form).(interests := selectedInterests)
    {
      ToggleKeepsDistinct(selectedInterests, interest);
      selectedInterests := Toggle(selectedInterests, interest);
      form := form.(interests := selectedInterests);
    }

    method CustomInterestInput(value: string)
      modifies this`customInterest
      ensures customInterest == value
    {
      customInterest := value;
    }

    /** `addCustomInterest`: a new, non-blank interest is added trimmed and
        the input cleared; anything else changes nothing. */
    method AddCustomInterest()
      requires Valid()
      modifies this`form, this`selectedInterests, this`customInterest
      ensures Valid()
      ensures var t := Trim(old(customInterest));
        if t != "" && t !in old(selectedInterests) then
          selectedInterests == old(selectedInterests) + [t] && customInterest == "" &&
          form == old(form).(interests := selectedInterests)
        else
          selectedInterests == old(selectedInterests) && customInterest == old(customInterest) && form == old(form)
    {
      var t := Trim(customInterest);
      if t != "" && t !in selectedInterests {
        ToggleKeepsDistinct(selectedInterests, t);
        selectedInterests := selectedInterests + [t];
        form := form.(interests := selectedInterests);
        customInterest := "";
      }
    }

    /** `removeInterest`. */
    method RemoveInterest(interest: string)
      requires Valid()
      modifies this`form, this`selectedInterests
      ensures Valid()
      ensures selectedInterests == Without(old(selectedInterests), interest)
      ensures form == old(form).(interests := selectedInterests)
    {
      WithoutKeepsDistinct(selectedInterests, interest);
      selectedInterests := Without(selectedInterests, interest);
      form := form.(interests := selectedInterests);
    }

    /** Submitting: an invalid form sends nothing; a valid one posts the
        registration, keeps the tokens once signed in and opens the
        dashboard once the profile has loaded; any failure shows the
        generic error. */
    method Submit(reg: Registration, uiLanguage: string, steps: SubmitSteps)
      requires Valid()
      modifies this`registrations, this`tokens, this`onDashboard, this`error, this`isLoading
      ensures Valid()
      ensures !SchemaValid(form) ==>
        unchanged(this`registrations, this`tokens, this`onDashboard, this`error, this`isLoading)
      ensures SchemaValid(form) ==>
        registrations == old(registrations) + [RegistrationFields(form, reg, uiLanguage, image)] &&
        !isLoading &&
        (steps.RegisterRejected? || steps.LoginRejected? ==> tokens == old(tokens)) &&
        (steps.ProfileRejected? || steps.Completed? ==> tokens == Some((steps.access, steps.refresh))) &&
        (onDashboard <==> steps.Completed? || old(onDashboard)) &&
        (error.None? <==> steps.Completed?) &&
        (error.Some? ==> error == Some(GenericError))
    {
      if SchemaValid(form) {
        error := None;
        isLoading := true;
        registrations := registrations + [RegistrationFields(form, reg, uiLanguage, image)];
        if steps.RegisterRejected? || steps.LoginRejected? {
          error := Some(GenericError);
        } else {
          tokens := Some((steps.access, steps.refresh));
          if steps.Completed? {
            onDashboard := true;
          } else {
            error := Some(GenericError);
          }
        }
        isLoading := false;
      }
    }
  }

  /** Choosing a language twice leaves the form as it was. */
  method ToggleLanguageTwice(f: SetupForm, language: string)
    requires f.Valid()
    modifies f
    ensures f.Valid()
    ensures language !in old(f.selectedLanguages) ==> f.selectedLanguages == old(f.selectedLanguages) && f.form == old(f.form)
    ensures language in old(f.selectedLanguages) ==> f.selectedLanguages == Without(old(f.selectedLanguages), language) + [language]
  {
    f.ToggleLanguage(language);
    f.ToggleLanguage(language);
    if language !in old(f.selectedLanguages) {
      ToggleTwiceAbsent(old(f.selectedLanguages), language);
    } else {
      ToggleTwicePresent(old(f.selectedLanguages), language);
    }
  }
}
