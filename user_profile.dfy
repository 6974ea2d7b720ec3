/** The profile page (frontend/src/components/profile/UserProfile.tsx): the
    profile as loaded from the server, the copy being edited, the edit
    handlers, saving and cancelling, the age shown beside the birth date and
    the language labels.  The server's answers are parameters; today's date
    is a parameter of the age. */
module UserProfile {
  import opened Wrappers
  import opened Sorting
  import opened Text
  import opened Json
  import opened Locations
  import opened ProfileFields

  /** The languages the page can name, by code. */
  const Languages: Table<string> := [
    ("en", "English"), ("ru", "Русский"), ("es", "Español"), ("fr", "Français"),
    ("de", "Deutsch"), ("it", "Italiano"), ("pt", "Português"), ("ja", "日本語"),
    ("ko", "한국어"), ("zh", "中文"), ("ar", "العربية"), ("hi", "हिन्दी"),
    ("id", "Bahasa Indonesia"), ("tr", "Türkçe"), ("vi", "Tiếng Việt")
  ]

  /** `getLanguageLabel`: the label of a known code, else the code itself. */
  function LanguageLabel(code: string): (r: string)
    ensures Find(Languages, code).None? ==> r == code
    ensures Find(Languages, code).Some? && Find(Languages, code).value != "" ==> r == Find(Languages, code).value
    ensures r == code || exists i :: 0 <= i < |Languages| && Languages[i] == (code, r)
  {
    match Find(Languages, code)
    case None => code
    case Some(name) => if name != "" then name else code
  }

  lemma LanguageLabelExamples()
    ensures LanguageLabel("ru") == "Русский"
  {
    assert Languages[0].0 != "ru" && Languages[1] == ("ru", "Русский");
  }

  // ---------------------------------------------------------------------
  // Avatar initials

  /** The first character of every piece; an empty piece contributes
      nothing, as `undefined` joins as the empty text. */
  function FirstChars(pieces: seq<string>): (r: string)
    ensures |r| <= |pieces|
    ensures (forall i :: 0 <= i < |pieces| ==> pieces[i] != "") ==>
      |r| == |pieces| && forall i :: 0 <= i < |r| ==> r[i] == pieces[i][0]
  {
    if pieces == [] then []
    else
      var rest := FirstChars(pieces[1..]);
      assert (forall i :: 0 <= i < |pieces| ==> pieces[i] != "") ==>
        forall i :: 0 < i < |pieces| ==> pieces[1..][i - 1] == pieces[i];
      (if pieces[0] == "" then [] else [pieces[0][0]]) + rest
  }

  /** The pieces joined by single spaces. */
  function JoinWords(words: seq<string>): string
    requires |words| >= 1
  {
    if |words| == 1 then words[0] else words[0] + " " + JoinWords(words[1..])
  }

  /** Splitting words joined by single spaces gives the words back. */
  lemma {:induction false} SplitJoinWords(words: seq<string>)
    requires |words| >= 1 && forall i :: 0 <= i < |words| ==> ' ' !in words[i]
    ensures SplitOn(JoinWords(words), ' ') == words
  {
    if |words| > 1 {
      SplitJoinWords(words[1..]);
      SplitAt(words[0], JoinWords(words[1..]), ' ');
      assert words[0] + " " + JoinWords(words[1..]) == words[0] + [' '] + JoinWords(words[1..]);
      assert [words[0]] + words[1..] == words;
    }
  }

  /** `getInitials`: the upper-cased first characters of the pieces of the
      name between single spaces, one per non-empty piece. */
  function ProfileInitials(name: string): (r: string)
    ensures |r| <= |SplitOn(name, ' ')|
    ensures ' ' !in name && name != "" ==> r == [UpperChar(name[0])]
  {
    Upper(FirstChars(SplitOn(name, ' ')))
  }

  /** Any number of words separated by single spaces give one initial each,
      in order. */
  lemma WordInitials(words: seq<string>)
    requires |words| >= 1 && forall i :: 0 <= i < |words| ==> words[i] != "" && ' ' !in words[i]
    ensures var r := ProfileInitials(JoinWords(words));
      |r| == |words| && forall i :: 0 <= i < |words| ==> r[i] == UpperChar(words[i][0])
  {
    SplitJoinWords(words);
  }

  /** A first and a last name give two initials. */
  lemma TwoWordInitials(first: string, last: string)
    requires first != "" && last != "" && ' ' !in first && ' ' !in last
    ensures ProfileInitials(first + " " + last) == [UpperChar(first[0]), UpperChar(last[0])]
  {
    SplitAt(first, last, ' ');
    assert first + " " + last == first + [' '] + last;
    assert SplitOn(first + " " + last, ' ') == [first, last];
    assert FirstChars([first, last]) == [first[0], last[0]] by {
      assert [first, last][1..] == [last];
      assert FirstChars([last]) == [last[0]] by {
        assert [last][1..] == [];
      }
    }
  }

  // ---------------------------------------------------------------------
  // Birth dates

  type Iso = s: string | IsoDate(s) witness "2000-01-01"

  /** The birth date as the page shows it when it comes from the server as
      written: `toLocaleDateString('en-GB')` gives `DD/MM/YYYY`. */
  function ShownBirthDateAsWritten(birth: Option<Iso>): (r: string)
    ensures birth.None? ==> r == ""
    ensures birth.Some? ==> (|r| == 10 && r[2] == '/' && r[5] == '/' &&
      r[..2] == birth.value[8..] && r[3..5] == birth.value[5..7] && r[6..] == birth.value[..4])
  {
    match birth
    case None => ""
    case Some(iso) => iso[8..] + "/" + iso[5..7] + "/" + iso[..4]
  }

  /** The birth date shown in the `DD.MM.YYYY` form the page edits and
      converts back. */
  function ShownBirthDate(birth: Option<Iso>): (r: string)
    ensures birth.None? ==> r == ""
    ensures birth.Some? ==> (DisplayDate(r) &&
      r[..2] == birth.value[8..] && r[3..5] == birth.value[5..7] && r[6..] == birth.value[..4])
  {
    match birth
    case None => ""
    case Some(iso) =>
      var r := iso[8..] + "." + iso[5..7] + "." + iso[..4];
      assert r[..2] == iso[8..] && r[3..5] == iso[5..7] && r[6..] == iso[..4];
      r
  }

  /** The shown date converts back to the server's date: loading and saving
      without editing keeps the birth date. */
  lemma ShownBirthDateRoundTrip(iso: Iso)
    ensures IsoFromDisplay(ShownBirthDate(Some(iso))) == iso
  {
    var s := ShownBirthDate(Some(iso));
    IsoFromDate(s);
    var back := iso[..4] + "-" + iso[5..7] + "-" + iso[8..];
    assert IsoFromDisplay(s) == back;
    assert |back| == |iso| == 10;
    forall i | 0 <= i < 10 ensures back[i] == iso[i] {
      if i < 4 {
      } else if i == 4 {
      } else if i < 7 {
        assert back[i] == iso[5..7][i - 5];
      } else if i == 7 {
      } else {
        assert back[i] == iso[8..][i - 8];
      }
    }
  }

  /** The shown date is already in the formatter's shape. */
  lemma ShownBirthDateIsFormatted(birth: Option<Iso>)
    ensures FormatBirthDate(ShownBirthDate(birth)) == ShownBirthDate(birth)
  {
    if birth.Some? {
      DateIsFixpoint(ShownBirthDate(birth));
    }
  }

  /** The date as written has no dot. */
  lemma ShownAsWrittenHasNoDot(iso: Iso)
    ensures '.' !in ShownBirthDateAsWritten(Some(iso))
  {
    var s := ShownBirthDateAsWritten(Some(iso));
    assert s == iso[8..] + "/" + iso[5..7] + "/" + iso[..4];
    forall i | 0 <= i < 10 ensures s[i] != '.' {
      if i == 2 || i == 5 {
      } else if i < 2 {
        assert s[i] == iso[8..][i] && IsDigit(iso[8..][i]);
      } else if i < 5 {
        assert s[i] == iso[5..7][i - 3] && IsDigit(iso[5..7][i - 3]);
      } else {
        assert s[i] == iso[..4][i - 6] && IsDigit(iso[..4][i - 6]);
      }
    }
  }

  /** As written, an unedited date has no dot, so saving turns it into
      `undefined-undefined-DD/MM/YYYY` and the server's date is lost. */
  lemma ShownAsWrittenSavesUndefined(iso: Iso)
    ensures IsoFromDisplay(ShownBirthDateAsWritten(Some(iso))) == "undefined-undefined-" + ShownBirthDateAsWritten(Some(iso))
    ensures IsoFromDisplay(ShownBirthDateAsWritten(Some(iso))) != iso
  {
    var s := ShownBirthDateAsWritten(Some(iso));
    ShownAsWrittenHasNoDot(iso);
    IsoFromUndotted(s);
  }

  /** Without a birth date the page saves `undefined-undefined-`. */
  lemma NoBirthDateSavesUndefined()
    ensures IsoFromDisplay(ShownBirthDate(None)) == "undefined-undefined-"
  {
    IsoFromUndotted("");
  }

  // ---------------------------------------------------------------------
  // Age

  /** A calendar date; `month` counts from 1. */
  datatype Date = Date(year: int, month: int, day: int)

  predicate LeapYear(y: int) { (y % 4 == 0 && y % 100 != 0) || y % 400 == 0 }

  function DaysIn(year: int, month: int): (r: int)
    requires 1 <= month <= 12
    ensures 28 <= r <= 31
  {
    if month == 2 then (if LeapYear(year) then 29 else 28)
    else if month == 4 || month == 6 || month == 9 || month == 11 then 30
    else 31
  }

  predicate ValidDate(d: Date) {
    1 <= d.month <= 12 && 1 <= d.day <= DaysIn(d.year, d.month)
  }

  /** Whether the `n`th birthday after `birth` falls on or before `today`. */
  predicate Reached(birth: Date, today: Date, n: int) {
    var y := birth.year + n;
    y < today.year ||
    (y == today.year && (birth.month < today.month || (birth.month == today.month && birth.day <= today.day)))
  }

  /** What `calculateAge` shows: nothing for an empty date, `NaN` for a part
      that is not a number, else the age in years.  A day or month outside
      the calendar, which `new Date` rolls over, is `OutOfRange`. */
  datatype AgeText = Blank | NotANumber | OutOfRange | Years(n: int)

  /** `Number` of a destructured piece; a missing piece is `NaN`. */
  function PartNumber(parts: seq<string>, i: nat): (r: Option<int>)
    ensures i >= |parts| ==> r.None?
    ensures i < |parts| ==> r == TextNumber(parts[i])
  {
    if i < |parts| then TextNumber(parts[i]) else None
  }

  /** `new Date(year, ...)` reads a year from 0 to 99 as 1900 to 1999. */
  function FullYear(y: int): (r: int)
    ensures 0 <= y <= 99 ==> r == 1900 + y
    ensures !(0 <= y <= 99) ==> r == y
  {
    if 0 <= y <= 99 then 1900 + y else y
  }

  /** The birth date `calculateAge` reads from `DD.MM.YYYY`, if every part
      is a number. */
  function BirthOf(birthDate: string): (r: Option<Date>)
  {
    var parts := SplitOn(birthDate, '.');
    var day, month, year := PartNumber(parts, 0), PartNumber(parts, 1), PartNumber(parts, 2);
    if day.None? || month.None? || year.None? then None
    else Some(Date(FullYear(year.value), month.value, day.value))
  }

  /** `calculateAge`: the whole years from the birth date to today, one less
      while this year's birthday is still to come. */
  method CalculateAge(birthDate: string, today: Date) returns (r: AgeText)
    requires ValidDate(today)
    ensures r.Blank? <==> birthDate == ""
    ensures r.NotANumber? <==> birthDate != "" && BirthOf(birthDate).None?
    ensures r.OutOfRange? <==> birthDate != "" && BirthOf(birthDate).Some? && !ValidDate(BirthOf(birthDate).value)
    ensures r.Years? ==> (BirthOf(birthDate).Some? &&
      Reached(BirthOf(birthDate).value, today, r.n) && !Reached(BirthOf(birthDate).value, today, r.n + 1))
  {
    if birthDate == "" {
      return Blank;
    }
    var birth := BirthOf(birthDate);
    if birth.None? {
      return NotANumber;
    }
    var b := birth.value;
    if !ValidDate(b) {
      return OutOfRange;
    }
    var age := today.year - b.year;
    var monthDiff := today.month - b.month;
    if monthDiff < 0 || (monthDiff == 0 && today.day < b.day) {
      age := age - 1;
    }
    return Years(age);
  }

  /** Birthdays are reached in order: once the `n`th is reached, so are all
      earlier ones. */
  lemma ReachedEarlier(birth: Date, today: Date, m: int, n: int)
    requires m <= n && Reached(birth, today, n)
    ensures Reached(birth, today, m)
  {
  }

  /** On the day of birth the age is zero. */
  lemma NoBirthdayYetOnBirthDay(b: Date)
    ensures Reached(b, b, 0) && !Reached(b, b, 1)
  {
  }

  /** As written the shown date has no dot, so the age is `NaN`. */
  lemma ShownAsWrittenAgeIsNaN(iso: Iso)
    ensures BirthOf(ShownBirthDateAsWritten(Some(iso))).None?
  {
    var s := ShownBirthDateAsWritten(Some(iso));
    ShownAsWrittenHasNoDot(iso);
    assert SplitOn(s, '.') == [s];
  }

  // ---------------------------------------------------------------------
  // The page

  /** The profile as the server sends it; absent fields are `None`. */
  datatype ServerUser = ServerUser(
    nickname: Option<string>, birthDate: Option<Iso>, country: Option<string>, city: Option<string>,
    languages: Option<seq<string>>, interests: Option<seq<string>>,
    avatar: Option<string>, profileImage: Option<string>, email: Option<string>, phone: Option<string>)

  /** A birth date as the page holds it: always of the formatter's shape,
      since it comes either from the server or through the formatter. */
  type BirthDateText = s: string | FormatBirthDate(s) == s witness ""

  datatype ProfileData = ProfileData(
    nickname: string, birthDate: BirthDateText, country: string, city: string,
    languages: seq<string>, interests: seq<string>,
    profileImage: Option<string>, email: string, phone: string)

  const EmptyProfile := ProfileData("", "", "", "", [], [], None, "", "")

  /** `value || ''` on an optional text. */
  function OrEmpty(s: Option<string>): (r: string)
    ensures s.Some? ==> r == s.value
    ensures s.None? ==> r == ""
  {
    if s.Some? then s.value else ""
  }

  /** `value || null` on an optional text: the empty text is no image. */
  function OrNull(s: Option<string>): (r: Option<string>)
    ensures r.Some? <==> s.Some? && s.value != ""
    ensures r.Some? ==> r == s
  {
    if s.Some? && s.value != "" then s else None
  }

  /** The profile built from the server's record; the birth date is shown in
      the editable `DD.MM.YYYY` form. */
  function FromServer(u: ServerUser): (r: ProfileData)
    ensures r.birthDate == "" || DisplayDate(r.birthDate)
    ensures FormatBirthDate(r.birthDate) == r.birthDate
    ensures r.languages == (if u.languages.Some? then u.languages.value else [])
    ensures r.interests == (if u.interests.Some? then u.interests.value else [])
    ensures r.profileImage == u.avatar
    ensures r.nickname == OrEmpty(u.nickname) && r.country == OrEmpty(u.country) && r.city == OrEmpty(u.city)
    ensures r.email == OrEmpty(u.email) && r.phone == OrEmpty(u.phone)
    ensures r.birthDate == ShownBirthDate(u.birthDate)
  {
    ShownBirthDateIsFormatted(u.birthDate);
    ProfileData(OrEmpty(u.nickname), ShownBirthDate(u.birthDate), OrEmpty(u.country), OrEmpty(u.city),
                if u.languages.Some? then u.languages.value else [],
                if u.interests.Some? then u.interests.value else [],
                u.avatar, OrEmpty(u.email), OrEmpty(u.phone))
  }

  /** What `handleSave` sends. */
  datatype ProfileUpdate = ProfileUpdate(
    nickname: string, birthDate: string, country: string, city: string,
    languages: seq<string>, interests: seq<string>, profileImage: Option<string>)

  function UpdateFrom(edit: ProfileData, image: Option<string>): (r: ProfileUpdate)
    ensures DisplayDate(edit.birthDate) ==> r.birthDate == edit.birthDate[6..] + "-" + edit.birthDate[3..5] + "-" + edit.birthDate[..2]
    ensures r.birthDate == IsoFromDisplay(edit.birthDate)
    ensures r.nickname == edit.nickname && r.country == edit.country && r.city == edit.city
    ensures r.languages == edit.languages && r.interests == edit.interests && r.profileImage == image
  {
    var r := ProfileUpdate(edit.nickname, IsoFromDisplay(edit.birthDate), edit.country, edit.city,
                           edit.languages, edit.interests, image);
    if DisplayDate(edit.birthDate) then IsoFromDate(edit.birthDate); r else r
  }

  /** Saving a freshly loaded profile sends the server's birth date back
      unchanged. */
  lemma UnEditedSaveKeepsBirthDate(u: ServerUser)
    requires u.birthDate.Some?
    ensures UpdateFrom(FromServer(u), None).birthDate == u.birthDate.value
  {
    ShownBirthDateRoundTrip(u.birthDate.value);
  }

  datatype ProfileError = LoadFailed | SaveFailed | ServerMessage(message: string)

  datatype LoadOutcome = Loaded(user: ServerUser) | LoadError

  /** The server's answer to the update: the new record, or a failure with
      the `message` of its body, if any. */
  datatype SaveOutcome = Saved(user: ServerUser) | SaveError(message: Option<string>)

  /** The error a failed save shows: the server's message, else the generic
      text. */
  function SaveErrorOf(message: Option<string>): (r: ProfileError)
    ensures message.Some? && message.value != "" ==> r == ServerMessage(message.value)
    ensures !(message.Some? && message.value != "") ==> r == SaveFailed
  {
    if message.Some? && message.value != "" then ServerMessage(message.value) else SaveFailed
  }

  class ProfilePage {
    var profile: ProfileData
    var edit: ProfileData
    var isEditing: bool
    var isLoading: bool
    var isSaving: bool
    var profileImage: Option<string>
    var error: Option<ProfileError>
    /** the user record in the shared user context */
    var user: Option<ServerUser>
    /** the update bodies sent, oldest first */
    var puts: seq<ProfileUpdate>

    constructor ()
      ensures profile == EmptyProfile && edit == EmptyProfile
      ensures !isEditing && isLoading && !isSaving && profileImage.None? && error.None? && user.None? && puts == []
    {
      profile := EmptyProfile;
      edit := EmptyProfile;
      isEditing := false;
      isLoading := true;
      isSaving := false;
      profileImage := None;
      error := None;
      user := None;
      puts := [];
    }

    /** `loadUserProfile`. */
    method Load(outcome: LoadOutcome)
      modifies this`profile, this`edit, this`profileImage, this`user, this`error, this`isLoading
      ensures !isLoading
      ensures outcome.Loaded? ==>
        profile == FromServer(outcome.user) && edit == profile &&
        profileImage == OrNull(outcome.user.profileImage) && user == Some(outcome.user) && error.None?
      ensures outcome.LoadError? ==>
        error == Some(LoadFailed) && unchanged(this`profile, this`edit, this`profileImage, this`user)
    {
      isLoading := true;
      error := None;
      match outcome {
        case Loaded(u) =>
          profile := FromServer(u);
          edit := profile;
          profileImage := OrNull(u.profileImage);
          user := Some(u);
        case LoadError =>
          error := Some(LoadFailed);
      }
      isLoading := false;
    }

    method EditClick()
      modifies this`isEditing
      ensures isEditing
    {
      isEditing := true;
    }

    /** `handleImageUpload` once the file has been read. */
    method ImageRead(url: string)
      modifies this`profileImage, this`edit
      ensures profileImage == Some(url) && edit == old(edit).(profileImage := Some(url))
    {
      profileImage := Some(url);
      edit := edit.(profileImage := Some(url));
    }

    /** `handleBirthDateChange`. */
    method BirthDateChange(value: string)
      modifies this`edit
      ensures edit == old(edit).(birthDate := FormatBirthDate(value))
    {
      FormatIdempotent(value);
      edit := edit.(birthDate := FormatBirthDate(value));
    }

    /** `handleCountryChange`: a new country clears the city. */
    method CountryChange(country: string)
      modifies this`edit
      ensures edit == old(edit).(country := country, city := "")
    {
      edit := edit.(country := country, city := "");
    }

    method CityChange(city: string)
      modifies this`edit
      ensures edit == old(edit).(city := city)
    {
      edit := edit.(city := city);
    }

    /** `toggleLanguage`. */
    method ToggleLanguage(language: string)
      modifies this`edit
      ensures edit == old(edit).(languages := Toggle(old(edit).languages, language))
    {
      edit := edit.(languages := Toggle(edit.languages, language));
    }

    /** `removeInterest`. */
    method RemoveInterest(interest: string)
      modifies this`edit
      ensures edit == old(edit).(interests := Without(old(edit).interests, interest))
    {
      edit := edit.(interests := Without(edit.interests, interest));
    }

    /** `handleSave`: the edited copy is sent with its birth date converted;
        once the server accepts it, it becomes the profile. */
    method Save(outcome: SaveOutcome)
      modifies this`profile, this`isEditing, this`user, this`error, this`isSaving, this`puts
      ensures puts == old(puts) + [UpdateFrom(old(edit), old(profileImage))]
      ensures !isSaving
      ensures outcome.Saved? ==>
        profile == old(edit) && !isEditing && user == Some(outcome.user) && error.None?
      ensures outcome.SaveError? ==>
        error == Some(SaveErrorOf(outcome.message)) && unchanged(this`profile, this`isEditing, this`user)
    {
      isSaving := true;
      error := None;
      var body := UpdateFrom(edit, profileImage);
      puts := puts + [body];
      if outcome.Saved? {
        profile := edit;
        isEditing := false;
        user := Some(outcome.user);
      } else {
        error := Some(SaveErrorOf(outcome.message));
      }
      isSaving := false;
    }

    /** `handleCancel`: the edits are dropped, and the image goes back to the
        profile's, an empty one becoming `null`. */
    method Cancel()
      modifies this`edit, this`profileImage, this`isEditing, this`error
      ensures edit == profile && !isEditing && error.None?
      ensures profileImage == OrNull(profile.profileImage)
      ensures profileImage.Some? <==> profile.profileImage.Some? && profile.profileImage.value != ""
    {
      edit := profile;
      profileImage := OrNull(profile.profileImage);
      isEditing := false;
      error := None;
    }
  }

  /** Loading a profile and saving it without edits sends the server's birth
      date back. */
  method LoadThenSave(page: ProfilePage, u: ServerUser, answer: SaveOutcome)
    requires u.birthDate.Some?
    modifies page
    ensures |page.puts| == |old(page.puts)| + 1 && page.puts[|page.puts| - 1].birthDate == u.birthDate.value
  {
    page.Load(Loaded(u));
    page.Save(answer);
    ShownBirthDateRoundTrip(u.birthDate.value);
  }
}
