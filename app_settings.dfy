/** The settings page (frontend/src/components/settings/AppSettings.tsx): the
    nineteen visible settings it edits, the four hidden ones it only carries
    back to the server, how a load maps the server's fields, the body of
    every save, and the error each failure shows.  The HTTP outcomes are
    parameters, the i18n language is the `uiLanguage` field, and a message
    is its translation key (the translated texts are not modelled). */
module AppSettings {
  import opened Wrappers
  import opened Json
  import opened SettingsContext

  /** The settings the page no longer shows but the server still requires. */
  predicate Hidden(k: SettingKey) {
    k == EmailNotifications || k == ReadReceipts || k == EnterToSend || k == AutoplayVideos
  }

  /** The settings a load reads with `||` rather than `??`. */
  predicate ReadWithOr(k: SettingKey) {
    k == Language || k == Theme || k == FontSize || k == ProfileVisibility || k == SessionTimeout || k == DataUsage
  }

  function VisibleKeys(): set<SettingKey> { set k | k in AllKeys && !Hidden(k) }

  function HiddenKeys(): set<SettingKey> { set k | k in AllKeys && Hidden(k) }

  /** Every setting is either visible or hidden, never both. */
  lemma KeysPartition()
    ensures forall k: SettingKey :: k in VisibleKeys() <==> !Hidden(k)
    ensures forall k: SettingKey :: k in HiddenKeys() <==> Hidden(k)
  {
    AllKeysComplete();
  }

  /** Exactly the visible settings. */
  predicate VisibleState(s: Settings) { s.Keys == VisibleKeys() }

  /** Changing a visible setting keeps exactly the visible settings. */
  lemma UpdateStaysVisible(s: Settings, k: SettingKey, v: Json)
    requires VisibleState(s) && !Hidden(k)
    ensures VisibleState(s[k := v])
  {
    KeysPartition();
    assert k in s.Keys;
    assert s[k := v].Keys == s.Keys;
  }

  /** Exactly the hidden settings. */
  predicate HiddenState(s: Settings) { s.Keys == HiddenKeys() }

  /** The visible settings before anything is loaded: the defaults, with the
      interface language. */
  function InitialVisible(uiLanguage: Json): (r: Settings)
    ensures VisibleState(r)
  {
    map k | k in AllKeys && !Hidden(k) :: if k == Language then uiLanguage else Default(k)
  }

  lemma InitialVisibleAt(uiLanguage: Json, k: SettingKey)
    requires !Hidden(k)
    ensures k in InitialVisible(uiLanguage)
    ensures k == Language ==> InitialVisible(uiLanguage)[k] == uiLanguage
    ensures k != Language ==> InitialVisible(uiLanguage)[k] == Defaults()[k]
  {
    KeysPartition();
  }

  /** The hidden settings before anything is loaded: their defaults. */
  function InitialHidden(): (r: Settings)
    ensures HiddenState(r)
  {
    map k | k in AllKeys && Hidden(k) :: Default(k)
  }

  lemma InitialHiddenAt(k: SettingKey)
    requires Hidden(k)
    ensures k in InitialHidden() && InitialHidden()[k] == Defaults()[k]
  {
    KeysPartition();
  }

  /** A visible setting as a load reads it from the server object `s`. */
  function LoadValue(k: SettingKey, s: Json, uiLanguage: Json): (r: Json)
    ensures var v := Get(s, k.SnakeName());
            var kept := if ReadWithOr(k) then OptJsTruthy(v) else !Nullish(v);
            r == if kept then v.value else if k == Language then uiLanguage else Default(k)
  {
    var fallback := if k == Language then uiLanguage else Default(k);
    if ReadWithOr(k) then JsOr(Get(s, k.SnakeName()), Some(fallback)).value
    else Coalesce(Get(s, k.SnakeName()), Some(fallback)).value
  }

  /** The visible settings a load installs. */
  function LoadedVisible(s: Json, uiLanguage: Json): (r: Settings)
    ensures VisibleState(r)
  {
    map k | k in AllKeys && !Hidden(k) :: LoadValue(k, s, uiLanguage)
  }

  /** Each visible setting keeps the stored value when that is truthy (for
      the settings read with `||`) or merely not `null`/missing (for those
      read with `??`); otherwise it takes the default, or the interface
      language for the language. */
  lemma LoadedVisibleAt(s: Json, uiLanguage: Json, k: SettingKey)
    requires !Hidden(k)
    ensures k in LoadedVisible(s, uiLanguage)
    ensures var v := Get(s, k.SnakeName());
            var kept := if ReadWithOr(k) then OptJsTruthy(v) else !Nullish(v);
            LoadedVisible(s, uiLanguage)[k] ==
              if kept then v.value else if k == Language then uiLanguage else Default(k)
  {
    KeysPartition();
  }

  /** The hidden settings a load remembers: the server's values, `??` the
      defaults. */
  function LoadedHidden(s: Json): (r: Settings)
    ensures HiddenState(r)
  {
    map k | k in AllKeys && Hidden(k) :: Coalesce(Get(s, k.SnakeName()), Some(Default(k))).value
  }

  lemma LoadedHiddenAt(s: Json, k: SettingKey)
    requires Hidden(k)
    ensures k in LoadedHidden(s)
    ensures !Nullish(Get(s, k.SnakeName())) ==> LoadedHidden(s)[k] == Get(s, k.SnakeName()).value
    ensures Nullish(Get(s, k.SnakeName())) ==> LoadedHidden(s)[k] == Default(k)
  {
    KeysPartition();
  }

  /** A stored `false` survives a load, because booleans are read with `??`. */
  lemma LoadKeepsFalse(s: Json, k: SettingKey, uiLanguage: Json)
    requires !Hidden(k) && !ReadWithOr(k) && Get(s, k.SnakeName()) == Some(JBool(false))
    ensures LoadedVisible(s, uiLanguage)[k] == JBool(false)
  {
    LoadedVisibleAt(s, uiLanguage, k);
  }

  /** A stored session timeout of 0 loads as 30, because it is read with
      `||`, while the settings context keeps the 0. */
  lemma SessionTimeoutZeroLoadsAsDefault(s: Json, uiLanguage: Json)
    requires Get(s, "session_timeout") == Some(JNum(0))
    ensures LoadedVisible(s, uiLanguage)[SessionTimeout] == JNum(30)
    ensures ToClient(s)[SessionTimeout] == JNum(0)
  {
    assert SessionTimeout.SnakeName() == "session_timeout";
    var v := Get(s, "session_timeout");
    assert ReadWithOr(SessionTimeout) && !OptJsTruthy(v) && !Nullish(v);
    LoadedVisibleAt(s, uiLanguage, SessionTimeout);
  }

  /** A stored empty language loads as the interface language. */
  lemma EmptyLanguageLoadsAsInterface(s: Json, uiLanguage: Json)
    requires Get(s, "language") == Some(JStr(""))
    ensures LoadedVisible(s, uiLanguage)[Language] == uiLanguage
  {
    assert Language.SnakeName() == "language";
    LoadedVisibleAt(s, uiLanguage, Language);
  }

  /** The body of a save: the visible settings under their server names,
      with the hidden ones spread over them. */
  function SavePayload(visible: Settings, hidden: Settings): (r: map<string, Json>)
    ensures forall k: SettingKey :: k in hidden ==> k.SnakeName() in r && r[k.SnakeName()] == hidden[k]
    ensures forall k: SettingKey :: k in visible && k !in hidden ==> k.SnakeName() in r && r[k.SnakeName()] == visible[k]
    ensures forall name :: name in r ==> exists k :: (k in visible || k in hidden) && k.SnakeName() == name
  {
    ToServer(visible + hidden)
  }

  /** Every save carries all twenty-three fields. */
  lemma SavePayloadComplete(visible: Settings, hidden: Settings, k: SettingKey)
    requires VisibleState(visible) && HiddenState(hidden)
    ensures k.SnakeName() in SavePayload(visible, hidden)
  {
    KeysPartition();
  }

  /** A hidden field read on load goes back in every save unchanged. */
  lemma HiddenFieldsSentBack(s: Json, visible: Settings, k: SettingKey)
    requires Hidden(k) && !Nullish(Get(s, k.SnakeName()))
    ensures SavePayload(visible, LoadedHidden(s))[k.SnakeName()] == Get(s, k.SnakeName()).value
  {
    LoadedHiddenAt(s, k);
  }

  /** Visible settings that differ in one setting give different save
      bodies. */
  lemma SavePayloadDistinguishes(a: Settings, b: Settings, hidden: Settings, k: SettingKey)
    requires HiddenState(hidden) && !Hidden(k) && k in a && k in b && a[k] != b[k]
    ensures SavePayload(a, hidden) != SavePayload(b, hidden)
  {
    KeysPartition();
    assert SavePayload(a, hidden)[k.SnakeName()] != SavePayload(b, hidden)[k.SnakeName()];
  }

  /** The errors the page shows, by translation key. */
  datatype SettingsError = LoadFailed | InvalidSettings | SaveForbidden | SaveFailed {
    function Key(): string {
      match this
      case LoadFailed => "settings.loadFailed"
      case InvalidSettings => "settings.invalidSettings"
      case SaveForbidden => "settings.saveForbidden"
      case SaveFailed => "settings.saveFailed"
    }
  }

  /** The error of a failed save, from `err?.response?.status`. */
  function SaveError(status: Option<Json>): (r: SettingsError)
    ensures r == InvalidSettings <==> status == Some(JNum(400))
    ensures r == SaveForbidden <==> status == Some(JNum(403))
    ensures r != LoadFailed
  {
    if status == Some(JNum(400)) then InvalidSettings
    else if status == Some(JNum(403)) then SaveForbidden
    else SaveFailed
  }

  /** What `GET api/users/settings/` produced: the response's `data`, or a
      thrown error with its response status. */
  datatype LoadOutcome = Loaded(data: Option<Json>) | LoadError(status: Option<Json>)

  datatype SaveOutcome = Saved | SaveRejected(status: Option<Json>)

  class SettingsPage {
    var settings: Settings
    var fixedServerFields: Settings
    var uiLanguage: Json
    var isLoading: bool
    var isSaving: bool
    var error: Option<SettingsError>
    var saveSuccess: bool
    var showResetConfirm: bool
    /** the bodies of the PUT requests sent, in order */
    var puts: seq<map<string, Json>>

    ghost predicate Valid()
      reads this
    {
      VisibleState(settings) && HiddenState(fixedServerFields)
    }

    constructor (uiLanguage: string)
      ensures Valid() && settings == InitialVisible(JStr(uiLanguage)) && fixedServerFields == InitialHidden()
      ensures this.uiLanguage == JStr(uiLanguage) && isLoading && !isSaving && error.None? && puts == []
    {
      settings := InitialVisible(JStr(uiLanguage));
      fixedServerFields := InitialHidden();
      this.uiLanguage := JStr(uiLanguage);
      isLoading := true;
      isSaving := false;
      error := None;
      saveSuccess := false;
      showResetConfirm := false;
      puts := [];
    }

    /** The interface language after a load that produced `next`: a truthy
        language that differs replaces it. */
    static function NextLanguage(loaded: Json, current: Json): (r: Json)
      ensures r == current || r == loaded
      ensures r != current <==> JsTruthy(loaded) && loaded != current
    {
      if JsTruthy(loaded) && loaded != current then loaded else current
    }

    /** The successful half of `loadSettings`, on the server object `s`. */
    method ApplyLoaded(s: Json)
      requires Valid()
      modifies this
      ensures Valid()
      ensures settings == LoadedVisible(s, old(uiLanguage)) && fixedServerFields == LoadedHidden(s)
      ensures uiLanguage == NextLanguage(LoadValue(Language, s, old(uiLanguage)), old(uiLanguage))
      ensures unchanged(this`puts, this`error)
    {
      var next := LoadedVisible(s, uiLanguage);
      var hidden := LoadedHidden(s);
      var language := NextLanguage(LoadValue(Language, s, uiLanguage), uiLanguage);
      settings, fixedServerFields, uiLanguage := next, hidden, language;
    }

    /** `loadSettings`: a response replaces both the visible and the hidden
        settings and switches the interface to a new truthy language; a 404
        keeps everything without an error; any other failure keeps
        everything and shows the load error. */
    method LoadSettings(outcome: LoadOutcome)
      requires Valid()
      modifies this
      ensures Valid() && !isLoading && puts == old(puts)
      ensures outcome.Loaded? ==>
        var s := Coalesce(outcome.data, Some(JObj(map[]))).value;
        settings == LoadedVisible(s, old(uiLanguage)) && fixedServerFields == LoadedHidden(s) && error.None? &&
        uiLanguage == NextLanguage(LoadValue(Language, s, old(uiLanguage)), old(uiLanguage))
      ensures outcome.LoadError? ==>
        settings == old(settings) && fixedServerFields == old(fixedServerFields) && uiLanguage == old(uiLanguage) &&
        error == (if outcome.status == Some(JNum(404)) then None else Some(LoadFailed))
    {
      isLoading := true;
      error := None;
      match outcome {
        case Loaded(data) =>
          ApplyLoaded(Coalesce(data, Some(JObj(map[]))).value);
        case LoadError(status) =>
          if status != Some(JNum(404)) {
            error := Some(LoadFailed);
          }
      }
      isLoading := false;
    }

    /** The body of `saveSettings`, with the settings its closure sees. */
    method Put(visible: Settings, hidden: Settings, outcome: SaveOutcome)
      requires Valid()
      modifies this
      ensures Valid() && !isSaving
      ensures puts == old(puts) + [SavePayload(visible, hidden)]
      ensures outcome.Saved? ==> saveSuccess && error.None?
      ensures outcome.SaveRejected? ==> !saveSuccess && error == Some(SaveError(outcome.status))
      ensures settings == old(settings) && fixedServerFields == old(fixedServerFields) && uiLanguage == old(uiLanguage)
      ensures isLoading == old(isLoading) && showResetConfirm == old(showResetConfirm)
    {
      isSaving := true;
      error := None;
      saveSuccess := false;
      puts := puts + [SavePayload(visible, hidden)];
      match outcome {
        case Saved =>
          saveSuccess := true;
        case SaveRejected(status) =>
          error := Some(SaveError(status));
      }
      isSaving := false;
    }

    /** `saveSettings` with the current state; this is what the debounced
        autosave runs once loading has finished. */
    method SaveSettings(outcome: SaveOutcome)
      requires Valid()
      modifies this
      ensures Valid() && !isSaving
      ensures puts == old(puts) + [SavePayload(settings, fixedServerFields)]
      ensures outcome.Saved? ==> saveSuccess && error.None?
      ensures outcome.SaveRejected? ==> !saveSuccess && error == Some(SaveError(outcome.status))
      ensures settings == old(settings) && fixedServerFields == old(fixedServerFields) && uiLanguage == old(uiLanguage)
      ensures isLoading == old(isLoading)
    {
      Put(settings, fixedServerFields, outcome);
    }

    /** The success mark's two-second timer. */
    method SuccessTimerFires()
      modifies this
      ensures !saveSuccess
      ensures settings == old(settings) && fixedServerFields == old(fixedServerFields) && puts == old(puts)
      ensures error == old(error) && uiLanguage == old(uiLanguage)
    {
      saveSuccess := false;
    }

    /** `updateSetting`: exactly one visible setting changes; a language
        change also switches the interface. */
    method UpdateSetting(k: SettingKey, value: Json)
      requires Valid() && !Hidden(k)
      modifies this
      ensures Valid()
      ensures settings == old(settings)[k := value]
      ensures uiLanguage == (if k == Language then value else old(uiLanguage))
      ensures error.None? && fixedServerFields == old(fixedServerFields) && puts == old(puts)
    {
      UpdateStaysVisible(settings, k, value);
      settings := settings[k := value];
      if k == Language {
        uiLanguage := value;
      }
      error := None;
    }

    /** `handleReset` as written: the visible settings become the defaults,
        but the save it starts belongs to the same render, whose closure
        still holds the settings from before the reset. */
    method HandleResetAsWritten(outcome: SaveOutcome)
      requires Valid()
      modifies this
      ensures Valid() && !showResetConfirm
      ensures settings == InitialVisible(Default(Language)) && fixedServerFields == old(fixedServerFields)
      ensures puts == old(puts) + [SavePayload(old(settings), old(fixedServerFields))]
    {
      var before := settings;
      settings := InitialVisible(Default(Language));
      showResetConfirm := false;
      Put(before, fixedServerFields, outcome);
    }

    /** `handleReset` saving the settings it has just installed: only the
        visible settings change, and the save sends the defaults together
        with the untouched hidden fields. */
    method HandleReset(outcome: SaveOutcome)
      requires Valid()
      modifies this
      ensures Valid() && !showResetConfirm
      ensures settings == InitialVisible(Default(Language)) && fixedServerFields == old(fixedServerFields)
      ensures puts == old(puts) + [SavePayload(settings, fixedServerFields)]
      ensures uiLanguage == old(uiLanguage)
    {
      settings := InitialVisible(Default(Language));
      showResetConfirm := false;
      Put(settings, fixedServerFields, outcome);
    }
  }

  /** The reset values are exactly the context's defaults on the visible
      settings. */
  lemma ResetIsDefaults(k: SettingKey)
    requires !Hidden(k)
    ensures InitialVisible(Default(Language))[k] == Defaults()[k]
  {
    InitialVisibleAt(Default(Language), k);
  }

  /** After a reset from any non-default settings, the save as written sends
      a body that differs from the one for the defaults the page now shows. */
  lemma ResetSendsStaleSettings(before: Settings, hidden: Settings, k: SettingKey)
    requires HiddenState(hidden) && !Hidden(k) && k in before && before[k] != Defaults()[k]
    ensures SavePayload(before, hidden) != SavePayload(InitialVisible(Default(Language)), hidden)
  {
    InitialVisibleAt(Default(Language), k);
    SavePayloadDistinguishes(before, InitialVisible(Default(Language)), hidden, k);
  }

  /** For instance: a light theme reset to the dark default is saved as
      light. */
  lemma LightThemeResetSavedAsLight(before: Settings, hidden: Settings)
    requires HiddenState(hidden) && Theme in before && before[Theme] == JStr("light")
    ensures SavePayload(before, hidden)["theme"] == JStr("light")
    ensures SavePayload(InitialVisible(Default(Language)), hidden)["theme"] == JStr("dark")
  {
    KeysPartition();
    InitialVisibleAt(Default(Language), Theme);
    assert Theme.SnakeName() == "theme";
  }

  /** The reset as written followed by the debounced autosave, which the
      changed settings start one second later: the stale body goes first,
      and the defaults follow and are the last body sent. */
  method ResetThenAutosave(page: SettingsPage, first: SaveOutcome, later: SaveOutcome)
    requires page.Valid() && !page.isLoading
    modifies page
    ensures page.Valid() && page.settings == InitialVisible(Default(Language))
    ensures page.puts == old(page.puts) + [SavePayload(old(page.settings), old(page.fixedServerFields)),
                                           SavePayload(InitialVisible(Default(Language)), old(page.fixedServerFields))]
  {
    page.HandleResetAsWritten(first);
    page.SaveSettings(later);
  }
}
