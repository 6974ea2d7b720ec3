/** The settings context (frontend/src/contexts/SettingsContext.tsx): the
    client's camelCase settings and the server's snake_case ones, the
    defaults, the conversions both ways, and the provider's `reload` and
    optimistic `update`.  A settings object is a map from the setting to its
    value; a key that is absent is a property that is `undefined`.  The HTTP
    calls are parameters: whether the PUT succeeded and what the GET
    returned. */
module SettingsContext {
  import opened Wrappers
  import opened Json

  /** The properties of `SettingsState`, in declaration order. */
  datatype SettingKey =
    | Language | Theme | FontSize | PushNotifications | SoundNotifications | EmailNotifications
    | MessageNotifications | GroupNotifications | ProfileVisibility | OnlineStatus | ReadReceipts | LastSeen
    | AutoDownloadImages | AutoDownloadVideos | AutoDownloadDocuments | EnterToSend | CameraPermission
    | MicrophonePermission | AutoplayVideos | TwoFactorAuth | SessionTimeout | AutoConnect | DataUsage
  {
    /** The server's field name. */
    function SnakeName(): string {
      match this
      case Language => "language"
      case Theme => "theme"
      case FontSize => "font_size"
      case PushNotifications => "push_notifications"
      case SoundNotifications => "sound_notifications"
      case EmailNotifications => "email_notifications"
      case MessageNotifications => "message_notifications"
      case GroupNotifications => "group_notifications"
      case ProfileVisibility => "profile_visibility"
      case OnlineStatus => "online_status"
      case ReadReceipts => "read_receipts"
      case LastSeen => "last_seen"
      case AutoDownloadImages => "auto_download_images"
      case AutoDownloadVideos => "auto_download_videos"
      case AutoDownloadDocuments => "auto_download_documents"
      case EnterToSend => "enter_to_send"
      case CameraPermission => "camera_permission"
      case MicrophonePermission => "microphone_permission"
      case AutoplayVideos => "autoplay_videos"
      case TwoFactorAuth => "two_factor_auth"
      case SessionTimeout => "session_timeout"
      case AutoConnect => "auto_connect"
      case DataUsage => "data_usage"
    }
  }

  /** Distinct settings have distinct server names. */
  lemma SnakeNameInjective(a: SettingKey, b: SettingKey)
    ensures a.SnakeName() == b.SnakeName() ==> a == b
  {
    var s := a.SnakeName();
    if s == b.SnakeName() {
      assert |s| == |b.SnakeName()|;
      assert s[0] == b.SnakeName()[0];
      assert s[|s| - 1] == b.SnakeName()[|s| - 1];
      assert s[|s| - 3] == b.SnakeName()[|s| - 3];
    }
  }

  lemma SnakeNamesInjective()
    ensures forall a: SettingKey, b: SettingKey :: a.SnakeName() == b.SnakeName() ==> a == b
  {
    forall a: SettingKey, b: SettingKey
      ensures a.SnakeName() == b.SnakeName() ==> a == b
    {
      SnakeNameInjective(a, b);
    }
  }

  type Settings = map<SettingKey, Json>

  /** A `SettingsState`: every property is present. */
  predicate Complete(s: Settings) { forall k: SettingKey :: k in s }

  /** The value of each setting in `DEFAULTS`. */
  function Default(k: SettingKey): (r: Json)
    ensures r != JNull
  {
    match k
    case Language => JStr("en")
    case Theme => JStr("dark")
    case FontSize => JStr("medium")
    case PushNotifications => JBool(true)
    case SoundNotifications => JBool(true)
    case EmailNotifications => JBool(false)
    case MessageNotifications => JBool(true)
    case GroupNotifications => JBool(true)
    case ProfileVisibility => JStr("public")
    case OnlineStatus => JBool(true)
    case ReadReceipts => JBool(true)
    case LastSeen => JBool(true)
    case AutoDownloadImages => JBool(true)
    case AutoDownloadVideos => JBool(false)
    case AutoDownloadDocuments => JBool(false)
    case EnterToSend => JBool(true)
    case CameraPermission => JBool(true)
    case MicrophonePermission => JBool(true)
    case AutoplayVideos => JBool(false)
    case TwoFactorAuth => JBool(false)
    case SessionTimeout => JNum(30)
    case AutoConnect => JBool(true)
    case DataUsage => JStr("medium")
  }

  const AllKeys: set<SettingKey> := {
    Language, Theme, FontSize, PushNotifications, SoundNotifications, EmailNotifications,
    MessageNotifications, GroupNotifications, ProfileVisibility, OnlineStatus, ReadReceipts, LastSeen,
    AutoDownloadImages, AutoDownloadVideos, AutoDownloadDocuments, EnterToSend, CameraPermission,
    MicrophonePermission, AutoplayVideos, TwoFactorAuth, SessionTimeout, AutoConnect, DataUsage}

  lemma AllKeysComplete()
    ensures forall k: SettingKey :: k in AllKeys
  {
    forall k: SettingKey
      ensures k in AllKeys
    {
      match k
      case Language => case Theme => case FontSize => case PushNotifications => case SoundNotifications =>
      case EmailNotifications => case MessageNotifications => case GroupNotifications =>
      case ProfileVisibility => case OnlineStatus => case ReadReceipts => case LastSeen =>
      case AutoDownloadImages => case AutoDownloadVideos => case AutoDownloadDocuments => case EnterToSend =>
      case CameraPermission => case MicrophonePermission => case AutoplayVideos => case TwoFactorAuth =>
      case SessionTimeout => case AutoConnect => case DataUsage =>
    }
  }

  /** `DEFAULTS`: every setting, none of them `null`. */
  function Defaults(): (r: Settings)
    ensures Complete(r)
    ensures forall k: SettingKey :: r[k] == Default(k)
  {
    AllKeysComplete();
    map k | k in AllKeys :: Default(k)
  }

  /** `toClient`: each server field `?? DEFAULTS`, so a missing or `null`
      field takes the default. */
  function ToClient(server: Json): (r: Settings)
    ensures Complete(r)
    ensures forall k: SettingKey :: Nullish(Get(server, k.SnakeName())) ==> r[k] == Default(k)
    ensures forall k: SettingKey :: !Nullish(Get(server, k.SnakeName())) ==> r[k] == Get(server, k.SnakeName()).value
  {
    AllKeysComplete();
    map k | k in AllKeys :: Coalesce(Get(server, k.SnakeName()), Some(Default(k))).value
  }

  /** `toServer`: exactly the defined properties, under their server names. */
  function ToServer(client: Settings): (r: map<string, Json>)
    ensures forall k: SettingKey :: k in client ==> k.SnakeName() in r && r[k.SnakeName()] == client[k]
    ensures forall name :: name in r ==> exists k :: k in client && k.SnakeName() == name
  {
    SnakeNamesInjective();
    map k | k in client :: k.SnakeName() := client[k]
  }

  /** A server name that no defined property has is not sent. */
  lemma ToServerOmitsUndefined(client: Settings, k: SettingKey)
    requires k !in client
    ensures k.SnakeName() !in ToServer(client)
  {
    SnakeNamesInjective();
  }

  /** One setting of the round trip. */
  lemma ClientRoundTripAt(s: Settings, k: SettingKey)
    requires k in s && s[k] != JNull
    ensures ToClient(JObj(ToServer(s)))[k] == s[k]
  {
    var m := ToServer(s);
    assert m[k.SnakeName()] == s[k];
    GetPresent(m, k.SnakeName());
    ToClientAt(JObj(m), k, s[k]);
  }

  /** A non-null server field is taken as it is. */
  lemma ToClientAt(server: Json, k: SettingKey, v: Json)
    requires Get(server, k.SnakeName()) == Some(v) && v != JNull
    ensures ToClient(server)[k] == v
  {
  }

  /** Round trip: a complete state without `null` values comes back from
      the server form unchanged. */
  lemma ClientRoundTrip(s: Settings)
    requires Complete(s)
    requires forall k :: k in s ==> s[k] != JNull
    ensures ToClient(JObj(ToServer(s))) == s
  {
    var r := ToClient(JObj(ToServer(s)));
    forall k: SettingKey
      ensures r[k] == s[k]
    {
      ClientRoundTripAt(s, k);
    }
    SameSettings(r, s);
  }

  /** A present field is read back as it is. */
  lemma GetPresent(m: map<string, Json>, name: string)
    requires name in m
    ensures Get(JObj(m), name) == Some(m[name])
  {
  }

  lemma SameSettings(a: Settings, b: Settings)
    requires Complete(a) && Complete(b)
    requires forall k: SettingKey :: a[k] == b[k]
    ensures a == b
  {
    assert a.Keys == b.Keys;
  }

  /** A `null` value does not survive the round trip: it comes back as the
      default. */
  lemma NullComesBackAsDefault(s: Settings, k: SettingKey)
    requires k in s && s[k] == JNull
    ensures ToClient(JObj(ToServer(s)))[k] == Default(k)
  {
    assert Get(JObj(ToServer(s)), k.SnakeName()) == Some(JNull);
  }

  /** The other way: every non-null server field that names a setting is
      sent back as it came. */
  lemma ServerRoundTrip(server: map<string, Json>, k: SettingKey)
    requires k.SnakeName() in server && server[k.SnakeName()] != JNull
    ensures ToServer(ToClient(JObj(server)))[k.SnakeName()] == server[k.SnakeName()]
  {
    var c := ToClient(JObj(server));
    assert Get(JObj(server), k.SnakeName()) == Some(server[k.SnakeName()]);
    assert c[k] == server[k.SnakeName()];
    assert ToServer(c)[k.SnakeName()] == c[k];
  }

  /** What `GET users/settings/` produced: the response's `data`, or a
      thrown error. */
  datatype Fetch = Fetched(data: Option<Json>) | FetchFailed

  /** The settings `reload` installs: `toClient(res.data || {})`, or the
      defaults when the request failed. */
  function Reloaded(f: Fetch): (r: Settings)
    ensures Complete(r)
    ensures f.FetchFailed? ==> r == Defaults()
    ensures f.Fetched? && !OptJsTruthy(f.data) ==> r == Defaults()
    ensures f.Fetched? && OptJsTruthy(f.data) ==> r == ToClient(f.data.value)
  {
    if f.FetchFailed? then Defaults()
    else if OptJsTruthy(f.data) then ToClient(f.data.value)
    else ToClientOfEmpty(); ToClient(JObj(map[]))
  }

  /** `toClient({})` is the defaults. */
  lemma ToClientOfEmpty()
    ensures ToClient(JObj(map[])) == Defaults()
  {
    var r := ToClient(JObj(map[]));
    forall k: SettingKey
      ensures r[k] == Defaults()[k]
    {
      assert Get(JObj(map[]), k.SnakeName()).None?;
    }
    SameSettings(r, Defaults());
  }

  class SettingsProvider {
    var settings: Option<Settings>
    var isLoading: bool
    /** the bodies of the PUT requests sent, in order */
    var puts: seq<map<string, Json>>

    ghost predicate Valid()
      reads this
    {
      settings.Some? ==> Complete(settings.value)
    }

    constructor ()
      ensures Valid() && settings.None? && isLoading && puts == []
    {
      settings := None;
      isLoading := true;
      puts := [];
    }

    method Reload(f: Fetch)
      modifies this
      ensures Valid()
      ensures settings == Some(Reloaded(f)) && !isLoading && puts == old(puts)
    {
      isLoading := true;
      settings := Some(Reloaded(f));
      isLoading := false;
    }

    /** `update`: nothing without settings; otherwise the merged settings
        are installed and sent, and a failed PUT reloads from the server. */
    method Update(partial: Settings, putSucceeds: bool, onFailure: Fetch)
      requires Valid()
      modifies this
      ensures Valid()
      ensures old(settings).None? ==> settings.None? && puts == old(puts) && isLoading == old(isLoading)
      ensures old(settings).Some? ==> puts == old(puts) + [ToServer(old(settings).value + partial)]
      ensures old(settings).Some? && putSucceeds ==> settings == Some(old(settings).value + partial) && isLoading == old(isLoading)
      ensures old(settings).Some? && !putSucceeds ==> settings == Some(Reloaded(onFailure)) && !isLoading
    {
      if settings.None? {
        return;
      }
      var optimistic := settings.value + partial;
      MergeKeepsComplete(settings.value, partial);
      settings := Some(optimistic);
      puts := puts + [ToServer(optimistic)];
      if !putSucceeds {
        Reload(onFailure);
      }
    }
  }

  /** The merge keeps every setting and takes the partial's values where it
      has them. */
  lemma MergeKeepsComplete(s: Settings, partial: Settings)
    requires Complete(s)
    ensures Complete(s + partial)
    ensures forall k :: k in partial ==> (s + partial)[k] == partial[k]
    ensures forall k :: k !in partial ==> (s + partial)[k] == s[k]
  {
  }

  /** The body of an update's PUT carries every setting, so the server
      always receives the full state. */
  lemma UpdateSendsEverySetting(s: Settings, partial: Settings, k: SettingKey)
    requires Complete(s)
    ensures k.SnakeName() in ToServer(s + partial)
  {
  }
}
