/** Browser notifications and the notification sound
    (frontend/src/services/notifications.ts).  Whether the browser supports
    notifications, and the permission it holds or grants when asked, are
    parameters; the shared audio element is the `Sound` object. */
module NotificationService {
  import opened Wrappers
  import opened Json
  import opened SettingsContext

  datatype Permission = Granted | Denied | DefaultPermission

  datatype PermissionOutcome = PermissionOutcome(result: Permission, asked: bool)

  /** `ensureNotificationPermission`: the browser is asked only when it has
      neither granted nor denied notifications; its answer is then the
      result. */
  function EnsurePermission(supported: bool, current: Permission, answer: Permission): (r: PermissionOutcome)
    ensures r.asked <==> supported && current.DefaultPermission?
    ensures r.asked ==> r.result == answer
    ensures !supported ==> r.result == Denied
    ensures supported && current != DefaultPermission ==> r.result == current
  {
    if !supported then PermissionOutcome(Denied, false)
    else if current == Granted then PermissionOutcome(Granted, false)
    else if current != Denied then PermissionOutcome(answer, true)
    else PermissionOutcome(Denied, false)
  }

  /** Once the browser has answered, asking again does not prompt and gives
      the same answer. */
  lemma PermissionSettles(supported: bool, current: Permission, answer: Permission, later: Permission)
    requires answer != DefaultPermission
    ensures var first := EnsurePermission(supported, current, answer).result;
            first != DefaultPermission &&
            !EnsurePermission(supported, first, later).asked && EnsurePermission(supported, first, later).result == first
  {
  }

  /** `showBrowserNotification` shows only with support and permission. */
  predicate ShowsBrowserNotification(supported: bool, permission: Permission) {
    supported && permission == Granted
  }

  datatype MessageType = Direct | Group

  datatype IncomingMessage = IncomingMessage(typ: MessageType, title: string, body: string, clickUrl: Option<string>)

  /** A setting's value read for a condition. */
  predicate Enabled(settings: Settings, k: SettingKey) { k in settings && JsTruthy(settings[k]) }

  /** The message type passes its filter setting. */
  predicate Wanted(settings: Settings, msg: IncomingMessage) {
    !(msg.typ == Direct && !Enabled(settings, MessageNotifications)) &&
    !(msg.typ == Group && !Enabled(settings, GroupNotifications))
  }

  datatype Effects = Effects(push: bool, sound: bool)

  /** What `handleIncomingMessage` does: nothing without settings or for a
      filtered type; otherwise a push attempt and a sound, each by its own
      setting. */
  function IncomingEffects(settings: Option<Settings>, msg: IncomingMessage): (r: Effects)
    ensures settings.None? ==> r == Effects(false, false)
    ensures settings.Some? && !Wanted(settings.value, msg) ==> r == Effects(false, false)
    ensures settings.Some? && Wanted(settings.value, msg) ==>
      (r.push <==> Enabled(settings.value, PushNotifications)) &&
      (r.sound <==> Enabled(settings.value, SoundNotifications))
  {
    if settings.None? || !Wanted(settings.value, msg) then Effects(false, false)
    else Effects(Enabled(settings.value, PushNotifications), Enabled(settings.value, SoundNotifications))
  }

  /** With the defaults, every message both pushes and sounds. */
  lemma DefaultsNotifyEverything(msg: IncomingMessage)
    ensures IncomingEffects(Some(Defaults()), msg) == Effects(true, true)
  {
  }

  /** Turning the sound setting off never suppresses a push, and the other
      way round. */
  lemma EffectsIndependent(settings: Settings, msg: IncomingMessage, v: Json)
    ensures IncomingEffects(Some(settings[SoundNotifications := v]), msg).push == IncomingEffects(Some(settings), msg).push
    ensures IncomingEffects(Some(settings[PushNotifications := v]), msg).sound == IncomingEffects(Some(settings), msg).sound
  {
    var s1 := settings[SoundNotifications := v];
    var s2 := settings[PushNotifications := v];
    assert Enabled(s1, PushNotifications) == Enabled(settings, PushNotifications);
    assert Enabled(s1, MessageNotifications) == Enabled(settings, MessageNotifications);
    assert Enabled(s1, GroupNotifications) == Enabled(settings, GroupNotifications);
    assert Enabled(s2, SoundNotifications) == Enabled(settings, SoundNotifications);
    assert Enabled(s2, MessageNotifications) == Enabled(settings, MessageNotifications);
    assert Enabled(s2, GroupNotifications) == Enabled(settings, GroupNotifications);
  }

  /** The module-level audio element: created on the first play, then reused. */
  class Sound {
    var created: bool
    /** the number of `new Audio(...)` constructions */
    var instances: nat
    var plays: nat

    ghost predicate Valid()
      reads this
    {
      instances == if created then 1 else 0
    }

    constructor ()
      ensures Valid() && !created && plays == 0
    {
      created := false;
      instances := 0;
      plays := 0;
    }

    /** `playNotifySound`: at most one audio element is ever made. */
    method Play()
      requires Valid()
      modifies this
      ensures Valid() && created && instances == 1 && plays == old(plays) + 1
    {
      if !created {
        created := true;
        instances := instances + 1;
      }
      plays := plays + 1;
    }
  }

  /** `handleIncomingMessage`, with the notifications shown recorded as
      values. */
  method HandleIncomingMessage(settings: Option<Settings>, msg: IncomingMessage, supported: bool,
                               permission: Permission, sound: Sound)
    returns (shown: Option<(string, string, Option<string>)>)
    requires sound.Valid()
    modifies sound
    ensures sound.Valid()
    ensures var e := IncomingEffects(settings, msg);
      (shown.Some? <==> e.push && ShowsBrowserNotification(supported, permission)) &&
      (shown.Some? ==> shown.value == (msg.title, msg.body, msg.clickUrl)) &&
      (e.sound ==> sound.created && sound.plays == old(sound.plays) + 1) &&
      (!e.sound ==> sound.created == old(sound.created) && sound.instances == old(sound.instances) && sound.plays == old(sound.plays))
  {
    shown := None;
    if settings.None? {
      return;
    }
    var s := settings.value;
    if msg.typ == Direct && !Enabled(s, MessageNotifications) {
      return;
    }
    if msg.typ == Group && !Enabled(s, GroupNotifications) {
      return;
    }
    if Enabled(s, PushNotifications) && ShowsBrowserNotification(supported, permission) {
      shown := Some((msg.title, msg.body, msg.clickUrl));
    }
    if Enabled(s, SoundNotifications) {
      sound.Play();
    }
  }
}
