/** The notification bell (frontend/src/components/notifications/NotificationBell.tsx):
    how a client message becomes a badge count and a toast in the store, the
    toast titles, the ten toasts shown and the badge text.  `Date.now()` is
    the `now` parameter and the random toast id is the `id` parameter. */
module NotificationBell {
  import opened Wrappers
  import opened Text
  import opened Json
  import opened NotificationsStore
  import opened NotificationsClient

  /** `payload?.[key]`. */
  function Field(payload: Option<Json>, key: string): (r: Option<Json>)
    ensures payload.None? ==> r.None?
    ensures payload.Some? ==> r == Get(payload.value, key)
  {
    if payload.None? then None else Get(payload.value, key)
  }

  /** A text made from a truthy payload field, else none. */
  function Mention(payload: Option<Json>, key: string, before: string, after: string): (r: Option<Json>)
    ensures r.Some? <==> OptJsTruthy(Field(payload, key))
    ensures r.Some? ==> r.value == JStr(before + JsString(Field(payload, key).value) + after)
  {
    if OptJsTruthy(Field(payload, key)) then Some(JStr(before + JsString(Field(payload, key).value) + after)) else None
  }

  datatype ToastText = ToastText(title: Json, text: Option<Json>)

  /** `typeToText`: four event types in a dotted and a colon spelling, the
      presence event, and a fallback to the payload's own title and text. */
  function TypeToText(t: Option<string>, payload: Option<Json>): (r: ToastText)
  {
    if t == Some("friend.request") || t == Some("friend:request") then
      ToastText(JStr("Заявка в друзья"), Mention(payload, "from_name", "От ", ""))
    else if t == Some("friend.accept") || t == Some("friend:accept") then
      ToastText(JStr("Заявка принята"), Mention(payload, "by_name", "", " теперь в друзьях"))
    else if t == Some("dm.badge") || t == Some("dm:badge") then
      ToastText(JStr("Новое сообщение"), Mention(payload, "from_name", "От ", ""))
    else if t == Some("dm.read") || t == Some("dm:read") then
      ToastText(JStr("Сообщение прочитано"), Mention(payload, "by_name", "", " прочитал(а)"))
    else if t == Some("presence") then
      ToastText(JStr("Статус"), Some(JStr(if OptJsTruthy(Field(payload, "online")) then "Друг онлайн" else "Друг офлайн")))
    else
      ToastText(JsOr(Field(payload, "title"), Some(JStr("Уведомление"))).value, Field(payload, "text"))
  }

  /** The backend's colon spelling of an event and the dotted one read the
      same. */
  lemma DottedAndColonAgree(payload: Option<Json>)
    ensures TypeToText(Some("friend.request"), payload) == TypeToText(Some("friend:request"), payload)
    ensures TypeToText(Some("friend.accept"), payload) == TypeToText(Some("friend:accept"), payload)
    ensures TypeToText(Some("dm.badge"), payload) == TypeToText(Some("dm:badge"), payload)
    ensures TypeToText(Some("dm.read"), payload) == TypeToText(Some("dm:read"), payload)
  {
  }

  /** A friend request and a direct message name their sender the same way,
      under different titles. */
  lemma RequestAndMessageMentionSender(payload: Option<Json>)
    ensures TypeToText(Some("friend:request"), payload).text == TypeToText(Some("dm:badge"), payload).text
    ensures TypeToText(Some("friend:request"), payload).title != TypeToText(Some("dm:badge"), payload).title
  {
    assert "Заявка в друзья"[0] != "Новое сообщение"[0];
  }

  /** Any other type shows the payload's title when it is truthy, else the
      generic title, and the payload's text as it is. */
  lemma OtherTypesUsePayload(t: Option<string>, payload: Option<Json>)
    requires t.None? || t.value !in {"friend.request", "friend:request", "friend.accept", "friend:accept",
                                     "dm.badge", "dm:badge", "dm.read", "dm:read", "presence"}
    ensures OptJsTruthy(Field(payload, "title")) ==> TypeToText(t, payload).title == Field(payload, "title").value
    ensures !OptJsTruthy(Field(payload, "title")) ==> TypeToText(t, payload).title == JStr("Уведомление")
    ensures TypeToText(t, payload).text == Field(payload, "text")
  {
  }

  /** The toast a message adds; a `meta:init` adds none. */
  function ToastFor(msg: NotificationMessage, now: int, id: string): (r: Option<UIToast>)
    ensures msg.MetaInit? <==> r.None?
    ensures msg.Notification? ==>
      r.value.typ == Some(msg.typ) && r.value.payload == msg.payload &&
      r.value.title == Some(TypeToText(Some(msg.typ), msg.payload).title) &&
      r.value.text == TypeToText(Some(msg.typ), msg.payload).text
    ensures msg.Legacy? ==>
      var typ := JsString(Get(msg.frame, "type").GetOr(JNull));
      r.value.payload == Some(msg.frame) && r.value.typ == Some(typ) &&
      r.value.title == Some(TypeToText(Some(typ), Some(msg.frame)).title) &&
      r.value.text == TypeToText(Some(typ), Some(msg.frame)).text
    ensures r.Some? ==> r.value.id == id && r.value.createdAt == now && r.value.level.None?
  {
    match msg
    case MetaInit(_) => None
    case Notification(typ, _, payload) =>
      var tt := TypeToText(Some(typ), payload);
      Some(UIToast(id, Some(tt.title), tt.text, Some(typ), None, now, payload))
    case Legacy(frame) =>
      var typ := JsString(Get(frame, "type").GetOr(JNull));
      var tt := TypeToText(Some(typ), Some(frame));
      Some(UIToast(id, Some(tt.title), tt.text, Some(typ), None, now, Some(frame)))
  }

  /** The subscription handler: `meta:init` sets the count; a notification
      sets the count it carries, or adds one, and prepends its toast; a
      legacy frame with a string type adds one and prepends its toast. */
  method OnClientMessage(store: Store, msg: NotificationMessage, now: int, id: string)
    requires store.Valid()
    modifies store
    ensures store.Valid() && store.listeners == old(store.listeners)
    ensures msg.MetaInit? ==>
      store.unreadCount == ClampedCount(msg.unreadCount) && store.items == old(store.items) &&
      store.calls == old(store.calls) + store.listeners
    ensures msg.Notification? && msg.unreadCount.Some? ==> store.unreadCount == ClampedCount(msg.unreadCount)
    ensures msg.Notification? && msg.unreadCount.None? ==> store.unreadCount == old(store.unreadCount) + 1
    ensures msg.Legacy? && HasStringType(msg.frame) ==> store.unreadCount == old(store.unreadCount) + 1
    ensures msg.Notification? || (msg.Legacy? && HasStringType(msg.frame)) ==>
      store.items == Prepended(old(store.items), ToastFor(msg, now, id).value) &&
      store.calls == old(store.calls) + store.listeners + store.listeners
    ensures msg.Legacy? && !HasStringType(msg.frame) ==>
      store.unreadCount == old(store.unreadCount) && store.items == old(store.items) && store.calls == old(store.calls)
  {
    match msg
    case MetaInit(count) =>
      store.SetUnreadCount(count);
    case Notification(_, count, _) =>
      if count.Some? {
        store.SetUnreadCount(count);
      } else {
        store.SetUnreadCount(Some(store.unreadCount + 1));
      }
      store.Prepend(ToastFor(msg, now, id).value);
    case Legacy(frame) =>
      if HasStringType(frame) {
        var toast := ToastFor(msg, now, id).value;
        store.SetUnreadCount(Some(store.unreadCount + 1));
        store.Prepend(toast);
      }
  }

  const ShownItems: nat := 10

  /** `items.slice(0, 10)`. */
  function TopItems(items: seq<UIToast>): (r: seq<UIToast>)
    ensures |r| <= |items| && |r| <= ShownItems && r == items[..|r|]
    ensures |items| <= ShownItems ==> r == items
  {
    Take(items, ShownItems)
  }

  /** A fresh toast is always shown first. */
  lemma NewToastShown(items: seq<UIToast>, item: UIToast)
    ensures TopItems(Prepended(items, item))[0] == item
  {
  }

  /** The badge: none at zero, the count up to 99, then `99+`. */
  function BadgeText(unread: nat): (r: Option<string>)
    ensures r.None? <==> unread == 0
    ensures unread > 99 ==> r == Some("99+")
    ensures 0 < unread <= 99 ==> r == Some(NatToString(unread))
  {
    if unread == 0 then None else if unread > 99 then Some("99+") else Some(NatToString(unread))
  }

  /** The badge text never exceeds three characters. */
  lemma BadgeTextShort(unread: nat)
    ensures BadgeText(unread).Some? ==> |BadgeText(unread).value| <= 3
  {
    if 10 <= unread <= 99 {
      assert NatToString(unread) == NatToString(unread / 10) + [DigitChar(unread % 10)];
    }
  }

  /** `handleMarkAll`: the store is cleared only when the server call
      succeeded; a failure is reported with an alert. */
  method HandleMarkAll(store: Store, succeeded: bool) returns (alerted: bool)
    requires store.Valid()
    modifies store
    ensures store.Valid() && alerted == !succeeded
    ensures succeeded ==> store.unreadCount == 0 && store.calls == old(store.calls) + store.listeners
    ensures !succeeded ==> store.unreadCount == old(store.unreadCount) && store.calls == old(store.calls)
    ensures store.items == old(store.items) && store.listeners == old(store.listeners)
  {
    alerted := !succeeded;
    if succeeded {
      store.MarkAllRead();
    }
  }
}
