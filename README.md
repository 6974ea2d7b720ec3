# Humy chat: a verified model of its core

Humy is a chat application. Its Django backend keeps interest-based group
rooms, private two-person chats, friend requests, friendships and blocks,
and a per-user notification feed. Two Channels WebSocket consumers push
changes to the browser: the room consumer and the personal notifications
consumer. The React frontend shows the group chat, the direct messages, the
profile pages, the settings, and a notification bell fed by its own socket
client.

This project models that core in Dafny and proves what the code promises of
it. Each module follows one source file, or one concern that two files share.

- Backend:
  - `ChatModels`: the records of `backend/chat/models.py`.
  - `PrivateChats`, `SocialGraph`: the services of `backend/chat/services.py`.
  - `ChatSerializers`: `backend/chat/serializers.py`.
  - `ChatPermissions`: `backend/chat/permissions.py`.
  - `ChatViewRules`, `ChatViews`: the decisions and the writes of `backend/chat/views.py`.
  - `ChatConsumer`: `backend/chat/consumers.py`.
  - `Users`: `backend/users/models.py`.
  - `NotificationViews`: `backend/notifications/views.py`.
  - `NotifyUtils`: `backend/notifications/utils.py`.
  - `Integrations`: `backend/notifications/integrations.py`.
  - `NotificationConsumer`: `backend/notifications/consumers.py`.
- Frontend, all under `frontend/src/`:
  - `ChatMessages`: what the group chat and the direct messages share, including the merge of a message arriving over the socket.
  - `ChatInterface`: `components/chat/ChatInterface.tsx`.
  - `PersonalMessages`: `components/messages/PersonalMessages.tsx`.
  - `ChatHierarchy`: `components/chat/ChatHierarchy.tsx`.
  - `ProfileFields`: what the two profile forms share.
  - `UserProfile`: `components/profile/UserProfile.tsx`.
  - `ProfileSetup`: `components/profile/ProfileSetupForm.tsx`.
  - `Locations`: `data/locations.ts`.
  - `SettingsContext`: `contexts/SettingsContext.tsx`.
  - `AppSettings`: `components/settings/AppSettings.tsx`.
  - `Validation`: `utils/validation.ts`.
  - `ErrorHandling`: `utils/errorHandler.ts`.
  - `Logging`: `utils/logger.ts`.
  - `ApiCache`: `utils/apiCache.ts`.
  - `ApiInstance`: `api/instance.ts`.
  - `NotificationsStore`: `notifications/notificationsStore.ts`.
  - `NotificationsClient`: `ws/notificationsClient.ts`.
  - `NotificationBell`: `components/notifications/NotificationBell.tsx`.
  - `NotificationService`: `services/notifications.ts`.
- Shared helpers:
  - `Wrappers`: Option and Result.
  - `Text`: characters and strings.
  - `Json`: Python dicts and JavaScript objects as JSON-shaped values, with JavaScript's truthiness, `??`, `||`, `String()` and `Number()`.
  - `Channels`: the channel layer, as group membership plus an append-only log of `(group, event)` pairs.
  - `Sorting`: `filter`, `order_by`, and the removal of one value from a list.

State that the source updates in place becomes a class whose methods carry
`modifies` clauses. This covers the Django tables, the channel layer, the
consumers, the caches and stores, the clients and the React components'
state. Pure code becomes functions and lemmas.

Each handler's effects are expressed over the model's own state, in these ways:
- A database or HTTP answer is a parameter.
- A socket frame sent is an entry appended to an `outbox` sequence.
- A `group_send` is an entry in the channel log.

The clock is also a parameter: `now` or `today`, and `timeOf` for
`new Date(text).getTime()`.

Some facts about the code that shape the model:
- Frames on the room socket have the shapes `{"type":"message","data":…}` and `{"type":"presence","data":{"count":…}}`.
- `ChatConsumer.connect` accepts every socket, and it has no close codes of its own.
- The notifications consumer forwards each event under its colon-form type, with the rest of the event unchanged. It sends no frame of its own on connect.
- As intended, the notifications consumer announces presence to the user's friends once per connect and once per disconnect. As written, it never sends that announcement, and the error raised in its place ends `connect` and closes every signed-in socket right after it is accepted (see "## Findings"). The room consumer, as written, always announces a presence count of 0.

## Model

| member | source | states |
|---|---|---|
| PrivateChats.PrivateKeySymmetric | backend/chat/services.py:17-19 | the private key does not depend on the order of the two users |
| PrivateChats.PrivateKeyInjective | backend/chat/services.py:17-19 | two pairs share a key exactly when they are the same unordered pair |
| PrivateChats.IncUnread | backend/chat/services.py:48-51 | every participant of the chat other than the author gains one unread message; every other row, the author's included, is unchanged; no row is added or removed |
| PrivateChats.MarkRead | backend/chat/services.py:42-45 | only the reader's row in that chat changes, to read at `now` with zero unread; no row is added or removed |
| PrivateChats.ReadAfterIncrement | backend/chat/services.py:42-51 | after a message from someone else and a read, the reader has no unread messages and the author's row is as before |
| PrivateChats.MaybeSetExpiresAt | backend/chat/services.py:54-59 | a secret chat with a non-zero timer expires the message exactly `timer` seconds after `now`; otherwise the expiry is kept |
| PrivateChats.DmStore.GetOrCreatePrivateChat | backend/chat/services.py:22-39 | an existing private chat for the key is returned with created false and no change; otherwise a new chat `dm:<key>` with exactly the two users is added; a key held by a non-private chat or the same user twice rolls back (backend/chat/models.py:106-112, 145-146) |
| PrivateChats.DmStore.GetOrCreateTwice | backend/chat/services.py:22-39 | a second call with the users in either order returns the same chat with created false |
| PrivateChats.DmStore.MarkConversationRead | backend/chat/services.py:42-45 | the participant table becomes `MarkRead` of the old one; chats unchanged |
| PrivateChats.DmStore.IncUnreadForOthers | backend/chat/services.py:48-51 | the participant table becomes `IncUnread` of the old one; chats unchanged |
| PrivateChats.DmStore.SetLastMessage | backend/chat/views.py:353-355 | only the chat's `last_message` changes |
| PrivateChats.DmStore.ClearLastMessage | backend/chat/models.py:97-103 | every chat whose `last_message` was the deleted message has none afterwards; every other chat and every link is unchanged |
| ChatModels.Basename | backend/chat/models.py:17 | the base name is a suffix of the path and holds no `/` |
| ChatModels.Extension | backend/chat/models.py:235 | the extension is empty or starts with a dot, and is a suffix of the path |
| ChatModels.UploadTo | backend/chat/models.py:12-19 | the upload path is `messages/<room id>/`, then the message id (a fresh UUID when the id is unset or empty), then `/` and the file's base name, at exactly those positions |
| ChatModels.CanonicalUuidAccepted | backend/chat/models.py:165 | a message id in the canonical `8-4-4-4-12` hexadecimal spelling is accepted by the UUID primary key |
| ChatModels.ShortIdIsNotUuid | backend/chat/models.py:165 | a short numeric id such as `7` is not a UUID, so the UUID primary key refuses it |
| ChatModels.RemoveAllAbsent | backend/chat/models.py:165 | removing a pattern from a text that lacks its first character leaves the text unchanged (used for the `urn:` and `uuid:` prefixes UUID parsing removes) |
| ChatModels.RemoveCharAppend | backend/chat/models.py:165 | removing every hyphen from two joined pieces gives the two pieces with their hyphens removed, joined |
| ChatModels.StripChars | backend/chat/models.py:165 | stripping braces leaves a text that neither starts nor ends with one, and never makes it longer |
| ChatModels.IsImageTypeDecides | backend/chat/models.py:229-232 | a non-empty attachment type alone decides `is_image`, which holds exactly when the type lower-cases to `image` |
| ChatModels.IsImageNoAttachment | backend/chat/models.py:229-238 | without a type and without a file name, `is_image` is false |
| ChatModels.IsImageByExtension | backend/chat/models.py:233-237 | without a type, `dir/stem.ext` with any of the six image extensions is an image |
| ChatModels.ImageExtensionShape | backend/chat/models.py:237 | each listed extension is a dot and lower-case letters, so lower-casing leaves it unchanged |
| ChatModels.MessageLabel | backend/chat/models.py:218-227 | the label is `[<room id>] `, then the author name, then `: `, then the label text, each at its own position |
| ChatModels.AuthorLabel | backend/chat/models.py:219-224 | the author name is the username when non-empty, else the email when non-empty, else the display name when non-empty, else `Unknown`; it is never empty |
| ChatModels.LabelText | backend/chat/models.py:225 | with content, the text is exactly its first 30 characters (all of it when shorter); else the attachment name; else `…` |
| ChatModels.SoftDeleted | backend/chat/models.py:240-244 | after soft deletion `deleted_at` is set; an already deleted message is unchanged; otherwise only `deleted_at` becomes `now` |
| ChatModels.SoftDeleteIdempotent | backend/chat/models.py:240-244 | a second soft deletion keeps the first timestamp |
| ChatModels.NormalizedPair | backend/chat/models.py:313-317 | with both ids set the saved pair is ordered; it is the given pair or its swap; an ordered pair is kept |
| ChatModels.NormalizedPairIdempotent | backend/chat/models.py:313-317 | saving a saved pair again changes nothing, and both orders of a pair save to the same row |
| ChatModels.MessageTable.SoftDelete | backend/chat/models.py:240-244 | only the given row is replaced, by its soft-deleted form; hidden marks unchanged |
| ChatModels.WithoutMessage | backend/chat/models.py:196-198 | deleting a message removes exactly its row; a reply to it keeps every column except `reply_to`, which becomes null (`on_delete=SET_NULL`), so no row still names it; every other row is unchanged, and if every reply named a stored message before, it still does |
| ChatModels.MessageTable.HardDelete | backend/chat/models.py:246-247 | the rows become `WithoutMessage` of the old rows: the row is gone and every reply to it loses its `reply_to`; its hidden marks are gone too (cascade of backend/chat/models.py:250-264) |
| ChatModels.MessageTable.Insert | backend/chat/models.py:160-216 | the row is stored under its own id; hidden marks unchanged |
| SocialGraph.Pair | backend/chat/services.py:64-66 | `_pair` gives the same two ids in ascending order |
| SocialGraph.PairSymmetric | backend/chat/services.py:64-66 | `_pair` does not depend on argument order |
| SocialGraph.FriendsAndBlocksSymmetric | backend/chat/services.py:68-73 | `are_friends` and `block_exists` are symmetric in their two users |
| SocialGraph.SocialGraph.SendFriendRequest | backend/chat/services.py:75-86 | a request to oneself is refused with no change; an absent request is created pending; an answered one goes back to pending with no response time; a pending one is returned unchanged; friendships and blocks are untouched |
| SocialGraph.SocialGraph.AcceptFriendRequest | backend/chat/services.py:88-94 | the request becomes accepted at `now`; the ordered pair is added to the friendships only when absent, so exactly one row exists and the two are friends both ways |
| SocialGraph.SocialGraph.RejectFriendRequest | backend/chat/services.py:96-99 | the request becomes rejected at `now`; no friendship is created |
| SocialGraph.SocialGraph.RemoveFriend | backend/chat/services.py:101-103 | the ordered pair's row is deleted; the two are no longer friends either way |
| SocialGraph.SocialGraph.BlockUser | backend/chat/services.py:105-106 | get-or-create: the block set gains the one pair (a second call changes nothing); `block_exists` then holds both ways |
| SocialGraph.SocialGraph.UnblockUser | backend/chat/services.py:108-109 | only the blocker-to-blocked pair is removed; the reverse block stays as it was |
| Users.NormalizeEmail | backend/users/models.py:8 | normalising never lengthens the address; without an `@` after stripping the address is kept as given, otherwise it is the stripped address with the part after its last `@` lower-cased |
| Users.LastAt | backend/users/models.py:8 | the position of the last `@`, as `rsplit('@', 1)` splits, and `None` exactly when the text has none |
| Users.NormalizeEmailKeepsLocalPart | backend/users/models.py:8 | an address `local@domain` without surrounding spaces keeps its local part and gets its domain lower-cased |
| Users.CanCreateRoom | backend/users/models.py:57-66 | admins always may; moderators while they own fewer than 3 rooms; VIPs fewer than 2; regular users never |
| Users.CanCreateRoomMonotone | backend/users/models.py:57-66 | owning more rooms never turns a refusal into permission |
| Users.CanCreateRoomAsWritten | backend/users/models.py:57-66 | as written: the import of `ChatRoom` raises exactly when `chat.models` defines no `ChatRoom`; when the import succeeds, the answer is `CanCreateRoom`'s |
| Users.CanCreateRoomRaisesAsWritten | backend/users/models.py:59 | as written, `can_create_room` raises for every role and room count, an admin included, although the intended rule lets an admin create a room |
| Users.UserTable.CreateUser | backend/users/models.py:5-12 | an empty email is refused; a normalised email already taken is refused (backend/users/models.py:27); otherwise a new user is stored with the normalised email and the model defaults (role `user`, active, not staff) unless given |
| Users.UserTable.CreateSuperuser | backend/users/models.py:14-17 | staff and superuser default to true while an explicit value wins; the rest is `create_user` |
| ChatSerializers.GetNickname | backend/chat/serializers.py:83-90 | the nickname is never empty: nickname, else username, else email, else `user:<pk>` |
| ChatSerializers.GetAuthor | backend/chat/serializers.py:161-166 | an authorless message shows the display name (or `Unknown`) with no id or avatar; otherwise the author's id, nickname and avatar; the nickname is never empty |
| ChatSerializers.GetIsOwnAnonymousCounterexample | backend/chat/serializers.py:168-170 | as written, an anonymous reader sees an authorless message as their own |
| ChatSerializers.GetIsOwnAsWritten | backend/chat/serializers.py:168-170 | as written: a signed-in requester owns exactly the messages they wrote, no request owns nothing, and an anonymous requester owns exactly the messages without an author |
| ChatSerializers.GetIsOwn | backend/chat/serializers.py:168-170 | corrected: own exactly when the message has an author who is the signed-in requester |
| ChatSerializers.GetIsOwnAgreesWhenSignedIn | backend/chat/serializers.py:168-170 | the corrected and written flags differ exactly for an anonymous reader of an authorless message |
| ChatSerializers.ValidateMessage | backend/chat/serializers.py:181-186 | validation fails exactly when there is no attachment and the content is absent or blank |
| ChatSerializers.GetLastMessageText | backend/chat/serializers.py:218-224 | none without a last message; else exactly the first 1000 characters of the content (all of it when shorter); empty content gives the attachment name or `Вложение` |
| ChatSerializers.GetLastMessageCreatedAt | backend/chat/serializers.py:226-227 | present exactly when there is a last message, and then its creation time |
| ChatSerializers.GetUnreadCount | backend/chat/serializers.py:229-232 | the requester's counter in that chat, 0 when they have no link |
| ChatSerializers.GetOtherUser | backend/chat/serializers.py:213-216 | none exactly when nobody but the requester takes part; otherwise the participant with the lowest id other than the requester |
| ChatSerializers.ValidateOtherUserId | backend/chat/serializers.py:241-246 | the requester's own id is refused and any other id is accepted as given |
| ChatSerializers.ValidateToUserId | backend/chat/serializers.py:263-268 | the requester's own id is refused and any other id is accepted as given |
| ChatSerializers.MessageJson | backend/chat/serializers.py:121-142 | the object has exactly the 18 keys of `Meta.fields`; id, room, content and the (corrected) `is_own` flag are stored as-is |
| ChatSerializers.MessageJsonTexts | backend/chat/serializers.py:121-142 | `display_name`, `attachment_type`, `attachment_name` and `meta` carry the stored column values |
| ChatSerializers.MessageJsonColumns | backend/chat/serializers.py:121-142 | `reply_to`, `expires_at`, `created_at`, `edited_at` and `deleted_at` carry the stored values, and `null` when unset |
| ChatSerializers.MessageJsonComputed | backend/chat/serializers.py:110-179 | `author` is the `get_author` object, `author_username` is the author's username or `null`, both `attachment` and `attachment_url` hold the file's URL, and `is_image` is the model's property |
| ChatSerializers.FileUrl | backend/chat/serializers.py:172-176 | `null` exactly when no file is attached; else the media URL followed by the stored name |
| ChatSerializers.AuthorJson | backend/chat/serializers.py:160-165 | the author object has exactly the keys `id`, `nickname` and `avatar`, with `null` for a missing id or avatar |
| ChatPermissions.IsAuthenticated | backend/chat/permissions.py:5-7 | permitted exactly for an authenticated user |
| ChatPermissions.IsChatParticipant | backend/chat/permissions.py:15-20 | refused without a callable `get_chat`; otherwise permitted exactly when the requester's primary key is among the chat's participants |
| ChatPermissions.ParticipantIsAuthenticated | backend/chat/permissions.py:5-20 | a participant is always authenticated |
| ChatViewRules.PyInt | backend/chat/views.py:279 | Python `int()` on a request value: a number is kept, a bool becomes 0 or 1, null, lists and objects raise |
| ChatViewRules.ParseIntText | backend/chat/views.py:279 | a string converts exactly when it is an optionally signed decimal numeral between optional whitespace, to the value of its digits |
| ChatViewRules.PyIntOfRendering | backend/chat/views.py:279 | `int()` of a rendered number, with or without a minus sign, gives the number back |
| ChatViewRules.FolderFilterFor | backend/chat/views.py:59-72 | roots exactly for `parent=null` or a yes-like `root`; the children of `parent` exactly when a parent is given and roots are not asked for |
| ChatViewRules.RootFolders | backend/chat/views.py:64-67 | exactly the folders without a parent |
| ChatViewRules.ChildFolders | backend/chat/views.py:69-70 | exactly the folders whose parent is the given id |
| ChatViewRules.FolderQuery | backend/chat/views.py:59-72 | the roots when roots are asked for; for a `parent` id the children of the number Python `int()` reads from it, and a 500 exactly when `int()` rejects it; every folder when neither is given |
| ChatViewRules.LeadingZeroIgnored | backend/chat/views.py:70 | leading zeros do not change the number `int()` reads |
| ChatViewRules.PaddedNumeralReads | backend/chat/views.py:70 | `int()` of a numeral with a leading zero is the number |
| ChatViewRules.PaddedParentSelectsSameFolders | backend/chat/views.py:69-70 | `?parent=07` and `?parent=7` select the same folders, the children of folder 7 |
| ChatViewRules.ParentNumeralSelectsChildren | backend/chat/views.py:69-70 | a `parent` that `int()` reads as n, other than `null`, selects the children of n |
| ChatViewRules.FolderRootsWin | backend/chat/views.py:64-67 | `parent=null` wins over any `root`, and a yes-like `root` (any case) wins over a parent id |
| ChatViewRules.RoomFilter | backend/chat/views.py:116-118 | an empty or missing `room` filters nothing; otherwise the number `int()` reads from it, and a 500 exactly when `int()` rejects it |
| ChatViewRules.RoomFilterOfRendering | backend/chat/views.py:116-118 | `?room=<id>` selects that room |
| ChatViewRules.MessageQuery | backend/chat/views.py:111-126 | a 500 exactly when `room` is rejected by `int()`; otherwise exactly the messages that are not soft-deleted, in the requested room when one is given, and not hidden by the signed-in viewer, newest first |
| ChatViewRules.ListedNewestFirst | backend/chat/views.py:111-126 | exactly the listed messages for a parsed room filter, newest first |
| ChatViewRules.ConversationQuery | backend/chat/views.py:308-315 | exactly the chat's messages that are not soft-deleted, oldest first |
| Sorting.Filter | backend/chat/views.py:111-126 | `filter()`: exactly the elements that satisfy the condition, never more than the input |
| Sorting.FilterKeepsSorted | frontend/src/data/locations.ts:700-718 | filtering keeps the input's order: a list ordered by a key is still ordered by it |
| Sorting.SortBy | backend/chat/views.py:111-126 | `order_by()`: the same elements, as a permutation, in ascending order of the key |
| ChatViewRules.DisplayNameFor | backend/chat/views.py:132-136 | never empty: the username, else the email, else `User`; always `User` for an anonymous sender |
| ChatViewRules.DisplayNameIsEmail | backend/chat/views.py:132-136 | with this user model (no username field) a signed-in sender is shown by email |
| ChatViewRules.AttachmentFieldsFor | backend/chat/views.py:138-151 | without an upload all empty; otherwise the name is kept, the type is `image` exactly when the lower-cased content type starts with `image/` and `file` otherwise, and a non-empty content type is kept lower-cased as `mime` |
| ChatViewRules.CreatedAttachmentAgreesWithIsImage | backend/chat/views.py:143-151 | the stored type makes `is_image` (backend/chat/models.py:229-232) agree with the uploaded content type whatever the file is called |
| ChatViewRules.DestroyStatus | backend/chat/views.py:161-193 | the answer is one of 204, 400, 401, 403 |
| ChatViewRules.DestroyAllowedIff | backend/chat/views.py:166-180 | deleted for all exactly when `for_all` is yes-like and a signed-in author, staff member or superuser asks; 400 exactly without a yes-like `for_all`; 401 exactly with it for an anonymous user |
| ChatViewRules.AuthorlessNeedsStaff | backend/chat/views.py:178-180 | an authorless message is deleted only by staff or a superuser |
| ChatViewRules.TimerValue | backend/chat/views.py:277-279 | null, `""`, 0 and false clear the timer; a positive number sets it; true sets 1; a negative number, a list or an object makes the request fail |
| ChatViewRules.TimerZeroStringIsKept | backend/chat/views.py:279 | the text `"0"` sets a zero timer while the number 0 clears it |
| ChatViewRules.ApplyChatSettings | backend/chat/views.py:265-284 | only `is_secret` (by truthiness) and the timer change; a missing key keeps its field; the PATCH fails exactly when the timer fails to convert |
| ChatViewRules.EmptyPatchKeepsChat | backend/chat/views.py:270-282 | a PATCH with neither key leaves the chat as it is |
| ChatViewRules.FriendRequestQuery | backend/chat/views.py:385-393 | only requests involving the user; `incoming` (any case) those sent to them, `outgoing` those sent by them, anything else or nothing both |
| ChatViewRules.FriendRequestList | backend/chat/views.py:385-393 | the listed requests are exactly the stored rows `FriendRequestQuery` selects, each once per table row, ordered newest first |
| ChatViewRules.NewestRequestsFirst | backend/chat/views.py:393 | ordering by `-created_at` keeps the same rows and puts a newer request before an older one |
| ChatViewRules.RequestRows | backend/chat/views.py:385-392 | the rows kept are exactly the table rows that exist and that the query selects |
| ChatViewRules.FriendRequestsSplit | backend/chat/views.py:385-393 | the incoming and outgoing lists together are the full list |
| ChatViewRules.FriendsOf | backend/chat/views.py:433-441 | no more friends than rows |
| ChatViewRules.FriendsOfIff | backend/chat/views.py:433-441 | a user is listed exactly when a friendship row pairs them with the requester in either position |
| ChatViewRules.BlockedBy | backend/chat/views.py:456-459 | exactly the users the requester has blocked |
| ChatViewRules.BlockList | backend/chat/views.py:456-459 | the listed blocks are exactly the requester's own block rows, newest first |
| ChatViewRules.BlockListShowsBlockedBy | backend/chat/views.py:456-459 | a user appears in the block list exactly when `BlockedBy` holds them |
| ChatViewRules.BlockPairs | backend/chat/models.py:323-329 | the block pairs are exactly the `(blocker, blocked)` pairs of the rows |
| ChatViewRules.SearchHitWithTerm | backend/chat/views.py:484-509 | with a stripped term of at least four characters, a hit is a user other than the requester one of whose fields contains the term, ignoring case |
| ChatViewRules.ShortSearchFindsNobody | backend/chat/views.py:486-488 | a stripped term shorter than four characters finds nobody |
| ChatViewRules.SearchExcludesSelf | backend/chat/views.py:508 | the requester never finds themself |
| ChatViewRules.SearchIgnoresPadding | backend/chat/views.py:486 | surrounding whitespace does not change the result |
| ChatViews.ValidateInput | backend/chat/serializers.py:121-186 | a posted message is accepted exactly when its attachment type is one of the choices (backend/chat/models.py:167-171, 192-194), the trimmed `display_name` has at most 150 characters and the trimmed `attachment_name` at most 255 (models.py:184-195), a `reply_to` is a UUID naming a stored message, `expires_at` is readable, `meta` is not `null`, and it has text or a file |
| ChatViews.PostedExpiry | backend/chat/models.py:203 | a posted time is stored as given; an absent or `null` one leaves `expires_at` unset |
| ChatViews.MetaFor | backend/chat/views.py:141-158 | a room message's `meta` is `{"mime": <type>}` with the upload's lower-cased type when there is one, else `{}` |
| ChatViews.NewMessage | backend/chat/models.py:160-209 | a new row has the fresh id, room, author, creation time and the given name, text, attachment columns, `reply_to`, `expires_at` and `meta`; it is neither edited nor deleted, and has a stored file (at `_message_upload_to`'s path) exactly when one was uploaded |
| ChatViews.FriendsListMatchesAreFriends | backend/chat/views.py:433-441 | with rows saved in ascending order, the friends list holds exactly the users `are_friends` (backend/chat/services.py:68-70) accepts |
| ChatViews.ChatApi.CreateRoomMessage | backend/chat/views.py:107-159 | an anonymous POST is 401 (`IsAuthenticatedOrReadOnly`) and nothing else is; for a signed-in user an invalid message or unknown room is 400 and a missing room 500, each with nothing stored; otherwise exactly one row is added, authored by the signed-in user, named as `DisplayNameFor` says, with the upload's attachment columns and `meta`, and the posted trimmed text, `reply_to` and `expires_at` |
| ChatViews.ChatApi.Destroy | backend/chat/views.py:107-193 | an anonymous DELETE is 401 (`IsAuthenticatedOrReadOnly`) with nothing changed; otherwise a `room` rejected by `int()` is 500; a message outside the list's queryset is 404; otherwise the status is the one `DestroyStatus` gives; on 204 the rows become `WithoutMessage` of the old rows (the row gone, replies to it without `reply_to`), its hidden marks are gone, every chat whose `last_message` it was has none (models.py:97-103), and one `chat_delete` event with the id is sent to `chat_<room>`; otherwise nothing changes |
| ChatViews.ChatApi.Hide | backend/chat/views.py:195-210 | 401 for an anonymous user; 500 for an id that is not a UUID; 404 for an unknown message; otherwise the requester's hidden mark exists afterwards, whether or not it did before |
| ChatViews.IdsBelow | backend/chat/views.py:484-505 | the ids found are exactly those below the bound that satisfy the filter, in ascending order |
| ChatViews.ChatApi.ConversationCreate | backend/chat/views.py:243-258 | own id 400, unknown user 404, a block either way 403, a missing friendship 403 when friends are required; otherwise the DM chat is fetched (200) or created (201) |
| ChatViews.ChatApi.PartialUpdate | backend/chat/views.py:265-284 | 404 outside the requester's conversations; a timer `int()` refuses is a server error with nothing saved; otherwise only that chat changes, to what `ApplyChatSettings` gives |
| ChatViews.ChatApi.ConversationMessagesCreate | backend/chat/views.py:324-371 | unknown chat 404, non-participant 403, invalid message 400, each with no change; a participant with valid input always gets 201; on 201 the message with the chat as room and the requester as author, the posted trimmed name, text and attachment name, the posted attachment type, `reply_to` and `meta` (or `{}`), and the posted `expires_at` unless a secret chat with a timer sets it; then the chat's last message, every other participant's unread counter and one `chat_message` event to `chat_<id>` |
| ChatViews.ChatApi.StoreDirectMessage | backend/chat/views.py:350-369 | the writes of a successful post: the row, the chat's last message, `IncUnread` of the links, and one broadcast, nothing else |
| ChatViews.ChatApi.ConversationMessagesList | backend/chat/views.py:317-321 | given the stored messages in any order: unknown chat 404, non-participant 403; otherwise the chat's visible messages oldest first, after which only the requester's counter in that chat is reset |
| ChatViews.ChatApi.FriendRequestCreate | backend/chat/views.py:395-408 | own id 400, unknown user 404, a block 403, already friends 200 with nothing changed; otherwise 201 after `send_friend_request` |
| ChatViews.ChatApi.FriendRequestAccept | backend/chat/views.py:410-416 | 404 for an unknown request, 403 unless the requester is its recipient; on 200 the request is accepted and the two are friends |
| ChatViews.ChatApi.FriendRequestReject | backend/chat/views.py:418-424 | the same checks; on 200 the request is rejected and no friendship appears |
| ChatViews.ChatApi.FriendsList | backend/chat/views.py:433-441 | the loop collects exactly `FriendsOf` the friendship rows |
| ChatViews.ChatApi.FriendDestroy | backend/chat/views.py:443-446 | 404 for an unknown user; otherwise 204 with the pair's friendship row gone |
| ChatViews.ChatApi.BlockCreate | backend/chat/views.py:461-465 | `int(user_id)` with 0 as default; a value `int()` refuses is a server error, an unknown user 404; on 201 the block exists, even for oneself |
| ChatViews.ChatApi.BlockDestroy | backend/chat/views.py:467-470 | 404 for an unknown user; otherwise only the requester's block of that user is removed |
| ChatViews.ChatApi.UserSearch | backend/chat/views.py:484-509 | exactly the search hits, in ascending id order |
| ChatConsumer.PyStr | backend/chat/consumers.py:73-81 | a text sender name is stored as it is; a list, dict or null gives no text in the model (see Left out) |
| ChatConsumer.FrameDisplayNameAsWritten | backend/chat/consumers.py:45 | as written, a truthy `displayName` from the frame is used as it is |
| ChatConsumer.FrameDisplayNameRaisesForSignedIn | backend/chat/consumers.py:45 | as written, a signed-in user (the user model has no `username`, backend/users/models.py:20-50) who sends a message without `displayName` makes the lookup raise |
| ChatConsumer.FrameDisplayName | backend/chat/consumers.py:45 | corrected: the frame's truthy `displayName`, else `User` for an anonymous sender, else the user's login name; it never raises |
| ChatConsumer.FrameDisplayNameAgrees | backend/chat/consumers.py:45 | wherever the written lookup gives a name, the corrected one gives the same name |
| ChatConsumer.Dispatch | backend/chat/consumers.py:27-61 | built on the corrected `FrameDisplayName`: text that is not JSON is ignored; a payload that is not an object raises; a typing frame becomes one typing event with the user and a boolean flag; a persisted message is a `message` frame with non-empty trimmed text; any other type is ignored |
| ChatConsumer.DispatchAsWritten | backend/chat/consumers.py:43-47 | as written: the same decision as `Dispatch` except that a message frame from a signed-in sender without `displayName` raises, blank or not, exactly where `Dispatch` would not already raise |
| ChatConsumer.BlankMessageRaisesAsWritten | backend/chat/consumers.py:44-47 | as written, a blank message from a signed-in sender raises where the corrected dispatch drops it |
| ChatConsumer.BlankMessageIsDropped | backend/chat/consumers.py:44-47 | with the corrected name lookup, a message frame whose content is blank or absent is dropped |
| ChatConsumer.TextMessageIsPersisted | backend/chat/consumers.py:43-50 | with the corrected name lookup, a message frame with text is persisted with that text trimmed and the sender's name |
| ChatConsumer.ChatMessageDataAsWritten | backend/chat/consumers.py:52-57 | as written, the event's data holds the message's UUID object as `id`, with the content, the sender name and the creation time |
| ChatConsumer.DumpMessageFrame | backend/chat/consumers.py:63-64 | `json.dumps` of the handler's frame succeeds exactly when no value is a UUID object, giving a `message` frame with the data |
| ChatConsumer.ChatMessageFrameRaisesAsWritten | backend/chat/consumers.py:52-64 | as written, the `chat_message` handler raises on every message sent over the socket |
| ChatConsumer.UuidsAsText | backend/chat/consumers.py:52-57 | the same keys, every UUID replaced by its text and every other value unchanged |
| ChatConsumer.ChatMessageDataHasIdText | backend/chat/consumers.py:52-57 | corrected: the event's data is the as-written data with the id written as text |
| ChatConsumer.ChatMessageFrameDelivered | backend/chat/consumers.py:63-64 | the corrected event is served by the `chat_message` handler as a `message` frame carrying its data |
| ChatConsumer.OutboundChatMessage | backend/chat/consumers.py:63-64 | the socket frame has type `message` and the event's `data` |
| ChatConsumer.OutboundTyping | backend/chat/consumers.py:66-67 | the socket frame has type `typing` and the event's user and flag under `data` |
| ChatConsumer.OutboundPresence | backend/chat/consumers.py:69-70 | the socket frame has type `presence` and the event's count, 0 when it has none |
| ChatConsumer.TypingRoundTrip | backend/chat/consumers.py:35-40 | a typing frame reaches the room's sockets as a typing frame with the sender's user and flag made boolean (and handled at backend/chat/consumers.py:66-67) |
| ChatConsumer.Underscored | backend/chat/consumers.py:63-70 | a type with dots read as underscores keeps its length; a dot-free type is unchanged |
| ChatConsumer.HandlerName | backend/chat/consumers.py:63-70 | an event names a handler exactly when its type is text, and the handler is that type with dots read as underscores |
| ChatConsumer.OutboundAsWritten | backend/chat/consumers.py:63-70 | as written, only `chat_message`, `typing` and `presence` events have a handler |
| ChatConsumer.DeleteEventHasNoHandler | backend/chat/views.py:187-191 | as written, the `chat_delete` event the delete view publishes has no handler in the consumer |
| ChatConsumer.OutboundDelete | frontend/src/components/chat/ChatInterface.tsx:868-874 | corrected handler: a `delete` frame with the message id, the shape the chat screen reads |
| ChatConsumer.Outbound | backend/chat/consumers.py:63-70 | corrected dispatch: every event the written consumer handles is handled the same way, `chat_delete` gets a `delete` frame, and nothing else is handled |
| ChatConsumer.DeleteEventDelivered | backend/chat/views.py:187-191 | with the corrected dispatch a deletion reaches every socket as `{"type":"delete","id":…}` |
| ChatConsumer.RoomConsumer.ConnectAsWritten | backend/chat/consumers.py:10-22 | as written: the socket joins `chat_<room>`, is accepted, and one presence event with count 0 is sent although the group holds at least this socket |
| ChatConsumer.RoomConsumer.Connect | backend/chat/consumers.py:10-22 | corrected: the presence count is the size of the group after joining, so at least 1 |
| ChatConsumer.RoomConsumer.Disconnect | backend/chat/consumers.py:24-25 | only this socket leaves the room's group; nothing is sent |
| ChatConsumer.RoomConsumer.Receive | backend/chat/consumers.py:27-61 | performs the corrected `Dispatch`: one typing event; or, for a persisted message in an existing room, one stored row (author only when signed in) and one `chat_message` event; a missing room raises in `_save_message` (backend/chat/consumers.py:72-81) with nothing stored or sent; otherwise nothing |
| NotifyUtils.UserGroupInjective | backend/notifications/utils.py:18 | distinct users have distinct `user_<id>` groups |
| NotifyUtils.EventOf | backend/notifications/utils.py:19 | the event holds exactly the payload's keys plus `type`, with the given type and every payload value |
| NotifyUtils.FanOut | backend/notifications/utils.py:32-36 | one send per listed id, in list order, each to that id's group with the same event |
| NotifyUtils.FanOutReaches | backend/notifications/utils.py:32-36 | a user's group is reached exactly when the user is listed |
| NotifyUtils.NotifyUser | backend/notifications/utils.py:8-20 | without a layer nothing; otherwise exactly one event is appended, to the user's group; group membership unchanged |
| NotifyUtils.NotifyFriendsIds | backend/notifications/utils.py:23-36 | without a layer nothing; otherwise the fan-out of the event over the list is appended (nothing for an empty list); group membership unchanged |
| NotificationViews.ReadFilterFor | backend/notifications/views.py:30-36 | read rows exactly for a yes-word in any case, unread rows exactly for a no-word, both otherwise |
| NotificationViews.NotificationQuery | backend/notifications/views.py:28-37 | exactly the requester's rows that the read filter keeps |
| NotificationViews.NotificationList | backend/notifications/models.py:39-40 | the list answered holds exactly the table rows `NotificationQuery` selects, all the requester's, ordered newest first by `created_at` |
| NotificationViews.NotificationListDistinct | backend/notifications/models.py:39-40 | ordering loses and repeats nothing: a table without repeated ids gives a list without repeats |
| NotificationViews.ReadFilterSplits | backend/notifications/views.py:28-37 | the `true` and `false` lists are disjoint and together give the unfiltered list |
| NotificationViews.IdsParam | backend/notifications/views.py:46-52 | a falsy `ids` is the empty list; a usable one is a list and its ids are exactly the `int()` values of its elements |
| NotificationViews.IntsOf | backend/notifications/views.py:52 | a list converts exactly when every element converts with `int()`, to the set of the converted values |
| NotificationViews.Matched | backend/notifications/views.py:48-52 | the rows the update touches: the requester's, all of them or those listed |
| NotificationViews.MarkedRead | backend/notifications/views.py:49-52 | after the update matched rows are read and every other row is as before |
| NotificationViews.Unread | backend/notifications/views.py:53 | exactly the requester's unread rows |
| NotificationViews.MarkReadOnlyRaises | backend/notifications/views.py:48-52 | marking never clears a read flag, changes nothing but the flag, and leaves other users' rows untouched |
| NotificationViews.MarkReadUnread | backend/notifications/views.py:48-53 | afterwards the unread rows are the earlier unread rows that were not matched; with `all`, none |
| NotificationViews.MarkTwoOfThree | backend/notifications/views.py:43-54 | listing two of three unread rows marks exactly those two and leaves one unread |
| NotificationViews.NotificationTable.MarkRead | backend/notifications/views.py:39-54 | 200 exactly with a truthy `all` or usable `ids` (otherwise 500 with nothing changed); then the table is `MarkedRead`, `updated` counts the matched rows and `unread_count` the requester's remaining unread rows |
| NotificationViews.StatusOf | backend/notifications/views.py:59-67 | the status names the room, is subscribed exactly when a row exists, and is muted exactly when that row is |
| NotificationViews.Subscribed | backend/notifications/views.py:72-82 | get-or-create: an existing row is kept as it is; otherwise an unmuted row is added |
| NotificationViews.Unsubscribed | backend/notifications/views.py:87-89 | the requester's row for the room is gone and every other row is kept |
| NotificationViews.Muted | backend/notifications/views.py:94-105 | the row exists with the requested flag; a row that already has it is untouched; an existing row keeps its creation time; nothing else changes |
| NotificationViews.SubscribeIdempotent | backend/notifications/views.py:72-82 | subscribing again changes nothing, and afterwards the status is subscribed |
| NotificationViews.SubscribeKeepsMuted | backend/notifications/views.py:78-80 | subscribing to an existing subscription keeps its status, muted flag included |
| NotificationViews.UnsubscribeStatus | backend/notifications/views.py:87-89 | after unsubscribing the status is what the reply claims: not subscribed, not muted |
| NotificationViews.MuteSettles | backend/notifications/views.py:94-105 | muting reports the requested flag; repeating it touches nothing |
| NotificationViews.SubscriptionTable.Subscribe | backend/notifications/views.py:72-82 | the table becomes `Subscribed` and the reply is the requester's row |
| NotificationViews.SubscriptionTable.Unsubscribe | backend/notifications/views.py:87-89 | the table becomes `Unsubscribed` and the reply is the status of the new table |
| NotificationViews.SubscriptionTable.Mute | backend/notifications/views.py:94-105 | with `muted` read by `bool()`, the table becomes `Muted` and the reply is the requester's row |
| Integrations.ParseModelSpec | backend/notifications/integrations.py:33-38 | nothing exactly when the name has no dot (the empty name included); otherwise a dot-free app label and a model name that rejoin to the dotted name |
| Integrations.ParseModelSpecRoundTrip | backend/notifications/integrations.py:33-38 | any dot-free app label and any model name are recovered from `app.Model` |
| Integrations.ResolveModel | backend/notifications/integrations.py:41-51 | a model exactly when the setting parses and names an installed model (model name matched case-insensitively); the result is always installed |
| Integrations.ResolveUnsetModel | backend/notifications/integrations.py:45-48 | an unset or empty setting resolves to no model |
| Integrations.ConnectedIntegrations | backend/notifications/integrations.py:61-102 | each of the three integrations is connected exactly when its own setting resolves |
| Integrations.FirstAttr | backend/notifications/integrations.py:54-58 | the default when no candidate attribute exists; otherwise the value of some candidate the object has |
| Integrations.FirstAttrPicksFirst | backend/notifications/integrations.py:55-57 | the first candidate present wins, whatever later candidates hold |
| Integrations.GetAttr | backend/notifications/integrations.py:54-58 | the probing loop returns exactly the first-match value |
| Integrations.RoomIdDirect | backend/notifications/integrations.py:115-120 | a truthy `room_id` is the room, ahead of any related object |
| Integrations.RoomIdViaObject | backend/notifications/integrations.py:121-127 | an unset or zero `room_id` falls back to the related room's id |
| Integrations.ExtractRoomId | backend/notifications/integrations.py:107-128 | a truthy `room_id`, `chat_id` or `group_id`, the first one present, is converted with `int()`; any id returned comes from one of those attributes or from the `id`/`pk` of a related `room`, `chat` or `group`; with none of them present there is no room |
| Integrations.ExtractAuthorId | backend/notifications/integrations.py:131-152 | the same rule for `author_id`, `user_id` and `sender_id`, then a related `author`, `user` or `sender` |
| Integrations.DmRecipientId | backend/notifications/integrations.py:180-230 | a truthy explicit recipient id wins; any recipient returned comes from a recipient id, a related recipient object or one of the thread's two users; with none of those attributes there is no recipient |
| Integrations.NoIdsFound | backend/notifications/integrations.py:107-150 | a row with none of the probed attributes has neither a room nor an author |
| Integrations.AuthorIdBeforeUserId | backend/notifications/integrations.py:137-142 | `author_id` is preferred over `user_id` |
| Integrations.OtherOfPair | backend/notifications/integrations.py:211-213 | one of the two users; the other one when the author is either; `user1` when the author is unknown |
| Integrations.PairIds | backend/notifications/integrations.py:208-215 | a recipient exactly when both ids convert with `int()`, and then the participant other than the author |
| Integrations.DmRecipientExplicit | backend/notifications/integrations.py:188-193 | a truthy `recipient_id` wins over everything else on the row |
| Integrations.ThreadOnlyRow | backend/notifications/integrations.py:188-204 | on a row holding only its thread, the recipient probes find nothing and the thread probe finds the thread |
| Integrations.DmRecipientFromThread | backend/notifications/integrations.py:204-215 | a direct message in a two-user thread goes to the participant who did not write it, or to `user1` when the author is unknown |
| Integrations.Preview | backend/notifications/integrations.py:162-165 | at most 80 characters: the stripped content when it fits, else its first 77 characters and an ellipsis |
| Integrations.PreviewIdempotent | backend/notifications/integrations.py:162-165 | a preview is its own preview |
| Integrations.ContentOf | backend/notifications/integrations.py:162-163 | a falsy content attribute (or none) is the empty string, a truthy string is itself, and a truthy non-string raises |
| Integrations.OnGroupMessageCreated | backend/notifications/integrations.py:153-177 | an update or a row without a room is skipped; otherwise exactly one room-subscriber notification of type `group.new` with the room, the preview and the author, excluding the author |
| Integrations.OnDmMessageCreated | backend/notifications/integrations.py:233-255 | an update or a row without a recipient is skipped; otherwise exactly one `dm.badge` notification to the recipient with the preview and the author |
| Integrations.FriendRequestTarget | backend/notifications/integrations.py:263-267 | a truthy `to_user_id`, `receiver_id`, `recipient_id` or `to_id` is taken as it is; otherwise any value comes from the `id`/`pk` of a related `to_user`, `receiver`, `recipient` or `to`; with none of them present it is `None` |
| Integrations.OnFriendRequestCreated | backend/notifications/integrations.py:258-283 | never raises; notifies exactly when created with a truthy recipient id that converts, sending `friend.request` with the raw sender id |
| Integrations.FriendRequestNotifiesAddressee | backend/notifications/integrations.py:263-281 | a request with `to_user_id` and `from_user_id` notifies the addressee naming the sender |
| Integrations.UpdatesNeverNotify | backend/notifications/integrations.py:155-156 | none of the three handlers acts on an update |
| NotificationConsumer.HandlerName | backend/notifications/consumers.py:56-72 | the handler name has the event type's length and its characters, every dot turned into an underscore |
| NotificationConsumer.ClientType | backend/notifications/consumers.py:58-72 | a client type exactly for the five handler names the consumer defines |
| NotificationConsumer.Forward | backend/notifications/consumers.py:59 | the frame carries the client type and every other key of the event unchanged, and no other key |
| NotificationConsumer.Deliver | backend/notifications/consumers.py:56-72 | a frame exactly when the event's type names one of the five handlers, and then the forwarded event under that handler's client type |
| NotificationConsumer.HandlerNameNoDots | backend/notifications/consumers.py:56 | a type without dots is its own handler name |
| NotificationConsumer.NotifiedBadgeArrives | backend/notifications/consumers.py:64-65 | a `dm_badge` event reaches the client as its payload under type `dm:badge` |
| NotificationConsumer.DottedTypeSameHandler | backend/notifications/consumers.py:64-65 | `dm.badge` and `dm_badge` are delivered identically |
| NotificationConsumer.Seconds | backend/notifications/consumers.py:135 | exactly the `user2_id`s of the rows whose `user1_id` is the user |
| NotificationConsumer.Firsts | backend/notifications/consumers.py:136 | exactly the `user1_id`s of the rows whose `user2_id` is the user |
| NotificationConsumer.FriendIds | backend/notifications/consumers.py:125-137 | nothing when the friendship model is not importable; otherwise exactly the users on the other side of a friendship row in either direction |
| NotificationConsumer.FriendIdsMatchFriendsList | backend/notifications/consumers.py:125-137 | the presence recipients are the REST friends list, with multiplicity and up to order |
| NotificationConsumer.UpdateUserPresence | backend/notifications/consumers.py:106-122 | nothing for a missing user; only the columns the model has are written, `is_online` with the flag and `last_seen` with the time |
| NotificationConsumer.UpdateUserPresenceNoopHere | backend/notifications/consumers.py:115-122 | for a model with neither column the update writes nothing |
| NotificationConsumer.PresencePayload | backend/notifications/consumers.py:96-101 | the presence event carries exactly `user_id` and `online` |
| NotificationConsumer.PresenceSendsAsWritten | backend/notifications/consumers.py:95-101 | as written, no presence event is sent |
| NotificationConsumer.PresenceLostAsWritten | backend/notifications/consumers.py:95-101 | a user with a friend loses at least one presence send that the intended fan-out makes |
| NotificationConsumer.NotificationsConsumer.ConnectAsWritten | backend/notifications/consumers.py:28-43 | an anonymous socket is closed and joins nothing; a signed-in one joins `user_<id>` and is accepted, then its presence announcement raises before sending anything, the consumer ends and the socket is closed |
| NotificationConsumer.NotificationsConsumer.Connect | backend/notifications/consumers.py:28-43 | as intended: after joining and accepting, every friend's group receives one `presence` event with the user online |
| NotificationConsumer.NotificationsConsumer.SetPresence | backend/notifications/consumers.py:80-101 | going online cancels a pending offline task; each friend's group receives one `presence` event; groups and frames are unchanged |
| NotificationConsumer.NotificationsConsumer.Disconnect | backend/notifications/consumers.py:45-54 | the socket leaves its own group; going offline is scheduled exactly for a truthy user id; nothing is sent |
| NotificationConsumer.NotificationsConsumer.OfflineDue | backend/notifications/consumers.py:76-78 | the scheduled task tells each friend the user went offline and clears the pending flag |
| NotificationConsumer.NotificationsConsumer.Handle | backend/notifications/consumers.py:56-72 | one frame, the delivered one, for the five known types; any other event sends nothing and closes the socket |
| ApiCache.Lookup | frontend/src/utils/apiCache.ts:21-35 | the data of an entry not yet past its expiry, `null` for a missing or expired one |
| ApiCache.AfterLookup | frontend/src/utils/apiCache.ts:21-48 | a lookup drops the key's entry exactly when it has expired, and leaves every other entry |
| ApiCache.Unexpired | frontend/src/utils/apiCache.ts:59-66 | exactly the live entries, unchanged |
| ApiCache.SetThenGet | frontend/src/utils/apiCache.ts:12-35 | stored data is returned up to its expiry time inclusive, and afterwards `null` with the entry dropped |
| ApiCache.HasAgreesWithGet | frontend/src/utils/apiCache.ts:21-48 | `has` is true exactly when `get` returns non-null, for entries whose data is not itself `null` |
| ApiCache.CleanupKeepsLookups | frontend/src/utils/apiCache.ts:59-66 | a cleanup changes no lookup at the same time |
| ApiCache.APICache.constructor | frontend/src/utils/apiCache.ts:8-10 | a new cache is empty |
| ApiCache.APICache.Set | frontend/src/utils/apiCache.ts:12-19 | the key maps to the data stamped now, expiring `ttl` later, five minutes when no `ttl` is given; other keys unchanged |
| ApiCache.APICache.Get | frontend/src/utils/apiCache.ts:21-35 | returns the lookup and leaves the entries as `AfterLookup` says |
| ApiCache.APICache.Has | frontend/src/utils/apiCache.ts:37-48 | returns liveness and leaves the entries as `AfterLookup` says |
| ApiCache.APICache.Delete | frontend/src/utils/apiCache.ts:50-52 | removes exactly the key |
| ApiCache.APICache.Clear | frontend/src/utils/apiCache.ts:54-56 | empties the cache |
| ApiCache.APICache.Cleanup | frontend/src/utils/apiCache.ts:59-66 | the loop leaves exactly the unexpired entries |
| ApiCache.APICache.Stats | frontend/src/utils/apiCache.ts:69-74 | the size is the number of keys, and the keys are the cache's |
| ApiInstance.TtlFor | frontend/src/api/instance.ts:73-82 | two minutes for `/conversations/`, else thirty seconds for `/messages`, else ten minutes for `/settings`, else five minutes; always positive |
| ApiInstance.CacheKey | frontend/src/api/instance.ts:19-19 | the key is the method, a `-`, the URL, a `-` and the stringified parameters, or `{}` when there are none |
| ApiInstance.ConversationMessagesTtl | frontend/src/api/instance.ts:76-79 | a conversation's messages URL gets the conversations time to live, not the messages one |
| ApiInstance.OnRequest | frontend/src/api/instance.ts:15-36 | only a GET consults the cache; it is served exactly when the cached data is truthy, with that data, and the lookup drops an expired entry |
| ApiInstance.OnResponse | frontend/src/api/instance.ts:69-85 | exactly a GET answered 200 is stored under the request key for the URL's time to live |
| ApiInstance.StoredResponseServes | frontend/src/api/instance.ts:19-84 | a stored GET response is found again for the same request within its time to live |
| ApiInstance.CacheHitRefreshes | frontend/src/api/instance.ts:15-85 | a GET served from the cache passes the response interceptor as a 200 and is stored again with the same data and a fresh time to live |
| ApiInstance.Invalidated | frontend/src/api/instance.ts:116-127 | no pattern clears everything; a pattern removes exactly the keys containing it |
| ApiInstance.InvalidateCache | frontend/src/api/instance.ts:116-127 | the deletion loop leaves exactly `Invalidated` |
| Logging.Capped | frontend/src/utils/logger.ts:56-62 | at most 1000 entries, the newest ones, and the buffer itself when it already fits |
| Logging.PushKeepsNewest | frontend/src/utils/logger.ts:56-62 | a push keeps the bound and ends with the new entry; it drops nothing below the bound and exactly the oldest entry at it |
| Logging.AtLeast | frontend/src/utils/logger.ts:155-158 | exactly the entries at or above the level, never more entries than the buffer |
| Logging.AtLeastAppend | frontend/src/utils/logger.ts:157 | filtering keeps buffer order, extending entry by entry |
| Logging.AtLeastDebugIsAll | frontend/src/utils/logger.ts:2-7 | filtering at the lowest level keeps every entry |
| Logging.ErrorData | frontend/src/utils/logger.ts:113-117 | an `error` field exactly when an error is given, holding its truthy `message` or else the error itself; `stack` and `name` exactly when the error has them; no other field, an `undefined` value being left out as `JSON.stringify` leaves it out |
| Logging.Logger.constructor | frontend/src/utils/logger.ts:18-22 | an empty buffer, whose threshold is debug in development builds and info otherwise |
| Logging.Logger.Log | frontend/src/utils/logger.ts:86-108 | an entry is pushed (keeping the newest 1000) exactly when its level reaches the threshold |
| Logging.Logger.LogError | frontend/src/utils/logger.ts:110-124 | an error entry carrying the error's data is pushed |
| Logging.Logger.ApiCall | frontend/src/utils/logger.ts:127-131 | a debug entry `API <VERB> <url>` in development builds, nothing otherwise |
| Logging.Logger.ApiResponse | frontend/src/utils/logger.ts:133-142 | an error entry for a status of 400 or more; below that a debug entry in development builds and nothing otherwise |
| Logging.Logger.UserAction | frontend/src/utils/logger.ts:145-147 | an info entry `User action: <action>` |
| Logging.Logger.GetLogs | frontend/src/utils/logger.ts:155-160 | the whole buffer without a level, else the filtered entries |
| Logging.Logger.ClearLogs | frontend/src/utils/logger.ts:163-165 | empties the buffer and keeps the logger valid |
| ErrorHandling.Fields | frontend/src/utils/errorHandler.ts:78-92 | an object literal has only the listed keys, without the ones whose value is `undefined` |
| ErrorHandling.HttpCode | frontend/src/utils/errorHandler.ts:106-158 | each status case gets its own code, only for a number equal to the case (strict equality); anything else is `API_ERROR` |
| ErrorHandling.HttpError | frontend/src/utils/errorHandler.ts:102-159 | throws exactly for a 400 without data; otherwise the code of the status; the server's message or the fallback for 400, `Authentication required`, `Permission denied`, `Resource not found`, `Too many requests`, `Server error occurred` for 401, 403, 404, 429 and 5xx, and `HTTP <status> error` by default; the details hold the context, status and data; the time and user are the given ones |
| ErrorHandling.DetailsFields | frontend/src/utils/errorHandler.ts:108-111 | the details object holds the context, status and data under their own keys, with an `undefined` one left out |
| ErrorHandling.Classify | frontend/src/utils/errorHandler.ts:67-94 | throws for `null` or `undefined`; a response is an HTTP error; a request alone is a network error whose details hold the context and the original message; otherwise an unknown error whose details hold the context and the stack, or the thrown value when it is not an `Error`; all stamped with the time and the user |
| ErrorHandling.UserMessage | frontend/src/utils/errorHandler.ts:180-207 | the Russian text for each code; a validation error shows its truthy `details.message`, else the generic validation text |
| ErrorHandling.HttpValidationShowsGenericText | frontend/src/utils/errorHandler.ts:108-112 | an HTTP 400 always shows the generic validation text, whatever message the server sent |
| ErrorHandling.HttpDecisions | frontend/src/utils/errorHandler.ts:106-158 | on an HTTP error exactly a 401 logs out, and exactly 500, 502, 503 and 504 are retried |
| ErrorHandling.ShouldLogout | frontend/src/utils/errorHandler.ts:210-212 | exactly the three authentication codes log out, and none of them is retried |
| ErrorHandling.CanRetry | frontend/src/utils/errorHandler.ts:215-221 | exactly network, timeout and server errors are retried |
| ErrorHandling.LogText | frontend/src/utils/errorHandler.ts:161-169 | a development build logs `[code] message` with the full details; otherwise `Error: code` with an object holding only the message |
| ErrorHandling.TwoFields | frontend/src/utils/errorHandler.ts:67-94 | a two-entry object literal holds each present entry under its own key and nothing else |
| ErrorHandling.NetworkErrorsRetry | frontend/src/utils/errorHandler.ts:73-79 | a request without a response is retried and does not log out |
| ErrorHandling.QueueKeepsNewest | frontend/src/utils/errorHandler.ts:171-177 | a push onto the capped queue keeps the bound, ends with the new error and drops at most the oldest |
| ErrorHandling.ErrorHandler.constructor | frontend/src/utils/errorHandler.ts:40-42 | an empty queue |
| ErrorHandling.ErrorHandler.AddToQueue | frontend/src/utils/errorHandler.ts:171-177 | the queue becomes the newest 100 errors after the push |
| ErrorHandling.ErrorHandler.HandleError | frontend/src/utils/errorHandler.ts:67-100 | returns the classification; a thrown classification logs and queues nothing; otherwise exactly one log entry and one queued error |
| ErrorHandling.ErrorHandler.RecentErrors | frontend/src/utils/errorHandler.ts:224-226 | the last `limit` errors, ten when no limit is given; a limit of 0 gives the whole queue, as `slice(-0)` does |
| ErrorHandling.ErrorHandler.ClearErrors | frontend/src/utils/errorHandler.ts:229-231 | empties the queue |
| ErrorHandling.HandleAsync | frontend/src/utils/errorHandler.ts:238-249 | the data on success with nothing logged or queued; otherwise the handled error, queued |
| Validation.EmailShape | frontend/src/utils/validation.ts:51-57 | the email pattern accepts exactly an address with no whitespace, one `@` that is not first, and a `.` at least two places after it and before the last character |
| Validation.PhoneShape | frontend/src/utils/validation.ts:59-65 | the phone pattern accepts exactly such digits, with or without one leading `+` |
| Validation.When | frontend/src/utils/validation.ts:23-136 | a check adds its message exactly when it fails, and at most one message |
| Validation.Validator.constructor | frontend/src/utils/validation.ts:7-8 | a new validator has no errors |
| Validation.Validator.Reset | frontend/src/utils/validation.ts:11-14 | clears the errors |
| Validation.Validator.AddError | frontend/src/utils/validation.ts:17-20 | appends exactly the message |
| Validation.Validator.Check | frontend/src/utils/validation.ts:131-136 | appends the message exactly when the check fails |
| Validation.Validator.Required | frontend/src/utils/validation.ts:23-28 | flags exactly `null`, `undefined` and the empty string |
| Validation.Validator.String | frontend/src/utils/validation.ts:30-35 | flags a present value that is not a string |
| Validation.Validator.MinLength | frontend/src/utils/validation.ts:37-42 | flags a string shorter than the minimum; no other value |
| Validation.Validator.MaxLength | frontend/src/utils/validation.ts:44-49 | flags a string longer than the maximum; no other value |
| Validation.Validator.Email | frontend/src/utils/validation.ts:51-57 | flags a string the email pattern rejects |
| Validation.Validator.Phone | frontend/src/utils/validation.ts:59-65 | flags a string the phone pattern rejects |
| Validation.Validator.Number | frontend/src/utils/validation.ts:68-73 | flags a present value that is not a number |
| Validation.Validator.Min | frontend/src/utils/validation.ts:75-80 | flags a number below the minimum |
| Validation.Validator.Max | frontend/src/utils/validation.ts:82-87 | flags a number above the maximum |
| Validation.Validator.Array | frontend/src/utils/validation.ts:90-95 | flags a present value that is not an array |
| Validation.Validator.MinItems | frontend/src/utils/validation.ts:97-102 | flags an array with fewer items than the minimum |
| Validation.Validator.MaxItems | frontend/src/utils/validation.ts:104-109 | flags an array with more items than the maximum |
| Validation.Validator.Boolean | frontend/src/utils/validation.ts:112-117 | flags a present value that is not a boolean |
| Validation.Validator.Date | frontend/src/utils/validation.ts:120-128 | flags a present value that does not parse as a date |
| Validation.Validator.Custom | frontend/src/utils/validation.ts:131-136 | adds the message exactly when the predicate is false |
| Validation.Validator.GetResult | frontend/src/utils/validation.ts:139-144 | valid exactly when there are no errors, returning every message |
| Validation.ValidateMessage | frontend/src/utils/validation.ts:153-160 | valid exactly for 1 to 1000 characters; the empty message gets the required and minimum-length messages, an overlong one only the maximum-length message |
| Validation.ValidateEmail | frontend/src/utils/validation.ts:162-168 | valid exactly when the email pattern accepts; the empty address gets two messages |
| Validation.ValidatePhone | frontend/src/utils/validation.ts:170-176 | valid exactly when the phone pattern accepts; the empty number gets two messages |
| Validation.PasswordRules | frontend/src/utils/validation.ts:178-196 | no messages exactly when the password has 8 characters, an upper-case letter, a lower-case letter and a digit; each unmet rule has its own message |
| Validation.PasswordErrors | frontend/src/utils/validation.ts:178-196 | at most five messages, each one of the password messages; an empty password gets all five, and only an empty one gets the required message |
| Validation.ValidatePassword | frontend/src/utils/validation.ts:178-196 | the messages are exactly the password rules' messages |
| Validation.ValidateNickname | frontend/src/utils/validation.ts:198-209 | valid exactly for 2 to 20 characters from letters, digits, `_` and `-`; the empty nickname gets three messages |
| Validation.SettingsRules | frontend/src/utils/validation.ts:211-231 | the theme message appears exactly for a truthy theme outside light, dark and auto; the language message exactly for a truthy language that is not two lower-case letters |
| Validation.CheckSettingsStrings | frontend/src/utils/validation.ts:212-215 | the required and string checks append exactly their messages |
| Validation.CheckSettingsBooleans | frontend/src/utils/validation.ts:216-218 | the three boolean checks append exactly their messages |
| Validation.ValidateUserSettings | frontend/src/utils/validation.ts:211-231 | throws exactly for `null` or `undefined` settings; otherwise valid exactly when no rule fails |
| NotificationsStore.Added | frontend/src/notifications/notificationsStore.ts:30-31 | the listeners plus the new one; a listener already present keeps its place; no listener is ever held twice |
| NotificationsStore.Removed | frontend/src/notifications/notificationsStore.ts:32 | exactly the other listeners, without duplicates |
| NotificationsStore.RemovedAbsent | frontend/src/notifications/notificationsStore.ts:32 | removing a listener that is not subscribed changes nothing |
| NotificationsStore.RemovedAppend | frontend/src/notifications/notificationsStore.ts:32 | removal keeps the order of the others |
| NotificationsStore.SubscribeThenUnsubscribe | frontend/src/notifications/notificationsStore.ts:30-33 | the function `subscribe` returns undoes a fresh subscription |
| NotificationsStore.EachListenerOnce | frontend/src/notifications/notificationsStore.ts:34-36 | one notification calls each subscribed listener exactly once |
| NotificationsStore.ClampedCount | frontend/src/notifications/notificationsStore.ts:39 | a non-negative count is kept; a negative or non-numeric one becomes 0 |
| NotificationsStore.ClampedCountStable | frontend/src/notifications/notificationsStore.ts:39 | clamping a stored count changes nothing |
| NotificationsStore.Prepended | frontend/src/notifications/notificationsStore.ts:44 | the new toast first, then the previous ones in order, at most 50 in all |
| NotificationsStore.PrependDropsOldest | frontend/src/notifications/notificationsStore.ts:44 | a full list drops exactly its oldest toast |
| NotificationsStore.Store.constructor | frontend/src/notifications/notificationsStore.ts:18-21 | no unread count, no toasts, no listeners |
| NotificationsStore.Store.Subscribe | frontend/src/notifications/notificationsStore.ts:30-31 | the listener set gains the listener; nothing else changes |
| NotificationsStore.Store.Unsubscribe | frontend/src/notifications/notificationsStore.ts:32 | the listener set loses the listener; nothing else changes |
| NotificationsStore.Store.Emit | frontend/src/notifications/notificationsStore.ts:34-36 | every listener is called once, in subscription order |
| NotificationsStore.Store.SetUnreadCount | frontend/src/notifications/notificationsStore.ts:38-41 | the count becomes the clamped value and every listener is called |
| NotificationsStore.Store.Prepend | frontend/src/notifications/notificationsStore.ts:43-46 | the toasts become the prepended list and every listener is called |
| NotificationsStore.Store.MarkAllRead | frontend/src/notifications/notificationsStore.ts:48-51 | the count becomes 0, the toasts stay, and every listener is called |
| NotificationsClient.NumberField | frontend/src/ws/notificationsClient.ts:127 | the count is kept exactly when it is a number |
| NotificationsClient.Normalise | frontend/src/ws/notificationsClient.ts:109-136 | non-JSON is dropped; `meta:init` gives `Number(unread_count or 0)`; `notification` gives the stringified type, a numeric count only, and the payload; anything else passes on unchanged exactly when its `type` is a string |
| NotificationsClient.LegacyHasType | frontend/src/ws/notificationsClient.ts:132-135 | a legacy message is the frame itself, with a string `type` and neither known `kind` |
| NotificationsClient.MetaInitDefaultsToZero | frontend/src/ws/notificationsClient.ts:119-121 | `meta:init` without a count, or with a falsy one, reports 0 |
| NotificationsClient.TextCountDropped | frontend/src/ws/notificationsClient.ts:127 | a `notification` whose count is text carries no count |
| NotificationsClient.DroppedFrames | frontend/src/ws/notificationsClient.ts:111-135 | non-JSON, and JSON with neither known kind nor a string type, are dropped |
| NotificationsClient.Pow2Monotone | frontend/src/ws/notificationsClient.ts:182 | the doubling factor never decreases with the attempt |
| NotificationsClient.BackoffDelay | frontend/src/ws/notificationsClient.ts:182 | never more than 30 seconds, and either the cap or one second doubled per attempt |
| NotificationsClient.BackoffSchedule | frontend/src/ws/notificationsClient.ts:182 | 1, 2, 4, 8 and 16 seconds for the first five attempts, then 30 seconds |
| NotificationsClient.BackoffMonotone | frontend/src/ws/notificationsClient.ts:182 | a later attempt never waits less |
| NotificationsClient.Deliveries | frontend/src/ws/notificationsClient.ts:77-85 | one delivery per listener, in listener order |
| NotificationsClient.DeliveriesReachAll | frontend/src/ws/notificationsClient.ts:77-85 | every subscribed listener receives the message |
| NotificationsClient.Throwing | frontend/src/ws/notificationsClient.ts:79-83 | no more reports than listeners, each one of a listener that throws |
| NotificationsClient.ThrowingMembers | frontend/src/ws/notificationsClient.ts:79-83 | a listener is reported exactly when it is registered and throws |
| NotificationsClient.Client.constructor | frontend/src/ws/notificationsClient.ts:42-50 | no socket, not connecting, not stopped, attempt 0, no timers, no listeners |
| NotificationsClient.Client.Subscribe | frontend/src/ws/notificationsClient.ts:72-74 | the listener set gains the listener; the connection state is unchanged |
| NotificationsClient.Client.Unsubscribe | frontend/src/ws/notificationsClient.ts:74 | the listener set loses the listener; the connection state is unchanged |
| NotificationsClient.Client.Emit | frontend/src/ws/notificationsClient.ts:77-85 | every listener receives the message even when earlier ones throw; each throwing one is logged once |
| NotificationsClient.Client.ScheduleReconnect | frontend/src/ws/notificationsClient.ts:177-188 | nothing when stopped or already pending; otherwise connecting is cleared, the next backoff delay is pending and the attempt counter grows by one |
| NotificationsClient.Client.Connect | frontend/src/ws/notificationsClient.ts:87-153 | a no-op while connecting, with a socket or when stopped; otherwise one new socket, or a scheduled reconnect when creating it throws |
| NotificationsClient.Client.Start | frontend/src/ws/notificationsClient.ts:52-55 | clears the stopped flag and connects as `Connect` does |
| NotificationsClient.Client.Stop | frontend/src/ws/notificationsClient.ts:57-70 | stopped, with no heartbeat, no pending reconnect and no socket |
| NotificationsClient.Client.OnOpen | frontend/src/ws/notificationsClient.ts:101-107 | connecting ends, the attempt counter resets, the heartbeat starts and one ping goes out on the open socket |
| NotificationsClient.Client.HeartbeatTick | frontend/src/ws/notificationsClient.ts:163-168 | one ping exactly when the socket is open |
| NotificationsClient.Client.OnMessage | frontend/src/ws/notificationsClient.ts:109-136 | a normalised frame reaches every listener; a dropped one reaches none |
| NotificationsClient.Client.OnError | frontend/src/ws/notificationsClient.ts:138-141 | schedules a reconnect as `ScheduleReconnect` does |
| NotificationsClient.Client.OnCloseAsWritten | frontend/src/ws/notificationsClient.ts:143-147 | the heartbeat and the socket are dropped; without a pending reconnect one is scheduled after the backoff delay and the attempt counter goes up; with one already pending, `connecting`, the timer and the counter are left as they were; the listeners, deliveries, pings and socket count do not change |
| NotificationsClient.Client.OnClose | frontend/src/ws/notificationsClient.ts:143-147 | as intended: the socket's end also ends the connection attempt, so a pending reconnect can always proceed |
| NotificationsClient.Client.ReconnectTimerFires | frontend/src/ws/notificationsClient.ts:184-187 | the fired timer connects; when reconnecting was possible, the client ends with a socket or a new pending reconnect |
| NotificationsClient.StrandedAsWritten | frontend/src/ws/notificationsClient.ts:52-188 | as written, a `start` during a pending reconnect followed by a failing socket leaves the client running with no socket, no pending reconnect and `connecting` set |
| NotificationsClient.RecoversWithOnClose | frontend/src/ws/notificationsClient.ts:143-147 | with the corrected close handler the same sequence ends with a new socket |
| NotificationBell.Field | frontend/src/components/notifications/NotificationBell.tsx:20-33 | `payload?.[key]`: nothing without a payload, else the payload's field |
| NotificationBell.Mention | frontend/src/components/notifications/NotificationBell.tsx:20-29 | a text exactly when the payload field is truthy, built around its string form |
| NotificationBell.DottedAndColonAgree | frontend/src/components/notifications/NotificationBell.tsx:16-29 | the dotted and the colon spelling of each of the four event types read the same |
| NotificationBell.RequestAndMessageMentionSender | frontend/src/components/notifications/NotificationBell.tsx:18-26 | a friend request and a direct message name the sender the same way, under different titles |
| NotificationBell.OtherTypesUsePayload | frontend/src/components/notifications/NotificationBell.tsx:32-33 | any other type shows the payload's truthy title, else the generic title, and the payload's text as it is |
| NotificationBell.ToastFor | frontend/src/components/notifications/NotificationBell.tsx:45-79 | `meta:init` adds no toast; a notification's toast carries its type, payload and the title and text `typeToText` gives; a legacy frame's toast carries the frame as payload, its type, and the title and text of that type and frame |
| NotificationBell.OnClientMessage | frontend/src/components/notifications/NotificationBell.tsx:44-83 | `meta:init` sets the count; a notification sets its count or adds one, and prepends its toast; a legacy frame adds one and prepends its toast; listeners are kept |
| NotificationBell.TopItems | frontend/src/components/notifications/NotificationBell.tsx:40 | the first ten toasts, all of them when there are fewer |
| NotificationBell.NewToastShown | frontend/src/components/notifications/NotificationBell.tsx:40 | a newly prepended toast is always shown first |
| NotificationBell.BadgeText | frontend/src/components/notifications/NotificationBell.tsx:116-120 | no badge at zero, the count up to 99, then `99+` |
| NotificationBell.BadgeTextShort | frontend/src/components/notifications/NotificationBell.tsx:116-120 | the badge never exceeds three characters |
| NotificationBell.HandleMarkAll | frontend/src/components/notifications/NotificationBell.tsx:93-101 | the count is cleared exactly when the server call succeeded; otherwise an alert and no change |
| SettingsContext.SnakeNameInjective | frontend/src/contexts/SettingsContext.tsx:76-126 | distinct settings have distinct server field names |
| SettingsContext.Default | frontend/src/contexts/SettingsContext.tsx:46-70 | no default is `null` |
| SettingsContext.Defaults | frontend/src/contexts/SettingsContext.tsx:46-70 | every setting present, each with its default |
| SettingsContext.ToClient | frontend/src/contexts/SettingsContext.tsx:76-100 | every setting present; a missing or `null` server field takes the default, any other value is taken as it is |
| SettingsContext.ToServer | frontend/src/contexts/SettingsContext.tsx:102-126 | exactly the defined settings, each under its server name with its value |
| SettingsContext.ToServerOmitsUndefined | frontend/src/contexts/SettingsContext.tsx:102-126 | a setting that is not defined is not sent |
| SettingsContext.ClientRoundTripAt | frontend/src/contexts/SettingsContext.tsx:76-126 | a non-null setting survives the trip to the server form and back |
| SettingsContext.ToClientAt | frontend/src/contexts/SettingsContext.tsx:76-100 | a non-null server field is taken as it is |
| SettingsContext.ClientRoundTrip | frontend/src/contexts/SettingsContext.tsx:76-126 | a complete state without `null` values comes back from its server form unchanged |
| SettingsContext.NullComesBackAsDefault | frontend/src/contexts/SettingsContext.tsx:76-126 | a `null` setting does not survive the round trip: it comes back as the default |
| SettingsContext.ServerRoundTrip | frontend/src/contexts/SettingsContext.tsx:76-126 | every non-null server field that names a setting is sent back as it came |
| SettingsContext.Reloaded | frontend/src/contexts/SettingsContext.tsx:128-138 | always complete; the defaults when the request failed or returned falsy data, else `toClient` of the data |
| SettingsContext.ToClientOfEmpty | frontend/src/contexts/SettingsContext.tsx:76-100 | the client form of an empty server object is the defaults |
| SettingsContext.SettingsProvider.constructor | frontend/src/contexts/SettingsContext.tsx:73-74 | no settings yet, loading, nothing sent |
| SettingsContext.SettingsProvider.Reload | frontend/src/contexts/SettingsContext.tsx:128-138 | installs the reloaded settings and ends loading |
| SettingsContext.SettingsProvider.Update | frontend/src/contexts/SettingsContext.tsx:140-150 | nothing without settings; otherwise exactly one PUT of the merged state, which stays installed when the PUT succeeds and is replaced by a reload when it fails |
| SettingsContext.MergeKeepsComplete | frontend/src/contexts/SettingsContext.tsx:142 | the merge keeps every setting, taking the partial's values where it has them |
| SettingsContext.UpdateSendsEverySetting | frontend/src/contexts/SettingsContext.tsx:142-145 | an update's PUT carries every setting, not only the changed ones |
| NotificationService.EnsurePermission | frontend/src/services/notifications.ts:6-14 | the browser is asked exactly when it supports notifications and has not decided yet, and its answer is then the result; unsupported means denied; a decided permission is returned as it is |
| NotificationService.PermissionSettles | frontend/src/services/notifications.ts:6-14 | once the browser has answered, asking again does not prompt and gives the same answer |
| NotificationService.IncomingEffects | frontend/src/services/notifications.ts:49-68 | nothing without settings or for a type whose setting is off; otherwise a push exactly when push is on and a sound exactly when sound is on |
| NotificationService.DefaultsNotifyEverything | frontend/src/services/notifications.ts:49-68 | with the default settings every message both pushes and sounds |
| NotificationService.EffectsIndependent | frontend/src/services/notifications.ts:59-67 | the sound setting never affects the push, nor the push setting the sound |
| NotificationService.Sound.constructor | frontend/src/services/notifications.ts:26 | no audio element yet, nothing played |
| NotificationService.Sound.Play | frontend/src/services/notifications.ts:27-36 | one more play, and never more than one audio element |
| NotificationService.HandleIncomingMessage | frontend/src/services/notifications.ts:16-23 | a browser notification with the message's title, body and link exactly when a push is due and permission is granted; a sound exactly when one is due |
| AppSettings.KeysPartition | frontend/src/components/settings/AppSettings.tsx:34-44 | every setting is either visible or one of the four hidden ones, never both |
| AppSettings.InitialVisible | frontend/src/components/settings/AppSettings.tsx:111-145 | the initial page holds exactly the visible settings |
| AppSettings.InitialVisibleAt | frontend/src/components/settings/AppSettings.tsx:111-145 | each visible setting starts at its default, the language at the interface language |
| AppSettings.InitialHidden | frontend/src/components/settings/AppSettings.tsx:147-158 | the initial hidden fields are exactly the four hidden settings |
| AppSettings.InitialHiddenAt | frontend/src/components/settings/AppSettings.tsx:147-158 | each hidden field starts at its default |
| AppSettings.LoadedVisible | frontend/src/components/settings/AppSettings.tsx:184-209 | a load yields exactly the visible settings |
| AppSettings.LoadedVisibleAt | frontend/src/components/settings/AppSettings.tsx:184-209 | a setting read with `or` keeps a truthy stored value, one read with `??` keeps any non-null value; otherwise the default, or the interface language for the language |
| AppSettings.LoadValue | frontend/src/components/settings/AppSettings.tsx:184-209 | one visible setting after a load: the stored value when truthy (for `or`) or not null (for `??`), else the default, or the interface language for the language |
| AppSettings.LoadedHidden | frontend/src/components/settings/AppSettings.tsx:213-218 | a load remembers exactly the hidden fields |
| AppSettings.LoadedHiddenAt | frontend/src/components/settings/AppSettings.tsx:213-218 | each hidden field keeps a non-null stored value, else its default |
| AppSettings.LoadKeepsFalse | frontend/src/components/settings/AppSettings.tsx:189-207 | a stored `false` survives a load |
| AppSettings.SessionTimeoutZeroLoadsAsDefault | frontend/src/components/settings/AppSettings.tsx:205 | a stored session timeout of 0 loads as 30 on this page, while the settings context keeps 0 |
| AppSettings.EmptyLanguageLoadsAsInterface | frontend/src/components/settings/AppSettings.tsx:185 | a stored empty language loads as the interface language |
| AppSettings.SavePayload | frontend/src/components/settings/AppSettings.tsx:243-271 | every hidden field under its server name with its value, every other visible setting likewise, and nothing else |
| AppSettings.SavePayloadComplete | frontend/src/components/settings/AppSettings.tsx:243-271 | every save carries all twenty-three fields |
| AppSettings.HiddenFieldsSentBack | frontend/src/components/settings/AppSettings.tsx:213-270 | a hidden field read on load goes back unchanged in every save |
| AppSettings.SavePayloadDistinguishes | frontend/src/components/settings/AppSettings.tsx:243-271 | visible settings that differ in one setting give different save bodies |
| AppSettings.SaveError | frontend/src/components/settings/AppSettings.tsx:277-284 | the invalid-settings error exactly for 400, the forbidden error exactly for 403, never the load error |
| AppSettings.SettingsPage.constructor | frontend/src/components/settings/AppSettings.tsx:100-158 | the initial visible and hidden settings, loading, not saving, no error, nothing sent |
| AppSettings.SettingsPage.ApplyLoaded | frontend/src/components/settings/AppSettings.tsx:180-223 | installs the loaded visible and hidden settings and switches to a new truthy language |
| AppSettings.SettingsPage.NextLanguage | frontend/src/components/settings/AppSettings.tsx:220-223 | the interface language changes exactly when the loaded language is truthy and differs, and then becomes it |
| AppSettings.SettingsPage.LoadSettings | frontend/src/components/settings/AppSettings.tsx:174-233 | a response is applied with no error; a 404 keeps everything without an error; any other failure keeps everything and shows the load error; loading ends |
| AppSettings.SettingsPage.Put | frontend/src/components/settings/AppSettings.tsx:235-288 | exactly one PUT of the save body; success marks it saved, a rejection shows the error for its status; the settings are unchanged |
| AppSettings.SettingsPage.SaveSettings | frontend/src/components/settings/AppSettings.tsx:165-172 | the autosave sends the current visible settings with the hidden fields |
| AppSettings.SettingsPage.SuccessTimerFires | frontend/src/components/settings/AppSettings.tsx:276 | the success mark is cleared and nothing else changes |
| AppSettings.UpdateStaysVisible | frontend/src/components/settings/AppSettings.tsx:290-296 | changing one visible setting keeps exactly the visible settings, no hidden one added |
| AppSettings.SettingsPage.UpdateSetting | frontend/src/components/settings/AppSettings.tsx:290-296 | exactly one visible setting changes, the error is cleared, and a language change switches the interface |
| AppSettings.SettingsPage.HandleResetAsWritten | frontend/src/components/settings/AppSettings.tsx:298-330 | as written, the page shows the defaults but the save sends the settings from before the reset |
| AppSettings.SettingsPage.HandleReset | frontend/src/components/settings/AppSettings.tsx:298-330 | as intended, only the visible settings change and the save sends the defaults with the untouched hidden fields |
| AppSettings.ResetIsDefaults | frontend/src/components/settings/AppSettings.tsx:300-326 | the reset values are the settings context's defaults on the visible settings |
| AppSettings.ResetSendsStaleSettings | frontend/src/components/settings/AppSettings.tsx:328-330 | after a reset from non-default settings, the save as written differs from the save of the defaults shown |
| AppSettings.LightThemeResetSavedAsLight | frontend/src/components/settings/AppSettings.tsx:328-330 | the reset's own save sends a light theme as light, while the defaults shown have the dark theme; the autosave a second later then sends dark (`ResetThenAutosave`) |
| AppSettings.ResetThenAutosave | frontend/src/components/settings/AppSettings.tsx:165-172 | after the reset as written, the debounced autosave sends the defaults: the stale body goes first and the defaults are the last body sent |
| Locations.NameIn | frontend/src/data/locations.ts:676 | the name in the language when it is non-empty, else the English name |
| Locations.Find | frontend/src/data/locations.ts:686 | the entry under the key, or nothing exactly when no entry has it |
| Locations.CountryChoices | frontend/src/data/locations.ts:674-680 | one choice per country in table order, valued by its key and labelled with flag and name |
| Locations.NameChoices | frontend/src/data/locations.ts:689-695 | one choice per table entry in table order, labelled in the language or English |
| Locations.SortedByLabel | frontend/src/data/locations.ts:681 | a permutation of the choices, ordered by the collation key of their labels |
| Locations.CountryOptions | frontend/src/data/locations.ts:673-682 | every country once, labelled, ordered by label |
| Locations.CountryOptionsOnePerCountry | frontend/src/data/locations.ts:673-682 | each option is a country of the table under its label, and each country has its option |
| Locations.CitiesForCountry | frontend/src/data/locations.ts:685-697 | nothing for an unknown country or one without cities; otherwise its cities, labelled, ordered by label |
| Locations.Matching | frontend/src/data/locations.ts:703-706 | exactly the choices whose lower-cased label contains the lower-cased query |
| Locations.SearchCountries | frontend/src/data/locations.ts:700-707 | every option for an empty query, else exactly the options whose label contains the query regardless of case |
| Locations.SearchCities | frontend/src/data/locations.ts:710-718 | the same search over one country's cities |
| Locations.SearchIgnoresQueryCase | frontend/src/data/locations.ts:703-706 | the case of the query does not matter |
| Locations.TranslatedInterests | frontend/src/data/locations.ts:721-730 | one choice per interest, in table order, unsorted |
| Locations.TranslatedInterest | frontend/src/data/locations.ts:733-737 | the key itself for an unknown interest, else its name in the language or English |
| Locations.InterestLookupMatchesList | frontend/src/data/locations.ts:721-737 | the single lookup agrees with the list's label |
| Locations.MissingLanguageFallsBack | frontend/src/data/locations.ts:676 | a language without a name shows the English name |
| ChatHierarchy.CacheKey | frontend/src/components/chat/ChatHierarchy.tsx:59 | `root` exactly for a missing or empty parent, else `p:` and the parent id |
| ChatHierarchy.CacheKeyInjective | frontend/src/components/chat/ChatHierarchy.tsx:59 | distinct parents have distinct cache entries |
| ChatHierarchy.DeriveFolderType | frontend/src/components/chat/ChatHierarchy.tsx:61-62 | countries at depth 0 or less, regions at depth 1, cities below |
| ChatHierarchy.WordEnd | frontend/src/components/chat/ChatHierarchy.tsx:43 | the first word runs up to the first whitespace: nothing before the end found is whitespace, and the end is whitespace or the end of the text |
| ChatHierarchy.SpacesEnd | frontend/src/components/chat/ChatHierarchy.tsx:43 | a run of whitespace ends at the first non-space: all before it is whitespace, and the end is a non-space or the end of the text |
| ChatHierarchy.Initials | frontend/src/components/chat/ChatHierarchy.tsx:40-46 | at most two letters, none exactly for a blank name; the first is the upper-cased first letter of the trimmed name; there is a second exactly when the trimmed name holds whitespace, and it is the upper-cased first letter of the second word |
| ChatHierarchy.OneWordOneInitial | frontend/src/components/chat/ChatHierarchy.tsx:40-46 | a one-word name has exactly one initial |
| ChatHierarchy.FindByName | frontend/src/components/chat/ChatHierarchy.tsx:229 | the first item with the name (no earlier item has it), or nothing exactly when none has it |
| ChatHierarchy.NameOfType | frontend/src/components/chat/ChatHierarchy.tsx:245-247 | the name of the first path item of the type (no earlier item has it), or nothing exactly when the path has none |
| ChatHierarchy.ChoiceFor | frontend/src/components/chat/ChatHierarchy.tsx:244-256 | the chat's id and name as interest, the country, region and city along the path (empty texts for a missing country or city), and its participant count or 0 |
| ChatHierarchy.FolderItems | frontend/src/components/chat/ChatHierarchy.tsx:67-83 | one item per folder, in order, typed by the depth |
| ChatHierarchy.ChatItems | frontend/src/components/chat/ChatHierarchy.tsx:136-154 | one chat item per chat, in order, with its participant count |
| ChatHierarchy.LevelItems | frontend/src/components/chat/ChatHierarchy.tsx:200-209 | the folders first, then the chats on a city level; a level without chats holds only folders |
| ChatHierarchy.Navigator.constructor | frontend/src/components/chat/ChatHierarchy.tsx:52-58 | an empty path, level and cache, and nothing requested |
| ChatHierarchy.Navigator.LoadLevel | frontend/src/components/chat/ChatHierarchy.tsx:189-222 | a cached level is served without a request; otherwise the fetched level is requested, cached and shown, a failed fetch being an empty level |
| ChatHierarchy.Navigator.Start | frontend/src/components/chat/ChatHierarchy.tsx:224-241 | with a selected country found at the top, the top level and then the country's level are requested, the path starts at that country and its level is shown; otherwise one top-level request (or, with no selected country and a cached top, none) and the top level is shown |
| ChatHierarchy.Navigator.ItemClick | frontend/src/components/chat/ChatHierarchy.tsx:243-261 | a chat is selected with the place the path describes and nothing else changes; a folder is pushed on the path and its level shown, from the cache without a request, or else from exactly one request whose answer is cached |
| ChatHierarchy.Navigator.BackClick | frontend/src/components/chat/ChatHierarchy.tsx:263-271 | at the top, or at the selected country, the browser is left; otherwise the last crumb is dropped and the level above shown, from the cache without a request, or else from exactly one request for it |
| ChatHierarchy.Navigator.CrumbClick | frontend/src/components/chat/ChatHierarchy.tsx:273-279 | the last crumb does nothing; an earlier one cuts the path after it and shows its level, from the cache without a request, or else from exactly one request for it |
| ChatHierarchy.ClickThenBack | frontend/src/components/chat/ChatHierarchy.tsx:243-271 | a folder click followed by back restores the path and the level, from the cache |
| ChatHierarchy.FailedLevelStaysEmpty | frontend/src/components/chat/ChatHierarchy.tsx:189-211 | a level whose fetch failed is cached empty, and a later cached load shows it empty without a second request |
| ProfileFields.DigitsOf | frontend/src/components/profile/UserProfile.tsx:204 | only digits, no longer than the input, and an all-digit input unchanged |
| ProfileFields.DigitsOfAppend | frontend/src/components/profile/UserProfile.tsx:204 | the digits of a concatenation are the concatenated digits |
| ProfileFields.GroupKeepsDigits | frontend/src/components/profile/UserProfile.tsx:205-211 | the grouping keeps the first eight digits in order, adds only dots, and is at most ten characters |
| ProfileFields.FormatBirthDate | frontend/src/components/profile/UserProfile.tsx:203-212 | at most ten characters whose digits are the first eight digits of the input |
| ProfileFields.FormatBirthDateShape | frontend/src/components/profile/UserProfile.tsx:205-211 | up to two digits as they are, up to four as `DD.M…`, more as `DD.MM.YYYY` with at most four year digits |
| ProfileFields.FormatIdempotent | frontend/src/components/profile/UserProfile.tsx:203-217 | formatting a formatted text changes nothing |
| ProfileFields.FormatGivesDate | frontend/src/components/profile/UserProfile.tsx:203-212 | eight digits or more always give a `DD.MM.YYYY` date |
| ProfileFields.DateIsFixpoint | frontend/src/components/profile/UserProfile.tsx:203-212 | a complete `DD.MM.YYYY` date is left as it is |
| ProfileFields.SplitOn | frontend/src/components/profile/UserProfile.tsx:165 | at least one piece, none containing the separator, and the whole text when it has no separator |
| ProfileFields.SplitAt | frontend/src/components/profile/UserProfile.tsx:165 | splitting at a first separator gives the text before it and the split of the rest |
| ProfileFields.Piece | frontend/src/components/profile/UserProfile.tsx:165-166 | a missing piece of the destructured split shows as `undefined` |
| ProfileFields.IsoFromDate | frontend/src/components/profile/UserProfile.tsx:165-166 | a `DD.MM.YYYY` date becomes `YYYY-MM-DD` |
| ProfileFields.DateConvertsToIso | frontend/src/components/profile/UserProfile.tsx:165-166 | a date of the form's shape always converts to the server's shape, the year, month and day each moved to its place |
| ProfileFields.IsoFromUndotted | frontend/src/components/profile/UserProfile.tsx:165-166 | text without a dot becomes the day, with `undefined` for the year and the month |
| ProfileFields.Toggle | frontend/src/components/profile/UserProfile.tsx:227-233 | a present entry is removed everywhere, an absent one is appended |
| Sorting.Without | frontend/src/components/profile/UserProfile.tsx:235-238 | every occurrence of the entry goes and everything else stays; removing an absent entry changes nothing (also the deletion of one friendship row, backend/chat/services.py:101-103) |
| Sorting.WithoutAppend | frontend/src/components/profile/UserProfile.tsx:236 | removal keeps the order of what stays |
| ProfileFields.ToggleTwiceAbsent | frontend/src/components/profile/UserProfile.tsx:227-233 | toggling an absent entry twice restores the list |
| ProfileFields.ToggleTwicePresent | frontend/src/components/profile/UserProfile.tsx:227-233 | toggling a present entry twice moves it, once, to the end |
| Sorting.WithoutIsFilter | frontend/src/components/profile/UserProfile.tsx:236 | the removal is the stock order-keeping filter |
| Sorting.WithoutKeepsDistinct | frontend/src/components/profile/UserProfile.tsx:236 | removal keeps a list free of duplicates (and the friendship pairs unique, backend/chat/models.py:306-307) |
| ProfileFields.ToggleKeepsDistinct | frontend/src/components/profile/UserProfile.tsx:227-233 | toggling keeps a list free of duplicates |
| UserProfile.LanguageLabel | frontend/src/components/profile/UserProfile.tsx:244-246 | the label of a known code, else the code itself; never a label of another code |
| UserProfile.LanguageLabelExamples | frontend/src/components/profile/UserProfile.tsx:45-61 | `ru` is labelled in Russian |
| UserProfile.FirstChars | frontend/src/components/profile/UserProfile.tsx:241 | at most one character per piece; when no piece is empty, exactly the first character of each piece, in order |
| UserProfile.SplitJoinWords | frontend/src/components/profile/UserProfile.tsx:241 | splitting words joined by single spaces on the space gives the words back |
| UserProfile.ProfileInitials | frontend/src/components/profile/UserProfile.tsx:240-242 | at most one initial per space-separated piece; a one-word name gives its upper-cased first letter |
| UserProfile.TwoWordInitials | frontend/src/components/profile/UserProfile.tsx:240-242 | a first and a last name give their two upper-cased first letters |
| UserProfile.WordInitials | frontend/src/components/profile/UserProfile.tsx:240-242 | any number of non-empty words joined by single spaces give exactly one upper-cased first letter per word, in order |
| UserProfile.ShownBirthDateAsWritten | frontend/src/components/profile/UserProfile.tsx:116-119 | as written, the server's `YYYY-MM-DD` is shown as `DD/MM/YYYY` |
| UserProfile.ShownBirthDate | frontend/src/components/profile/UserProfile.tsx:116-119 | as the comment there intends, the server's date is shown as `DD.MM.YYYY` with the same day, month and year |
| UserProfile.ShownBirthDateRoundTrip | frontend/src/components/profile/UserProfile.tsx:116-166 | the intended shown date converts back to the server's date |
| UserProfile.ShownBirthDateIsFormatted | frontend/src/components/profile/UserProfile.tsx:116-212 | the shown date is already in the input formatter's shape |
| UserProfile.ShownAsWrittenHasNoDot | frontend/src/components/profile/UserProfile.tsx:118 | the date shown as written contains no dot |
| UserProfile.ShownAsWrittenSavesUndefined | frontend/src/components/profile/UserProfile.tsx:116-166 | as written, saving an unedited date sends `undefined-undefined-DD/MM/YYYY`, never the server's date |
| UserProfile.NoBirthDateSavesUndefined | frontend/src/components/profile/UserProfile.tsx:117-166 | a profile without a birth date saves `undefined-undefined-` |
| UserProfile.PartNumber | frontend/src/components/profile/UserProfile.tsx:250 | `Number` of the piece, `NaN` for a missing piece |
| UserProfile.FullYear | frontend/src/components/profile/UserProfile.tsx:251 | `new Date` reads years 0 to 99 as 1900 to 1999, any other year as it is |
| UserProfile.CalculateAge | frontend/src/components/profile/UserProfile.tsx:248-261 | blank for no date, `NaN` for a non-numeric part, otherwise the number of birthdays reached by today |
| UserProfile.ReachedEarlier | frontend/src/components/profile/UserProfile.tsx:253-258 | once a birthday is reached, so are all earlier ones |
| UserProfile.NoBirthdayYetOnBirthDay | frontend/src/components/profile/UserProfile.tsx:253-258 | on the day of birth the age is zero |
| UserProfile.ShownAsWrittenAgeIsNaN | frontend/src/components/profile/UserProfile.tsx:118-250 | as written, the age beside a loaded date is `NaN` |
| UserProfile.OrEmpty | frontend/src/components/profile/UserProfile.tsx:122-130 | an absent text is the empty text |
| UserProfile.OrNull | frontend/src/components/profile/UserProfile.tsx:135 | an image exactly for a non-empty text |
| UserProfile.FromServer | frontend/src/components/profile/UserProfile.tsx:113-131 | the profile from the server record: nickname, country, city, email and phone are the server's text or `''`, the birth date is the shown date in the editable form, the lists default to empty and the avatar is the image |
| UserProfile.UpdateFrom | frontend/src/components/profile/UserProfile.tsx:165-176 | the PUT body carries the edited nickname, country and city, the birth date converted by splitting on `.` (`YYYY-MM-DD` for a `DD.MM.YYYY` date), the edited lists and the current image |
| UserProfile.UnEditedSaveKeepsBirthDate | frontend/src/components/profile/UserProfile.tsx:113-176 | with the intended display, saving a freshly loaded profile sends the server's birth date back |
| UserProfile.SaveErrorOf | frontend/src/components/profile/UserProfile.tsx:185-190 | the server's non-empty message, else the generic save error |
| UserProfile.ProfilePage.constructor | frontend/src/components/profile/UserProfile.tsx:84-101 | an empty profile, not editing, loading, nothing sent |
| UserProfile.ProfilePage.Load | frontend/src/components/profile/UserProfile.tsx:108-144 | a loaded record becomes both the profile and the edited copy; a failure shows the load error and changes nothing else |
| UserProfile.ProfilePage.EditClick | frontend/src/components/profile/UserProfile.tsx:302 | editing starts |
| UserProfile.ProfilePage.ImageRead | frontend/src/components/profile/UserProfile.tsx:146-157 | the read image becomes the current image and the edited copy's image |
| UserProfile.ProfilePage.BirthDateChange | frontend/src/components/profile/UserProfile.tsx:214-217 | only the edited birth date changes, to the formatted input |
| UserProfile.ProfilePage.CountryChange | frontend/src/components/profile/UserProfile.tsx:219-221 | a new country clears the city |
| UserProfile.ProfilePage.CityChange | frontend/src/components/profile/UserProfile.tsx:223-225 | only the city changes |
| UserProfile.ProfilePage.ToggleLanguage | frontend/src/components/profile/UserProfile.tsx:227-233 | only the edited languages change, by the toggle |
| UserProfile.ProfilePage.RemoveInterest | frontend/src/components/profile/UserProfile.tsx:235-238 | only the edited interests change, losing the interest |
| UserProfile.ProfilePage.Save | frontend/src/components/profile/UserProfile.tsx:159-194 | exactly one PUT of the update; on success the edited copy becomes the profile and editing ends; on failure the error is shown and the profile kept |
| UserProfile.ProfilePage.Cancel | frontend/src/components/profile/UserProfile.tsx:196-201 | the edits revert to the profile, the image to the profile's image or none when that is empty, editing ends and the error clears |
| UserProfile.LoadThenSave | frontend/src/components/profile/UserProfile.tsx:108-194 | loading and saving without edits sends the server's birth date back |
| ProfileSetup.SuggestedInterests | frontend/src/components/profile/ProfileSetupForm.tsx:412 | at most twelve suggestions, each a not yet chosen interest; when no more than twelve are left, all of them |
| ProfileSetup.ChosenSuggestionLeaves | frontend/src/components/profile/ProfileSetupForm.tsx:139-145 | choosing a suggested interest removes it from the suggestions |
| ProfileSetup.Appended | frontend/src/components/profile/ProfileSetupForm.tsx:185-187 | `FormData.append` of a missing value sends the text `undefined` |
| ProfileSetup.IdentifierField | frontend/src/components/profile/ProfileSetupForm.tsx:184 | the identifier goes under `phone` exactly for a phone sign-up, else under `email` |
| ProfileSetup.ValueOf | frontend/src/components/profile/ProfileSetupForm.tsx:170-187 | the first value sent under a field name, none exactly when no field has that name |
| ProfileSetup.ValueOfAppend | frontend/src/components/profile/ProfileSetupForm.tsx:170-187 | a field is looked up in the first part of the body before the second |
| ProfileSetup.BaseFieldsOmit | frontend/src/components/profile/ProfileSetupForm.tsx:171-178 | the fixed part of the body carries no picture and no identifier |
| ProfileSetup.CredentialsLookup | frontend/src/components/profile/ProfileSetupForm.tsx:184-187 | the credentials carry the identifier under its own field and nothing under the other |
| ProfileSetup.RegistrationFieldsAsWritten | frontend/src/components/profile/ProfileSetupForm.tsx:180-182 | as written, the body never has an `avatar` field |
| ProfileSetup.RegistrationFields | frontend/src/components/profile/ProfileSetupForm.tsx:167-187 | the intended body has the chosen picture as `avatar` exactly when one was chosen |
| ProfileSetup.ChosenPictureDroppedAsWritten | frontend/src/components/profile/ProfileSetupForm.tsx:98-182 | as written, a picture chosen in the form never reaches the server; the corrected body carries it |
| ProfileSetup.RegistrationSendsIsoDate | frontend/src/components/profile/ProfileSetupForm.tsx:32-171 | a form that passes the schema sends its birth date as `YYYY-MM-DD` with its own day, month and year |
| ProfileSetup.RegistrationIdentifier | frontend/src/components/profile/ProfileSetupForm.tsx:184-185 | the identifier is sent under `phone` or `email`, never both |
| ProfileSetup.SetupForm.constructor | frontend/src/components/profile/ProfileSetupForm.tsx:76-94 | an empty form with nothing chosen, sent or signed in |
| ProfileSetup.SetupForm.NicknameInput | frontend/src/components/profile/ProfileSetupForm.tsx:86-94 | only the nickname changes |
| ProfileSetup.SetupForm.BirthDateInput | frontend/src/components/profile/ProfileSetupForm.tsx:115-117 | the birth date field shows the formatted input |
| ProfileSetup.SetupForm.ImageChosen | frontend/src/components/profile/ProfileSetupForm.tsx:98-106 | the chosen file becomes the picture |
| ProfileSetup.SetupForm.CountryChange | frontend/src/components/profile/ProfileSetupForm.tsx:119-124 | a new country clears the city, in the form and in the selection |
| ProfileSetup.SetupForm.CityChange | frontend/src/components/profile/ProfileSetupForm.tsx:126-129 | the city changes in the form and in the selection |
| ProfileSetup.SetupForm.ToggleLanguage | frontend/src/components/profile/ProfileSetupForm.tsx:131-137 | the chosen languages are toggled, kept free of repeats and mirrored in the form |
| ProfileSetup.SetupForm.ToggleInterest | frontend/src/components/profile/ProfileSetupForm.tsx:139-145 | the chosen interests are toggled, kept free of repeats and mirrored in the form |
| ProfileSetup.SetupForm.CustomInterestInput | frontend/src/components/profile/ProfileSetupForm.tsx:80-80 | the typed interest is kept |
| ProfileSetup.SetupForm.AddCustomInterest | frontend/src/components/profile/ProfileSetupForm.tsx:147-154 | a new non-blank interest is added trimmed and the input cleared; otherwise nothing changes |
| ProfileSetup.SetupForm.RemoveInterest | frontend/src/components/profile/ProfileSetupForm.tsx:156-160 | the interest leaves the chosen interests and the form |
| ProfileSetup.SetupForm.Submit | frontend/src/components/profile/ProfileSetupForm.tsx:162-217 | an invalid form sends nothing; a valid one posts the body once, keeps the tokens once signed in, opens the dashboard only when every step succeeds and shows the generic error otherwise |
| ProfileSetup.ToggleLanguageTwice | frontend/src/components/profile/ProfileSetupForm.tsx:131-137 | choosing an unchosen language twice leaves the form as it was; a chosen one moves to the end |
| ChatMessages.TextOr | frontend/src/components/chat/ChatInterface.tsx:246-257 | a truthy value as text, else the fallback |
| ChatMessages.SourceValue | frontend/src/components/chat/ChatInterface.tsx:172 | a field, or the `id` of the field when it holds an object |
| ChatMessages.FirstPresent | frontend/src/components/chat/ChatInterface.tsx:169-175 | the first source that is neither `null` nor missing, none exactly when every source is nullish |
| ChatMessages.FirstPresentAppend | frontend/src/components/chat/ChatInterface.tsx:169-175 | `??` tries the sources in order |
| ChatMessages.PickAuthorId | frontend/src/components/chat/ChatInterface.tsx:169-183 | the author id is the first present source as text, none exactly when no source is present |
| ChatMessages.MetaMime | frontend/src/components/chat/ChatInterface.tsx:246 | a MIME type only when the record has a `meta` with a truthy `mime` |
| ChatMessages.TruthyText | frontend/src/components/chat/ChatInterface.tsx:257 | the JavaScript or-null idiom: some text exactly for a truthy value |
| ChatMessages.FirstTruthy | frontend/src/components/chat/ChatInterface.tsx:801-806 | the first truthy value among the keys, none exactly when none is truthy |
| ChatMessages.TempEcho | frontend/src/components/chat/ChatInterface.tsx:801-806 | the echoed temporary id, `tempId` first, none exactly when no echo key is truthy |
| ChatMessages.RemoveId | frontend/src/components/chat/ChatInterface.tsx:868-872 | no message with the id remains, the list never grows, and nothing changes when none has the id |
| ChatMessages.RemoveIdMembers | frontend/src/components/chat/ChatInterface.tsx:868-872 | exactly the messages with another id remain |
| ChatMessages.RemoveIdAppend | frontend/src/components/chat/ChatInterface.tsx:940-943 | removing the id of an appended message removes it from the rest of the list |
| ChatMessages.MimeKind | frontend/src/components/chat/ChatInterface.tsx:215-220 | a non-empty MIME type names audio, video or image, audio first |
| ChatMessages.FindId | frontend/src/components/chat/ChatInterface.tsx:811 | the first index holding the id, none exactly when no message has it |
| ChatMessages.FindFirst | frontend/src/components/chat/ChatInterface.tsx:829-834 | the first index meeting the test, none exactly when no message meets it |
| ChatMessages.FindNear | frontend/src/components/chat/ChatInterface.tsx:826-834 | the first unconfirmed own message with the same trimmed text less than ten seconds away |
| ChatMessages.MergeCaseOf | frontend/src/components/chat/ChatInterface.tsx:808-846 | the echo of a listed temporary id replaces it; else a listed server id changes nothing; else an own text near a recent unconfirmed one replaces it; else the message is appended |
| ChatMessages.MergeShape | frontend/src/components/chat/ChatInterface.tsx:808-846 | a replacement keeps the length and every other message in place; an append adds exactly the message at the end |
| ChatMessages.Merge | frontend/src/components/chat/ChatInterface.tsx:808-846 | the list grows by at most one, and exactly when the message is appended, at the end; every other position keeps its message or takes the new one |
| ChatMessages.MergeListsId | frontend/src/components/chat/ChatInterface.tsx:808-846 | after the merge the server id is listed and only the replaced message is lost |
| ChatMessages.MergeIdempotent | frontend/src/components/chat/ChatInterface.tsx:808-846 | a second arrival of a listed server message changes nothing |
| ChatMessages.MessageFeed.constructor | frontend/src/components/chat/ChatInterface.tsx:624 | no messages and no ids seen |
| ChatMessages.MessageFeed.Clear | frontend/src/components/chat/ChatInterface.tsx:678-691 | changing conversation empties the list and the ids seen |
| ChatMessages.MessageFeed.Receive | frontend/src/components/chat/ChatInterface.tsx:796-846 | an id already seen is dropped; otherwise the message is merged and its id remembered |
| ChatMessages.ReceiveTwice | frontend/src/components/chat/ChatInterface.tsx:796-846 | the same server message received twice is merged once and its id is remembered |
| ChatInterface.AuthorIdPrecedence | frontend/src/components/chat/ChatInterface.tsx:169-183 | `author_id` wins when present, and there is no author id exactly when all four places are empty |
| ChatInterface.ChooseNickname | frontend/src/components/chat/ChatInterface.tsx:185-202 | the trimmed username, else the trimmed display name, whichever is non-empty and looks like neither an e-mail nor a phone number; else `User` |
| ChatInterface.WebmIsNoImage | frontend/src/components/chat/ChatInterface.tsx:224-225 | a `.webm` source has none of the image extensions |
| ChatInterface.GuessAttachmentKind | frontend/src/components/chat/ChatInterface.tsx:205-235 | a MIME type wins, then the `image` type; then the address or name is tried for an image, then an audio, then a video extension; a file only with an address, no kind only without one |
| ChatInterface.WebmHasAudioExtension | frontend/src/components/chat/ChatInterface.tsx:227 | an address ending in `.webm` matches the audio pattern |
| ChatInterface.WebmIsAudio | frontend/src/components/chat/ChatInterface.tsx:205-235 | without a MIME type a `.webm` voice note is audio in the group chat |
| ChatInterface.MapApiToUi | frontend/src/components/chat/ChatInterface.tsx:237-267 | the author id is picked by precedence, the message is one's own exactly when that id is the current user's, the name is presentable and the kind is guessed from the record; the id and room are their text forms, the content or empty, the creation time or now, the attachment address when truthy, the type or empty, the name or empty |
| ChatInterface.OwnMessageIsOwn | frontend/src/components/chat/ChatInterface.tsx:237-245 | a record authored by the current user is shown as one's own |
| Json.JsString | frontend/src/components/chat/ChatInterface.tsx:179-179 | JavaScript `String()`: text as it is, `null`, `true`/`false`, `[object Object]` for an object, and an empty or one-text array as its content |
| Json.JsNumber | frontend/src/components/chat/ChatInterface.tsx:863-863 | JavaScript `Number()`: a number as it is, `null` and `[]` as 0, booleans as 1 and 0, text and a one-text array by their digits, and an object or a longer array as `NaN` |
| ChatInterface.Classify | frontend/src/components/chat/ChatInterface.tsx:781-873 | tested in the source's order: a message exactly for a message type or a message-shaped record, carrying `data ?? payload`; otherwise typing exactly for the type `typing`, with `Boolean(isTyping)`; otherwise presence exactly for a presence type, with `Number(count ?? 0)`; otherwise a deletion exactly for a deletion type with a non-empty `String(id ?? '')`, carrying that id; nothing for a falsy payload |
| ChatInterface.BroadcastIsReadAsMessage | frontend/src/components/chat/ChatInterface.tsx:781-794 | a message broadcast by the room consumer is read as a message carrying the event's data |
| ChatInterface.DeleteTypeNamesDelete | frontend/src/components/chat/ChatInterface.tsx:788-868 | the type `delete` is neither a message nor presence but a deletion |
| ChatInterface.ClassifyDeleteFrame | frontend/src/components/chat/ChatInterface.tsx:868-873 | a `delete` frame with a non-empty id is that deletion |
| ChatInterface.DeletionIsReadAsDelete | frontend/src/components/chat/ChatInterface.tsx:868-873 | with the corrected consumer, a deletion for everyone reaches the screen as a deletion of that id |
| ChatInterface.LastWithId | frontend/src/components/chat/ChatInterface.tsx:994-995 | the last message with the id, none exactly when no message has it |
| ChatInterface.EveryOwn | frontend/src/components/chat/ChatInterface.tsx:995 | every selected id names a message shown as one's own |
| ChatInterface.SelectedOwnOnly | frontend/src/components/chat/ChatInterface.tsx:992-996 | true exactly when something is selected and every selected message is one's own |
| ChatInterface.ToggleSelectTwice | frontend/src/components/chat/ChatInterface.tsx:989 | selecting an unselected message and selecting it again restores the selection |
| ChatInterface.Reowned | frontend/src/components/chat/ChatInterface.tsx:896-906 | same messages in the same order with `isOwn` recomputed for the new user |
| ChatInterface.ChatRoom.constructor | frontend/src/components/chat/ChatInterface.tsx:571-589 | an empty feed, no selection, no typing, nothing sent |
| ChatInterface.ChatRoom.OnFrame | frontend/src/components/chat/ChatInterface.tsx:781-877 | a message goes through the feed, typing and presence set their indicators, a deletion removes the id from the list and the selection, and nothing else changes |
| ChatInterface.ChatRoom.Apply | frontend/src/components/chat/ChatInterface.tsx:792-873 | the effect of one classified frame, as for `OnFrame` |
| ChatInterface.ChatRoom.EnterSelectionWith | frontend/src/components/chat/ChatInterface.tsx:988 | selection mode with exactly that message selected |
| ChatInterface.ChatRoom.ToggleSelect | frontend/src/components/chat/ChatInterface.tsx:989 | the id leaves the selection if selected, else joins it at the end |
| ChatInterface.ChatRoom.ClearSelection | frontend/src/components/chat/ChatInterface.tsx:990 | selection mode ends with nothing selected |
| ChatInterface.ChatRoom.CurrentUserChanged | frontend/src/components/chat/ChatInterface.tsx:896-906 | the list becomes `Reowned` for the new user |
| ChatInterface.ChatRoom.SendViaWs | frontend/src/components/chat/ChatInterface.tsx:914-921 | an open socket gets one frame carrying the text and the temporary id under both spellings; a closed one gets nothing, and the answer says which |
| ChatInterface.ChatRoom.PostViaHttp | frontend/src/components/chat/ChatInterface.tsx:923-928 | the text is posted to the room; the server's record is appended exactly when there is a reply |
| ChatInterface.ChatRoom.SendText | frontend/src/components/chat/ChatInterface.tsx:930-947 | a non-blank text clears the input, is shown under its temporary id, and either goes over the open socket or is removed again and posted, the server's record appended or the failure hint shown |
| ChatInterface.ChatRoom.HandleSend | frontend/src/components/chat/ChatInterface.tsx:914-947 | a blank input changes nothing; else the trimmed text is shown under its temporary id and sent over an open socket, or removed again and posted, the server's record appended or a hint shown |
| ChatInterface.FallbackRemovesOptimistic | frontend/src/components/chat/ChatInterface.tsx:930-943 | without a socket the optimistic message leaves and the earlier list remains |
| ChatInterface.FriendEndpoints | frontend/src/components/chat/ChatInterface.tsx:1094-1098 | three endpoints with four, four and three bodies |
| ChatInterface.IdJson | frontend/src/components/chat/ChatInterface.tsx:1093-1093 | `Number(userId)` as it is sent: the number when the text is numeric, `null` (how `NaN` is serialised) otherwise |
| ChatInterface.RunBodies | frontend/src/components/chat/ChatInterface.tsx:1101-1120 | an outcome reached at one endpoint is sent or already sent, never a failure, and a changed last error is a rejection |
| ChatInterface.RunBodiesOutcome | frontend/src/components/chat/ChatInterface.tsx:1101-1120 | an outcome is the verdict on one body's answer, and there is one whenever some answer calls for a stop; a new last error is one of the rejections |
| ChatInterface.RunEndpoints | frontend/src/components/chat/ChatInterface.tsx:1100-1126 | a failure reports the failure text of the starting error or of a rejection |
| ChatInterface.RunEndpointsOutcome | frontend/src/components/chat/ChatInterface.tsx:1100-1126 | the request is sent or already sent only on the verdict of one answer of one endpoint, and it is not sent when no answer calls for a stop |
| ChatInterface.FailureText | frontend/src/components/chat/ChatInterface.tsx:1123-1125 | the data of the last rejection as it is when it is text, as JSON otherwise, and `Неизвестная ошибка` without a rejection carrying truthy data |
| ChatInterface.StepOf | frontend/src/components/chat/ChatInterface.tsx:1104-1120 | 200 or 201 is sent, 409 or a duplicate-speaking 400 is already sent, a 5xx leaves the endpoint |
| ChatInterface.TryEndpoints | frontend/src/components/chat/ChatInterface.tsx:1100-1122 | the two loops compute the outcome `RunEndpoints` defines |
| ChatInterface.AddFriend | frontend/src/components/chat/ChatInterface.tsx:1090-1130 | nothing without a user id; otherwise the outcome of trying the endpoints in order |
| ChatInterface.SentNeedsAcceptance | frontend/src/components/chat/ChatInterface.tsx:1100-1109 | a request is reported sent only when some endpoint accepted some body with 200 or 201 |
| ChatInterface.NoStopMeansNotSent | frontend/src/components/chat/ChatInterface.tsx:1100-1126 | when no answer stops the attempts the request is reported not sent |
| ChatInterface.ServerErrorLeavesEndpoint | frontend/src/components/chat/ChatInterface.tsx:1119 | a server error on the first body leaves the endpoint without trying the others |
| ChatInterface.ConflictFirstIsAlreadySent | frontend/src/components/chat/ChatInterface.tsx:1113-1117 | a conflict on the first attempt reports the request as already sent |
| PersonalMessages.DmAuthorExtendsChat | frontend/src/components/messages/PersonalMessages.tsx:156-174 | the direct messages find the group chat's author where it finds one, and read the sender fields only where it finds none |
| PersonalMessages.KindSourcesAgree | frontend/src/components/messages/PersonalMessages.tsx:187 | the address, else the name, lower-cased, as in the group chat |
| PersonalMessages.GuessKindAsWritten | frontend/src/components/messages/PersonalMessages.tsx:176-192 | as written: a MIME type wins; then the address or name is tried for an image, then a video, then an audio extension (video before audio); a file only with an address, no kind only without one |
| PersonalMessages.GuessKind | frontend/src/components/messages/PersonalMessages.tsx:176-192 | the corrected order is the group chat's guess with no attachment type |
| PersonalMessages.VideoAndAudioIsWebm | frontend/src/components/messages/PersonalMessages.tsx:189-190 | `.webm` is the only extension in both the video and the audio list |
| PersonalMessages.KindsDifferOnlyOnWebm | frontend/src/components/messages/PersonalMessages.tsx:176-192 | the written and corrected orders disagree only on a `.webm` without a MIME type, video against audio |
| PersonalMessages.WebmVoiceNoteAsWritten | frontend/src/components/messages/PersonalMessages.tsx:176-192 | as written a recorded `.webm` voice note without a MIME type shows as a video; corrected it is audio |
| PersonalMessages.MapApiToUi | frontend/src/components/messages/PersonalMessages.tsx:194-215 | the author by the longer precedence, own exactly when that is the current user, the untrimmed `display_name`, else `username`, else `User`, no room and the corrected kind; the id as text, the content, the creation time or now, the attachment address and name when truthy |
| PersonalMessages.MessageFramesIncludeChats | frontend/src/components/messages/PersonalMessages.tsx:626-630 | a frame the group chat reads as a message, other than a `group.message`, is read as one here too |
| PersonalMessages.FindContact | frontend/src/components/messages/PersonalMessages.tsx:1172 | the first contact with the id, none exactly when no contact has it |
| PersonalMessages.WithPreview | frontend/src/components/messages/PersonalMessages.tsx:1175-1179 | the same contact with the new text unless it is empty, and the event's `created_at` when it is truthy, otherwise now |
| PersonalMessages.AfterNewMessage | frontend/src/components/messages/PersonalMessages.tsx:1166-1184 | for a listed, non-zero conversation its preview is updated and it moves to the top, the rest keeping their order; otherwise the list is unchanged |
| PersonalMessages.Ids | frontend/src/components/messages/PersonalMessages.tsx:1172 | the ids of the contacts in order |
| PersonalMessages.AfterNewMessageKeepsConversations | frontend/src/components/messages/PersonalMessages.tsx:1166-1184 | the handler only reorders: the same conversations as before |
| PersonalMessages.NewMessageAtTopKeepsOrder | frontend/src/components/messages/PersonalMessages.tsx:1166-1184 | a message in the conversation at the top keeps the order |
| PersonalMessages.OpenConversationMovesUp | frontend/src/components/messages/PersonalMessages.tsx:684-692 | a message arriving in a listed open conversation brings it to the top |
| PersonalMessages.NewMessageDetail | frontend/src/components/messages/PersonalMessages.tsx:687-692 | the event detail carries exactly `conversationId`, `text` and `created_at`, holding the conversation id, the message text and its time |
| PersonalMessages.FilterByName | frontend/src/components/messages/PersonalMessages.tsx:1273-1286 | exactly the contacts whose lower-cased name contains the lower-cased query, in order |
| PersonalMessages.EmptyQueryKeepsAll | frontend/src/components/messages/PersonalMessages.tsx:1273-1286 | an empty search keeps the whole list |
| PersonalMessages.QueryCaseIgnored | frontend/src/components/messages/PersonalMessages.tsx:1273-1286 | the case of the query does not matter |
| PersonalMessages.IncomingCount | frontend/src/components/messages/PersonalMessages.tsx:1235 | the pending requests addressed to the user; zero exactly when none is, all exactly when every one is |
| PersonalMessages.IncomingCountAppend | frontend/src/components/messages/PersonalMessages.tsx:1235 | counting in two parts adds the counts |
| PersonalMessages.MissingStatusIsPending | frontend/src/components/messages/PersonalMessages.tsx:1235 | a request with no status counts as pending |
| PersonalMessages.ExtractId | frontend/src/components/messages/PersonalMessages.tsx:1301-1307 | none for a falsy reply; otherwise the first item's first present id field as a number |
| PersonalMessages.ExtractIdFromResults | frontend/src/components/messages/PersonalMessages.tsx:1303-1305 | a paginated reply gives its first result's id |
| PersonalMessages.ExtractIdFallsBack | frontend/src/components/messages/PersonalMessages.tsx:1305 | an item without `id` is read through `conversation_id` |
| PersonalMessages.OwnName | frontend/src/components/messages/PersonalMessages.tsx:781-786 | the name under one's own optimistic message is never empty |
| PersonalMessages.DirectChat.constructor | frontend/src/components/messages/PersonalMessages.tsx:531-533 | an empty feed and nothing sent |
| PersonalMessages.DirectChat.OnFrame | frontend/src/components/messages/PersonalMessages.tsx:620-703 | a non-message frame changes nothing; a seen id is dropped; otherwise the message is merged and the conversation list told |
| PersonalMessages.DirectChat.SendViaWs | frontend/src/components/messages/PersonalMessages.tsx:739-749 | an open socket gets one frame carrying the text and the temporary id under both spellings; a closed one gets nothing, and the answer says which |
| PersonalMessages.DirectChat.PostViaHttp | frontend/src/components/messages/PersonalMessages.tsx:751-769 | the text is posted to the conversation; on a reply the server's record is appended and the conversation list told, else nothing else changes |
| PersonalMessages.DirectChat.SendText | frontend/src/components/messages/PersonalMessages.tsx:771-803 | a non-blank text clears the input, is shown under its temporary id, and either goes over the open socket or is removed again and posted, the server's record appended and the list told on a reply |
| PersonalMessages.DirectChat.HandleSend | frontend/src/components/messages/PersonalMessages.tsx:739-803 | a blank input changes nothing; else the trimmed text is shown under its temporary id and sent over an open socket, or removed and posted, the record appended and the list told |

## Left out

Contracts stated weaker than the source:
- UserProfile.CalculateAge: a day or month out of range makes `new Date` roll over into the next month or year. The model answers `OutOfRange` for such a date and does not compute the rolled-over age. Calendar arithmetic on invalid dates is not the point of the page.
- UserProfile.ShownBirthDateAsWritten: `toLocaleDateString` runs in the browser's time zone. West of UTC it can show the previous day. The model shows the server's own day, because time zones are outside the model.
- ProfileSetup.SetupForm.BirthDateInput: the form field's value is taken to be the formatted text. The order in which react-hook-form's own `onChange` and the formatter run is not modelled.
- ProfileSetup.SchemaValid: yup counts the nickname's length in UTF-16 code units. The model counts characters.
- UserProfile.ProfilePage.ImageRead: the page shows a preview and sends the image to the server. The model keeps the image as the data URL that was read. It leaves out the `<img>` preview and the `FileReader` callback's timing.
- Json.JsNumber, Json.TextNumber: `Number()` is modelled for integers written in decimal. Signs, fractions, exponents and hexadecimal become `NaN`, so values that would give a float are left out.
- Text.UpperChar, Text.LowerChar: case mapping covers ASCII and basic Cyrillic, one character to one. Unicode special cases, such as `ß` upper-casing to two letters, are left out.
- Text.Trim: JavaScript `\s` and `String.prototype.trim` are taken as ASCII whitespace, and so is Python's `str.strip()`. Other Unicode spaces, such as `\xa0` and `\x85`, which both languages also strip, are left out. This reaches every member that trims: in the backend ChatConsumer.Dispatch, ChatSerializers.ValidateMessage, the search filters and ChatViewRules.PyInt; in the frontend the chat screens and the forms.
- ChatViewRules.PyInt: Python `int()` also accepts underscores between digits (`7_0`) and non-ASCII decimal digits. The model reads ASCII digits only.
- ChatInterface.ChooseNickname: a truthy username that is not text, such as a number, would make `trim` throw. The model trims its text form instead.
- PersonalMessages.ExtractId: conversation ids are integers. `Number()` of a non-numeric id is `NaN`, which can never match a conversation, and the model gives no id for it.
- ChatConsumer.PyStr: Django stores a list or dict `displayName` as `str(value)`, its Python repr, such as `['x']`. The model's JSON objects keep no key order, so that text is not formed: such a frame is taken to raise, where the program stores the repr.
- Validation.Validator.MinLength, Validation.Validator.MaxLength, Validation.ValidateMessage, Validation.PasswordErrors, Validation.PasswordRules, Validation.ValidatePassword, Validation.ValidateNickname: JavaScript's `length` counts UTF-16 code units. The model counts characters, so a text with characters outside the Basic Multilingual Plane, such as emoji, is shorter in the model than in the browser.
- Locations.TranslatedInterest: a key that names a property every JavaScript object inherits, such as `constructor`, finds that property instead of being unknown, and the function then gives `undefined`. The model treats such keys as unknown.
- Sorting.SortBy: the order of rows with equal keys is not stated. SQL `ORDER BY` does not fix it either.
- ApiCache.APICache.Stats: the order of its key list is left out. Only its size is stated.
- NotificationViews.NotificationList: rows with the same `created_at` may come in any order, as SQL `ORDER BY` leaves them; the scan order of the table is a parameter.
- ChatViewRules.FriendRequestList, ChatViewRules.BlockList: rows with the same `created_at` may come in any order, as SQL `ORDER BY` leaves them; the scan order of the table is a parameter.
- ChatViews.ValidateInput: the posted fields arrive already typed. A `null` or non-text `display_name`, `attachment_name` or `content`, a non-text `reply_to`, and the date formats DRF's `DateTimeField` reads are not modelled: `expires_at` arrives as absent, `null`, a time, or unreadable text. Lengths are counted in characters, as Python's `len` counts them.
- ChatViews.ValidateInput, ChatViews.ChatApi.Hide, ChatModels.IsUuidText: a UUID is read as `uuid.UUID(hex=…)` reads it, except that `int(…, 16)` also accepts a sign, a `0x` prefix, underscores and surrounding whitespace, which the model refuses. A message id that passes is then compared as text, so a spelling other than the stored one (upper case, braces, no hyphens) finds no message in the model, where Django would find it.
- ChatSerializers.FileUrl: the URL is `MEDIA_URL` followed by the stored name. The percent-encoding `FileSystemStorage.url` applies and the scheme and host `build_absolute_uri` adds when there is a request are left out.
- ChatSerializers.MessageJson: the key order of the object and the ISO 8601 rendering of the times are left out; times are numbers.
- Users.CanCreateRoom: it is the evidently intended rule. As written, `from chat.models import ChatRoom` (backend/users/models.py:59) raises `ImportError` for every role, as `Users.CanCreateRoomAsWritten` and the "## Findings" row show. The number of rooms the user owns is a parameter, since no `ChatRoom` table exists.

Members built on a corrected definition from "## Findings", as the rest of the model is; the program as written does otherwise, as that table's as-written members show:
- ChatSerializers.MessageJson: `is_own` is the corrected `GetIsOwn`. As written, an anonymous reader of a message without an author sees `is_own` true.
- ChatConsumer.Dispatch: the sender name is the corrected `FrameDisplayName`. As written, a message frame from a signed-in sender without `displayName` raises, blank or not (`DispatchAsWritten`).
- ChatConsumer.BlankMessageIsDropped: as written, a blank frame from a signed-in sender without `displayName` raises instead of being dropped (`BlankMessageRaisesAsWritten`).
- ChatConsumer.TextMessageIsPersisted: as written, the same frame from a signed-in sender without `displayName` raises and nothing is stored.
- ChatConsumer.RoomConsumer.Receive: it performs the corrected `Dispatch` and broadcasts the corrected `chat_message` event, whose id is text. As written, signed-in senders without `displayName` raise, and the broadcast event holds the UUID object, on which every socket's handler raises.
- UserProfile.FromServer: the birth date is shown as `DD.MM.YYYY`. As written, `toLocaleDateString('en-GB')` shows `DD/MM/YYYY`.
- UserProfile.ProfilePage.Load: it installs the corrected `FromServer`.
- UserProfile.LoadThenSave: it saves what the corrected `FromServer` shows, so the birth date survives. As written, that save sends `undefined-undefined-` followed by the date (`ShownAsWrittenSavesUndefined`).
- ProfileSetup.SetupForm.Submit: it posts the corrected `RegistrationFields`, which carry the chosen picture as `avatar`. As written, no avatar is ever sent.
- PersonalMessages.MapApiToUi: the kind of an attachment is the corrected `GuessKind`. As written, a `.webm` file without a MIME type is a video.
- PersonalMessages.DirectChat.OnFrame: it maps the server's messages through the corrected `MapApiToUi`.
- PersonalMessages.DirectChat.PostViaHttp: it maps the server's messages through the corrected `MapApiToUi`.
- PersonalMessages.DirectChat.SendText: it maps the server's messages through the corrected `MapApiToUi`.
- PersonalMessages.DirectChat.HandleSend: it maps the server's messages through the corrected `MapApiToUi`.

Not modelled, with the reason for each:
- Concurrency and timing: the asyncio offline delay of 20 seconds, the typing-indicator timeout, reconnect timers, the heartbeat interval, toast auto-cleanup, and the ten-minute cache cleanup interval. Timers are represented by state plus a method that fires them. Interleavings and elapsed time are not modelled.
- React effect scheduling and stale closures: each handler runs on the state current when it is called.
- The socket open/close/reconnect effects of `ChatInterface.tsx` and `PersonalMessages.tsx`, socket identity, and the join frames: these are transport. Whether a socket is open is a parameter of sending.
- `getWsToken`, `getUserIdFromJwt`, `getAccessToken`, localStorage and cookies: these are browser storage. The current user id is a parameter.
- Scrolling, `requestAnimationFrame`, and everything the components render: these are presentation only.
- Attachment uploads, `loadOlder`, `hideForMe` and `deleteForAll` in the two chat screens: these are HTTP calls whose answers the merge and deletion paths already model. The message list's page load is modelled only as the list becoming empty when the conversation changes.
- `loadFriendRequests`, `loadContacts`, `loadFriends` and the accept/reject attempt lists of `PersonalMessages.tsx`: these are HTTP plumbing. Only `extractId` of `ensureConversationWithUser` is modelled, not its loops over endpoints.
- The fetch fallbacks in `ChatHierarchy.tsx` that try several URLs, and how they normalise a raw list: the answer of a level request is a parameter. Each fetcher catches its own errors and answers an empty list, so the `catch` of `loadLevel` (ChatHierarchy.tsx:212-217) cannot be reached and its error texts are never shown. The model keeps no error state, and a failed level is cached empty (`FailedLevelStaysEmpty`).
- Dates: `new Date(...)` parsing and `toISOString` become the `timeOf` parameter and an ISO text `nowIso`. Floating-point milliseconds are not modelled.
- `formatMs`, `Math.random` temporary ids, random toast ids and `Date.now()`: these are float formatting and randomness. They become parameters.
- i18n: a message is its translation key. The active language is a parameter.
- Logger: `performance`, `measurePerformance`, `loggedApiCall`, `exportLogs`, `sessionId`, `getCurrentUserId` and `sendToExternalService` are left out. They are timing, serialisation and a network sink.
- `useErrorHandler`: a React hook that only wraps `ErrorHandler`.
- The axios `Authorization` header and the redirect on a 401: these are browser navigation. Only the cache rules of `frontend/src/api/instance.ts` are modelled.
- `registerDeviceToken` and the service worker: these are push-service plumbing.
- The server behind `addFriend` is a deterministic function `respond(url, body)`, and `JSON.stringify` is the parameter `stringify`. Network failures without a status are answers with no status.
- Message ids are text in the model. The UUID object appears only in the `chat_message` event built by the consumer, as the Findings show.
- DRF permission ordering: the permission class runs before a view body. `MessageViewSet` (`IsAuthenticatedOrReadOnly`) takes the requester as optional, and its writes (`CreateRoomMessage`, `Destroy`, `Hide`) answer an anonymous one with 401 first, the status the JWT authenticator gives. The endpoints under `IsAuthenticated` take the requester as a signed-in user, and their anonymous 401 is not modelled.
- Multipart `is_secret=false` arriving as a truthy string: only JSON bodies are modelled.
- `mark_read` with `ids` given as a string: Django iterates a string character by character. The model treats any non-list `ids` as an error.
- `post_save` receivers registered without a sender, and the logging in `connect_signals`: which senders reach which handler is outside the model. The handlers are modelled for the rows they are given.
- `notify_room_subscribers` and `create_and_notify` are imported in `backend/notifications/integrations.py` but not defined in `backend/notifications/utils.py`. They are recorded as opaque sinks that keep a log of their calls. As written, that import (integrations.py:22) would raise `ImportError`. The `notifications` app is not in `INSTALLED_APPS` (backend/config/settings.py:24-44), so its `ready` (backend/notifications/apps.py:8-15), which would import the module, never runs. Either way no handler is ever connected and none of the integrations runs. The model states what each handler does once connected.
- `_update_user_presence`: the user model has neither `is_online` nor `last_seen`, so for this user model the update writes nothing. It is modelled as that no-op.
- JWT and authentication middleware, WebSocket token authentication, the admin modules, URL routing, settings, migrations and pagination: these are thin wrappers over SimpleJWT, the Django cache and the ORM, or configuration.
- The UI components (`ui/`, `common/`, `ContactsList`, `FriendsList`, `FriendRequestsModal`, `MainDashboard`, `LoginForm`, `RegisterForm`, `App`, `main`): presentation and forms outside the core.
- `frontend/src/api/dm.ts`, `frontend/src/notifications/notificationsApi.ts`, `frontend/src/hooks/useChatSocket.ts`, `frontend/src/hooks/useInfiniteScroll.ts` and `frontend/src/hooks/useNotificationsBridge.tsx`: HTTP and socket plumbing outside the core.
- Toggling twice restores a list only when the entry was absent, as ProfileSetup.ToggleLanguageTwice states. An entry that was present comes back at the end.

## Findings

| source | as written | input that shows it | evidently intended | confidence | as-written member | corrected member |
|---|---|---|---|---|---|---|
| frontend/src/components/messages/PersonalMessages.tsx:189-190 | the direct messages test the video extensions before the audio ones, and `webm` is in both lists | a voice note recorded as `voice-<time>.webm` (ChatInterface.tsx:876-882) whose record has no MIME type | audio, as the group chat decides (ChatInterface.tsx:224-229) | not executed | PersonalMessages.GuessKindAsWritten, PersonalMessages.WebmVoiceNoteAsWritten | PersonalMessages.GuessKind, PersonalMessages.KindsDifferOnlyOnWebm |
| backend/chat/consumers.py:19-22 | every room connect broadcasts presence with `count: 0` | any socket joining a room, which the group then holds | the number of sockets in the room, at least one | not executed | ChatConsumer.RoomConsumer.ConnectAsWritten | ChatConsumer.RoomConsumer.Connect |
| backend/chat/serializers.py:168-170 | `get_is_own` compares `author_id` with the id of `request.user`, and the anonymous user's id is `None` | an anonymous reader of a message without an author | own only for a signed-in requester who wrote the message | not executed | ChatSerializers.GetIsOwnAnonymousCounterexample | ChatSerializers.GetIsOwn, ChatSerializers.GetIsOwnAgreesWhenSignedIn |
| backend/chat/consumers.py:45 | without `displayName` in the frame, a signed-in sender's name is read from `user.username`, which the user model does not define | a signed-in user sending `{"type":"message","content":"hi"}` | the user's login name, which is the email for this user model, and `User` for an anonymous sender | not executed | ChatConsumer.FrameDisplayNameAsWritten, ChatConsumer.FrameDisplayNameRaisesForSignedIn, ChatConsumer.DispatchAsWritten, ChatConsumer.BlankMessageRaisesAsWritten | ChatConsumer.FrameDisplayName, ChatConsumer.FrameDisplayNameAgrees |
| backend/notifications/consumers.py:95-101 | `_set_presence` awaits `notify_friends_ids`, a plain function that returns `None`; with friends, its `async_to_sync` call inside the event loop raises first | a signed-in user who has one friend connects | each friend receives one presence event `{user_id, online}`; as written the raise also ends `connect`, so every signed-in notifications socket is closed right after it is accepted, no notification reaches any client and the client's reconnect backoff keeps cycling | not executed | NotificationConsumer.PresenceSendsAsWritten, NotificationConsumer.PresenceLostAsWritten, NotificationConsumer.NotificationsConsumer.ConnectAsWritten | NotificationConsumer.NotificationsConsumer.SetPresence, NotificationConsumer.NotificationsConsumer.Connect |
| frontend/src/ws/notificationsClient.ts:143-147 | `start` while a reconnect is pending sets `connecting`; when that socket closes, `scheduleReconnect` returns early on the pending timer and leaves `connecting` set, so the timer's `connect` does nothing | start; the socket fails and closes; start again while the reconnect is pending; that socket fails and closes; the timer fires | the client reconnects | not executed | NotificationsClient.StrandedAsWritten, NotificationsClient.Client.OnCloseAsWritten | NotificationsClient.Client.OnClose, NotificationsClient.RecoversWithOnClose |
| frontend/src/components/settings/AppSettings.tsx:328-330 | `handleReset` sets the defaults and then saves the `settings` value from before the reset; the autosave effect (AppSettings.tsx:165-172) sends the defaults one second later, so the stale body stays on the server only when the page is left within that second or the first request lands last | a light theme, then Reset | the defaults just shown are what the reset saves | not executed | AppSettings.SettingsPage.HandleResetAsWritten, AppSettings.ResetSendsStaleSettings, AppSettings.LightThemeResetSavedAsLight, AppSettings.ResetThenAutosave | AppSettings.SettingsPage.HandleReset |
| frontend/src/components/profile/UserProfile.tsx:116-119 | the loaded birth date is shown with `toLocaleDateString('en-GB')`, which gives `DD/MM/YYYY`, but the save and the age split it on `.` | a profile with birth date `1990-05-17` saved without edits | the `DD.MM.YYYY` display the comment names, which converts back to `1990-05-17` | not executed | UserProfile.ShownBirthDateAsWritten, UserProfile.ShownAsWrittenSavesUndefined, UserProfile.ShownAsWrittenAgeIsNaN | UserProfile.ShownBirthDate, UserProfile.ShownBirthDateRoundTrip, UserProfile.UnEditedSaveKeepsBirthDate |
| frontend/src/components/profile/ProfileSetupForm.tsx:180-182 | the avatar is read from `data.avatar`, a field the form never registers; the chosen file is kept in `profileImage` | choosing a picture and submitting a valid form | the chosen picture is sent as `avatar` | not executed | ProfileSetup.RegistrationFieldsAsWritten, ProfileSetup.ChosenPictureDroppedAsWritten | ProfileSetup.RegistrationFields |
| backend/chat/views.py:187-191 | deleting for everyone publishes an event of type `chat_delete`, and the room consumer has no `chat_delete` handler (consumers.py:63-70); Channels raises `ValueError` for it in every socket's consumer, so each socket in the room is closed | deleting a message for everyone while someone is in the room | every socket in the room receives a deletion, which the chat screen removes (ChatInterface.tsx:868-873) | not executed | ChatConsumer.OutboundAsWritten, ChatConsumer.DeleteEventHasNoHandler | ChatConsumer.Outbound, ChatConsumer.DeleteEventDelivered, ChatInterface.DeletionIsReadAsDelete |
| backend/chat/consumers.py:52-64 | the `chat_message` event carries `msg.id`, a `uuid.UUID` object, and the handler passes it to `json.dumps`, which cannot serialise it; the in-memory channel layer (backend/config/settings.py:155-159) hands the event over unchanged | a message sent over the room socket | every socket in the room receives the message with its id as text | not executed | ChatConsumer.ChatMessageDataAsWritten, ChatConsumer.DumpMessageFrame, ChatConsumer.ChatMessageFrameRaisesAsWritten | ChatConsumer.ChatMessageDataHasIdText, ChatConsumer.ChatMessageFrameDelivered, ChatConsumer.RoomConsumer.Receive |
| backend/users/models.py:59 | `can_create_room` imports `ChatRoom` from `chat.models`, which defines no such model, so the import raises `ImportError` before any role is checked | any user, an admin included, asking whether they may create a room | admins always may; moderators while they own fewer than 3 rooms; VIPs fewer than 2; others never | not executed | Users.CanCreateRoomAsWritten, Users.CanCreateRoomRaisesAsWritten | Users.CanCreateRoom |
