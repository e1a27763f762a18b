# Meme moderation relay: the logic of bot.js in Dafny

bot.js is a Telegram bot that relays memes to a moderation channel.

- **Submission.** A user mentions the bot by `@username`. The bot prompts them
  and gives them 45 seconds to send a photo, a video or an animation. The
  media is relayed to the target channel together with an approval request
  that carries two buttons: "Approve", whose data is the MD5 hex digest of the
  media's file id, and "Reject", whose data is the literal `Rejected`.
- **Token store.** The digest is remembered in an in-memory dictionary,
  `digest -> file id`, that is never evicted.
- **Approval.** A press on "Approve" looks the digest up, downloads the file,
  picks a content type from the file path, stores a `{fileId, data,
  contentType}` record in MongoDB and edits the request message. Any failure
  is reported to the moderator chat.
- **Rejection.** A press on "Reject", or on any data that is not a stored
  digest, edits the message to say it was rejected.

The model consists of these modules:

- `Text` (text.dfy): `startsWith` and `includes`. `Contains` is proved equal
  to the positional definition of a substring.
- `Tokens` (tokens.dfy): the token store.
  - MD5 is an uninterpreted function `Md5Hex` with one property: every
    result is 32 lower-case hex digits. It is given to the bot at
    construction. Injectivity is not assumed.
  - `MintAll` is the dictionary built by a history of submissions.
  - The lemmas state that every key is the digest of its value, that entries
    are never evicted, and that the last submission of a digest wins it.
  - They also state that neither the `Rejected` sentinel nor any non-digest
    can ever resolve. The reason is its length and alphabet, not luck.
- `Telegram` (telegram.dfy): the values the bot handles.
  - Messages, button presses and the saved `Meme` record of memeSchema.js.
  - The texts it sends (`Notice`, with `Render` giving their exact wording).
  - The calls it issues (`Output`).
  - The pure decisions: which file id a submission carries, how it is relayed,
    and the content type chosen from the file path.
- `Conversation` (conversation.dfy): the nested `chatStates` map.
  - The chat id maps to an inner map. The inner map's keys are either a user
    id (`User`) or the `${chatId}-${userId}-timer` string (`Timer`).
  - Pending timeouts live in a separate map from handle to job.
  - The invariant `Inv` covers four points:
    - no chat holds an empty inner map;
    - user keys hold "awaitingImage" and timer keys hold handles;
    - a user is awaiting exactly when a timer is pending for them, and that
      timer is the one stored under their timer key;
    - handles are issued from a counter.
  - Each of the three transitions has an effect lemma (what it adds, removes
    and keeps) and a lemma that it preserves `Inv`.
- `Relay` (bot.dfy): the bot itself, as class `Bot`. Its fields are the token
  dictionary, `chatStates`, the pending timers and the next handle. Its
  methods update them in place.
  - `OnCallbackQuery` is the `callback_query` handler.
  - `OnMessage` is the `message` handler. It delegates to `EndConversation`,
    `ForwardSubmission` and `StartConversation`.
  - `FireTimer` is the runtime firing a scheduled timeout.
  - Network calls and the database insert are inputs (`Download`, `Outcome`).
    The calls the bot makes are returned as a sequence of `Output`s, in
    order.

## Model

| member | source | states |
|---|---|---|
| Text.ContainsIffOccurs | bot.js:204 | `includes` as used on the mention test holds exactly when the handle occurs at some position of the text |
| Tokens.HashData | bot.js:23-25 | the token of a file id is a 32-character lower-case hex digest |
| Tokens.SentinelIsNotDigest | bot.js:169 | the "Reject" button's data `Rejected` does not have the shape of a digest |
| Tokens.Resolve | bot.js:47-51 | a press resolves to a file id exactly when its data is a key and the stored id is non-empty (truthy), and then to that id |
| Tokens.MintAllSound | bot.js:142-144 | in the dictionary built by any history of submissions, each key is the hash of the file id stored under it, and that id was submitted |
| Tokens.MintAllKeys | bot.js:16 | entries are never evicted: the keys are exactly the hashes of every file id ever submitted |
| Tokens.ResolveJustMinted | bot.js:142-144 | right after a non-empty file id is stored, its hash resolves to it, even if an earlier id had the same hash |
| Tokens.UnmintedNeverResolves | bot.js:47-51 | data that is the hash of no submitted file id takes the rejection path |
| Tokens.MintAllMinted | bot.js:28-30 | a dictionary built only by `storeCallbackData(hashData(f), f)` has only digest keys, each the hash of its value |
| Tokens.NonDigestNeverResolves | bot.js:47-51 | in such a dictionary, data that is not a 32-digit hex digest never resolves |
| Tokens.SentinelNeverResolves | bot.js:168-169 | the "Reject" button never resolves to a file id, whatever was submitted |
| Telegram.Render | bot.js:87-226 | each notice has its exact wording; no notice renders to an empty text |
| Telegram.FixedTextsDistinct | bot.js:87-211 | the fixed texts (prompt, approval request, confirmation, forwarding error, approved, rejected) are pairwise different |
| Telegram.ErrorReportsDistinct | bot.js:93-105 | a failed-approval report and a failed-edit report never have the same text, whatever their error messages |
| Telegram.HasMedia | bot.js:122 | an empty photo list still counts as media; a message without photo, video or animation does not |
| Telegram.MentionsBot | bot.js:204 | the message has a text in which `@` followed by the bot's username occurs at some position; the truthiness test on the text adds nothing |
| Telegram.SubmittedFileId | bot.js:133-139 | the file id is the last (largest) photo size if there is a photo, else the video's, else the animation's; none for an empty photo list, where the source throws |
| Telegram.RelayCall | bot.js:147-162 | a photo is forwarded from its chat and message id; a video is re-sent with `sendVideo`; an animation with `sendAnimation`; always to the target channel |
| Telegram.ContentTypeFor | bot.js:69-77 | `photos/` gives image/jpeg; `animations/` or `videos/` give video/mp4; any other path gives no type; each in both directions |
| Telegram.PrefixesDisjoint | bot.js:69-77 | no path starts with two of the three prefixes, so the order of the tests never changes the type |
| Conversation.AfterUserClearedEffect | bot.js:192-197 | the chat's entry is deleted exactly when its inner map is empty, otherwise set to it; other chats are untouched |
| Conversation.StartedEffect | bot.js:206-231 | a mention makes the user awaiting and stores the new handle under their timer key; every other entry of every chat is kept |
| Conversation.SubmittedEffect | bot.js:122-197 | a submission removes the user's timer key and user key; the chat's entry goes exactly when it held nothing else; other entries and chats stay |
| Conversation.TimedOutEffect | bot.js:216-221 | a timeout removes only the user key; other chats stay |
| Conversation.TimeoutKeepsChat | bot.js:214-231 | when a timer fires, its timer key is still in the inner map, so the chat's entry is kept, not deleted |
| Conversation.OneTimerPerUser | bot.js:214-231 | under the invariant, at most one timer is pending per chat and user |
| Conversation.AwaitingIffPending | bot.js:120-231 | under the invariant, a user is awaiting exactly when a timer for that chat and user is pending |
| Conversation.StartKeepsInv | bot.js:206-231 | starting a conversation for a user who is not awaiting keeps the invariant, with the fresh handle pending |
| Conversation.SubmitKeepsOther | bot.js:192-197 | a submission leaves every other awaiting user, in this chat or another, awaiting with the same timer key |
| Conversation.SubmitKeepsInv | bot.js:120-197 | a submission keeps the invariant, with the user's timer cancelled |
| Conversation.FireKeepsInv | bot.js:214-228 | a timeout firing keeps the invariant, with its own handle no longer pending |
| Relay.ApproveMedia | bot.js:52-94 | the record is built only when the download has data, the path has a known type and the insert succeeds, with the resolved id, the data and that type; otherwise exactly one error, `ApprovalError`: the download error, then "Failed to fetch file data from Telegram.", then "undefined", then the insert error, by the first step that fails |
| Relay.EditFailure | bot.js:103-106 | a failed edit adds exactly one report, to the moderator chat, carrying the edit's error; a successful edit adds nothing |
| Relay.ForwardOutputs | bot.js:129-189 | a submission makes one to three calls, and the last is a message to the submitter |
| Relay.ForwardOutputsShape | bot.js:129-189 | every call before the last goes to the target channel, and with a target and a file id the first is the relay call for that id; the approval request is sent exactly when there is a target, a file id and the relay succeeded, and its buttons carry the id's hash and `Rejected`; the submitter's notice is the forwarding error without a target, the TypeError for an empty photo list, the relay's error when it failed, and the forwarded confirmation otherwise |
| Relay.Bot.constructor | bot.js:16-20 | the bot starts with an empty dictionary and no submissions, no conversations, no timers and the first handle 0, with its invariants established |
| Relay.Bot.StoreCallbackData | bot.js:28-30 | the dictionary gains `hash -> data`; storing the hash of the data keeps every key the digest of its value |
| Relay.Bot.OnCallbackQuery | bot.js:42-107 | a record is saved exactly when the data resolves and the approval succeeds, holding the resolved id; the calls are an approved edit, a rejected edit, or an error report followed by an edit with no text; an edit failure is reported after the edit; the sentinel and non-digests always take the rejection path |
| Relay.Bot.ForwardSubmission | bot.js:129-189 | the token is stored whenever there is a target and a file id, whatever the relay's outcome, and then resolves to that id when it is non-empty; nothing is stored without a target; the calls are those of `ForwardOutputs` |
| Relay.Bot.EndConversation | bot.js:122-197 | the user's timer is cancelled and no timer of theirs stays pending; the user's keys go as in `Submitted`; the invariant holds |
| Relay.Bot.StartConversation | bot.js:206-231 | the user becomes awaiting; "Please send a meme." is sent; exactly one new handle is pending, stored under the user's timer key; the invariant holds |
| Relay.Bot.OnMessage | bot.js:110-235 | an awaiting user's media is a submission; an awaiting user's other message, a repeated mention included, only re-prompts and changes nothing; a mention from a user who is not awaiting starts a conversation; anything else is ignored; invariants hold; only the next handle can be added |
| Relay.Bot.FireTimer | bot.js:214-228 | a pending timer removes the user's awaiting entry, keeps the chat's entry and its timer key, sends "<first name> took too long…", and is no longer pending; a fired or cancelled handle does nothing, so no timer fires twice |

Behaviour of bot.js that a reader might not expect, which the model keeps as
written:

- A mention from a user who is already awaiting is a message without media,
  so it re-prompts with "Please send a meme."; the timer is not reset.
- A timeout removes only the user's entry. The timer key stays in the inner
  map, so the chat's entry is never deleted after a timeout.
- The moderation message is edited on every button press. After a failed
  approval the edit is issued with no text.
- An unknown path prefix throws the imported `console.error` function, which
  has no `message`, so the report reads "Error: undefined".

## Left out

- Process bootstrap is not modelled: `dotenv`, `mongoose.connect`, bot
  construction, polling, and `getMe` (bot.js:1-13, 33-39).
  - `botUsername` and `targetChannelId` are constructor parameters, with the
    empty string standing for an unset channel id.
  - The window before `getMe` resolves, while the handle reads `undefined`,
    is not modelled.
- MD5 itself is an uninterpreted parameter whose only known property is the
  digest's shape.
- Telegram and HTTP calls, and the MongoDB insert, are inputs:
  - `getFile` plus `axios.get` is a `Download`;
  - `newMedia.save()`, the relay call and `editMessageText` are `Outcome`s.
  - The URL built with the bot token is plumbing. The exact texts of library
    errors are taken as given strings.
  - The unawaited `sendMessage` calls are recorded as outputs. Their own
    failures, which are unhandled rejections in the source, are not
    modelled.
- Real time and the 45000 ms delay are not modelled. A timer is a pending
  entry, and its firing is the explicit `FireTimer` event.
- Handlers run as atomic steps. Interleaving at `await`s across events is not
  modelled.
  - OnMessage: the user's entry is removed before the relay rather than
    after it, within the same step.
- Relay.Bot.OnCallbackQuery: button data that names an inherited property
  of the plain `{}` dictionary (such as `constructor`) is treated as absent.
  - This rests on an assumption about Telegram that bot.js itself does not
    show: button data only ever comes from buttons the bot created, so it is
    a digest or `Rejected`.
- Messages with no sender (`msg.from` undefined) are not modelled.
  - In the source these throw before any state changes.
- The "Unsupported media type." branch (bot.js:181-183) has no model
  counterpart.
  - It is unreachable: the media test that guards the submission already
    ensures one of the three forward methods is chosen.
- The empty-photo-list TypeError text is fixed to the one current Node
  versions produce.
- memeSchema.js is only the shape of the `Meme` record. Mongoose's casting
  and validation are not modelled.
