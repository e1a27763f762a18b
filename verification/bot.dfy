/**
 * The bot of bot.js as one object: the token dictionary, the conversation
 * state and the pending timeouts it updates in place, and the handlers for
 * the `callback_query` and `message` events and for a timeout firing. Each
 * handler runs as one atomic step. Calls to Telegram are returned as the
 * sequence of `Output`s issued; their outcomes and the MongoDB insert's
 * outcome are parameters.
 */
module Relay {
  import opened Wrappers
  import opened Tokens
  import opened Telegram
  import opened Conversation

  /** The download yielded data with a known type and the insert succeeded (bot.js:66-87). */
  predicate Approves(download: Download, save: Outcome) {
    && download.Downloaded?
    && download.body.Some?
    && ContentTypeFor(download.filePath).Some?
    && save.Succeeded?
  }

  /**
   * The `error.message` reported to the moderator chat when an approval fails
   * (bot.js:56-94), by the first step that fails: the download's own error,
   * then the missing data, then the unknown path (whose thrown value has no
   * message), then the insert's error.
   */
  function ApprovalError(download: Download, save: Outcome): string
    requires !Approves(download, save)
  {
    match download
    case DownloadFailed(e) => e
    case Downloaded(path, body) =>
      if body.None? then FetchFailedText
      else if ContentTypeFor(path).None? then UnknownPathError
      else save.error
  }

  /**
   * The `try` block of the approval path (bot.js:52-94) for a resolved file
   * id: the record is inserted only when the download has data, the path has
   * a known type and the insert succeeds; otherwise the error is reported.
   */
  method ApproveMedia(fileId: string, download: Download, save: Outcome)
    returns (persisted: Option<Meme>, error: Option<string>)
    ensures persisted.Some? <==> Approves(download, save)
    ensures persisted.Some? <==> error.None?
    ensures persisted.Some? ==>
              persisted.value == Meme(fileId, download.body.value, ContentTypeFor(download.filePath).value)
    ensures error.Some? ==> error.value == ApprovalError(download, save)
  {
    persisted, error := None, None;
    match download
    case DownloadFailed(e) =>
      error := Some(e);
    case Downloaded(filePath, body) =>
      if body.Some? {
        var contentType := ContentTypeFor(filePath);
        if contentType.None? {
          error := Some(UnknownPathError);
        } else if save.Failed? {
          error := Some(save.error);
        } else {
          persisted := Some(Meme(fileId, body.value, contentType.value));
        }
      } else {
        error := Some(FetchFailedText);
      }
  }

  /** The report sent when `editMessageText` rejects (bot.js:103-106). */
  function EditFailure(q: CallbackQuery, edit: Outcome): (r: seq<Output>)
    ensures |r| <= 1
    ensures r != [] <==> edit.Failed?
    ensures r != [] ==> r[0].SendMessage? && r[0].to == Chat(q.chat) && r[0].text == EditErrorReport(edit.error)
  {
    if edit.Failed? then [SendMessage(Chat(q.chat), EditErrorReport(edit.error))] else []
  }

  /**
   * The calls a submission makes (bot.js:129-189): without a target channel,
   * or when the file id cannot be read, only an error to the submitter;
   * otherwise the relay, then on success the approval request to the channel
   * and the confirmation to the submitter, on failure the error.
   */
  function ForwardOutputs(target: string, md5: Md5Hex, msg: Message, relay: Outcome): (r: seq<Output>)
    requires HasMedia(msg)
    ensures 1 <= |r| <= 3
    ensures r[|r| - 1].SendMessage? && r[|r| - 1].to == Chat(msg.chat)
  {
    if target == "" then [SendMessage(Chat(msg.chat), ForwardFailed)]
    else match SubmittedFileId(msg)
      case None => [SendMessage(Chat(msg.chat), ForwardFailedWith(EmptyPhotoError))]
      case Some(f) =>
        [RelayCall(target, msg, f)] +
        if relay.Failed? then [SendMessage(Chat(msg.chat), ForwardFailedWith(relay.error))]
        else [SendWithButtons(Channel(target), ApproveThisMeme, HashData(md5, f), RejectedData),
              SendMessage(Chat(msg.chat), Forwarded)]
  }

  /**
   * What the submitter and the channel see: every call before the last (the
   * one to the submitter) goes to the target channel, the first being the
   * relay of the media; the approval request is sent exactly when there is a
   * target, a file id and the relay succeeded, and its buttons carry the file
   * id's hash and the sentinel; the submitter is told of success, or of the
   * first thing that went wrong.
   */
  lemma {:induction false} ForwardOutputsShape(target: string, md5: Md5Hex, msg: Message, relay: Outcome)
    requires HasMedia(msg)
    ensures var r := ForwardOutputs(target, md5, msg, relay);
            && (forall i :: 0 <= i < |r| - 1 ==> !r[i].EditMessageText? && r[i].to == Channel(target))
            && (|r| == 3 <==> target != "" && SubmittedFileId(msg).Some? && relay.Succeeded?)
            && (|r| == 3 ==> r[1] == SendWithButtons(Channel(target), ApproveThisMeme,
                                                     HashData(md5, SubmittedFileId(msg).value), RejectedData))
            && (target != "" && SubmittedFileId(msg).Some? ==> r[0] == RelayCall(target, msg, SubmittedFileId(msg).value))
            && r[|r| - 1].text == (if target == "" then ForwardFailed
                                   else if SubmittedFileId(msg).None? then ForwardFailedWith(EmptyPhotoError)
                                   else if relay.Failed? then ForwardFailedWith(relay.error)
                                   else Forwarded)
  {
  }

  class Bot {
    const botUsername: string
    /** `process.env.CHANNEL_ID`; the empty string stands for unset (both are falsy). */
    const targetChannelId: string
    const md5: Md5Hex

    /** `callbackDataStore` (bot.js:16) */
    var callbackDataStore: map<string, string>
    /** The file ids stored so far, in order. */
    ghost var submitted: seq<string>
    /** `chatStates` (bot.js:20) */
    var chatStates: ChatStates
    /** The timeouts scheduled and neither fired nor cleared, by handle. */
    var timers: map<nat, TimerJob>
    /** The handle the next `setTimeout` returns. */
    var nextTimer: nat

    /** The dictionary is the one built by the submissions so far; its keys are their hashes. */
    ghost predicate TokensValid()
      reads this`callbackDataStore, this`submitted
    {
      && callbackDataStore == MintAll(md5, submitted)
      && Minted(md5, callbackDataStore)
    }

    /** The conversation state and the pending timers agree (`Conversation.Inv`). */
    ghost predicate StatesValid()
      reads this`chatStates, this`timers, this`nextTimer
    {
      Inv(chatStates, timers, nextTimer)
    }

    ghost predicate Valid()
      reads this
    {
      TokensValid() && StatesValid()
    }

    constructor (botUsername: string, targetChannelId: string, md5: Md5Hex)
      ensures Valid()
      ensures this.botUsername == botUsername && this.targetChannelId == targetChannelId && this.md5 == md5
      ensures callbackDataStore == map[] && submitted == []
      ensures chatStates == map[] && timers == map[] && nextTimer == 0
    {
      this.botUsername := botUsername;
      this.targetChannelId := targetChannelId;
      this.md5 := md5;
      callbackDataStore := map[];
      submitted := [];
      chatStates := map[];
      timers := map[];
      nextTimer := 0;
    }

    /** storeCallbackData (bot.js:28-30) */
    method StoreCallbackData(hash: string, data: string)
      modifies this`callbackDataStore, this`submitted
      ensures callbackDataStore == old(callbackDataStore)[hash := data]
      ensures submitted == old(submitted) + [data]
      ensures old(TokensValid()) && hash == HashData(md5, data) ==> TokensValid()
    {
      callbackDataStore := callbackDataStore[hash := data];
      submitted := submitted + [data];
      assert (old(submitted) + [data])[..|old(submitted)|] == old(submitted);
      MintAllMinted(md5, submitted);
    }

    /**
     * The `callback_query` handler (bot.js:42-107). Returns the record
     * inserted into the database, if any, and the calls issued.
     */
    method OnCallbackQuery(q: CallbackQuery, download: Download, save: Outcome, edit: Outcome)
      returns (persisted: Option<Meme>, outs: seq<Output>)
      requires Minted(md5, callbackDataStore)
      ensures persisted.Some? <==> Resolve(callbackDataStore, q.data).Some? && Approves(download, save)
      ensures persisted.Some? ==>
                && persisted.value.fileId == callbackDataStore[q.data]
                && persisted.value.data == download.body.value
                && Some(persisted.value.contentType) == ContentTypeFor(download.filePath)
      ensures persisted.Some? ==>
                outs == [EditMessageText(q.chat, q.messageId, Some(ApprovedMedia))] + EditFailure(q, edit)
      ensures Resolve(callbackDataStore, q.data).None? ==>
                outs == [EditMessageText(q.chat, q.messageId, Some(RejectedMedia))] + EditFailure(q, edit)
      ensures Resolve(callbackDataStore, q.data).Some? && persisted.None? ==>
                outs == [SendMessage(Chat(q.chat), ErrorReport(ApprovalError(download, save))),
                         EditMessageText(q.chat, q.messageId, None)] + EditFailure(q, edit)
      ensures q.data == RejectedData || !IsHexDigest(q.data) ==> Resolve(callbackDataStore, q.data).None?
    {
      SentinelIsNotDigest();
      if !IsHexDigest(q.data) {
        NonDigestNeverResolves(md5, callbackDataStore, q.data);
      }
      var originalFileId := Resolve(callbackDataStore, q.data);
      var newMessageText: Option<Notice> := None;
      persisted := None;
      outs := [];
      if originalFileId.Some? {
        var error;
        persisted, error := ApproveMedia(originalFileId.value, download, save);
        if error.Some? {
          outs := [SendMessage(Chat(q.chat), ErrorReport(error.value))];
        } else {
          newMessageText := Some(ApprovedMedia);
        }
      } else {
        newMessageText := Some(RejectedMedia);
      }
      outs := outs + [EditMessageText(q.chat, q.messageId, newMessageText)] + EditFailure(q, edit);
    }

    /**
     * The `try` block of a submission (bot.js:129-189): with a target channel
     * and a file id, the token is stored before the relay is attempted, so it
     * stays whatever the relay's outcome.
     */
    method ForwardSubmission(msg: Message, relay: Outcome) returns (outs: seq<Output>)
      requires HasMedia(msg)
      requires TokensValid()
      modifies this`callbackDataStore, this`submitted
      ensures TokensValid()
      ensures outs == ForwardOutputs(targetChannelId, md5, msg, relay)
      ensures targetChannelId == "" || SubmittedFileId(msg).None? ==>
                callbackDataStore == old(callbackDataStore)
      ensures targetChannelId != "" && SubmittedFileId(msg).Some? ==>
                var f := SubmittedFileId(msg).value;
                && callbackDataStore == old(callbackDataStore)[HashData(md5, f) := f]
                && (f != "" ==> Resolve(callbackDataStore, HashData(md5, f)) == Some(f))
    {
      if targetChannelId != "" {
        var fileId := SubmittedFileId(msg);
        if fileId.None? {
          outs := [SendMessage(Chat(msg.chat), ForwardFailedWith(EmptyPhotoError))];
        } else {
          var f := fileId.value;
          var hashedFileId := HashData(md5, f);
          StoreCallbackData(hashedFileId, f);
          assert Resolve(callbackDataStore, hashedFileId) == if f != "" then Some(f) else None;
          outs := [RelayCall(targetChannelId, msg, f)];
          if relay.Failed? {
            outs := outs + [SendMessage(Chat(msg.chat), ForwardFailedWith(relay.error))];
          } else {
            outs := outs + [SendWithButtons(Channel(targetChannelId), ApproveThisMeme, hashedFileId, RejectedData),
                            SendMessage(Chat(msg.chat), Forwarded)];
          }
        }
      } else {
        outs := [SendMessage(Chat(msg.chat), ForwardFailed)];
      }
    }

    /**
     * The end of a submission for an awaiting user (bot.js:124-128, 192-197):
     * the timer is cleared and its key removed, then the user's entry, and the
     * chat's entry goes when nothing is left in it.
     */
    method EndConversation(chat: ChatId, user: UserId)
      requires StatesValid()
      requires Awaiting(chatStates, chat, user)
      modifies this`chatStates, this`timers
      ensures StatesValid()
      ensures chatStates == Submitted(old(chatStates), chat, user)
      ensures timers == old(timers) - {old(chatStates)[chat][Timer(user)].handle}
      ensures forall h :: h in old(timers) && old(timers)[h].chat == chat && old(timers)[h].user == user ==> h !in timers
    {
      SubmitKeepsInv(chatStates, timers, nextTimer, chat, user);
      var userStates := chatStates[chat];
      if Timer(user) in userStates {
        var afkTimer := userStates[Timer(user)];
        timers := timers - {afkTimer.handle};
        userStates := userStates - {Timer(user)};
      }
      userStates := userStates - {User(user)};
      chatStates := AfterUserCleared(chatStates, chat, userStates);
      forall h | h in old(timers) && old(timers)[h].chat == chat && old(timers)[h].user == user
        ensures h !in timers
      {
        OneTimerPerUser(old(chatStates), old(timers), nextTimer, h, old(chatStates)[chat][Timer(user)].handle);
      }
    }

    /**
     * A mention from a user who is not awaiting (bot.js:206-231): the user
     * becomes awaiting, is prompted, and exactly one new timer is scheduled
     * and stored under the user's timer key.
     */
    method StartConversation(chat: ChatId, user: UserId, firstName: string) returns (outs: seq<Output>)
      requires StatesValid()
      requires !Awaiting(chatStates, chat, user)
      modifies this`chatStates, this`timers, this`nextTimer
      ensures StatesValid()
      ensures chatStates == Started(old(chatStates), chat, user, old(nextTimer))
      ensures old(nextTimer) !in old(timers)
      ensures timers == old(timers)[old(nextTimer) := TimerJob(chat, user, firstName)]
      ensures nextTimer == old(nextTimer) + 1
      ensures outs == [SendMessage(Chat(chat), PleaseSendMeme)]
    {
      StartKeepsInv(chatStates, timers, nextTimer, chat, user, firstName);
      ghost var started := Started(chatStates, chat, user, nextTimer);
      var userStates := UserStatesOf(chatStates, chat);
      userStates := userStates[User(user) := AwaitingImage];
      chatStates := chatStates[chat := userStates];
      outs := [SendMessage(Chat(chat), PleaseSendMeme)];
      var afkTimer := nextTimer;
      timers := timers[afkTimer := TimerJob(chat, user, firstName)];
      nextTimer := nextTimer + 1;
      // the inner map is shared with chatStates, so the timer key lands there too
      userStates := userStates[Timer(user) := TimerHandle(afkTimer)];
      chatStates := chatStates[chat := userStates];
      assert chatStates == started;
    }

    /**
     * The `message` handler (bot.js:110-235). `relay` is the outcome of the
     * awaited forwardMessage/sendVideo/sendAnimation call, `Failed` carrying
     * the error as rendered by `${error}`.
     */
    method OnMessage(msg: Message, relay: Outcome) returns (outs: seq<Output>)
      requires Valid()
      modifies this
      ensures Valid()
      ensures timers.Keys <= old(timers.Keys) + {old(nextTimer)} && nextTimer >= old(nextTimer)
      // an awaited media message: the submission, whatever the relay's outcome
      ensures old(Awaiting(chatStates, msg.chat, msg.from.id)) && HasMedia(msg) ==>
                && chatStates == Submitted(old(chatStates), msg.chat, msg.from.id)
                && timers == old(timers) - {old(chatStates)[msg.chat][Timer(msg.from.id)].handle}
                && nextTimer == old(nextTimer)
                && outs == ForwardOutputs(targetChannelId, md5, msg, relay)
                && callbackDataStore ==
                     if targetChannelId != "" && SubmittedFileId(msg).Some? then
                       old(callbackDataStore)[HashData(md5, SubmittedFileId(msg).value) := SubmittedFileId(msg).value]
                     else old(callbackDataStore)
      // an awaited message without media, a repeated mention included: only the prompt
      ensures old(Awaiting(chatStates, msg.chat, msg.from.id)) && !HasMedia(msg) ==>
                && chatStates == old(chatStates) && timers == old(timers) && nextTimer == old(nextTimer)
                && callbackDataStore == old(callbackDataStore)
                && outs == [SendMessage(Chat(msg.chat), PleaseSendMeme)]
      // a mention from a user who is not awaiting: the conversation starts
      ensures !old(Awaiting(chatStates, msg.chat, msg.from.id)) && MentionsBot(msg, botUsername) ==>
                && chatStates == Started(old(chatStates), msg.chat, msg.from.id, old(nextTimer))
                && timers == old(timers)[old(nextTimer) := TimerJob(msg.chat, msg.from.id, msg.from.firstName)]
                && nextTimer == old(nextTimer) + 1
                && callbackDataStore == old(callbackDataStore)
                && outs == [SendMessage(Chat(msg.chat), PleaseSendMeme)]
      // anything else is ignored
      ensures !old(Awaiting(chatStates, msg.chat, msg.from.id)) && !MentionsBot(msg, botUsername) ==>
                && chatStates == old(chatStates) && timers == old(timers) && nextTimer == old(nextTimer)
                && callbackDataStore == old(callbackDataStore)
                && outs == []
    {
      var chatId := msg.chat;
      var userId := msg.from.id;
      outs := [];
      if Awaiting(chatStates, chatId, userId) {
        if HasMedia(msg) {
          // Clearing the timer first, as the source does, keeps it from firing
          // during the relay; the user's entry goes in the same step here.
          EndConversation(chatId, userId);
          outs := ForwardSubmission(msg, relay);
        } else {
          outs := [SendMessage(Chat(chatId), PleaseSendMeme)];
        }
      } else if MentionsBot(msg, botUsername) {
        // bot.js:206 re-tests the state, which is always true on this branch
        outs := StartConversation(chatId, userId, msg.from.firstName);
      }
    }

    /**
     * The timeout callback scheduled on bot.js:214-228, fired by the runtime.
     * A handle that is not pending (already fired, or cleared) does nothing.
     */
    method FireTimer(h: nat) returns (outs: seq<Output>)
      requires StatesValid()
      modifies this`chatStates, this`timers
      ensures StatesValid()
      ensures h !in timers
      ensures h !in old(timers) ==> chatStates == old(chatStates) && timers == old(timers) && outs == []
      ensures h in old(timers) ==>
                var job := old(timers)[h];
                && chatStates == TimedOut(old(chatStates), job.chat, job.user)
                && job.chat in chatStates && chatStates[job.chat][Timer(job.user)] == TimerHandle(h)
                && timers == old(timers) - {h}
                && outs == [SendMessage(Chat(job.chat), TookTooLong(job.firstName))]
    {
      outs := [];
      if h in timers {
        var job := timers[h];
        FireKeepsInv(chatStates, timers, nextTimer, h);
        TimeoutKeepsChat(chatStates, timers, nextTimer, h);
        timers := timers - {h};
        // the inner map the callback closed over: by Inv still the chat's entry
        var userStates := chatStates[job.chat];
        userStates := userStates - {User(job.user)};
        chatStates := AfterUserCleared(chatStates, job.chat, userStates);
        outs := [SendMessage(Chat(job.chat), TookTooLong(job.firstName))];
      }
    }
  }
}
