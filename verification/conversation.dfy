/**
 * The per-(chat, user) conversation state of bot.js (`chatStates`, bot.js:20,
 * 110-235). `chatStates` maps a chat id to an inner map that mixes two kinds
 * of key: a user id, whose value is "awaitingImage", and the string
 * `${chatId}-${userId}-timer`, whose value is the handle of that user's
 * inactivity timer. The string key is determined by the user id once the
 * chat is fixed, so it is modelled as `Timer(userId)`.
 */
module Conversation {
  import opened Telegram

  datatype StateKey = User(id: UserId) | Timer(id: UserId)
  datatype Entry = AwaitingImage | TimerHandle(handle: nat)
  type UserStates = map<StateKey, Entry>
  type ChatStates = map<ChatId, UserStates>

  /** What a scheduled timeout callback closes over: the chat, the user and the name it will address. */
  datatype TimerJob = TimerJob(chat: ChatId, user: UserId, firstName: string)

  /** `chatStates.get(chatId) || new Map()` (bot.js:116). */
  function UserStatesOf(chats: ChatStates, chat: ChatId): UserStates {
    if chat in chats then chats[chat] else map[]
  }

  /** `currentState === "awaitingImage"` (bot.js:117, 120). */
  predicate Awaiting(chats: ChatStates, chat: ChatId, user: UserId) {
    chat in chats && User(user) in chats[chat]
  }

  /** The pending timer under the user's timer key, registered for that same chat and user. */
  predicate HasPendingTimer(chats: ChatStates, timers: map<nat, TimerJob>, chat: ChatId, user: UserId) {
    && chat in chats
    && Timer(user) in chats[chat]
    && chats[chat][Timer(user)].TimerHandle?
    && chats[chat][Timer(user)].handle in timers
    && timers[chats[chat][Timer(user)].handle].chat == chat
    && timers[chats[chat][Timer(user)].handle].user == user
  }

  /**
   * The state the handlers keep: no chat maps to an empty inner map; user
   * keys hold "awaitingImage" and timer keys hold handles; a user is awaiting
   * exactly when a timer is pending for them, and that timer is the one
   * stored under their timer key; every pending handle was issued already.
   */
  ghost predicate Inv(chats: ChatStates, timers: map<nat, TimerJob>, next: nat) {
    && (forall c :: c in chats ==> chats[c] != map[])
    && (forall c, k :: c in chats && k in chats[c] ==> (k.User? <==> chats[c][k] == AwaitingImage))
    && (forall c, u :: Awaiting(chats, c, u) ==> HasPendingTimer(chats, timers, c, u))
    && (forall h :: h in timers ==>
          && h < next
          && Awaiting(chats, timers[h].chat, timers[h].user)
          && chats[timers[h].chat][Timer(timers[h].user)] == TimerHandle(h))
  }

  /**
   * Lines 192-197 and 216-221: store the inner map under the chat, or delete
   * the chat's entry when the inner map has become empty.
   */
  function AfterUserCleared(chats: ChatStates, chat: ChatId, inner: UserStates): ChatStates {
    if |inner| == 0 then chats - {chat} else chats[chat := inner]
  }

  /** A mention from a user who is not awaiting (bot.js:208-209, 231). */
  function Started(chats: ChatStates, chat: ChatId, user: UserId, handle: nat): ChatStates {
    chats[chat := UserStatesOf(chats, chat)[User(user) := AwaitingImage][Timer(user) := TimerHandle(handle)]]
  }

  /** A media message from an awaiting user (bot.js:124-128, 192-197). */
  function Submitted(chats: ChatStates, chat: ChatId, user: UserId): ChatStates {
    AfterUserCleared(chats, chat, UserStatesOf(chats, chat) - {Timer(user)} - {User(user)})
  }

  /** The timeout callback (bot.js:216-221). */
  function TimedOut(chats: ChatStates, chat: ChatId, user: UserId): ChatStates {
    AfterUserCleared(chats, chat, UserStatesOf(chats, chat) - {User(user)})
  }

  /** Storing or deleting one chat's entry leaves every other chat as it was. */
  lemma AfterUserClearedEffect(chats: ChatStates, chat: ChatId, inner: UserStates)
    ensures var r := AfterUserCleared(chats, chat, inner);
            && (chat in r <==> inner != map[])
            && (chat in r ==> r[chat] == inner)
            && (forall c :: c != chat ==> (c in r <==> c in chats) && (c in r ==> r[c] == chats[c]))
  {
    if |inner| == 0 {
      assert inner == map[];
    }
  }

  /**
   * Starting: the user becomes awaiting, the new handle goes under the timer
   * key, and nothing else in any chat changes.
   */
  lemma StartedEffect(chats: ChatStates, chat: ChatId, user: UserId, handle: nat)
    ensures var r := Started(chats, chat, user, handle);
            && Awaiting(r, chat, user)
            && Timer(user) in r[chat] && r[chat][Timer(user)] == TimerHandle(handle)
            && r[chat].Keys == UserStatesOf(chats, chat).Keys + {User(user), Timer(user)}
            && (forall k :: k in UserStatesOf(chats, chat) && k != User(user) && k != Timer(user) ==>
                  r[chat][k] == UserStatesOf(chats, chat)[k])
            && (forall c :: c != chat ==> (c in r <==> c in chats) && (c in r ==> r[c] == chats[c]))
  {
  }

  /**
   * Submitting: the user's timer key and user key go, the chat's entry is
   * deleted exactly when nothing else is left in it, and other users'
   * entries, in this chat and in others, stay.
   */
  lemma SubmittedEffect(chats: ChatStates, chat: ChatId, user: UserId)
    ensures var r := Submitted(chats, chat, user);
            && !Awaiting(r, chat, user)
            && (chat in r ==> Timer(user) !in r[chat])
            && (chat !in r <==> UserStatesOf(chats, chat).Keys <= {User(user), Timer(user)})
            && (chat in r ==> forall k :: k != User(user) && k != Timer(user) ==>
                  (k in r[chat] <==> k in UserStatesOf(chats, chat)) &&
                  (k in r[chat] ==> r[chat][k] == UserStatesOf(chats, chat)[k]))
            && (forall c :: c != chat ==> (c in r <==> c in chats) && (c in r ==> r[c] == chats[c]))
  {
    var inner := UserStatesOf(chats, chat) - {Timer(user)} - {User(user)};
    AfterUserClearedEffect(chats, chat, inner);
    assert inner.Keys == UserStatesOf(chats, chat).Keys - {Timer(user), User(user)};
    assert inner == map[] <==> inner.Keys == {};
  }

  /** Timing out: only the user key goes; other chats stay. */
  lemma TimedOutEffect(chats: ChatStates, chat: ChatId, user: UserId)
    ensures var r := TimedOut(chats, chat, user);
            && !Awaiting(r, chat, user)
            && (chat in r ==> r[chat] == UserStatesOf(chats, chat) - {User(user)})
            && (forall c :: c != chat ==> (c in r <==> c in chats) && (c in r ==> r[c] == chats[c]))
  {
    AfterUserClearedEffect(chats, chat, UserStatesOf(chats, chat) - {User(user)});
  }

  /** A user has at most one pending timer per chat. */
  lemma OneTimerPerUser(chats: ChatStates, timers: map<nat, TimerJob>, next: nat, h1: nat, h2: nat)
    requires Inv(chats, timers, next)
    requires h1 in timers && h2 in timers
    requires timers[h1].chat == timers[h2].chat && timers[h1].user == timers[h2].user
    ensures h1 == h2
  {
  }

  /** A user is awaiting an image exactly when a timer for that chat and user is pending. */
  lemma AwaitingIffPending(chats: ChatStates, timers: map<nat, TimerJob>, next: nat, chat: ChatId, user: UserId)
    requires Inv(chats, timers, next)
    ensures Awaiting(chats, chat, user) <==>
            exists h :: h in timers && timers[h] == TimerJob(chat, user, timers[h].firstName)
  {
    if Awaiting(chats, chat, user) {
      var h := chats[chat][Timer(user)].handle;
      assert timers[h] == TimerJob(chat, user, timers[h].firstName);
    }
  }

  /** Starting a conversation keeps the invariant, with the fresh handle pending. */
  lemma StartKeepsInv(chats: ChatStates, timers: map<nat, TimerJob>, next: nat, chat: ChatId, user: UserId, name: string)
    requires Inv(chats, timers, next)
    requires !Awaiting(chats, chat, user)
    ensures Inv(Started(chats, chat, user, next), timers[next := TimerJob(chat, user, name)], next + 1)
  {
    var r := Started(chats, chat, user, next);
    var t := timers[next := TimerJob(chat, user, name)];
    StartedEffect(chats, chat, user, next);
    forall c, u | Awaiting(r, c, u) ensures HasPendingTimer(r, t, c, u) {
      if c != chat || u != user {
        assert Awaiting(chats, c, u);
      }
    }
    forall h | h in t
      ensures h < next + 1 && Awaiting(r, t[h].chat, t[h].user)
      ensures r[t[h].chat][Timer(t[h].user)] == TimerHandle(h)
    {
      if h != next {
        assert Awaiting(chats, timers[h].chat, timers[h].user);
      }
    }
  }

  /** After a submission every chat holds a subset of the entries it held before. */
  lemma SubmittedShrinks(chats: ChatStates, chat: ChatId, user: UserId)
    ensures var r := Submitted(chats, chat, user);
            forall c, k :: c in r && k in r[c] ==> c in chats && k in chats[c] && r[c][k] == chats[c][k]
  {
    SubmittedEffect(chats, chat, user);
  }

  /** A user still awaiting after a submission was awaiting before, and keeps the same timer. */
  lemma SubmitKeepsOtherPending(chats: ChatStates, timers: map<nat, TimerJob>, next: nat, chat: ChatId, user: UserId, c: ChatId, u: UserId)
    requires Inv(chats, timers, next)
    requires Awaiting(chats, chat, user)
    requires Awaiting(Submitted(chats, chat, user), c, u)
    ensures HasPendingTimer(Submitted(chats, chat, user), timers - {chats[chat][Timer(user)].handle}, c, u)
  {
    SubmittedEffect(chats, chat, user);
    assert c == chat ==> u != user;
    assert Awaiting(chats, c, u);
  }

  /** After a submission every user still awaiting has their timer pending, and that timer was not the one cancelled. */
  lemma SubmitKeepsPending(chats: ChatStates, timers: map<nat, TimerJob>, next: nat, chat: ChatId, user: UserId)
    requires Inv(chats, timers, next)
    requires Awaiting(chats, chat, user)
    ensures var r, t := Submitted(chats, chat, user), timers - {chats[chat][Timer(user)].handle};
            forall c, u :: Awaiting(r, c, u) ==> HasPendingTimer(r, t, c, u)
  {
    forall c, u | Awaiting(Submitted(chats, chat, user), c, u)
      ensures HasPendingTimer(Submitted(chats, chat, user), timers - {chats[chat][Timer(user)].handle}, c, u)
    {
      SubmitKeepsOtherPending(chats, timers, next, chat, user, c, u);
    }
  }

  /** Another user who was awaiting, in this chat or another, still is after a submission, with the same timer key. */
  lemma SubmitKeepsOther(chats: ChatStates, chat: ChatId, user: UserId, c: ChatId, u: UserId)
    requires Awaiting(chats, c, u) && Timer(u) in chats[c]
    requires c != chat || u != user
    ensures var r := Submitted(chats, chat, user);
            Awaiting(r, c, u) && Timer(u) in r[c] && r[c][Timer(u)] == chats[c][Timer(u)]
  {
    var inner := UserStatesOf(chats, chat) - {Timer(user)} - {User(user)};
    AfterUserClearedEffect(chats, chat, inner);
    if c == chat {
      assert User(u) in inner && Timer(u) in inner;
    }
  }

  /** After a submission every timer still pending belongs to a user still awaiting. */
  lemma SubmitKeepsTimers(chats: ChatStates, timers: map<nat, TimerJob>, next: nat, chat: ChatId, user: UserId)
    requires Inv(chats, timers, next)
    requires Awaiting(chats, chat, user)
    ensures var r, t := Submitted(chats, chat, user), timers - {chats[chat][Timer(user)].handle};
            forall h :: h in t ==>
              Awaiting(r, t[h].chat, t[h].user) && r[t[h].chat][Timer(t[h].user)] == TimerHandle(h)
  {
    var h0 := chats[chat][Timer(user)].handle;
    var t := timers - {h0};
    forall h | h in t
      ensures var r := Submitted(chats, chat, user);
              Awaiting(r, t[h].chat, t[h].user) && r[t[h].chat][Timer(t[h].user)] == TimerHandle(h)
    {
      if timers[h].chat == chat && timers[h].user == user {
        OneTimerPerUser(chats, timers, next, h, h0);
      }
      SubmitKeepsOther(chats, chat, user, timers[h].chat, timers[h].user);
    }
  }

  /** A submission keeps the invariant, with the user's timer cancelled. */
  lemma SubmitKeepsInv(chats: ChatStates, timers: map<nat, TimerJob>, next: nat, chat: ChatId, user: UserId)
    requires Inv(chats, timers, next)
    requires Awaiting(chats, chat, user)
    ensures Inv(Submitted(chats, chat, user), timers - {chats[chat][Timer(user)].handle}, next)
  {
    SubmittedEffect(chats, chat, user);
    SubmittedShrinks(chats, chat, user);
    SubmitKeepsPending(chats, timers, next, chat, user);
    SubmitKeepsTimers(chats, timers, next, chat, user);
  }

  /** A timeout firing keeps the invariant, with its own timer no longer pending. */
  lemma FireKeepsInv(chats: ChatStates, timers: map<nat, TimerJob>, next: nat, h0: nat)
    requires Inv(chats, timers, next)
    requires h0 in timers
    ensures Inv(TimedOut(chats, timers[h0].chat, timers[h0].user), timers - {h0}, next)
  {
    var chat, user := timers[h0].chat, timers[h0].user;
    var r := TimedOut(chats, chat, user);
    var t := timers - {h0};
    TimedOutEffect(chats, chat, user);
    TimeoutKeepsChat(chats, timers, next, h0);
    forall c, u | Awaiting(r, c, u) ensures HasPendingTimer(r, t, c, u) {
      assert Awaiting(chats, c, u);
    }
    forall h | h in t
      ensures Awaiting(r, t[h].chat, t[h].user)
      ensures r[t[h].chat][Timer(t[h].user)] == TimerHandle(h)
    {
      if t[h].chat == chat && t[h].user == user {
        OneTimerPerUser(chats, timers, next, h, h0);
      }
    }
  }

  /**
   * When a timer fires, the chat's entry is kept: the fired timer's key is
   * left behind in the inner map, so the map never becomes empty there.
   */
  lemma TimeoutKeepsChat(chats: ChatStates, timers: map<nat, TimerJob>, next: nat, h0: nat)
    requires Inv(chats, timers, next)
    requires h0 in timers
    ensures var r := TimedOut(chats, timers[h0].chat, timers[h0].user);
            timers[h0].chat in r && r[timers[h0].chat][Timer(timers[h0].user)] == TimerHandle(h0)
  {
    var chat, user := timers[h0].chat, timers[h0].user;
    var inner := UserStatesOf(chats, chat) - {User(user)};
    assert Timer(user) in inner;
    AfterUserClearedEffect(chats, chat, inner);
  }
}
