/**
 * The parts of the Telegram API the handlers see (incoming messages and
 * button presses, the calls the bot issues), the saved record of
 * memeSchema.js, and the pure decisions bot.js takes on them.
 */
module Telegram {
  import opened Wrappers
  import opened Text

  type ChatId = int
  type UserId = int
  newtype byte = x: int | 0 <= x < 256

  datatype Sender = Sender(id: UserId, firstName: string)

  /**
   * An incoming message. `photo` lists the file ids of the sizes Telegram
   * offers, smallest first; `video` and `animation` are the file ids of those
   * attachments. `None` is an absent (undefined) field.
   */
  datatype Message = Message(
    chat: ChatId,
    messageId: int,
    from: Sender,
    text: Option<string>,
    photo: Option<seq<string>>,
    video: Option<string>,
    animation: Option<string>)

  /** A press of an inline button: the moderator chat, the message with the buttons, the button's data. */
  datatype CallbackQuery = CallbackQuery(chat: ChatId, messageId: int, data: string)

  /** Where a call sends to: a chat by its numeric id, or the configured target channel. */
  datatype Dest = Chat(id: ChatId) | Channel(name: string)

  /**
   * The texts the bot sends. `Render` gives each its exact wording; the
   * calls below carry the notice rather than the rendered string.
   */
  datatype Notice =
    | PleaseSendMeme
    | ApproveThisMeme
    | Forwarded
    | ForwardFailed
    | ForwardFailedWith(detail: string)
    | TookTooLong(firstName: string)
    | ApprovedMedia
    | RejectedMedia
    | ErrorReport(message: string)
    | EditErrorReport(message: string)

  function Render(n: Notice): (r: string)
    ensures r != ""
  {
    match n
    case PleaseSendMeme => "Please send a meme."
    case ApproveThisMeme => "Approve this meme?"
    case Forwarded => "Your media has been forwarded to the admin for approval."
    case ForwardFailed => "An error occurred while forwarding the media to the admin."
    case ForwardFailedWith(detail) => "An error occurred while forwarding the media to the admin. " + detail
    case TookTooLong(name) => name + " took too long to send an image. The conversation has ended."
    case ApprovedMedia => "You have approved this media."
    case RejectedMedia => "You have rejected this media."
    case ErrorReport(message) => "Error: " + message
    case EditErrorReport(message) => "Error updating message text: " + message
  }

  /** The notices whose text does not depend on anything. */
  predicate IsFixed(n: Notice) {
    n.PleaseSendMeme? || n.ApproveThisMeme? || n.Forwarded? || n.ForwardFailed? || n.ApprovedMedia? || n.RejectedMedia?
  }

  /** No two fixed notices share a text, so every reader can tell them apart. */
  lemma FixedTextsDistinct(n1: Notice, n2: Notice)
    requires IsFixed(n1) && IsFixed(n2)
    ensures Render(n1) == Render(n2) ==> n1 == n2
  {
    if Render(n1) == Render(n2) {
      assert |Render(n1)| == |Render(n2)|;
      if n1.ApprovedMedia? || n1.RejectedMedia? {
        assert Render(n1)[9] == Render(n2)[9];
      }
    }
  }

  /**
   * Both kinds of report reach the moderator chat; whatever the error
   * messages, a failed approval never reads like a failed edit.
   */
  lemma ErrorReportsDistinct(m1: string, m2: string)
    ensures Render(ErrorReport(m1)) != Render(EditErrorReport(m2))
  {
    assert Render(ErrorReport(m1))[5] == ':';
    assert Render(EditErrorReport(m2))[5] == ' ';
  }

  /** One call the bot issues to Telegram, in the order it issues them. */
  datatype Output =
    | SendMessage(to: Dest, text: Notice)
    | SendWithButtons(to: Dest, text: Notice, approveData: string, rejectData: string)
    | ForwardMessage(to: Dest, fromChat: ChatId, messageId: int)
    | SendVideo(to: Dest, fileId: string)
    | SendAnimation(to: Dest, fileId: string)
    | EditMessageText(chat: ChatId, messageId: int, newText: Option<Notice>)

  /** The result of `getFile` then `axios.get` (bot.js:56-63): a thrown error, or the path and the response body. */
  datatype Download = DownloadFailed(error: string) | Downloaded(filePath: string, body: Option<seq<byte>>)

  /** The result of an awaited call that may reject (`newMedia.save()`, `editMessageText`). */
  datatype Outcome = Succeeded | Failed(error: string)

  /** The record `new Meme({fileId, data, contentType})` (memeSchema.js:3-7, bot.js:80-84). */
  datatype Meme = Meme(fileId: string, data: seq<byte>, contentType: string)

  /** The message of the error thrown when the download has no data (bot.js:89). */
  const FetchFailedText := "Failed to fetch file data from Telegram."
  /** `${error.message}` of the thrown `console.error` function, which has no `message`. */
  const UnknownPathError := "undefined"
  /** `${error}` of the TypeError raised by indexing an empty photo list. */
  const EmptyPhotoError := "TypeError: Cannot read properties of undefined (reading 'file_id')"

  /**
   * `msg.photo || msg.video || msg.animation` (bot.js:122). An array is
   * truthy even when empty, so an empty photo list still counts as media; a
   * message without any of the three attachments does not.
   */
  predicate HasMedia(msg: Message): (r: bool)
    ensures msg.photo == Some([]) ==> r
    ensures msg.photo.None? && msg.video.None? && msg.animation.None? ==> !r
  {
    msg.photo.Some? || msg.video.Some? || msg.animation.Some?
  }

  /**
   * `msg.text && msg.text.includes(`@${botUsername}`)` (bot.js:204): the
   * message has a text in which the handle occurs at some position. The
   * truthiness test on the text adds nothing, as the handle is never empty.
   */
  predicate MentionsBot(msg: Message, botUsername: string): (r: bool)
    ensures r <==> msg.text.Some? && exists i :: OccursAt(msg.text.value, "@" + botUsername, i)
  {
    match msg.text
    case None => false
    case Some(text) =>
      ContainsIffOccurs(text, "@" + botUsername);
      text != "" && Contains(text, "@" + botUsername)
  }

  /**
   * The file id submitted (bot.js:132-139): the last, largest photo size, else
   * the video, else the animation. `None` when the photo list is empty, where
   * the source's indexing throws.
   */
  function SubmittedFileId(msg: Message): (r: Option<string>)
    requires HasMedia(msg)
    ensures msg.photo.Some? ==> (r.Some? <==> |msg.photo.value| > 0)
    ensures msg.photo.Some? && r.Some? ==> r.value == msg.photo.value[|msg.photo.value| - 1]
    ensures msg.photo.None? ==> r.Some? && r.value == if msg.video.Some? then msg.video.value else msg.animation.value
  {
    match msg.photo
    case Some(sizes) => if |sizes| > 0 then Some(sizes[|sizes| - 1]) else None
    case None => if msg.video.Some? then msg.video else msg.animation
  }

  /**
   * How the media reaches the target channel (bot.js:147-162): a photo is
   * forwarded with its provenance, a video or animation is re-sent by file id.
   */
  function RelayCall(target: string, msg: Message, fileId: string): (r: Output)
    requires HasMedia(msg)
    ensures !r.EditMessageText? && r.to == Channel(target)
    ensures r.ForwardMessage? <==> msg.photo.Some?
    ensures r.ForwardMessage? ==> r.fromChat == msg.chat && r.messageId == msg.messageId
    ensures r.SendVideo? <==> msg.photo.None? && msg.video.Some?
    ensures r.SendAnimation? <==> msg.photo.None? && msg.video.None?
    ensures !r.ForwardMessage? ==> r.SendVideo? || r.SendAnimation?
    ensures r.SendVideo? || r.SendAnimation? ==> r.fileId == fileId
  {
    if msg.photo.Some? then ForwardMessage(Channel(target), msg.chat, msg.messageId)
    else if msg.video.Some? then SendVideo(Channel(target), fileId)
    else SendAnimation(Channel(target), fileId)
  }

  /**
   * The content type chosen from the Telegram file path (bot.js:69-77):
   * photos are JPEG images, animations and videos are MP4 video, and any
   * other path has no type (the approval then fails).
   */
  function ContentTypeFor(filePath: string): (r: Option<string>)
    ensures r == Some("image/jpeg") <==> StartsWith(filePath, "photos/")
    ensures r == Some("video/mp4") <==> StartsWith(filePath, "animations/") || StartsWith(filePath, "videos/")
    ensures r == None <==> !StartsWith(filePath, "photos/") && !StartsWith(filePath, "animations/") && !StartsWith(filePath, "videos/")
  {
    PrefixesDisjoint(filePath);
    if StartsWith(filePath, "photos/") then Some("image/jpeg")
    else if StartsWith(filePath, "animations/") then Some("video/mp4")
    else if StartsWith(filePath, "videos/") then Some("video/mp4")
    else None
  }

  /** The three prefixes exclude each other, so the order of the checks never decides the type. */
  lemma PrefixesDisjoint(filePath: string)
    ensures !(StartsWith(filePath, "photos/") && StartsWith(filePath, "animations/"))
    ensures !(StartsWith(filePath, "photos/") && StartsWith(filePath, "videos/"))
    ensures !(StartsWith(filePath, "animations/") && StartsWith(filePath, "videos/"))
  {
    assert StartsWith(filePath, "photos/") ==> filePath[0] == 'p';
    assert StartsWith(filePath, "animations/") ==> filePath[0] == 'a';
    assert StartsWith(filePath, "videos/") ==> filePath[0] == 'v';
  }
}
