/**
 * The parts of an incoming Telegram message the album store reads, the media
 * references it keeps, the requests it hands to the transport, and the author
 * tag (`get_author`) attached to every post sent for review.
 */
module Messages {
  import opened Wrappers
  import Decimal

  /** `message.from_user`: only the fields the author tag shows. */
  datatype User = User(id: int, firstName: Option<string>, username: Option<string>)

  /** One entry of `message.photo` (Telegram sends several sizes, smallest first). */
  datatype PhotoSize = PhotoSize(fileId: string)

  /** `message.video`, reduced to its file id. */
  datatype VideoFile = VideoFile(fileId: string)

  datatype Message = Message(
    chatId: int,
    from: User,
    mediaGroupId: Option<string>,
    photo: seq<PhotoSize>,
    video: Option<VideoFile>,
    caption: Option<string>)

  datatype MediaKind = Photo | Video

  /** What `InputMediaPhoto(file_id)` / `InputMediaVideo(file_id)` stand for. */
  datatype MediaRef = MediaRef(kind: MediaKind, fileId: string)

  /** One element of the list given to `send_media_group`. */
  datatype InputMedia = InputMedia(media: MediaRef, caption: Option<string>)

  /** A request handed to the Telegram transport. */
  datatype Outgoing =
    | SendPhoto(chat: int, fileId: string, caption: string)
    | SendVideo(chat: int, fileId: string, caption: string)
    | SendMediaGroup(chat: int, items: seq<InputMedia>)
    | SendMessage(chat: int, text: string)

  /** Python's `x or ""` for an optional string. */
  function OrEmpty(s: Option<string>): string {
    if s.Some? then s.value else ""
  }

  /** Python truthiness of an optional string: present and non-empty. */
  predicate Truthy(s: Option<string>) {
    OrEmpty(s) != ""
  }

  /**
   * The handler is registered for the content types "photo" and "video" only,
   * so Telegram hands it a message with at least one photo size or a video.
   */
  predicate IsMedia(m: Message) {
    |m.photo| > 0 || m.video.Some?
  }

  /** The media reference `handle_media` appends: the largest photo size, else the video. */
  function MediaOf(m: Message): (r: MediaRef)
    requires IsMedia(m)
    ensures |m.photo| > 0 ==> r == MediaRef(Photo, m.photo[|m.photo| - 1].fileId)
    ensures |m.photo| == 0 ==> r == MediaRef(Video, m.video.value.fileId)
  {
    if |m.photo| > 0 then MediaRef(Photo, m.photo[|m.photo| - 1].fileId)
    else MediaRef(Video, m.video.value.fileId)
  }

  const AuthorPrefix := "\n\n👤 Отправитель: "
  const NoName := "Без имени"
  const NoUsername := "без username"
  const IdLabel := ") | ID: "

  /** `user.first_name or "Без имени"`: the name shown, never empty. */
  function DisplayName(u: User): (r: string)
    ensures Truthy(u.firstName) ==> r == u.firstName.value
    ensures !Truthy(u.firstName) ==> r == NoName
    ensures |r| > 0
  {
    if Truthy(u.firstName) then u.firstName.value else NoName
  }

  /**
   * `f"@{user.username}"`, or "без username" when there is none; it starts
   * with '@' exactly when the user has a username.
   */
  function Handle(u: User): (r: string)
    ensures |r| > 0 && (r[0] == '@' <==> Truthy(u.username))
    ensures Truthy(u.username) ==> r[1..] == u.username.value
    ensures !Truthy(u.username) ==> r == NoUsername
  {
    if Truthy(u.username) then "@" + u.username.value
    else assert NoUsername[0] == 'б'; NoUsername
  }

  /** The end of the tag: the handle in parentheses, then the user id. */
  function AuthorTail(u: User): string {
    " (" + Handle(u) + IdLabel + Decimal.IntString(u.id)
  }

  /**
   * `get_author`: the sender tag appended to every caption sent for review.
   * It starts with "\n\n👤 Отправитель: ", then shows the sender's name,
   * then the tail with the handle and the id (AuthorShape).
   */
  function Author(u: User): (r: string)
    ensures AuthorPrefix <= r && AuthorPrefix + DisplayName(u) <= r
    ensures |r| == |AuthorPrefix| + |DisplayName(u)| + |AuthorTail(u)|
  {
    var head := AuthorPrefix + DisplayName(u);
    Concat(head, AuthorTail(u));
    Concat(AuthorPrefix, DisplayName(u));
    head + AuthorTail(u)
  }

  /** After the sender's name, the tag holds exactly the tail. */
  lemma AuthorShape(u: User)
    ensures Author(u)[|AuthorPrefix| + |DisplayName(u)|..] == AuthorTail(u)
  {
    Concat(AuthorPrefix + DisplayName(u), AuthorTail(u));
  }

  /** The tail ends with the decimal user id, after ") | ID: ". */
  lemma AuthorTailShape(u: User)
    ensures var t := AuthorTail(u); var id := IdLabel + Decimal.IntString(u.id);
      |t| > |id| && t[|t| - |id|..] == id
  {
    var id := IdLabel + Decimal.IntString(u.id);
    var front := " (" + Handle(u);
    assert AuthorTail(u) == front + id;
    Concat(front, id);
  }

  lemma Concat(a: string, b: string)
    ensures (a + b)[..|a|] == a && (a + b)[|a|..] == b
  {
  }
}
