/**
 * What is sent for review: the caption composition shared by
 * `send_single_media` and `send_album`, the single-media post, and the
 * media list of a grouped post.
 */
module Posting {
  import opened Wrappers
  import opened Messages

  /** The acknowledgment sent back to the submitting chat. */
  const AckText := "✅ Пост отправлен на проверку"

  /** `(caption or "") + author`: the user's caption, if any, then the author tag. */
  function ComposeCaption(caption: Option<string>, author: string): (r: string)
    ensures |r| == |OrEmpty(caption)| + |author|
    ensures r[..|OrEmpty(caption)|] == OrEmpty(caption)
    ensures r[|OrEmpty(caption)|..] == author
    ensures !Truthy(caption) ==> r == author
  {
    Concat(OrEmpty(caption), author);
    OrEmpty(caption) + author
  }

  /**
   * `send_single_media`: a message without a media group goes straight to the
   * review chat with the composed caption, and the sender is acknowledged.
   */
  function SingleMediaPost(m: Message, review: int): (out: seq<Outgoing>)
    ensures |out| == (if IsMedia(m) then 2 else 1)
    ensures out[|out| - 1] == SendMessage(m.chatId, AckText)
    ensures IsMedia(m) ==>
      var cap := ComposeCaption(m.caption, Author(m.from));
      var ref := MediaOf(m);
      out[0] == if ref.kind == Photo then SendPhoto(review, ref.fileId, cap)
                else SendVideo(review, ref.fileId, cap)
  {
    var caption := ComposeCaption(m.caption, Author(m.from));
    var ack := SendMessage(m.chatId, AckText);
    if |m.photo| > 0 then [SendPhoto(review, m.photo[|m.photo| - 1].fileId, caption), ack]
    else if m.video.Some? then [SendVideo(review, m.video.value.fileId, caption), ack]
    else [ack]
  }

  /**
   * The list handed to `send_media_group`: every media reference in order,
   * with the caption on the first item only.
   */
  function GroupItems(media: seq<MediaRef>, caption: string): (items: seq<InputMedia>)
    requires |media| > 0
    ensures |items| == |media|
    ensures forall i :: 0 <= i < |items| ==> items[i].media == media[i]
    ensures items[0].caption == Some(caption)
    ensures forall i :: 0 < i < |items| ==> items[i].caption == None
  {
    var plain := seq(|media|, i requires 0 <= i < |media| => InputMedia(media[i], None));
    plain[0 := plain[0].(caption := Some(caption))]
  }
}
