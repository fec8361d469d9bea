/**
 * The bot's album state as it lives in the process: `albums` and
 * `album_timers` are updated in place by the handlers. Each entry point is a
 * method proved to leave the store in the state the matching AlbumSpec step
 * function describes, and to keep AlbumSpec.Valid.
 */
module AlbumStore {
  import opened Wrappers
  import opened Messages
  import opened Posting
  import opened AlbumSpec

  class Store {
    var albums: map<Gid, Album>
    var order: seq<Gid>
    var timers: map<Gid, TimerId>
    var cancelled: set<TimerId>
    var nextSerial: nat
    /** `GROUP_ID`: the review chat every post goes to. */
    const review: int

    function View(): State
      reads this
    {
      State(albums, order, timers, cancelled, nextSerial)
    }

    ghost predicate Valid()
      reads this
    {
      AlbumSpec.Valid(View())
    }

    /** The store at start-up: both dictionaries empty. */
    constructor (review: int)
      ensures Valid() && View() == Empty && this.review == review
    {
      this.review := review;
      albums, order, timers, cancelled, nextSerial := map[], [], map[], {}, 0;
      EmptyValid();
    }

    /**
     * `handle_media`: a message outside any media group is posted at once;
     * otherwise its group's album gets the media and the group's timer is
     * re-armed.
     */
    method HandleMedia(m: Message) returns (out: seq<Outgoing>)
      requires Valid() && IsMedia(m)
      modifies this
      ensures Valid()
      ensures (View(), out) == HandleMediaStep(old(View()), m, review)
    {
      if !Truthy(m.mediaGroupId) {
        out := SingleMediaPost(m, review);
        return;
      }
      var mgid := m.mediaGroupId.value;
      ghost var before := View();
      ghost var data := AddToAlbum(mgid, m);
      Rearm(mgid);
      out := [];
      MediaStepFields(before, mgid, m, data);
      assert View() == MediaStep(before, mgid, m);
      MediaStepValid(before, mgid, m);
    }

    /**
     * The album half of `handle_media`: create the group's album on its first
     * event, append the media reference, overwrite the caption when the
     * message has a non-empty one. Returns the album as it now is.
     */
    method AddToAlbum(mgid: Gid, m: Message) returns (ghost data: Album)
      requires IsMedia(m)
      modifies this`albums, this`order
      ensures var a0 := if mgid in old(albums) then old(albums)[mgid] else NewAlbum(m);
        data == a0.(media := a0.media + [MediaOf(m)], caption := NextCaption(m, a0.caption))
      ensures albums == old(albums)[mgid := data]
      ensures order == if mgid in old(albums) then old(order) else old(order) + [mgid]
    {
      if mgid !in albums {
        albums := albums[mgid := Album(m.chatId, [], None, Author(m.from))];
        order := order + [mgid];
      }
      var album := albums[mgid];
      if |m.photo| > 0 {
        album := album.(media := album.media + [MediaRef(Photo, m.photo[|m.photo| - 1].fileId)]);
      } else if m.video.Some? {
        album := album.(media := album.media + [MediaRef(Video, m.video.value.fileId)]);
      }
      if Truthy(m.caption) {
        album := album.(caption := m.caption);
      }
      albums := albums[mgid := album];
      data := album;
    }

    /** The timer half of `handle_media`: cancel the group's timer, if any, and arm a new one. */
    method Rearm(mgid: Gid)
      modifies this`timers, this`cancelled, this`nextSerial
      ensures timers == old(timers)[mgid := TimerId(mgid, old(nextSerial))]
      ensures cancelled == if mgid in old(timers) then old(cancelled) + {old(timers)[mgid]} else old(cancelled)
      ensures nextSerial == old(nextSerial) + 1
    {
      if mgid in timers {
        cancelled := cancelled + {timers[mgid]};
      }
      var timer := TimerId(mgid, nextSerial);
      nextSerial := nextSerial + 1;
      timers := timers[mgid := timer];
    }

    /**
     * `handle_text`: walk the albums in insertion order and give the text as
     * caption to the first one opened from the same chat.
     */
    method HandleText(chat: int, text: string)
      requires Valid()
      modifies this`albums
      ensures Valid()
      ensures View() == TextStep(old(View()), chat, text)
    {
      ghost var before := View();
      var keys, current := order, albums;
      var i := 0;
      while i < |keys| && current[keys[i]].chatId != chat
        invariant 0 <= i <= |keys| && Listed(keys, current)
        invariant forall j :: 0 <= j < i ==> current[keys[j]].chatId != chat
      {
        i := i + 1;
      }
      TextStepAt(before, chat, text, i);
      if i < |keys| {
        var g := keys[i];
        albums := albums[g := current[g].(caption := Some(text))];
      }
      assert View() == TextStep(before, chat, text);
      TextStepValid(before, chat, text);
    }

    /**
     * `send_album`: pop the album and the timer entry; when there was an album,
     * caption its first item and hand the list and the acknowledgment to the
     * transport.
     */
    method SendAlbum(gid: Gid) returns (out: seq<Outgoing>)
      requires Valid()
      modifies this
      ensures Valid()
      ensures (View(), out) == SendAlbumStep(old(View()), gid, review)
    {
      SendAlbumValid(View(), gid, review);
      var data := if gid in albums then Some(albums[gid]) else None;
      albums := albums - {gid};
      order := Without(order, gid);
      timers := timers - {gid};

      if data.None? {
        out := [];
        return;
      }
      var media := data.value.media;
      var caption := ComposeCaption(data.value.caption, data.value.author);
      var items := seq(|media|, i requires 0 <= i < |media| => InputMedia(media[i], None));
      items := items[0 := items[0].(caption := Some(caption))];
      out := [SendMediaGroup(review, items), SendMessage(data.value.chatId, AckText)];
    }

    /** Timer `t` fires; only the timer registered for its group runs `send_album`. */
    method Fire(t: TimerId) returns (out: seq<Outgoing>)
      requires Valid()
      modifies this
      ensures Valid()
      ensures (View(), out) == FireStep(old(View()), t, review)
    {
      if t.gid in timers && timers[t.gid] == t {
        out := SendAlbum(t.gid);
      } else {
        out := [];
      }
    }
  }
}
