# Album aggregation store of the review bot

This project models how the Telegram review bot in `main.py` collects the items of a
media group ("album") before posting it to the review chat. The Dafny model covers:

- the two module-level dictionaries: `albums` maps a media group id to its record
  `{chat_id, media, caption, author}`, and `album_timers` maps the id to the
  pending flush timer;
- the handlers that change them:
  - `handle_media` creates the record on a group's first event, appends one media
    reference, keeps the last non-empty caption, and cancels and re-arms the
    group's timer;
  - `handle_text` gives a loose text to the first open album of the same chat;
- `send_album`, which runs when a timer fires: it pops the album and its timer,
  captions the first item with `(caption or "") + author` and posts the ordered
  media list;
- `send_single_media` for media sent outside any group;
- `get_author`, the sender tag added to every caption.

Modules:

- `Wrappers`: `Option`.
- `Decimal`: Python's `str()` of an integer, with its inverse. It renders the user id in
  the author tag.
- `Messages`: the message fields the handlers read, media references, the requests handed
  to the transport, and `get_author` (`Author`).
- `Posting`: the `(caption or "") + author` composition, the single-media post and the
  item list of a grouped post.
- `AlbumSpec`: the store as a value (`State`), with one step function per entry point:
  - the invariant `Valid` and the lemmas that each step keeps it;
  - lemmas about whole bursts of events for one group (`Feed`) followed by the flush.
- `AlbumStore`: the class `Store`, whose fields are the two dictionaries. Its methods
  update the fields in place, and each is proved to produce exactly the state and the
  output of the matching `AlbumSpec` step.

Timers are abstract tokens `TimerId(gid, serial)`:

- arming a timer takes the next serial number;
- `cancel()` puts the token in the set `cancelled`;
- a timer firing is the explicit event `Fire(t)`. It runs `send_album` for `t.gid`
  only while `t` is the timer registered for that group. Cancelling a
  `threading.Timer` before it runs prevents the callback; in a sequential model that
  is the same thing.

The sends become values of type `Outgoing`:

- `SendPhoto` and `SendVideo`;
- `SendMediaGroup`, whose items are `InputMedia(media, caption)`;
- `SendMessage`.

`GROUP_ID` is the `review` parameter of the store.

`handle_text` captions the oldest open album of the chat, in dictionary insertion order
(main.py:157-160); `State.order` records that order. It re-arms no timer (`TextStep`
keeps `timers`, `cancelled` and `nextSerial`).

## Model

| member | source | states |
|---|---|---|
| Decimal.NatStringDigits | main.py:58 | `str()` of a non-negative id is a non-empty digit string with a leading zero only for 0 |
| Decimal.IntString | main.py:58 | `str()` of an int is non-empty and starts with a minus sign exactly when the int is negative |
| Decimal.IntStringDigits | main.py:58 | `str()` of an int has a minus sign exactly when it is negative and digits everywhere else |
| Decimal.NatStringRoundTrip | main.py:58 | reading back the digits of a non-negative integer gives the integer |
| Decimal.IntStringRoundTrip | main.py:58 | the id shown in the author tag reads back as the user's id |
| Decimal.IntStringInjective | main.py:58 | distinct user ids render as distinct strings |
| Messages.MediaOf | main.py:135-142 | the appended reference is the last (largest) photo size when the message has photos, else its video |
| Messages.DisplayName | main.py:56 | the name is `first_name`, or "Без имени" when it is missing or empty; it is never empty |
| Messages.Handle | main.py:57 | the handle is "@" + username, or "без username" when there is none, and starts with '@' exactly when a username is present |
| Messages.Author | main.py:54-58 | the tag begins with "\n\n👤 Отправитель: " followed by the display name, and its length is that of the prefix, the name and the handle-and-id tail together |
| Messages.AuthorShape | main.py:54-58 | after the prefix and the display name, the tag holds exactly the handle-and-id tail |
| Messages.AuthorTailShape | main.py:58 | the tag ends with the ID label followed by the decimal user id |
| Posting.ComposeCaption | main.py:179 | the caption is the user's caption (empty when absent) followed by the author tag; with no non-empty caption it is the tag alone |
| Posting.SingleMediaPost | main.py:178-194 | an ungrouped photo or video goes to the review chat with the composed caption and the largest photo size or the video, then the sender's chat is acknowledged; a message with neither gets only the acknowledgment |
| Posting.GroupItems | main.py:170-172 | the grouped post lists every media reference in order, with the caption on the first item only |
| AlbumSpec.EmptyValid | main.py:25-26 | the empty store satisfies the store invariant |
| AlbumSpec.NextCaption | main.py:144-145 | a non-empty caption replaces the stored one; an absent or empty caption keeps it |
| AlbumSpec.NewAlbum | main.py:126-131 | a group's first event creates a record with the event's chat and sender tag, no media and no caption |
| AlbumSpec.MediaStep | main.py:125-152 | a group's first event creates an album with the event's chat, author, one media item and its caption; a later one appends one item and keeps chat and author; other albums are unchanged; the group gets a freshly armed timer, any previous one is cancelled, and other timers are untouched |
| AlbumSpec.HandleMediaStep | main.py:118-121 | a media message without a group id leaves the store unchanged and is posted as a single media; one with a group id adds its group to the albums and sends nothing |
| AlbumSpec.MediaStepOrder | main.py:125-131 | after a media event every album is listed exactly once in insertion order, a new group at the end |
| AlbumSpec.MediaStepTimers | main.py:147-152 | after a media event every registered timer belongs to its group and is not cancelled |
| AlbumSpec.MediaStepValid | main.py:125-152 | `handle_media` keeps the store invariant, including that every album has media |
| AlbumSpec.FirstOpen | main.py:157-158 | the index found is that of the first album in insertion order opened from the chat, or the end when there is none |
| AlbumSpec.FirstOpenIs | main.py:157-160 | any index satisfying the first-match condition is the one the search finds |
| AlbumSpec.TextStep | main.py:155-160 | a loose text never touches the insertion order or any timer |
| AlbumSpec.TextStepEffect | main.py:155-160 | only the caption of the first album of the chat changes, to the text; albums of other chats are untouched; with no album for the chat nothing changes |
| AlbumSpec.TextStepAt | main.py:157-160 | when the search stops at index i, the text becomes the caption of the album at i, or nothing changes when i is the end |
| AlbumSpec.TextStepValid | main.py:155-160 | `handle_text` keeps the store invariant |
| AlbumSpec.Without | main.py:164 | popping a key removes it from the insertion order and keeps every other key |
| AlbumSpec.WithoutDistinct | main.py:164 | popping a key keeps the insertion order free of duplicates |
| AlbumSpec.WithoutAt | main.py:164 | popping a key found once at position k leaves the keys before and after it in their order |
| AlbumSpec.TakeStep | main.py:164-165 | both the album and the timer entry are removed, the timer entry even when there is no album, and the album is returned exactly when there was one |
| AlbumSpec.FlushPost | main.py:170-175 | the grouped post goes to the review chat with every media item in append order, the first captioned `(caption or "") + author` and the rest uncaptioned, then the album's own chat is acknowledged |
| AlbumSpec.SendAlbumStep | main.py:163-175 | `send_album` takes the album and posts it when it existed, and sends nothing otherwise |
| AlbumSpec.SendAlbumValid | main.py:163-175 | `send_album` keeps the store invariant |
| AlbumSpec.SendAlbumIdempotent | main.py:164-168 | a second `send_album` for the same group finds nothing, sends nothing and changes nothing |
| AlbumSpec.FireStep | main.py:150-151 | a firing timer runs `send_album` for its group only while it is the group's registered timer |
| AlbumSpec.CancelledTimerIsNoOp | main.py:147-148 | a cancelled timer never sends or changes anything |
| AlbumSpec.MediaRefs | main.py:135-142 | the references of a burst, one per event, in event order |
| AlbumSpec.LastCaptionKept | main.py:144-145 | events without a non-empty caption leave the stored caption as it was |
| AlbumSpec.LastCaptionIsLast | main.py:144-145 | the stored caption is that of the last event carrying a non-empty one |
| AlbumSpec.FeedValid | main.py:125-152 | a burst of media events keeps the store invariant |
| AlbumSpec.FeedExtends | main.py:133-145 | events for an open album append their media in order, keep its chat and author, let the last caption win, and change no other album or the order |
| AlbumSpec.FeedNew | main.py:125-145 | a burst for a new group adds exactly one album, at the end of the order, with the first event's chat and author, all media in order and the last caption |
| AlbumSpec.FeedTimers | main.py:147-152 | a burst of N events arms N timers; the last is the group's registered timer and other groups' timers are untouched |
| AlbumSpec.FeedCancels | main.py:147-148 | the N - 1 earlier timers of a burst are all cancelled, and no earlier cancellation is undone |
| AlbumSpec.RemoveLast | main.py:164-165 | popping the group that was added last restores the albums, timers and order from before it |
| AlbumSpec.FireRegistered | main.py:163-175 | the registered timer of the last-opened group posts its album and restores the store from before the group was opened |
| AlbumSpec.BurstFlushesOnce | main.py:125-175 | a burst for a new group followed by its live timer posts exactly one grouped post, with all items in order, the last caption plus the first sender's tag, and the acknowledgment to the first event's chat; the store returns to its state before the burst, and no timer of the group sends anything afterwards |
| AlbumStore.Store.constructor | main.py:25-26 | the store starts with both dictionaries empty |
| AlbumStore.Store.HandleMedia | main.py:117-152 | updating the fields in place yields exactly the state and output of `HandleMediaStep`, and keeps the invariant |
| AlbumStore.Store.AddToAlbum | main.py:125-145 | the group's album is created if missing, gets one more media reference and the caption when non-empty; no other album changes |
| AlbumStore.Store.Rearm | main.py:147-152 | the group's old timer is cancelled and a new one, with a fresh serial, is registered |
| AlbumStore.Store.HandleText | main.py:155-160 | the loop over the albums in insertion order stops at the first album of the chat and sets its caption, as `TextStep` describes |
| AlbumStore.Store.SendAlbum | main.py:163-175 | popping both entries and building the caption and items in place gives exactly `SendAlbumStep` |
| AlbumStore.Store.Fire | main.py:150-151 | a timer callback runs `SendAlbum` only for the registered timer, as `FireStep` describes |

## Left out

- Telegram transport (`send_message`, `send_media_group`, `send_photo`, `send_video`,
  `infinity_polling`): the model returns the requests as `Outgoing` values. Transport
  failures are network behaviour and are not modelled.
- Real time and threads: the 0.8 second delay, and races between `cancel()` and a
  timer firing or between concurrent handlers. The store is modelled as sequential,
  and a firing is an explicit event.
- Environment loading (`BOT_TOKEN`, `GROUP_ID` from `.env`): `GROUP_ID` is the store's
  `review` parameter.
- The keyboard and fixed-text handlers (`main_keyboard`, `start`, `advertisement`,
  `delete_post`, `publish_start`): they are UI with no state. Because of them, the
  `/start` command (main.py:61) and the three button texts reach those handlers and not
  `handle_text`. The routing of messages to handlers is not modelled.
- `InputMediaPhoto` and `InputMediaVideo` library objects: they become `MediaRef(kind, fileId)`.
- AlbumStore.Store.HandleMedia: requires `IsMedia(m)`, a photo or a video. The handler
  is registered for the content types "photo" and "video" only, so other messages never
  reach it.
- AlbumSpec.Feed: the burst lemmas cover events for one group in a row. Interleavings
  of several groups are covered only step by step, by the `Valid` lemmas and by
  `MediaStep`, `TextStep` and `FireStep`.
- Message fields that the core does not read (text formatting, sizes and the like) are
  not modelled.
