/** The Instagram webhook endpoints: the subscription handshake, direct
    messages, story mentions and `mentions` changes, and the helper that
    maps singular quota keys to plural ones. */
module InstagramWebhook {
  import opened Common
  import opened Entities
  import opened MediaTypes

  // ---------------------------------------------------------------------
  // Quota keys
  // ---------------------------------------------------------------------

  /** An object that may carry each quota under its plural or singular key;
      `None` is a missing or null key. */
  datatype QuotaKeys = QuotaKeys(
    stories: Option<int>, story: Option<int>,
    posts: Option<int>, post: Option<int>,
    reels: Option<int>, reel: Option<int>)

  datatype PluralKeys = PluralKeys(stories: int, posts: int, reels: int)

  /** `plural ?? singular ?? 0`. */
  function Coalesce(plural: Option<int>, singular: Option<int>): (r: int)
    ensures plural.Some? ==> r == plural.value
    ensures plural.None? && singular.Some? ==> r == singular.value
    ensures plural.None? && singular.None? ==> r == 0
  {
    if plural.Some? then plural.value else if singular.Some? then singular.value else 0
  }

  /** Each quota under its plural key, taken from the plural key when
      present, else from the singular key, else 0. */
  function MapToPluralKeys(o: QuotaKeys): (r: PluralKeys)
    ensures r.stories == Coalesce(o.stories, o.story)
    ensures r.posts == Coalesce(o.posts, o.post)
    ensures r.reels == Coalesce(o.reels, o.reel)
  {
    PluralKeys(Coalesce(o.stories, o.story), Coalesce(o.posts, o.post), Coalesce(o.reels, o.reel))
  }

  /** The plural keys of an object given back as an object with only plural
      keys map to themselves, and the singular keys then play no part. */
  lemma MapToPluralKeysIsStable(o: QuotaKeys, story: Option<int>, post: Option<int>, reel: Option<int>)
    ensures var r := MapToPluralKeys(o);
            MapToPluralKeys(QuotaKeys(Some(r.stories), story, Some(r.posts), post, Some(r.reels), reel)) == r
  {
  }

  // ---------------------------------------------------------------------
  // Subscription handshake
  // ---------------------------------------------------------------------

  /** The handshake reply: the echoed challenge, or an HTTP error. */
  datatype VerifyReply = Challenge(challenge: string) | HttpError(status: nat, message: string)

  /** Missing query parameters are empty strings (both are falsy).
      The challenge is echoed exactly for a `subscribe` request whose token
      is the configured one; a present but wrong pair is 403, a missing
      mode or token is 400. */
  function VerifyWebhook(mode: string, challenge: string, token: string, verifyToken: string): (r: VerifyReply)
    ensures r.Challenge? <==> mode == "subscribe" && token != "" && token == verifyToken
    ensures r.Challenge? ==> r.challenge == challenge
    ensures mode == "" || token == "" ==> r == HttpError(400, "Missing parameters")
    ensures mode != "" && token != "" && !r.Challenge? ==> r == HttpError(403, "Verification failed")
  {
    if mode != "" && token != "" then
      if mode == "subscribe" && token == verifyToken then Challenge(challenge)
      else HttpError(403, "Verification failed")
    else HttpError(400, "Missing parameters")
  }

  /** With no verify token configured the handshake can never succeed. */
  lemma UnsetVerifyTokenNeverVerifies(mode: string, challenge: string, token: string)
    ensures VerifyWebhook(mode, challenge, token, "").HttpError?
  {
  }

  // ---------------------------------------------------------------------
  // Payloads
  // ---------------------------------------------------------------------

  /** A message attachment: its type and `payload.url`. */
  datatype Attachment = Attachment(kind: string, url: Option<string>)

  /** A `messaging` event. `None` is a missing field; `timestamp` is in
      milliseconds. */
  datatype MessagingEvent = MessagingEvent(
    senderId: Option<string>,
    mid: Option<string>,
    text: Option<string>,
    timestamp: Option<int>,
    attachments: seq<Attachment>)

  /** The media details the Graph API returns for a media id. */
  datatype Media = Media(permalink: string, mediaType: string, timestamp: int)

  /** A `changes` item. `replies` are the Graph API's answers to the
      successive media-detail requests for `mediaId`, `None` for a request
      that fails; requests past the end of the list fail too. */
  datatype Change = Change(field: string, mediaId: string, from: Option<string>, replies: seq<Option<Media>>)

  /** An `entry`; a missing `messaging` or `changes` list is empty. */
  datatype Entry = Entry(messaging: seq<MessagingEvent>, changes: seq<Change>)

  /** A string field present and non-empty (JavaScript truthiness). */
  predicate Truthy(s: Option<string>) {
    s.Some? && s.value != ""
  }

  // ---------------------------------------------------------------------
  // Direct messages
  // ---------------------------------------------------------------------

  predicate HasMid(msgs: seq<InstagramMessage>, mid: string) {
    exists i :: 0 <= i < |msgs| && msgs[i].mid == mid
  }

  /** The event carries a message the handler stores: every field non-empty
      and the mid not seen before. */
  predicate StoresMessage(msgs: seq<InstagramMessage>, ev: MessagingEvent) {
    Truthy(ev.mid) && Truthy(ev.senderId) && Truthy(ev.text) && !HasMid(msgs, ev.mid.value)
  }

  /** The message table after the events, in order. */
  function SaveMessages(msgs: seq<InstagramMessage>, events: seq<MessagingEvent>): (r: seq<InstagramMessage>)
    decreases |events|
  {
    if events == [] then msgs
    else
      var ev := events[0];
      var next := if StoresMessage(msgs, ev)
                  then msgs + [InstagramMessage(ev.senderId.value, ev.text.value, ev.mid.value)]
                  else msgs;
      SaveMessages(next, events[1..])
  }

  function SaveMessageEntries(msgs: seq<InstagramMessage>, entries: seq<Entry>): (r: seq<InstagramMessage>)
    decreases |entries|
  {
    if entries == [] then msgs
    else SaveMessageEntries(SaveMessages(msgs, entries[0].messaging), entries[1..])
  }

  /** Every stored message has a non-empty sender, text and mid, and no two
      share a mid. */
  predicate MessagesWellFormed(msgs: seq<InstagramMessage>) {
    && (forall i :: 0 <= i < |msgs| ==> msgs[i].senderId != "" && msgs[i].text != "" && msgs[i].mid != "")
    && (forall i, j :: 0 <= i < j < |msgs| ==> msgs[i].mid != msgs[j].mid)
  }

  /** Handling messages only appends, and keeps the table well formed. */
  lemma {:induction false} SaveMessagesKeepsWellFormed(msgs: seq<InstagramMessage>, events: seq<MessagingEvent>)
    requires MessagesWellFormed(msgs)
    ensures MessagesWellFormed(SaveMessages(msgs, events))
    ensures msgs <= SaveMessages(msgs, events)
    decreases |events|
  {
    if events != [] {
      var ev := events[0];
      if StoresMessage(msgs, ev) {
        var next := msgs + [InstagramMessage(ev.senderId.value, ev.text.value, ev.mid.value)];
        forall i, j | 0 <= i < j < |next| ensures next[i].mid != next[j].mid {
          if j == |msgs| {
            assert next[i] == msgs[i];
          } else {
            assert next[i] == msgs[i] && next[j] == msgs[j];
          }
        }
        SaveMessagesKeepsWellFormed(next, events[1..]);
      } else {
        SaveMessagesKeepsWellFormed(msgs, events[1..]);
      }
    }
  }

  lemma {:induction false} SaveMessageEntriesKeepsWellFormed(msgs: seq<InstagramMessage>, entries: seq<Entry>)
    requires MessagesWellFormed(msgs)
    ensures MessagesWellFormed(SaveMessageEntries(msgs, entries))
    ensures msgs <= SaveMessageEntries(msgs, entries)
    decreases |entries|
  {
    if entries != [] {
      var next := SaveMessages(msgs, entries[0].messaging);
      SaveMessagesKeepsWellFormed(msgs, entries[0].messaging);
      SaveMessageEntriesKeepsWellFormed(next, entries[1..]);
    }
  }

  /** A delivery repeated by Instagram stores nothing new. */
  lemma RedeliveredMessageIgnored(msgs: seq<InstagramMessage>, ev: MessagingEvent)
    ensures SaveMessages(SaveMessages(msgs, [ev]), [ev]) == SaveMessages(msgs, [ev])
  {
    var once := SaveMessages(msgs, [ev]);
    var next := if StoresMessage(msgs, ev)
                then msgs + [InstagramMessage(ev.senderId.value, ev.text.value, ev.mid.value)]
                else msgs;
    assert [ev][1..] == [];
    assert once == SaveMessages(next, []) == next;
    if StoresMessage(msgs, ev) {
      assert once[|msgs|].mid == ev.mid.value;
    }
    assert !StoresMessage(once, ev);
  }

  // ---------------------------------------------------------------------
  // Story mentions and media mentions
  // ---------------------------------------------------------------------

  const StoryMention: string := "story_mention"

  /** The outcome of a stretch of the handler: it ran to the end, or a save
      threw and the rest of the payload was abandoned. Rows saved before the
      throw stay saved. */
  datatype Outcome = Done(store: seq<Activity>) | Aborted(store: seq<Activity>)

  /** The event's instant, or `now` when it is missing or zero. */
  function EventTime(ev: MessagingEvent, now: int): (r: int)
    ensures ev.timestamp.Some? && ev.timestamp.value != 0 ==> r == ev.timestamp.value
    ensures ev.timestamp.None? || ev.timestamp.value == 0 ==> r == now
  {
    if ev.timestamp.Some? && ev.timestamp.value != 0 then ev.timestamp.value else now
  }

  /** The row a story mention saves: a `story` under the sender's id, not
      linked to a user. */
  function StoryRecord(ev: MessagingEvent, url: string, now: int): Activity
    requires ev.senderId.Some?
  {
    Activity("story", url, EventTime(ev, now), ev.senderId.value, None, now)
  }

  /** The story-mention attachments of an event; a missing url or sender
      makes the save throw (both columns are NOT NULL). */
  function SaveStories(store: seq<Activity>, ev: MessagingEvent, atts: seq<Attachment>, now: int): (r: Outcome)
    decreases |atts|
  {
    if atts == [] then Done(store)
    else
      var a := atts[0];
      if a.kind != StoryMention then SaveStories(store, ev, atts[1..], now)
      else if a.url.None? || ev.senderId.None? then Aborted(store)
      else SaveStories(store + [StoryRecord(ev, a.url.value, now)], ev, atts[1..], now)
  }

  /** The rows the story mentions of an event add when nothing throws. */
  function StoryRows(ev: MessagingEvent, atts: seq<Attachment>, now: int): (r: seq<Activity>)
    requires ev.senderId.Some?
    requires forall k :: 0 <= k < |atts| && atts[k].kind == StoryMention ==> atts[k].url.Some?
    decreases |atts|
  {
    if atts == [] then []
    else if atts[0].kind != StoryMention then StoryRows(ev, atts[1..], now)
    else [StoryRecord(ev, atts[0].url.value, now)] + StoryRows(ev, atts[1..], now)
  }

  /** The event's story mentions are saved in full exactly when each has a
      url and the event a sender; then each adds its own row. */
  lemma {:induction false} SaveStoriesDone(store: seq<Activity>, ev: MessagingEvent, atts: seq<Attachment>, now: int)
    ensures SaveStories(store, ev, atts, now).Done? <==>
      forall k :: 0 <= k < |atts| && atts[k].kind == StoryMention ==> atts[k].url.Some? && ev.senderId.Some?
    ensures SaveStories(store, ev, atts, now).Done? && ev.senderId.Some? ==>
      (forall k :: 0 <= k < |atts| && atts[k].kind == StoryMention ==> atts[k].url.Some?) &&
      SaveStories(store, ev, atts, now).store == store + StoryRows(ev, atts, now)
    ensures SaveStories(store, ev, atts, now).Done? && ev.senderId.None? ==>
      SaveStories(store, ev, atts, now).store == store
    ensures store <= SaveStories(store, ev, atts, now).store
    decreases |atts|
  {
    if atts != [] {
      var a := atts[0];
      var rest := atts[1..];
      assert forall k :: 1 <= k < |atts| ==> atts[k] == rest[k - 1];
      if a.kind != StoryMention {
        SaveStoriesDone(store, ev, rest, now);
      } else if a.url.None? || ev.senderId.None? {
        assert !(atts[0].url.Some? && ev.senderId.Some?);
      } else {
        var rec := StoryRecord(ev, a.url.value, now);
        SaveStoriesDone(store + [rec], ev, rest, now);
        var r := SaveStories(store + [rec], ev, rest, now);
        if r.Done? {
          assert StoryRows(ev, atts, now) == [rec] + StoryRows(ev, rest, now);
          AppendAssoc(store, [rec], StoryRows(ev, rest, now));
        }
      }
    }
  }

  /** Story mentions are not de-duplicated: an event repeating the same
      story url saves it twice. */
  lemma StoryMentionsMayRepeat(ev: MessagingEvent, url: string, now: int)
    requires ev.senderId.Some?
    ensures var a := Attachment(StoryMention, Some(url));
            var r := SaveStories([], ev, [a, a], now);
            r.Done? && |r.store| == 2 && !PermalinksUnique(r.store)
  {
    var a := Attachment(StoryMention, Some(url));
    var rec := StoryRecord(ev, url, now);
    assert [a, a][1..] == [a];
    assert [a][1..] == [];
    var empty: seq<Activity> := [];
    assert empty + [rec] == [rec] && [rec] + [rec] == [rec, rec];
    assert SaveStories([], ev, [a, a], now) == SaveStories([rec], ev, [a], now);
    assert SaveStories([rec], ev, [a], now) == SaveStories([rec, rec], ev, [], now);
    var both: seq<Activity> := [rec, rec];
    assert both[0].permalink == both[1].permalink;
  }

  function SaveEvents(store: seq<Activity>, events: seq<MessagingEvent>, now: int): (r: Outcome)
    decreases |events|
  {
    if events == [] then Done(store)
    else
      match SaveStories(store, events[0], events[0].attachments, now)
      case Aborted(s) => Aborted(s)
      case Done(s) => SaveEvents(s, events[1..], now)
  }

  /** The first three media-detail requests, tried in order until one
      succeeds; requests are numbered from `i` and `n` remain. */
  function Attempt(replies: seq<Option<Media>>, i: nat): Option<Media> {
    if i < |replies| then replies[i] else None
  }

  function FirstReply(replies: seq<Option<Media>>, i: nat, n: nat): (r: Option<Media>)
    ensures r.Some? <==> exists k :: i <= k < i + n && Attempt(replies, k).Some?
    ensures r.Some? ==> exists k :: i <= k < i + n && Attempt(replies, k) == r
    decreases n
  {
    if n == 0 then None
    else if Attempt(replies, i).Some? then Attempt(replies, i)
    else FirstReply(replies, i + 1, n - 1)
  }

  /** The media the retry loop ends with, `None` when all three requests
      failed (the last error is rethrown and caught by the change). */
  function FetchedMedia(replies: seq<Option<Media>>): (r: Option<Media>)
    ensures r.Some? <==> exists k :: 0 <= k < 3 && Attempt(replies, k).Some?
  {
    FirstReply(replies, 0, 3)
  }

  /** The media is fetched at most three times: replies past the third make
      no difference. */
  lemma {:induction false} FetchUsesThreeAttempts(a: seq<Option<Media>>, b: seq<Option<Media>>)
    requires forall k :: 0 <= k < 3 ==> Attempt(a, k) == Attempt(b, k)
    ensures FetchedMedia(a) == FetchedMedia(b)
  {
    assert Attempt(a, 0) == Attempt(b, 0);
    assert Attempt(a, 1) == Attempt(b, 1);
    assert Attempt(a, 2) == Attempt(b, 2);
  }

  /** The row a fetched mention saves: skipped for a known permalink; a
      missing sender makes the save throw (the column is NOT NULL), which
      the change's own handler catches. The user is matched by the
      instagram field only. */
  function StoreMention(store: seq<Activity>, users: seq<User>, from: Option<string>, media: Option<Media>, now: int): (r: seq<Activity>)
    ensures r == store || (|r| == |store| + 1 && r[..|store|] == store)
    ensures r != store <==> media.Some? && from.Some? && !HasPermalink(store, media.value.permalink)
    ensures r != store ==>
      r[|store|] == Activity(NormalizeMediaType(media.value.mediaType), media.value.permalink, media.value.timestamp,
                             from.value, IdOf(FindUserByInstagram(users, from.value)), now)
  {
    match media
    case None => store
    case Some(m) =>
      if HasPermalink(store, m.permalink) || from.None? then store
      else store + [Activity(NormalizeMediaType(m.mediaType), m.permalink, m.timestamp, from.value,
                             IdOf(FindUserByInstagram(users, from.value)), now)]
  }

  /** One `changes` item: only a `mentions` change whose media could be
      fetched within three requests can add a row. */
  function MentionEffect(store: seq<Activity>, users: seq<User>, c: Change, now: int): (r: seq<Activity>)
    ensures c.field != "mentions" ==> r == store
    ensures r == store || (|r| == |store| + 1 && r[..|store|] == store)
  {
    if c.field != "mentions" then store
    else StoreMention(store, users, c.from, FetchedMedia(c.replies), now)
  }

  function SaveMentions(store: seq<Activity>, users: seq<User>, changes: seq<Change>, now: int): (r: seq<Activity>)
    decreases |changes|
  {
    if changes == [] then store
    else SaveMentions(MentionEffect(store, users, changes[0], now), users, changes[1..], now)
  }

  /** The mention path never stores a second row for a permalink. */
  lemma {:induction false} SaveMentionsKeepsPermalinksUnique(store: seq<Activity>, users: seq<User>, changes: seq<Change>, now: int)
    requires PermalinksUnique(store)
    ensures PermalinksUnique(SaveMentions(store, users, changes, now))
    decreases |changes|
  {
    if changes != [] {
      var next := MentionEffect(store, users, changes[0], now);
      if next != store {
        AppendFreshPermalink(store, next[|store|]);
        assert next == store + [next[|store|]];
      }
      SaveMentionsKeepsPermalinksUnique(next, users, changes[1..], now);
    }
  }

  /** Changes other than `mentions` (comments among them) add nothing. */
  lemma {:induction false} NonMentionChangesAddNothing(store: seq<Activity>, users: seq<User>, changes: seq<Change>, now: int)
    requires forall k :: 0 <= k < |changes| ==> changes[k].field != "mentions"
    ensures SaveMentions(store, users, changes, now) == store
    decreases |changes|
  {
    if changes != [] {
      NonMentionChangesAddNothing(store, users, changes[1..], now);
    }
  }

  /** The whole payload: per entry, its story mentions, then its changes. */
  function SaveEntries(store: seq<Activity>, users: seq<User>, entries: seq<Entry>, now: int): (r: Outcome)
    decreases |entries|
  {
    if entries == [] then Done(store)
    else
      match SaveEvents(store, entries[0].messaging, now)
      case Aborted(s) => Aborted(s)
      case Done(s) => SaveEntries(SaveMentions(s, users, entries[0].changes, now), users, entries[1..], now)
  }

  class InstagramWebhookController {
    /** The activity and message tables; the user table is only read. */
    var activities: seq<Activity>
    var messages: seq<InstagramMessage>
    const users: seq<User>
    /** The configured verify token, `''` when unset. */
    const verifyToken: string

    constructor(verifyToken: string, users: seq<User>, activities: seq<Activity>, messages: seq<InstagramMessage>)
      ensures this.verifyToken == verifyToken && this.users == users
      ensures this.activities == activities && this.messages == messages
    {
      this.verifyToken := verifyToken;
      this.users := users;
      this.activities := activities;
      this.messages := messages;
    }

    /** The direct-message endpoint; a body without `entry` stores nothing. */
    method HandleMessages(body: Option<seq<Entry>>) returns (reply: string)
      modifies this
      ensures reply == "ok"
      ensures activities == old(activities)
      ensures body.None? ==> messages == old(messages)
      ensures body.Some? ==> messages == SaveMessageEntries(old(messages), body.value)
    {
      reply := "ok";
      if body.None? {
        return;
      }
      var entries := body.value;
      for i := 0 to |entries|
        invariant activities == old(activities)
        invariant SaveMessageEntries(old(messages), entries) == SaveMessageEntries(messages, entries[i..])
      {
        assert entries[i..][1..] == entries[i + 1..];
        var events := entries[i].messaging;
        label Entry:
        for j := 0 to |events|
          invariant activities == old(activities)
          invariant SaveMessages(old@Entry(messages), events) == SaveMessages(messages, events[j..])
        {
          assert events[j..][1..] == events[j + 1..];
          var ev := events[j];
          if Truthy(ev.mid) && Truthy(ev.senderId) && Truthy(ev.text) {
            if !HasMid(messages, ev.mid.value) {
              messages := messages + [InstagramMessage(ev.senderId.value, ev.text.value, ev.mid.value)];
            }
          }
        }
      }
    }

    /** The retry loop around the media-detail request. */
    static method FetchWithRetry(replies: seq<Option<Media>>) returns (media: Option<Media>)
      ensures media == FetchedMedia(replies)
    {
      var retries := 3;
      while retries > 0
        invariant 0 <= retries <= 3
        invariant FetchedMedia(replies) == FirstReply(replies, 3 - retries, retries)
      {
        var reply := Attempt(replies, 3 - retries);
        if reply.Some? {
          return reply;
        }
        retries := retries - 1;
      }
      media := None;
    }

    method SaveStoryMentions(ev: MessagingEvent, now: int) returns (aborted: bool)
      modifies this
      ensures messages == old(messages)
      ensures activities == SaveStories(old(activities), ev, ev.attachments, now).store
      ensures aborted <==> SaveStories(old(activities), ev, ev.attachments, now).Aborted?
    {
      var atts := ev.attachments;
      for k := 0 to |atts|
        invariant messages == old(messages)
        invariant SaveStories(old(activities), ev, atts, now) == SaveStories(activities, ev, atts[k..], now)
      {
        assert atts[k..][1..] == atts[k + 1..];
        if atts[k].kind == StoryMention {
          if atts[k].url.None? || ev.senderId.None? {
            return true;
          }
          activities := activities + [StoryRecord(ev, atts[k].url.value, now)];
        }
      }
      aborted := false;
    }

    method ProcessMention(c: Change, now: int)
      modifies this
      ensures messages == old(messages)
      ensures activities == MentionEffect(old(activities), users, c, now)
    {
      if c.field == "mentions" {
        var media := FetchWithRetry(c.replies);
        if media.None? {
          return;
        }
        if HasPermalink(activities, media.value.permalink) {
          return;
        }
        var user := FindUserByInstagram(users, if c.from.Some? then c.from.value else "");
        if c.from.None? {
          return;
        }
        var m := media.value;
        activities := activities + [Activity(NormalizeMediaType(m.mediaType), m.permalink, m.timestamp,
                                             c.from.value, IdOf(user), now)];
      }
    }

    /** The story-mention and mention endpoint. It answers `ok` whatever the
      payload; a throw abandons the rest of the payload. */
    method HandleWebhook(body: Option<seq<Entry>>, now: int) returns (reply: string)
      modifies this
      ensures reply == "ok"
      ensures messages == old(messages)
      ensures body.None? ==> activities == old(activities)
      ensures body.Some? ==> activities == SaveEntries(old(activities), users, body.value, now).store
    {
      reply := "ok";
      if body.None? {
        return;
      }
      var entries := body.value;
      for i := 0 to |entries|
        invariant messages == old(messages)
        invariant SaveEntries(old(activities), users, entries, now) == SaveEntries(activities, users, entries[i..], now)
      {
        assert entries[i..][1..] == entries[i + 1..];
        var events := entries[i].messaging;
        label Entry:
        for j := 0 to |events|
          invariant messages == old(messages)
          invariant SaveEvents(old@Entry(activities), events, now) == SaveEvents(activities, events[j..], now)
        {
          assert events[j..][1..] == events[j + 1..];
          var aborted := SaveStoryMentions(events[j], now);
          if aborted {
            return;
          }
        }
        var changes := entries[i].changes;
        label Mentions:
        for j := 0 to |changes|
          invariant messages == old(messages)
          invariant SaveMentions(old@Mentions(activities), users, changes, now) == SaveMentions(activities, users, changes[j..], now)
        {
          assert changes[j..][1..] == changes[j + 1..];
          ProcessMention(changes[j], now);
        }
      }
    }
  }
}
