/** The older `/webhooks` endpoint: a handshake that answers with a plain
    string instead of an HTTP error, and a mention handler that fetches the
    media once and catches each mention's failure on its own. */
module Webhooks {
  import opened Common
  import opened Entities
  import opened MediaTypes
  import opened InstagramWebhook

  const InvalidVerifyToken: string := "Invalid verify token"

  /** The handshake reply: the `hub.challenge` parameter (absent when the
      query has none), or the rejection text. */
  datatype HandshakeReply = Echo(challenge: Option<string>) | Rejected(message: string)

  /** Query parameters are `None` when absent. The challenge is echoed
      exactly for a `subscribe` request carrying the configured token;
      nothing throws. */
  function VerifySubscription(mode: Option<string>, challenge: Option<string>, token: Option<string>, verifyToken: string): (r: HandshakeReply)
    ensures r.Echo? <==> mode == Some("subscribe") && token == Some(verifyToken)
    ensures r.Echo? ==> r.challenge == challenge
    ensures r.Rejected? ==> r.message == InvalidVerifyToken
  {
    if mode == Some("subscribe") && token == Some(verifyToken) then Echo(challenge) else Rejected(InvalidVerifyToken)
  }

  /** Unlike the `/webhook` handshake, an unset verify token is matched by
      an explicitly empty `hub.verify_token`. */
  lemma UnsetTokenAcceptsEmptyToken(challenge: Option<string>)
    ensures VerifySubscription(Some("subscribe"), challenge, Some(""), "") == Echo(challenge)
    ensures VerifyWebhook("subscribe", "", "", "").HttpError?
  {
  }

  /** One `changes` item: a `mentions` change stores the media of a single
      request; a failed request stores nothing. */
  function MentionOnce(store: seq<Activity>, users: seq<User>, c: Change, now: int): (r: seq<Activity>)
    ensures c.field != "mentions" ==> r == store
    ensures Attempt(c.replies, 0).None? ==> r == store
    ensures r == store || (|r| == |store| + 1 && r[..|store|] == store)
  {
    if c.field != "mentions" then store
    else StoreMention(store, users, c.from, Attempt(c.replies, 0), now)
  }

  function SaveChanges(store: seq<Activity>, users: seq<User>, changes: seq<Change>, now: int): (r: seq<Activity>)
    decreases |changes|
  {
    if changes == [] then store
    else SaveChanges(MentionOnce(store, users, changes[0], now), users, changes[1..], now)
  }

  /** The whole payload; only the `changes` of each entry are read. */
  function SaveChangeEntries(store: seq<Activity>, users: seq<User>, entries: seq<Entry>, now: int): (r: seq<Activity>)
    decreases |entries|
  {
    if entries == [] then store
    else SaveChangeEntries(SaveChanges(store, users, entries[0].changes, now), users, entries[1..], now)
  }

  /** A failed mention is skipped and the changes after it are handled as
      if it were not there. */
  lemma FailedMentionDoesNotStopLater(store: seq<Activity>, users: seq<User>, c: Change, rest: seq<Change>, now: int)
    requires Attempt(c.replies, 0).None?
    ensures SaveChanges(store, users, [c] + rest, now) == SaveChanges(store, users, rest, now)
  {
    assert ([c] + rest)[1..] == rest;
  }

  /** The handler never stores a second row for a permalink, and only
      appends. */
  lemma {:induction false} SaveChangesKeepsPermalinksUnique(store: seq<Activity>, users: seq<User>, changes: seq<Change>, now: int)
    requires PermalinksUnique(store)
    ensures PermalinksUnique(SaveChanges(store, users, changes, now))
    ensures store <= SaveChanges(store, users, changes, now)
    decreases |changes|
  {
    if changes != [] {
      var next := MentionOnce(store, users, changes[0], now);
      if next != store {
        AppendFreshPermalink(store, next[|store|]);
        assert next == store + [next[|store|]];
      }
      SaveChangesKeepsPermalinksUnique(next, users, changes[1..], now);
    }
  }

  lemma {:induction false} SaveChangeEntriesKeepsPermalinksUnique(store: seq<Activity>, users: seq<User>, entries: seq<Entry>, now: int)
    requires PermalinksUnique(store)
    ensures PermalinksUnique(SaveChangeEntries(store, users, entries, now))
    ensures store <= SaveChangeEntries(store, users, entries, now)
    decreases |entries|
  {
    if entries != [] {
      SaveChangesKeepsPermalinksUnique(store, users, entries[0].changes, now);
      SaveChangeEntriesKeepsPermalinksUnique(SaveChanges(store, users, entries[0].changes, now), users, entries[1..], now);
    }
  }

  /** Without `mentions` changes (comments among the rest) a payload adds
      nothing. */
  lemma {:induction false} NoMentionsNoRows(store: seq<Activity>, users: seq<User>, changes: seq<Change>, now: int)
    requires forall k :: 0 <= k < |changes| ==> changes[k].field != "mentions"
    ensures SaveChanges(store, users, changes, now) == store
    decreases |changes|
  {
    if changes != [] {
      NoMentionsNoRows(store, users, changes[1..], now);
    }
  }

  /** Where the first request fails and the second succeeds, the `/webhook`
      handler's retry stores the mention and this handler does not. */
  lemma RetryRecoversWhatSingleFetchLoses(store: seq<Activity>, users: seq<User>, c: Change, now: int)
    requires c.field == "mentions" && c.from.Some?
    requires Attempt(c.replies, 0).None? && Attempt(c.replies, 1).Some?
    requires !HasPermalink(store, Attempt(c.replies, 1).value.permalink)
    ensures MentionOnce(store, users, c, now) == store
    ensures |MentionEffect(store, users, c, now)| == |store| + 1
  {
    assert FetchedMedia(c.replies) == Attempt(c.replies, 1);
  }

  class WebhooksController {
    /** The activity table; the user table is only read. */
    var activities: seq<Activity>
    const users: seq<User>
    /** The configured verify token, `''` when unset. */
    const verifyToken: string

    constructor(verifyToken: string, users: seq<User>, activities: seq<Activity>)
      ensures this.verifyToken == verifyToken && this.users == users && this.activities == activities
    {
      this.verifyToken := verifyToken;
      this.users := users;
      this.activities := activities;
    }

    /** The mention endpoint: answers `ok` for any payload, a body without
      `entry` included. */
    method HandleWebhook(body: Option<seq<Entry>>, now: int) returns (reply: string)
      modifies this
      ensures reply == "ok"
      ensures body.None? ==> activities == old(activities)
      ensures body.Some? ==> activities == SaveChangeEntries(old(activities), users, body.value, now)
    {
      if body.Some? {
        var entries := body.value;
        for i := 0 to |entries|
          invariant SaveChangeEntries(old(activities), users, entries, now) == SaveChangeEntries(activities, users, entries[i..], now)
        {
          assert entries[i..][1..] == entries[i + 1..];
          var changes := entries[i].changes;
          label Changes:
          for j := 0 to |changes|
            invariant SaveChanges(old@Changes(activities), users, changes, now) == SaveChanges(activities, users, changes[j..], now)
          {
            assert changes[j..][1..] == changes[j + 1..];
            var c := changes[j];
            if c.field == "mentions" {
              var media := Attempt(c.replies, 0);
              if media.Some? && !HasPermalink(activities, media.value.permalink) && c.from.Some? {
                var m := media.value;
                activities := activities + [Activity(NormalizeMediaType(m.mediaType), m.permalink, m.timestamp,
                                                     c.from.value, IdOf(FindUserByInstagram(users, c.from.value)), now)];
              }
            }
          }
        }
      }
      reply := "ok";
    }
  }
}
