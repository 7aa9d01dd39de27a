/** The hourly poller that ingests the media other accounts tagged the
    business account in: configuration check, per-item validation,
    permalink de-duplication, user matching and the stored record. */
module TaggedMedia {
  import opened Common
  import opened Entities
  import opened MediaTypes
  import opened InstagramLinks

  // ---------------------------------------------------------------------
  // Configuration
  // ---------------------------------------------------------------------

  const AccountIdMissing: string := "Instagram Business Account ID (INSTAGRAM_IG_ID) is not configured"
  const TokenMissing: string := "Page Access Token (PAGE_ACCESS_TOKEN) is not configured"

  /** The outcome of the configuration check; the two flags are the
      `'SET'`/`'NOT SET'` markers. */
  datatype ConfigCheck = ConfigCheck(valid: bool, errors: seq<string>, accountIdSet: bool, tokenSet: bool)

  /** One error per missing setting, the account id first; valid exactly
      when nothing is missing. A setting absent from the environment is
      the empty string. */
  function ValidateConfiguration(accountId: string, token: string): (r: ConfigCheck)
    ensures r.valid <==> accountId != "" && token != ""
    ensures r.valid <==> r.errors == []
    ensures |r.errors| == (if accountId == "" then 1 else 0) + (if token == "" then 1 else 0)
    ensures accountId == "" ==> r.errors[0] == AccountIdMissing
    ensures token == "" ==> r.errors[|r.errors| - 1] == TokenMissing
    ensures r.accountIdSet <==> accountId != ""
    ensures r.tokenSet <==> token != ""
  {
    var errors := (if accountId == "" then [AccountIdMissing] else []) + (if token == "" then [TokenMissing] else []);
    ConfigCheck(|errors| == 0, errors, accountId != "", token != "")
  }

  // ---------------------------------------------------------------------
  // One tagged item
  // ---------------------------------------------------------------------

  /** An item of the Graph API `tags` edge. `Absent` is a null entry; an
      empty string is a missing field; `timestamp` is the parsed instant,
      `None` when the field is missing or empty. */
  datatype TaggedItem =
    | Absent
    | Item(username: string, permalink: string, mediaType: string, timestamp: Option<int>)

  /** The item passes the null and required-field checks. */
  predicate Complete(media: TaggedItem) {
    media.Item? && media.username != "" && media.permalink != "" && media.mediaType != "" && media.timestamp.Some?
  }

  /** `u.link || ''`. */
  function LinkText(u: User): string {
    if u.link.Some? then u.link.value else ""
  }

  predicate LinkNames(u: User, handle: string) {
    ExtractInstagramUsernameFromLink(LinkText(u)) == Some(handle)
  }

  /** The first user in store order whose profile link names the handle. */
  function FirstByLink(users: seq<User>, handle: string): (r: Option<User>)
    ensures r.Some? ==> r.value in users && LinkNames(r.value, handle)
    ensures r.None? <==> forall i :: 0 <= i < |users| ==> !LinkNames(users[i], handle)
  {
    if users == [] then None
    else if LinkNames(users[0], handle) then Some(users[0])
    else FirstByLink(users[1..], handle)
  }

  /** The scan stops at the first match: a user whose link names the
      handle, with no earlier such user, is the one found. */
  lemma {:induction false} FirstByLinkIsFirst(users: seq<User>, handle: string, k: nat)
    requires k < |users| && LinkNames(users[k], handle)
    requires forall j :: 0 <= j < k ==> !LinkNames(users[j], handle)
    ensures FirstByLink(users, handle) == Some(users[k])
  {
    if k > 0 {
      assert !LinkNames(users[0], handle);
      FirstByLinkIsFirst(users[1..], handle, k - 1);
    }
  }

  /** The user an item is attributed to: by the instagram field first, by
      the profile link otherwise. */
  function MatchUser(users: seq<User>, handle: string): (r: Option<User>)
    ensures r.Some? ==> r.value in users && (r.value.instagram == Some(handle) || LinkNames(r.value, handle))
    ensures (exists i :: 0 <= i < |users| && users[i].instagram == Some(handle)) ==>
              r.Some? && r.value.instagram == Some(handle)
    ensures r.None? <==> forall i :: 0 <= i < |users| ==>
              users[i].instagram != Some(handle) && !LinkNames(users[i], handle)
  {
    var byField := FindUserByInstagram(users, handle);
    if byField.Some? then byField else FirstByLink(users, handle)
  }

  /** The record stored for a complete item. */
  function RecordOf(users: seq<User>, media: TaggedItem, now: int): (r: Activity)
    requires Complete(media)
    ensures r.mediaType == NormalizeMediaType(media.mediaType)
    ensures r.permalink == media.permalink && r.userInstagramId == media.username
    ensures r.timestamp == media.timestamp.value && r.createdAt == now
    ensures r.userId == IdOf(MatchUser(users, media.username))
  {
    Activity(NormalizeMediaType(media.mediaType), media.permalink, media.timestamp.value,
             media.username, IdOf(MatchUser(users, media.username)), now)
  }

  /** Whether processing the item reaches the save, i.e. stores a record
      unless the save fails. */
  predicate Fresh(store: seq<Activity>, media: TaggedItem) {
    Complete(media) && !HasPermalink(store, media.permalink)
  }

  /** The store after a successful processing of one item: unchanged for an
      incomplete item or a known permalink, one record longer otherwise. */
  function Ingest(store: seq<Activity>, users: seq<User>, media: TaggedItem, now: int): (r: seq<Activity>)
    ensures !Fresh(store, media) ==> r == store
    ensures Fresh(store, media) ==> r == store + [RecordOf(users, media, now)]
  {
    if Fresh(store, media) then store + [RecordOf(users, media, now)] else store
  }

  /** Processing an item twice stores it once. */
  lemma IngestTwiceIsIngestOnce(store: seq<Activity>, users: seq<User>, media: TaggedItem, now: int, later: int)
    ensures Ingest(Ingest(store, users, media, now), users, media, later) == Ingest(store, users, media, now)
  {
    var s := Ingest(store, users, media, now);
    if Fresh(store, media) {
      assert s[|store|].permalink == media.permalink;
    }
  }

  /** Ingestion never creates a second record for a permalink. */
  lemma IngestKeepsPermalinksUnique(store: seq<Activity>, users: seq<User>, media: TaggedItem, now: int)
    requires PermalinksUnique(store)
    ensures PermalinksUnique(Ingest(store, users, media, now))
  {
    if Fresh(store, media) {
      AppendFreshPermalink(store, RecordOf(users, media, now));
    }
  }

  /** Media of a handle is never left unattributed while some user's
      stored link is that handle's profile URL. */
  lemma MatchByProfileLink(users: seq<User>, k: nat, p: string, h: string)
    requires k < |users| && p in HostPrefixes && IsHandle(h)
    requires users[k].link == Some(p + h)
    ensures MatchUser(users, h).Some?
  {
    ExtractRoundTrip(p, h, "");
    assert p + h + "" == p + h;
    assert LinkNames(users[k], h);
  }

  // ---------------------------------------------------------------------
  // A whole poll
  // ---------------------------------------------------------------------

  /** Whether processing the item at `index` throws: it does exactly when
      the save is reached and the store rejects it. */
  predicate Throws(store: seq<Activity>, media: TaggedItem, index: nat, failing: set<nat>) {
    Fresh(store, media) && index in failing
  }

  datatype Batch = Batch(store: seq<Activity>, processed: nat)

  /** The store and the processed count after the items, in order; the
      saves at the indices in `failing` throw. */
  function Run(store: seq<Activity>, users: seq<User>, items: seq<TaggedItem>, failing: set<nat>, now: int): (r: Batch)
    decreases |items|
  {
    if items == [] then Batch(store, 0)
    else
      var prev := Run(store, users, items[..|items| - 1], failing, now);
      var i := |items| - 1;
      if Throws(prev.store, items[i], i, failing) then prev
      else Batch(Ingest(prev.store, users, items[i], now), prev.processed + 1)
  }

  /** The processed count never exceeds the number of items, and with no
      failing save every item counts. */
  lemma {:induction false} RunProcessedBounds(store: seq<Activity>, users: seq<User>, items: seq<TaggedItem>, failing: set<nat>, now: int)
    ensures Run(store, users, items, failing, now).processed <= |items|
    ensures failing == {} ==> Run(store, users, items, failing, now).processed == |items|
    decreases |items|
  {
    if items != [] {
      RunProcessedBounds(store, users, items[..|items| - 1], failing, now);
    }
  }

  /** A failing item does not stop the loop: an item after it is stored. */
  lemma RunContinuesAfterFailure(store: seq<Activity>, users: seq<User>, items: seq<TaggedItem>, failing: set<nat>, now: int)
    requires |items| > 0
    requires Fresh(Run(store, users, items[..|items| - 1], failing, now).store, items[|items| - 1])
    requires |items| - 1 !in failing
    ensures HasPermalink(Run(store, users, items, failing, now).store, items[|items| - 1].permalink)
  {
    var prev := Run(store, users, items[..|items| - 1], failing, now);
    var r := Run(store, users, items, failing, now);
    assert r.store[|prev.store|].permalink == items[|items| - 1].permalink;
  }

  /** A poll only appends, and keeps permalinks unique. */
  lemma {:induction false} RunKeepsPermalinksUnique(store: seq<Activity>, users: seq<User>, items: seq<TaggedItem>, failing: set<nat>, now: int)
    requires PermalinksUnique(store)
    ensures PermalinksUnique(Run(store, users, items, failing, now).store)
    ensures store <= Run(store, users, items, failing, now).store
    decreases |items|
  {
    if items != [] {
      var prev := Run(store, users, items[..|items| - 1], failing, now);
      RunKeepsPermalinksUnique(store, users, items[..|items| - 1], failing, now);
      IngestKeepsPermalinksUnique(prev.store, users, items[|items| - 1], now);
    }
  }

  /** What the Graph API request gave back: a transport error, a response
      without a body, or the (possibly empty) `data` array. */
  datatype Fetch = FetchFailed | NoData | Items(items: seq<TaggedItem>)

  /** The poll's reply; `count` and `processed` are 0 where the reply omits
      them. */
  datatype PollResult = PollResult(success: bool, count: nat, processed: nat)

  class TaggedMediaService {
    /** The activity table, and the user table the service only reads. */
    var activities: seq<Activity>
    const users: seq<User>
    /** The configured account id and page token, `''` when unset. */
    const accountId: string
    const token: string

    constructor(accountId: string, token: string, users: seq<User>, activities: seq<Activity>)
      ensures this.accountId == accountId && this.token == token
      ensures this.users == users && this.activities == activities
    {
      this.accountId := accountId;
      this.token := token;
      this.users := users;
      this.activities := activities;
    }

    /** The link scan: the first user whose link extracts to the handle. */
    method FindByLink(handle: string) returns (user: Option<User>)
      ensures user == FirstByLink(users, handle)
    {
      user := None;
      var i := 0;
      while i < |users|
        invariant 0 <= i <= |users|
        invariant FirstByLink(users, handle) == FirstByLink(users[i..], handle)
      {
        var extracted := ExtractInstagramUsernameFromLink(LinkText(users[i]));
        if extracted == Some(handle) {
          user := Some(users[i]);
          return;
        }
        assert users[i..][1..] == users[i + 1..];
        i := i + 1;
      }
    }

    /** One item: skipped when incomplete or already stored, otherwise one
      record is saved; `thrown` reports a rejected save, which stores
      nothing and is rethrown to the caller. */
    method ProcessTaggedMedia(media: TaggedItem, now: int, saveFails: bool) returns (thrown: bool)
      modifies this
      ensures thrown <==> Fresh(old(activities), media) && saveFails
      ensures thrown ==> activities == old(activities)
      ensures !thrown ==> activities == Ingest(old(activities), users, media, now)
    {
      thrown := false;
      if media.Absent? {
        return;
      }
      if media.username == "" || media.permalink == "" || media.mediaType == "" || media.timestamp.None? {
        return;
      }
      var alreadyExists := false;
      for i := 0 to |activities|
        invariant alreadyExists <==> HasPermalink(activities[..i], media.permalink)
      {
        if activities[i].permalink == media.permalink {
          alreadyExists := true;
        }
      }
      assert activities[..|activities|] == activities;
      if alreadyExists {
        return;
      }
      var user := FindUserByInstagram(users, media.username);
      if user.None? {
        user := FindByLink(media.username);
      }
      if saveFails {
        thrown := true;
        return;
      }
      var activity := Activity(NormalizeMediaType(media.mediaType), media.permalink, media.timestamp.value,
                               media.username, IdOf(user), now);
      activities := activities + [activity];
    }

    /** The hourly poll: nothing when the configuration is incomplete or the
      request fails, otherwise every fetched item is processed in order and
      `processed` counts those whose processing did not throw. */
    method CheckForTaggedMedia(fetch: Fetch, failing: set<nat>, now: int) returns (r: PollResult)
      modifies this
      ensures !ValidateConfiguration(accountId, token).valid ==>
                r == PollResult(false, 0, 0) && activities == old(activities)
      ensures ValidateConfiguration(accountId, token).valid && !fetch.Items? ==>
                !r.success && activities == old(activities)
      ensures ValidateConfiguration(accountId, token).valid && fetch.Items? ==>
                var b := Run(old(activities), users, fetch.items, failing, now);
                r == PollResult(true, |fetch.items|, b.processed) && activities == b.store
    {
      var check := ValidateConfiguration(accountId, token);
      if !check.valid {
        return PollResult(false, 0, 0);
      }
      if !fetch.Items? {
        return PollResult(false, 0, 0);
      }
      var items := fetch.items;
      var processedCount := 0;
      for i := 0 to |items|
        invariant Batch(activities, processedCount) == Run(old(activities), users, items[..i], failing, now)
      {
        assert items[..i + 1][..i] == items[..i];
        var thrown := ProcessTaggedMedia(items[i], now, i in failing);
        if !thrown {
          processedCount := processedCount + 1;
        }
      }
      assert items[..|items|] == items;
      r := PollResult(true, |items|, processedCount);
    }
  }
}
