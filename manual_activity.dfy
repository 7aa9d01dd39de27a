/** Activities an administrator records by hand for an ambassador, and the
    per-ambassador activity list. */
module ManualActivity {
  import opened Common
  import opened Entities

  /** The media types the request body accepts. */
  predicate AcceptedMediaType(t: string) {
    t == "post" || t == "reel" || t == "story"
  }

  /** `manual_<type>_<user id>_<timestamp text>`. */
  function ManualPermalink(mediaType: string, userId: UserId, timestamp: string): (p: string)
    ensures |p| == 9 + |mediaType| + |userId| + |timestamp|
    ensures p[..7] == "manual_" && p[7..7 + |mediaType|] == mediaType
    ensures p[|p| - |timestamp|..] == timestamp
  {
    var head := "manual_" + mediaType + "_" + userId + "_";
    assert head[..7] == "manual_" && head[7..7 + |mediaType|] == mediaType;
    assert (head + timestamp)[..7 + |mediaType|] == head[..7 + |mediaType|];
    assert (head + timestamp)[|head|..] == timestamp;
    head + timestamp
  }

  /** Two manual permalinks with the same type and user id are equal only
      when their timestamp texts are. */
  lemma ManualPermalinkDeterminesTimestamp(mediaType: string, userId: UserId, t1: string, t2: string)
    ensures ManualPermalink(mediaType, userId, t1) == ManualPermalink(mediaType, userId, t2) <==> t1 == t2
  {
    var p1 := ManualPermalink(mediaType, userId, t1);
    var p2 := ManualPermalink(mediaType, userId, t2);
    if p1 == p2 {
      assert t1 == p1[|p1| - |t1|..];
    }
  }

  /** The record stored for `user`: `instant` is the timestamp text read as
      a date, and `instagram || ''` is the sender id. */
  function ManualRecord(user: User, mediaType: string, timestamp: string, instant: int, now: int): (a: Activity)
    ensures a.userId == Some(user.id) && a.mediaType == mediaType
    ensures a.permalink == ManualPermalink(mediaType, user.id, timestamp)
    ensures a.userInstagramId == (if user.instagram.Some? then user.instagram.value else "")
    ensures a.timestamp == instant && a.createdAt == now
  {
    Activity(mediaType, ManualPermalink(mediaType, user.id, timestamp), instant,
             if user.instagram.Some? then user.instagram.value else "", Some(user.id), now)
  }

  /** The activities linked to the user, in store order. */
  function LinkedTo(acts: seq<Activity>, userId: UserId): (r: seq<Activity>)
    ensures forall a :: multiset(r)[a] == (if a.userId == Some(userId) then multiset(acts)[a] else 0)
    ensures forall k :: 0 <= k < |r| ==> r[k].userId == Some(userId)
  {
    if acts == [] then []
    else
      assert acts == [acts[0]] + acts[1..];
      (if acts[0].userId == Some(userId) then [acts[0]] else []) + LinkedTo(acts[1..], userId)
  }

  /** Latest first. */
  predicate NewestFirst(xs: seq<Activity>) {
    forall i, j :: 0 <= i < j < |xs| ==> xs[i].timestamp >= xs[j].timestamp
  }

  /** Places `a` before the first activity that is not later than it. */
  function InsertNewestFirst(xs: seq<Activity>, a: Activity): (r: seq<Activity>)
    requires NewestFirst(xs)
    ensures NewestFirst(r)
    ensures multiset(r) == multiset(xs) + multiset{a}
    ensures |r| == |xs| + 1
    ensures r != [] && (r[0] == a || (xs != [] && r[0] == xs[0]))
  {
    if xs == [] then [a]
    else if a.timestamp >= xs[0].timestamp then [a] + xs
    else
      assert xs == [xs[0]] + xs[1..];
      [xs[0]] + InsertNewestFirst(xs[1..], a)
  }

  /** Orders activities by descending timestamp. */
  function SortNewestFirst(xs: seq<Activity>): (r: seq<Activity>)
    ensures NewestFirst(r)
    ensures multiset(r) == multiset(xs)
  {
    if xs == [] then []
    else
      assert xs == [xs[0]] + xs[1..];
      InsertNewestFirst(SortNewestFirst(xs[1..]), xs[0])
  }

  class ManualActivityService {
    /** The activity table; the user table is only read. */
    var activities: seq<Activity>
    const users: seq<User>

    constructor(users: seq<User>, activities: seq<Activity>)
      ensures this.users == users && this.activities == activities
    {
      this.users := users;
      this.activities := activities;
    }

    /** Stores one record for a known user, whatever permalinks the table
      already holds; for an unknown user NotFound, and nothing is stored. */
    method CreateManualActivity(userId: UserId, mediaType: string, timestamp: string, instant: int, now: int)
      returns (r: Result<Activity>)
      modifies this
      ensures FindUser(users, userId).None? ==>
                r == Err(NotFound("User with ID " + userId + " not found")) && activities == old(activities)
      ensures FindUser(users, userId).Some? ==>
                var user := FindUser(users, userId).value;
                r == Ok(ManualRecord(user, mediaType, timestamp, instant, now)) &&
                activities == old(activities) + [r.value]
    {
      var user := FindUser(users, userId);
      if user.None? {
        return Err(NotFound("User with ID " + userId + " not found"));
      }
      var record := ManualRecord(user.value, mediaType, timestamp, instant, now);
      activities := activities + [record];
      r := Ok(record);
    }

    /** Every activity linked to the user, manual or not, latest first. */
    function GetManualActivities(userId: UserId): (r: seq<Activity>)
      reads this
      ensures NewestFirst(r)
      ensures forall a :: multiset(r)[a] == (if a.userId == Some(userId) then multiset(activities)[a] else 0)
    {
      SortNewestFirst(LinkedTo(activities, userId))
    }
  }

  /** A manual record is listed for its user right after it is stored. */
  lemma CreatedRecordIsListed(acts: seq<Activity>, user: User, mediaType: string, timestamp: string, instant: int, now: int)
    ensures var a := ManualRecord(user, mediaType, timestamp, instant, now);
            a in SortNewestFirst(LinkedTo(acts + [a], user.id))
  {
    var a := ManualRecord(user, mediaType, timestamp, instant, now);
    var listed := SortNewestFirst(LinkedTo(acts + [a], user.id));
    assert (acts + [a])[|acts|] == a;
    assert multiset(acts + [a])[a] > 0;
    assert multiset(listed)[a] > 0;
  }

  /** The same request twice stores two records with one permalink. */
  lemma RepeatedRequestDuplicates(acts: seq<Activity>, user: User, mediaType: string, timestamp: string, instant: int, now: int)
    ensures var a := ManualRecord(user, mediaType, timestamp, instant, now);
            var twice := acts + [a] + [a];
            twice[|acts|].permalink == twice[|acts| + 1].permalink && !PermalinksUnique(twice)
  {
    var a := ManualRecord(user, mediaType, timestamp, instant, now);
    var twice := acts + [a] + [a];
    assert twice[|acts|] == a && twice[|acts| + 1] == a;
  }

  /** The report counts a manual record under its upper-cased type: a
      manual story counts as a story, and a manual post or reel is counted
      neither as a post (IMAGE) nor as a reel (VIDEO). */
  lemma ManualTypesCountOnlyAsStories(t: string)
    requires AcceptedMediaType(t)
    ensures Upper(t) != "IMAGE" && Upper(t) != "VIDEO"
    ensures Upper(t) == "STORY" <==> t == "story"
  {
    assert Upper(t)[0] == UpperChar(t[0]);
  }
}
