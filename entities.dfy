/** The persisted records the core reads and writes, as plain values. Each
    table is a sequence of these in store order; a row's identity is its id
    field. */
module Entities {
  import opened Common

  type UserId = string

  datatype Role = Ambassador | Leader

  /** A user row. `warningPausedUntil` and `warningEscalated` are written by
      the warning engine, and `link` is read by tagged-media matching,
      although the user entity declares none of the three. A row loaded
      under the declared entity has no `link` (`None`). */
  datatype User = User(
    id: UserId,
    name: string,
    username: string,
    instagram: Option<string>,
    link: Option<string>,
    active: bool,
    role: Role,
    warningPausedUntil: Option<int>,
    warningEscalated: bool)

  /** An ambassador activity row. `userId` is the optional link to a user;
      `userInstagramId` is the social handle the row was ingested under;
      `createdAt` is the instant the row was saved. */
  datatype Activity = Activity(
    mediaType: string,
    permalink: string,
    timestamp: int,
    userInstagramId: string,
    userId: Option<UserId>,
    createdAt: int)

  datatype Reason = Inactivity | NonCompliance

  /** A warning row; `sentAt` is the instant it was saved. */
  datatype Warning = Warning(
    userId: UserId,
    level: int,
    reason: Reason,
    windowStart: int,
    windowEnd: int,
    sentAt: int,
    active: bool)

  /** The warning-engine configuration row. */
  datatype WarningConfig = WarningConfig(
    inactivityWindowDays: int,
    secondGraceDays: int,
    thirdGraceDays: int,
    noncomplianceGraceDays: int,
    expectedStoriesPerWeek: int,
    expectedPostsPerWeek: int,
    expectedReelsPerWeek: int,
    emailTemplateLevel1: string,
    emailTemplateLevel2: string,
    emailTemplateLevel3: string)

  /** A posting-rule row; `rulesText` is a nullable column. */
  datatype PostingRule = PostingRule(
    id: nat,
    storiesPerWeek: int,
    postsPerWeek: int,
    reelsPerWeek: int,
    rulesText: Option<string>)

  datatype Team = Team(id: nat, name: string, leaderId: UserId)

  datatype TeamMember = TeamMember(teamId: nat, userId: UserId)

  datatype InstagramMessage = InstagramMessage(senderId: string, text: string, mid: string)

  /** The user table's primary key: no two rows share an id. */
  predicate DistinctIds(us: seq<User>) {
    forall i, j :: 0 <= i < j < |us| ==> us[i].id != us[j].id
  }

  /** `repo.findOne({ where: { id } })` on the user table. */
  function FindUser(users: seq<User>, id: UserId): (r: Option<User>)
    ensures r.Some? ==> r.value in users && r.value.id == id
    ensures r.None? <==> forall i :: 0 <= i < |users| ==> users[i].id != id
  {
    if users == [] then None
    else if users[0].id == id then Some(users[0])
    else FindUser(users[1..], id)
  }

  /** `repo.findOne({ where: { instagram: handle } })`: the first user in
      store order whose instagram field equals the handle. */
  function FindUserByInstagram(users: seq<User>, handle: string): (r: Option<User>)
    ensures r.Some? ==> r.value in users && r.value.instagram == Some(handle)
    ensures r.None? <==> forall i :: 0 <= i < |users| ==> users[i].instagram != Some(handle)
  {
    if users == [] then None
    else if users[0].instagram == Some(handle) then Some(users[0])
    else FindUserByInstagram(users[1..], handle)
  }

  function IdOf(u: Option<User>): Option<UserId> {
    if u.Some? then Some(u.value.id) else None
  }

  /** The membership rows of a team, in table order. */
  function MembersOf(members: seq<TeamMember>, teamId: nat): (r: seq<TeamMember>)
    ensures forall m :: m in r <==> m in members && m.teamId == teamId
    ensures |r| <= |members|
  {
    if members == [] then []
    else (if members[0].teamId == teamId then [members[0]] else []) + MembersOf(members[1..], teamId)
  }

  predicate HasPermalink(store: seq<Activity>, permalink: string) {
    exists i :: 0 <= i < |store| && store[i].permalink == permalink
  }

  /** The ingestion-time uniqueness that permalink dedup is meant to keep. */
  predicate PermalinksUnique(store: seq<Activity>) {
    forall i, j :: 0 <= i < j < |store| ==> store[i].permalink != store[j].permalink
  }

  /** Appending a row whose permalink is new keeps permalinks unique. */
  lemma AppendFreshPermalink(store: seq<Activity>, a: Activity)
    requires PermalinksUnique(store) && !HasPermalink(store, a.permalink)
    ensures PermalinksUnique(store + [a])
  {
    var s := store + [a];
    forall i, j | 0 <= i < j < |s| ensures s[i].permalink != s[j].permalink {
      if j == |store| {
        assert s[i] == store[i];
      } else {
        assert s[i] == store[i] && s[j] == store[j];
      }
    }
  }
}
