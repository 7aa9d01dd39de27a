/** Weekly compliance reports: the activity rows of a user within a period
    are grouped by media type, folded into a STORY/IMAGE/VIDEO count map and
    compared with the quotas of the posting-rule row. The reporting period
    `[from, to]` is an input; the calendar defaults the service computes
    when none is given are left to the caller. */
module Analytics {
  import opened Common
  import opened Entities
  import opened MediaTypes

  /** One row of the grouped count query: a media type and its row count. */
  datatype GroupRow = GroupRow(mediaType: string, count: nat)

  datatype Verdict = Green | Red

  datatype Counts = Counts(stories: int, posts: int, reels: int)

  /** `{ actual, expected, compliance }` of one user. */
  datatype Compliance = Compliance(actual: Counts, expected: Counts, story: Verdict, post: Verdict, reel: Verdict)

  /** An ambassador summary (the `edits` list is always empty and the
      photo is not a stored column). */
  datatype Summary = Summary(id: UserId, name: string, role: Role, active: bool, compliance: Compliance)

  /** `userInstagramId = :uid AND timestamp BETWEEN :start AND :end`. A user
      without a handle binds NULL, which no row equals. */
  predicate Counted(a: Activity, instagram: Option<string>, from: int, to: int) {
    instagram.Some? && a.userInstagramId == instagram.value && from <= a.timestamp <= to
  }

  /** The media types of the counted rows, one entry per row, in store order. */
  function CountedTypes(acts: seq<Activity>, instagram: Option<string>, from: int, to: int): (r: seq<string>)
    ensures |r| <= |acts|
    ensures forall t :: t in r <==>
      exists i :: 0 <= i < |acts| && Counted(acts[i], instagram, from, to) && acts[i].mediaType == t
  {
    if acts == [] then []
    else
      var rest := CountedTypes(acts[1..], instagram, from, to);
      assert forall i :: 1 <= i < |acts| ==> acts[i] == acts[1..][i - 1];
      assert forall i :: 0 <= i < |acts| - 1 ==> acts[1..][i] == acts[i + 1];
      (if Counted(acts[0], instagram, from, to) then [acts[0].mediaType] else []) + rest
  }

  /** `COUNT(*)` of the group of media type `t` (grouping is case-sensitive). */
  function CountType(acts: seq<Activity>, instagram: Option<string>, from: int, to: int, t: string): (r: nat)
    ensures r > 0 <==> t in CountedTypes(acts, instagram, from, to)
  {
    if acts == [] then 0
    else
      (if Counted(acts[0], instagram, from, to) && acts[0].mediaType == t then 1 else 0)
      + CountType(acts[1..], instagram, from, to, t)
  }

  /** The count of a group is the number of counted rows whose type is
      exactly `t`. */
  lemma {:induction false} CountTypeIsGroupSize(acts: seq<Activity>, instagram: Option<string>, from: int, to: int, t: string)
    ensures CountType(acts, instagram, from, to, t) == multiset(CountedTypes(acts, instagram, from, to))[t]
  {
    if acts != [] {
      CountTypeIsGroupSize(acts[1..], instagram, from, to, t);
    }
  }

  /** The grouped query: one row per distinct media type among the counted
      rows, in order of first occurrence, with its count. */
  function GroupCounts(acts: seq<Activity>, instagram: Option<string>, from: int, to: int): (r: seq<GroupRow>)
    ensures forall i, j :: 0 <= i < j < |r| ==> r[i].mediaType != r[j].mediaType
    ensures forall i :: 0 <= i < |r| ==> r[i].count == CountType(acts, instagram, from, to, r[i].mediaType) > 0
    ensures forall t :: CountType(acts, instagram, from, to, t) > 0 <==> exists i :: 0 <= i < |r| && r[i].mediaType == t
  {
    var types := Dedup(CountedTypes(acts, instagram, from, to));
    var r := seq(|types|, i requires 0 <= i < |types| => GroupRow(types[i], CountType(acts, instagram, from, to, types[i])));
    assert forall t :: t in types <==> exists i :: 0 <= i < |r| && r[i].mediaType == t by {
      forall t | t in types ensures exists i :: 0 <= i < |r| && r[i].mediaType == t {
        var i :| 0 <= i < |types| && types[i] == t;
        assert r[i].mediaType == t;
      }
    }
    r
  }

  const InitialCounts: map<string, int> := map["STORY" := 0, "IMAGE" := 0, "VIDEO" := 0]

  /** The count map after the fold over `rows`: it starts at 0 for STORY,
      IMAGE and VIDEO, and each row assigns its count to its upper-cased
      media type. */
  function CountMapOf(rows: seq<GroupRow>): (m: map<string, int>)
    ensures "STORY" in m && "IMAGE" in m && "VIDEO" in m
    ensures forall i :: 0 <= i < |rows| ==> Upper(rows[i].mediaType) in m
    decreases |rows|
  {
    if rows == [] then InitialCounts
    else
      var last := rows[|rows| - 1];
      CountMapOf(rows[..|rows| - 1])[Upper(last.mediaType) := last.count]
  }

  /** The fold of the service: `countMap[row.mediaType.toUpperCase()] = count`. */
  method FoldCounts(rows: seq<GroupRow>) returns (countMap: map<string, int>)
    ensures countMap == CountMapOf(rows)
  {
    countMap := map["STORY" := 0, "IMAGE" := 0, "VIDEO" := 0];
    for i := 0 to |rows|
      invariant countMap == CountMapOf(rows[..i])
    {
      assert rows[..i + 1][..i] == rows[..i];
      countMap := countMap[Upper(rows[i].mediaType) := rows[i].count];
    }
    assert rows[..|rows|] == rows;
  }

  /** A key is set by the last row that upper-cases to it: rows that differ
      only in case overwrite each other instead of being added. */
  lemma {:induction false} LastRowWins(rows: seq<GroupRow>, k: string, j: int)
    requires 0 <= j < |rows| && Upper(rows[j].mediaType) == k
    requires forall i :: j < i < |rows| ==> Upper(rows[i].mediaType) != k
    ensures CountMapOf(rows)[k] == rows[j].count
    decreases |rows|
  {
    if j < |rows| - 1 {
      LastRowWins(rows[..|rows| - 1], k, j);
    }
  }

  /** A category no row upper-cases to keeps its initial 0. */
  lemma {:induction false} UntouchedKeyIsZero(rows: seq<GroupRow>, k: string)
    requires k in InitialCounts
    requires forall i :: 0 <= i < |rows| ==> Upper(rows[i].mediaType) != k
    ensures CountMapOf(rows)[k] == 0
    decreases |rows|
  {
    if rows != [] {
      UntouchedKeyIsZero(rows[..|rows| - 1], k);
    }
  }

  /** `globalRule?.x_per_week ?? default`, with defaults 3, 1 and 1. */
  function Expected(rule: Option<PostingRule>): (e: Counts)
    ensures rule.None? ==> e == Counts(3, 1, 1)
    ensures rule.Some? ==> e == Counts(rule.value.storiesPerWeek, rule.value.postsPerWeek, rule.value.reelsPerWeek)
  {
    match rule
    case None => Counts(3, 1, 1)
    case Some(r) => Counts(r.storiesPerWeek, r.postsPerWeek, r.reelsPerWeek)
  }

  function VerdictOf(actual: int, expected: int): (v: Verdict)
    ensures v == Green <==> actual >= expected
  {
    if actual >= expected then Green else Red
  }

  /** `actual` reads STORY, IMAGE and VIDEO; each category is green exactly
      when it meets its quota. */
  function ComplianceOf(countMap: map<string, int>, rule: Option<PostingRule>): (c: Compliance)
    requires "STORY" in countMap && "IMAGE" in countMap && "VIDEO" in countMap
    ensures c.actual == Counts(countMap["STORY"], countMap["IMAGE"], countMap["VIDEO"])
    ensures c.expected == Expected(rule)
    ensures c.story == Green <==> c.actual.stories >= c.expected.stories
    ensures c.post == Green <==> c.actual.posts >= c.expected.posts
    ensures c.reel == Green <==> c.actual.reels >= c.expected.reels
  {
    var actual := Counts(countMap["STORY"], countMap["IMAGE"], countMap["VIDEO"]);
    var expected := Expected(rule);
    Compliance(actual, expected,
      VerdictOf(actual.stories, expected.stories),
      VerdictOf(actual.posts, expected.posts),
      VerdictOf(actual.reels, expected.reels))
  }

  /** The report of one handle over `[from, to]`. */
  function Report(acts: seq<Activity>, instagram: Option<string>, rule: Option<PostingRule>, from: int, to: int): Compliance {
    ComplianceOf(CountMapOf(GroupCounts(acts, instagram, from, to)), rule)
  }

  /** The per-user body the three report operations share: query, fold,
      verdict. */
  method ComputeCompliance(acts: seq<Activity>, instagram: Option<string>, rule: Option<PostingRule>, from: int, to: int)
    returns (c: Compliance)
    ensures c == Report(acts, instagram, rule, from, to)
  {
    var counts := GroupCounts(acts, instagram, from, to);
    var countMap := FoldCounts(counts);
    c := ComplianceOf(countMap, rule);
  }

  function SummaryOf(u: User, c: Compliance): Summary {
    Summary(u.id, u.name, u.role, u.active, c)
  }

  /** One summary per user of the table, in table order. */
  method GenerateWeeklyCompliance(users: seq<User>, acts: seq<Activity>, rule: Option<PostingRule>, from: int, to: int)
    returns (results: seq<Summary>)
    ensures |results| == |users|
    ensures forall i :: 0 <= i < |users| ==>
      results[i] == SummaryOf(users[i], Report(acts, users[i].instagram, rule, from, to))
  {
    results := [];
    for i := 0 to |users|
      invariant |results| == i
      invariant forall k :: 0 <= k < i ==>
        results[k] == SummaryOf(users[k], Report(acts, users[k].instagram, rule, from, to))
    {
      var c := ComputeCompliance(acts, users[i].instagram, rule, from, to);
      results := results + [SummaryOf(users[i], c)];
    }
  }

  /** The report of one user; an unknown id fails with a plain error. */
  method GetUserWeeklyCompliance(users: seq<User>, acts: seq<Activity>, rule: Option<PostingRule>,
                                 userId: UserId, from: int, to: int)
    returns (r: Result<Compliance>)
    ensures r.Err? <==> forall i :: 0 <= i < |users| ==> users[i].id != userId
    ensures r.Err? ==> r.error == Failure("User not found")
    ensures r.Ok? ==> exists i :: 0 <= i < |users| && users[i].id == userId
                        && r.value == Report(acts, users[i].instagram, rule, from, to)
  {
    var user := FindUser(users, userId);
    if user.None? {
      return Err(Failure("User not found"));
    }
    var c := ComputeCompliance(acts, user.value.instagram, rule, from, to);
    r := Ok(c);
  }

  /** The first team (in table order) led by `leaderId`. */
  function FindTeamByLeader(teams: seq<Team>, leaderId: UserId): (r: Option<Team>)
    ensures r.Some? ==> r.value in teams && r.value.leaderId == leaderId
    ensures r.None? <==> forall i :: 0 <= i < |teams| ==> teams[i].leaderId != leaderId
  {
    if teams == [] then None
    else if teams[0].leaderId == leaderId then Some(teams[0])
    else FindTeamByLeader(teams[1..], leaderId)
  }

  /** Every membership row points at a stored user (the foreign key). */
  predicate MembersHaveUsers(members: seq<TeamMember>, users: seq<User>) {
    forall i :: 0 <= i < |members| ==> FindUser(users, members[i].userId).Some?
  }

  /** The reports of the members of the team led by `leaderId`: empty when
      no team has that leader, otherwise one summary per membership row. */
  method GetTeamCompliance(teams: seq<Team>, members: seq<TeamMember>, users: seq<User>, acts: seq<Activity>,
                           rule: Option<PostingRule>, leaderId: UserId, from: int, to: int)
    returns (results: seq<Summary>)
    requires MembersHaveUsers(members, users)
    ensures FindTeamByLeader(teams, leaderId).None? ==> results == []
    ensures FindTeamByLeader(teams, leaderId).Some? ==>
      var rows := MembersOf(members, FindTeamByLeader(teams, leaderId).value.id);
      && |results| == |rows|
      && forall i :: 0 <= i < |rows| ==>
           var u := FindUser(users, rows[i].userId).value;
           results[i] == SummaryOf(u, Report(acts, u.instagram, rule, from, to))
  {
    var team := FindTeamByLeader(teams, leaderId);
    if team.None? {
      return [];
    }
    var rows := MembersOf(members, team.value.id);
    var people := MemberUsers(rows, users, members);
    // the per-member loop is the one of the whole-table report
    results := GenerateWeeklyCompliance(people, acts, rule, from, to);
  }

  /** The stored user behind each membership row (`member.user`). */
  function MemberUsers(rows: seq<TeamMember>, users: seq<User>, members: seq<TeamMember>): (r: seq<User>)
    requires forall m :: m in rows ==> m in members
    requires MembersHaveUsers(members, users)
    ensures |r| == |rows|
    ensures forall i :: 0 <= i < |rows| ==> FindUser(users, rows[i].userId) == Some(r[i])
  {
    if rows == [] then []
    else
      assert rows[0] in members;
      [FindUser(users, rows[0].userId).value] + MemberUsers(rows[1..], users, members)
  }

  // ---------------------------------------------------------------------
  // What the reports can and cannot show
  // ---------------------------------------------------------------------

  /** A user without an Instagram handle reports zero in every category. */
  lemma NoHandleReportsZero(acts: seq<Activity>, rule: Option<PostingRule>, from: int, to: int)
    ensures Report(acts, None, rule, from, to).actual == Counts(0, 0, 0)
  {
    var rows := GroupCounts(acts, None, from, to);
    NoCountedRows(acts, from, to);
    assert rows == [];
  }

  lemma {:induction false} NoCountedRows(acts: seq<Activity>, from: int, to: int)
    ensures CountedTypes(acts, None, from, to) == []
  {
    if acts != [] {
      NoCountedRows(acts[1..], from, to);
    }
  }

  /** A string that is its own lower case and upper-cases to a word of
      capital letters is that word in lower case, letter by letter. */
  lemma LowerOfCapitals(s: string, w: string)
    requires Lower(s) == s && Upper(s) == w
    requires forall i :: 0 <= i < |w| ==> IsUpperAscii(w[i])
    ensures |s| == |w|
    ensures forall i :: 0 <= i < |s| ==> s[i] as int == w[i] as int + 32
  {
    forall i | 0 <= i < |s| ensures s[i] as int == w[i] as int + 32 {
      assert LowerChar(s[i]) == s[i];
      assert UpperChar(s[i]) == w[i];
    }
  }

  /** The only strings that upper-case to IMAGE or VIDEO and are their own
      lower case are `image` and `video`. */
  lemma UpperOfLowerCase(s: string)
    requires Lower(s) == s
    ensures Upper(s) == "IMAGE" ==> s == "image"
    ensures Upper(s) == "VIDEO" ==> s == "video"
  {
    if Upper(s) == "IMAGE" {
      LowerOfCapitals(s, "IMAGE");
      assert s == "image";
    }
    if Upper(s) == "VIDEO" {
      LowerOfCapitals(s, "VIDEO");
      assert s == "video";
    }
  }

  /** Media types stored by ingestion are normalised (`post`, `reel`,
      `story`, ...), and none of them upper-cases to IMAGE or VIDEO: on such
      a store the posts and reels of every report are 0, whatever was
      posted. */
  lemma NormalizedStoreReportsNoPostsOrReels(acts: seq<Activity>, instagram: Option<string>,
                                             rule: Option<PostingRule>, from: int, to: int)
    requires forall i :: 0 <= i < |acts| ==> NormalizeMediaType(acts[i].mediaType) == acts[i].mediaType
    ensures Report(acts, instagram, rule, from, to).actual.posts == 0
    ensures Report(acts, instagram, rule, from, to).actual.reels == 0
  {
    var rows := GroupCounts(acts, instagram, from, to);
    forall i | 0 <= i < |rows| ensures Upper(rows[i].mediaType) != "IMAGE" && Upper(rows[i].mediaType) != "VIDEO" {
      var t := rows[i].mediaType;
      CountedTypeIsStored(acts, instagram, from, to, t);
      var j :| 0 <= j < |acts| && acts[j].mediaType == t;
      assert NormalizeMediaType(t) == t;
      UpperOfLowerCase(t);
    }
    UntouchedKeyIsZero(rows, "IMAGE");
    UntouchedKeyIsZero(rows, "VIDEO");
  }

  lemma {:induction false} CountedTypeIsStored(acts: seq<Activity>, instagram: Option<string>, from: int, to: int, t: string)
    requires CountType(acts, instagram, from, to, t) > 0
    ensures exists j :: 0 <= j < |acts| && acts[j].mediaType == t
  {
    if !(Counted(acts[0], instagram, from, to) && acts[0].mediaType == t) {
      CountedTypeIsStored(acts[1..], instagram, from, to, t);
      var j :| 0 <= j < |acts[1..]| && acts[1..][j].mediaType == t;
      assert acts[j + 1].mediaType == t;
    }
  }

  /** Each reported category is the count of one exact spelling of its
      media type, never a sum over spellings: the stories figure is 0 or
      the count of a single group whose type upper-cases to STORY. */
  lemma StoriesCountOneSpelling(acts: seq<Activity>, instagram: Option<string>, rule: Option<PostingRule>, from: int, to: int)
    ensures var stories := Report(acts, instagram, rule, from, to).actual.stories;
      || (stories == 0 && forall t :: Upper(t) == "STORY" ==> CountType(acts, instagram, from, to, t) == 0)
      || (exists t :: Upper(t) == "STORY" && stories == CountType(acts, instagram, from, to, t))
  {
    var rows := GroupCounts(acts, instagram, from, to);
    if j :| 0 <= j < |rows| && Upper(rows[j].mediaType) == "STORY" {
      var last := LastMatching(rows, "STORY", j);
      LastRowWins(rows, "STORY", last);
    } else {
      UntouchedKeyIsZero(rows, "STORY");
    }
  }

  /** The last index at or after `j` whose row upper-cases to `k`. */
  lemma {:induction false} LastMatching(rows: seq<GroupRow>, k: string, j: int) returns (last: int)
    requires 0 <= j < |rows| && Upper(rows[j].mediaType) == k
    ensures j <= last < |rows| && Upper(rows[last].mediaType) == k
    ensures forall i :: last < i < |rows| ==> Upper(rows[i].mediaType) != k
    decreases |rows| - j
  {
    if i :| j < i < |rows| && Upper(rows[i].mediaType) == k {
      last := LastMatching(rows, k, i);
    } else {
      last := j;
    }
  }

  /** Two groups that differ only in case: two `story` rows and one `Story`
      row report one story, not three. */
  lemma CaseVariantsAreNotSummed()
    ensures CountMapOf([GroupRow("story", 2), GroupRow("Story", 1)])["STORY"] == 1
  {
    var rows := [GroupRow("story", 2), GroupRow("Story", 1)];
    assert Upper("Story") == "STORY";
    LastRowWins(rows, "STORY", 1);
  }
}
