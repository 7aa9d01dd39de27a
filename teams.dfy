/** Teams and their membership rows: creation and update with the 1..50
    distinct-member rule and the rule that a user belongs to at most one
    team, removal, and the single-team view. */
module Teams {
  import opened Common
  import opened Entities

  const SizeMessage: string := "A team must have between 1 and 50 unique members."
  const AssignedPrefix: string := "Users already assigned: "
  const OtherTeamsPrefix: string := "These users are already in other teams: "
  /** The text of the error `findOneByOrFail` raises for a missing leader. */
  const LeaderMissing: string := "Could not find any entity of type \"User\""

  /** The distinct member ids a request names, in order of first mention. */
  predicate SizeOk(unique: seq<UserId>) {
    1 <= |unique| <= 50
  }

  /** At most one membership row per user, across all teams. */
  predicate OneTeamPerUser(ms: seq<TeamMember>) {
    forall i, j :: 0 <= i < j < |ms| ==> ms[i].userId != ms[j].userId
  }

  predicate TeamIdsDistinct(ts: seq<Team>) {
    forall i, j :: 0 <= i < j < |ts| ==> ts[i].id != ts[j].id
  }

  function FindTeam(ts: seq<Team>, id: nat): (r: Option<Team>)
    ensures r.Some? ==> r.value in ts && r.value.id == id
    ensures r.None? <==> forall k :: 0 <= k < |ts| ==> ts[k].id != id
  {
    if ts == [] then None
    else if ts[0].id == id then Some(ts[0])
    else FindTeam(ts[1..], id)
  }

  /** The membership rows of the given users (the exclusivity query). */
  function RowsOfUsers(ms: seq<TeamMember>, ids: seq<UserId>): (r: seq<TeamMember>)
    ensures forall m :: m in r <==> m in ms && m.userId in ids
  {
    if ms == [] then []
    else (if ms[0].userId in ids then [ms[0]] else []) + RowsOfUsers(ms[1..], ids)
  }

  /** Those of the rows that belong to teams other than `teamId`. */
  function InOtherTeams(ms: seq<TeamMember>, teamId: nat): (r: seq<TeamMember>)
    ensures forall m :: m in r <==> m in ms && m.teamId != teamId
    ensures forall k :: 0 <= k < |r| ==> r[k].teamId != teamId
  {
    if ms == [] then []
    else (if ms[0].teamId != teamId then [ms[0]] else []) + InOtherTeams(ms[1..], teamId)
  }

  /** `name (id)` for each row's user, joined by `, `. */
  function Labels(users: seq<User>, rows: seq<TeamMember>): string {
    if rows == [] then ""
    else
      var u := FindUser(users, rows[0].userId);
      var tag := (if u.Some? then u.value.name else "") + " (" + rows[0].userId + ")";
      if |rows| == 1 then tag else tag + ", " + Labels(users, rows[1..])
  }

  /** The rows saved for a team: one per stored user whose id is among
      `ids`, in user-table order; ids with no user are dropped. */
  function NewRows(users: seq<User>, ids: seq<UserId>, teamId: nat): (r: seq<TeamMember>)
    ensures forall k :: 0 <= k < |r| ==> r[k].teamId == teamId && r[k].userId in ids
    ensures forall k :: 0 <= k < |r| ==> FindUser(users, r[k].userId).Some?
    ensures forall id :: id in ids ==> (FindUser(users, id).Some? <==> TeamMember(teamId, id) in r)
  {
    if users == [] then []
    else (if users[0].id in ids then [TeamMember(teamId, users[0].id)] else []) + NewRows(users[1..], ids, teamId)
  }

  /** Distinct users give distinct rows. */
  lemma {:induction false} NewRowsOneTeam(users: seq<User>, ids: seq<UserId>, teamId: nat)
    requires DistinctIds(users)
    ensures OneTeamPerUser(NewRows(users, ids, teamId))
  {
    if users != [] {
      var rest := NewRows(users[1..], ids, teamId);
      NewRowsOneTeam(users[1..], ids, teamId);
      forall k | 0 <= k < |rest| ensures rest[k].userId != users[0].id {
        NewRowsFromUsers(users[1..], ids, teamId, k);
      }
    }
  }

  /** Each new row names a user of the table. */
  lemma {:induction false} NewRowsFromUsers(users: seq<User>, ids: seq<UserId>, teamId: nat, k: nat)
    requires k < |NewRows(users, ids, teamId)|
    ensures exists j :: 0 <= j < |users| && users[j].id == NewRows(users, ids, teamId)[k].userId
  {
    var head: seq<TeamMember> := if users[0].id in ids then [TeamMember(teamId, users[0].id)] else [];
    var rest := NewRows(users[1..], ids, teamId);
    if k < |head| {
      assert NewRows(users, ids, teamId)[k].userId == users[0].id;
    } else {
      assert NewRows(users, ids, teamId)[k] == rest[k - |head|];
      NewRowsFromUsers(users[1..], ids, teamId, k - |head|);
      var j :| 0 <= j < |users[1..]| && users[1..][j].id == rest[k - |head|].userId;
      assert users[j + 1].id == rest[k - |head|].userId;
    }
  }

  /** Two tables of rows without a user in common join into one that keeps
      the one-team rule. */
  lemma AppendOneTeam(a: seq<TeamMember>, b: seq<TeamMember>)
    requires OneTeamPerUser(a) && OneTeamPerUser(b)
    requires forall i, j :: 0 <= i < |a| && 0 <= j < |b| ==> a[i].userId != b[j].userId
    ensures OneTeamPerUser(a + b)
  {
    var s := a + b;
    forall i, j | 0 <= i < j < |s| ensures s[i].userId != s[j].userId {
      if j < |a| {
        assert s[i] == a[i] && s[j] == a[j];
      } else if i < |a| {
        assert s[i] == a[i] && s[j] == b[j - |a|];
      } else {
        assert s[i] == b[i - |a|] && s[j] == b[j - |a|];
      }
    }
  }

  /** Dropping a team's rows keeps the one-team rule. */
  lemma {:induction false} OtherTeamsOneTeam(ms: seq<TeamMember>, teamId: nat)
    requires OneTeamPerUser(ms)
    ensures OneTeamPerUser(InOtherTeams(ms, teamId))
  {
    if ms != [] {
      var rest := InOtherTeams(ms[1..], teamId);
      OtherTeamsOneTeam(ms[1..], teamId);
      if ms[0].teamId != teamId {
        forall k | 0 <= k < |rest| ensures rest[k].userId != ms[0].userId {
          assert rest[k] in ms[1..];
        }
        AppendOneTeam([ms[0]], rest);
      }
    }
  }

  /** Creating a team whose members have no rows yet keeps the one-team
      rule. */
  lemma CreateKeepsOneTeam(ms: seq<TeamMember>, users: seq<User>, ids: seq<UserId>, teamId: nat)
    requires OneTeamPerUser(ms) && DistinctIds(users)
    requires RowsOfUsers(ms, ids) == []
    ensures OneTeamPerUser(ms + NewRows(users, ids, teamId))
  {
    var added := NewRows(users, ids, teamId);
    NewRowsOneTeam(users, ids, teamId);
    forall i, j | 0 <= i < |ms| && 0 <= j < |added| ensures ms[i].userId != added[j].userId {
      assert ms[i] in ms && ms[i] !in RowsOfUsers(ms, ids);
      assert ms[i].userId !in ids;
    }
    AppendOneTeam(ms, added);
  }

  /** Replacing a team's rows with members that have no row in another team
      keeps the one-team rule. */
  lemma UpdateKeepsOneTeam(ms: seq<TeamMember>, users: seq<User>, ids: seq<UserId>, teamId: nat)
    requires OneTeamPerUser(ms) && DistinctIds(users)
    requires InOtherTeams(RowsOfUsers(ms, ids), teamId) == []
    ensures OneTeamPerUser(InOtherTeams(ms, teamId) + NewRows(users, ids, teamId))
  {
    var kept := InOtherTeams(ms, teamId);
    var added := NewRows(users, ids, teamId);
    OtherTeamsOneTeam(ms, teamId);
    NewRowsOneTeam(users, ids, teamId);
    forall i, j | 0 <= i < |kept| && 0 <= j < |added| ensures kept[i].userId != added[j].userId {
      assert kept[i] in ms && kept[i].teamId != teamId;
      assert kept[i] !in InOtherTeams(RowsOfUsers(ms, ids), teamId);
      assert kept[i] !in RowsOfUsers(ms, ids);
      assert kept[i].userId !in ids;
    }
    AppendOneTeam(kept, added);
  }

  /** Re-submitting a team's own members passes the other-team check: only
      rows of other teams block an update. */
  lemma OwnMembersPassUpdateCheck(ms: seq<TeamMember>, teamId: nat, ids: seq<UserId>)
    requires OneTeamPerUser(ms)
    requires forall id :: id in ids ==> TeamMember(teamId, id) in ms
    ensures InOtherTeams(RowsOfUsers(ms, ids), teamId) == []
  {
    forall m | m in RowsOfUsers(ms, ids) ensures m.teamId == teamId {
      var i :| 0 <= i < |ms| && ms[i] == m;
      var j :| 0 <= j < |ms| && ms[j] == TeamMember(teamId, m.userId);
      assert i == j;
    }
    NoOtherTeamRows(RowsOfUsers(ms, ids), teamId);
  }

  lemma {:induction false} NoOtherTeamRows(ms: seq<TeamMember>, teamId: nat)
    requires forall m :: m in ms ==> m.teamId == teamId
    ensures InOtherTeams(ms, teamId) == []
  {
    if ms != [] {
      assert ms[0] in ms;
      NoOtherTeamRows(ms[1..], teamId);
    }
  }

  /** The team table with one team's name and leader replaced. */
  function ReplaceTeam(ts: seq<Team>, t: Team): (r: seq<Team>)
    ensures |r| == |ts|
    ensures forall k :: 0 <= k < |ts| ==> r[k] == (if ts[k].id == t.id then t else ts[k])
  {
    seq(|ts|, k requires 0 <= k < |ts| => if ts[k].id == t.id then t else ts[k])
  }

  /** The team table without the team `id`. */
  function DropTeam(ts: seq<Team>, id: nat): (r: seq<Team>)
    ensures forall t :: t in r <==> t in ts && t.id != id
  {
    if ts == [] then []
    else (if ts[0].id != id then [ts[0]] else []) + DropTeam(ts[1..], id)
  }

  lemma {:induction false} DropTeamKeepsIdsDistinct(ts: seq<Team>, id: nat)
    requires TeamIdsDistinct(ts)
    ensures TeamIdsDistinct(DropTeam(ts, id))
  {
    if ts != [] {
      var rest := DropTeam(ts[1..], id);
      DropTeamKeepsIdsDistinct(ts[1..], id);
      if ts[0].id != id {
        var s := [ts[0]] + rest;
        forall i, j | 0 <= i < j < |s| ensures s[i].id != s[j].id {
          if i == 0 {
            assert s[j] == rest[j - 1] && s[j] in ts[1..];
          } else {
            assert s[i] == rest[i - 1] && s[j] == rest[j - 1];
          }
        }
      }
    }
  }

  /** Every team id is below the next one to be drawn. */
  predicate IdsBelow(ts: seq<Team>, next: nat) {
    forall k :: 0 <= k < |ts| ==> ts[k].id < next
  }

  /** Every membership row names a stored team and a stored user. */
  predicate MembersLinked(ts: seq<Team>, users: seq<User>, ms: seq<TeamMember>) {
    forall k :: 0 <= k < |ms| ==> FindTeam(ts, ms[k].teamId).Some? && FindUser(users, ms[k].userId).Some?
  }

  /** A new team with a fresh id keeps ids distinct and below the next id,
      and its new rows are linked. */
  lemma InsertKeepsKeys(ts: seq<Team>, users: seq<User>, ms: seq<TeamMember>, next: nat, t: Team, rows: seq<TeamMember>)
    requires TeamIdsDistinct(ts) && IdsBelow(ts, next) && MembersLinked(ts, users, ms)
    requires t.id == next
    requires forall k :: 0 <= k < |rows| ==> rows[k].teamId == next && FindUser(users, rows[k].userId).Some?
    ensures TeamIdsDistinct(ts + [t]) && IdsBelow(ts + [t], next + 1)
    ensures MembersLinked(ts + [t], users, ms + rows)
  {
    var teams := ts + [t];
    var all := ms + rows;
    forall k | 0 <= k < |all| ensures FindTeam(teams, all[k].teamId).Some? {
      if k < |ms| {
        assert all[k] == ms[k];
        var found := FindTeam(ts, all[k].teamId).value;
        assert found in teams;
      } else {
        assert all[k] == rows[k - |ms|];
        assert teams[|ts|].id == next;
      }
    }
    forall i, j | 0 <= i < j < |teams| ensures teams[i].id != teams[j].id {
      if j < |ts| {
        assert teams[i] == ts[i] && teams[j] == ts[j];
      } else {
        assert teams[i] == ts[i];
      }
    }
  }

  /** Rows that were linked stay linked when some are dropped and linked
      rows of a stored team are added. */
  lemma ReplaceRowsKeepsLinks(ts: seq<Team>, users: seq<User>, ms: seq<TeamMember>, id: nat, rows: seq<TeamMember>)
    requires MembersLinked(ts, users, ms) && FindTeam(ts, id).Some?
    requires forall k :: 0 <= k < |rows| ==> rows[k].teamId == id && FindUser(users, rows[k].userId).Some?
    ensures MembersLinked(ts, users, InOtherTeams(ms, id) + rows)
  {
    var kept := InOtherTeams(ms, id);
    var all := kept + rows;
    forall k | 0 <= k < |all|
      ensures FindTeam(ts, all[k].teamId).Some? && FindUser(users, all[k].userId).Some?
    {
      if k < |kept| {
        assert all[k] == kept[k] && kept[k] in ms;
      } else {
        assert all[k] == rows[k - |kept|];
      }
    }
  }

  /** Renaming a team or changing its leader keeps every row linked. */
  lemma ReplaceTeamKeepsLinks(ts: seq<Team>, users: seq<User>, ms: seq<TeamMember>, t: Team)
    requires TeamIdsDistinct(ts)
    requires MembersLinked(ts, users, ms) && FindTeam(ts, t.id).Some?
    ensures MembersLinked(ReplaceTeam(ts, t), users, ms)
    ensures TeamIdsDistinct(ReplaceTeam(ts, t))
    ensures forall n :: IdsBelow(ts, n) ==> IdsBelow(ReplaceTeam(ts, t), n)
  {
    var after := ReplaceTeam(ts, t);
    forall k | 0 <= k < |ms| ensures FindTeam(after, ms[k].teamId).Some? {
      var j :| 0 <= j < |ts| && ts[j] == FindTeam(ts, ms[k].teamId).value;
      assert after[j].id == ts[j].id;
    }
  }

  /** Dropping a team together with its rows keeps every other row linked
      and the ids below the next one. */
  lemma DropKeepsLinks(ts: seq<Team>, users: seq<User>, ms: seq<TeamMember>, id: nat, next: nat)
    requires MembersLinked(ts, users, ms) && IdsBelow(ts, next)
    ensures MembersLinked(DropTeam(ts, id), users, InOtherTeams(ms, id))
    ensures IdsBelow(DropTeam(ts, id), next)
  {
    var teams := DropTeam(ts, id);
    var kept := InOtherTeams(ms, id);
    forall k | 0 <= k < |kept|
      ensures FindTeam(teams, kept[k].teamId).Some? && FindUser(users, kept[k].userId).Some?
    {
      var j :| 0 <= j < |ms| && ms[j] == kept[k];
      var t := FindTeam(ts, kept[k].teamId).value;
      assert t in teams;
    }
    forall k | 0 <= k < |teams| ensures teams[k].id < next {
      assert teams[k] in ts;
    }
  }

  /** A team as the single-team view shows it. */
  datatype Person = Person(id: UserId, name: string)
  datatype TeamView = TeamView(id: nat, name: string, leader: Option<Person>, members: seq<Person>)

  function PersonOf(u: Option<User>): Option<Person> {
    if u.Some? then Some(Person(u.value.id, u.value.name)) else None
  }

  /** The users behind membership rows that all name a stored user. */
  function People(users: seq<User>, rows: seq<TeamMember>): (r: seq<Person>)
    requires forall k :: 0 <= k < |rows| ==> FindUser(users, rows[k].userId).Some?
    ensures |r| == |rows|
    ensures forall k :: 0 <= k < |rows| ==> r[k].id == rows[k].userId
    ensures forall k :: 0 <= k < |rows| ==> r[k].name == FindUser(users, rows[k].userId).value.name
  {
    if rows == [] then []
    else
      var u := FindUser(users, rows[0].userId).value;
      [Person(u.id, u.name)] + People(users, rows[1..])
  }

  class TeamsService {
    /** The team and membership tables; the user table is only read. Team
        ids are drawn from `nextId`. */
    var teams: seq<Team>
    var members: seq<TeamMember>
    var nextId: nat
    const users: seq<User>

    /** The primary keys and foreign keys of the three tables, and the
        one-team rule. */
    ghost predicate Valid()
      reads this
    {
      && DistinctIds(users)
      && TeamIdsDistinct(teams)
      && IdsBelow(teams, nextId)
      && MembersLinked(teams, users, members)
      && OneTeamPerUser(members)
    }

    constructor(users: seq<User>)
      requires DistinctIds(users)
      ensures Valid()
      ensures this.users == users && teams == [] && members == []
    {
      this.users := users;
      teams := [];
      members := [];
      nextId := 0;
    }

    /** Creates a team with the distinct members that exist as users; fails,
      changing nothing, on a size outside 1..50, on a member already in a
      team, or on an unknown leader, checked in that order. */
    method Create(name: string, leaderId: UserId, memberIds: seq<UserId>) returns (r: Result<string>)
      requires Valid()
      modifies this
      ensures Valid()
      ensures !SizeOk(Dedup(memberIds)) ==> r == Err(BadRequest(SizeMessage))
      ensures SizeOk(Dedup(memberIds)) && RowsOfUsers(old(members), Dedup(memberIds)) != [] ==>
                r == Err(BadRequest(AssignedPrefix + Labels(users, RowsOfUsers(old(members), Dedup(memberIds)))))
      ensures (SizeOk(Dedup(memberIds)) && RowsOfUsers(old(members), Dedup(memberIds)) == [] &&
               FindUser(users, leaderId).None?) ==> r == Err(Failure(LeaderMissing))
      ensures (SizeOk(Dedup(memberIds)) && RowsOfUsers(old(members), Dedup(memberIds)) == [] &&
               FindUser(users, leaderId).Some?) ==> r == Ok("Team created successfully")
      ensures r.Err? ==> teams == old(teams) && members == old(members) && nextId == old(nextId)
      ensures r.Ok? ==>
                && SizeOk(Dedup(memberIds)) && RowsOfUsers(old(members), Dedup(memberIds)) == []
                && FindUser(users, leaderId).Some?
                && r.value == "Team created successfully"
                && teams == old(teams) + [Team(old(nextId), name, leaderId)]
                && members == old(members) + NewRows(users, Dedup(memberIds), old(nextId))
    {
      var unique := Dedup(memberIds);
      if |unique| < 1 || |unique| > 50 {
        return Err(BadRequest(SizeMessage));
      }
      var existing := RowsOfUsers(members, unique);
      if |existing| > 0 {
        return Err(BadRequest(AssignedPrefix + Labels(users, existing)));
      }
      var leader := FindUser(users, leaderId);
      if leader.None? {
        return Err(Failure(LeaderMissing));
      }
      InsertTeam(name, leaderId, unique);
      r := Ok("Team created successfully");
    }

    /** Saves a new team and one membership row per stored user among
      `unique`, none of whom has a row yet. */
    method InsertTeam(name: string, leaderId: UserId, unique: seq<UserId>)
      requires Valid() && RowsOfUsers(members, unique) == []
      modifies this
      ensures Valid()
      ensures teams == old(teams) + [Team(old(nextId), name, leaderId)]
      ensures members == old(members) + NewRows(users, unique, old(nextId))
      ensures nextId == old(nextId) + 1
    {
      var id := nextId;
      var rows := NewRows(users, unique, id);
      CreateKeepsOneTeam(members, users, unique, id);
      InsertKeepsKeys(teams, users, members, nextId, Team(id, name, leaderId), rows);
      teams := teams + [Team(id, name, leaderId)];
      nextId := nextId + 1;
      members := members + rows;
    }

    /** Updates a team. An unknown team or an unknown new leader fails with
      nothing saved; otherwise the name and leader are saved first, and the
      member list, when given, is checked afterwards, so a member error
      leaves the new name and leader in place. */
    method Update(id: nat, name: string, leaderId: string, memberIds: Option<seq<UserId>>) returns (r: Result<string>)
      requires Valid()
      modifies this
      ensures Valid()
      ensures nextId == old(nextId)
      ensures FindTeam(old(teams), id).None? ==>
                r == Err(NotFound("Team not found")) && teams == old(teams) && members == old(members)
      ensures FindTeam(old(teams), id).Some? && leaderId != "" && FindUser(users, leaderId).None? ==>
                r == Err(NotFound("New leader not found")) && teams == old(teams) && members == old(members)
      ensures FindTeam(old(teams), id).Some? && (leaderId == "" || FindUser(users, leaderId).Some?) ==>
                var t := FindTeam(old(teams), id).value;
                && teams == ReplaceTeam(old(teams), Team(id, if name != "" then name else t.name,
                                                         if leaderId != "" then leaderId else t.leaderId))
                && (memberIds.None? ==> r == Ok("Team updated successfully") && members == old(members))
                && (memberIds.Some? && !SizeOk(Dedup(memberIds.value)) ==>
                      r == Err(BadRequest(SizeMessage)) && members == old(members))
                && (memberIds.Some? && SizeOk(Dedup(memberIds.value)) ==>
                      var blocking := InOtherTeams(RowsOfUsers(old(members), Dedup(memberIds.value)), id);
                      && (blocking != [] ==>
                            r == Err(BadRequest(OtherTeamsPrefix + Labels(users, blocking))) && members == old(members))
                      && (blocking == [] ==>
                            r == Ok("Team updated successfully") &&
                            members == InOtherTeams(old(members), id) + NewRows(users, Dedup(memberIds.value), id)))
    {
      var found := FindTeam(teams, id);
      if found.None? {
        return Err(NotFound("Team not found"));
      }
      var team := found.value;
      if name != "" {
        team := team.(name := name);
      }
      if leaderId != "" {
        var newLeader := FindUser(users, leaderId);
        if newLeader.None? {
          return Err(NotFound("New leader not found"));
        }
        team := team.(leaderId := leaderId);
      }
      SaveTeam(team);
      if memberIds.Some? {
        var unique := Dedup(memberIds.value);
        if |unique| < 1 || |unique| > 50 {
          return Err(BadRequest(SizeMessage));
        }
        var blocking := InOtherTeams(RowsOfUsers(members, unique), id);
        if |blocking| > 0 {
          return Err(BadRequest(OtherTeamsPrefix + Labels(users, blocking)));
        }
        ReplaceMembers(id, unique);
      }
      r := Ok("Team updated successfully");
    }

    /** `teamRepo.save(team)` for an existing team. */
    method SaveTeam(t: Team)
      requires Valid() && FindTeam(teams, t.id).Some?
      modifies this
      ensures Valid()
      ensures teams == ReplaceTeam(old(teams), t)
      ensures members == old(members) && nextId == old(nextId)
    {
      ReplaceTeamKeepsLinks(teams, users, members, t);
      teams := ReplaceTeam(teams, t);
    }

    /** Deletes the team's rows and saves one row per stored user among
      `unique`, none of whom has a row in another team. */
    method ReplaceMembers(id: nat, unique: seq<UserId>)
      requires Valid() && FindTeam(teams, id).Some?
      requires InOtherTeams(RowsOfUsers(members, unique), id) == []
      modifies this
      ensures Valid()
      ensures members == InOtherTeams(old(members), id) + NewRows(users, unique, id)
      ensures teams == old(teams) && nextId == old(nextId)
    {
      UpdateKeepsOneTeam(members, users, unique, id);
      var rows := NewRows(users, unique, id);
      ReplaceRowsKeepsLinks(teams, users, members, id, rows);
      members := InOtherTeams(members, id) + rows;
    }

    /** Deletes the team's membership rows, then the team. */
    method Remove(id: nat) returns (r: string)
      requires Valid()
      modifies this
      ensures Valid()
      ensures r == "Team deleted successfully"
      ensures members == InOtherTeams(old(members), id)
      ensures teams == DropTeam(old(teams), id)
      ensures nextId == old(nextId)
    {
      OtherTeamsOneTeam(members, id);
      DropTeamKeepsIdsDistinct(teams, id);
      DropKeepsLinks(teams, users, members, id, nextId);
      members := InOtherTeams(members, id);
      teams := DropTeam(teams, id);
      r := "Team deleted successfully";
    }

    /** The view of one team; NotFound for an unknown id. */
    function FindOne(id: nat): (r: Result<TeamView>)
      requires Valid()
      reads this
      ensures r.Err? <==> FindTeam(teams, id).None?
      ensures r.Err? ==> r.error == NotFound("Team not found")
      ensures r.Ok? ==>
        && r.value.id == id
        && r.value.name == FindTeam(teams, id).value.name
        && r.value.leader == PersonOf(FindUser(users, FindTeam(teams, id).value.leaderId))
        && |r.value.members| == |MembersOf(members, id)|
        && forall k :: 0 <= k < |r.value.members| ==>
             && r.value.members[k].id == MembersOf(members, id)[k].userId
             && r.value.members[k].name == FindUser(users, MembersOf(members, id)[k].userId).value.name
    {
      match FindTeam(teams, id)
      case None => Err(NotFound("Team not found"))
      case Some(t) =>
        var rows := MembersOf(members, id);
        assert forall k :: 0 <= k < |rows| ==> FindUser(users, rows[k].userId).Some? by {
          forall k | 0 <= k < |rows| ensures FindUser(users, rows[k].userId).Some? {
            var j :| 0 <= j < |members| && members[j] == rows[k];
          }
        }
        Ok(TeamView(t.id, t.name, PersonOf(FindUser(users, t.leaderId)), People(users, rows)))
    }
  }
}
