/** The warning escalation rules as pure functions over one snapshot of the
    tables, and what one evaluation pass does to those tables. The stateful
    service in module Warnings is proved to follow these functions. */
module WarningRules {
  import opened Common
  import opened Entities

  /** The user query of a pass: only active ambassadors are evaluated. */
  predicate Eligible(u: User) {
    u.active && u.role == Ambassador
  }

  /** `warningPausedUntil && isAfter(warningPausedUntil, now)`. */
  predicate Paused(u: User, now: int) {
    u.warningPausedUntil.Some? && u.warningPausedUntil.value > now
  }

  /** The warning rows of one user, in table order (`relations: ['warnings']`). */
  function UserWarnings(ws: seq<Warning>, uid: UserId): (r: seq<Warning>)
    ensures forall w :: w in r ==> w in ws && w.userId == uid
    ensures forall i :: 0 <= i < |ws| && ws[i].userId == uid ==> ws[i] in r
    decreases |ws|
  {
    if ws == [] then []
    else
      var last := ws[|ws| - 1];
      UserWarnings(ws[..|ws| - 1], uid) + (if last.userId == uid then [last] else [])
  }

  /** `find(w => w.level === level && w.active)` on the user's rows. The
      source sorts the rows by level first; that sort is stable, so the
      first match after sorting is the first match in table order. */
  function FindActive(ws: seq<Warning>, level: int): (r: Option<Warning>)
    ensures r.Some? ==> r.value in ws && r.value.active && r.value.level == level
    ensures r.None? <==> forall i :: 0 <= i < |ws| ==> !(ws[i].active && ws[i].level == level)
  {
    if ws == [] then None
    else if ws[0].active && ws[0].level == level then Some(ws[0])
    else FindActive(ws[1..], level)
  }

  predicate InRange(a: Activity, uid: UserId, start: int, end: int) {
    a.userId == Some(uid) && start <= a.createdAt <= end
  }

  /** The number of the user's activity rows saved within `[start, end]`. */
  function CountInRange(acts: seq<Activity>, uid: UserId, start: int, end: int): (r: nat)
    ensures r <= |acts|
    ensures r > 0 <==> exists i :: 0 <= i < |acts| && InRange(acts[i], uid, start, end)
  {
    if acts == [] then 0
    else
      var rest := CountInRange(acts[1..], uid, start, end);
      assert forall i :: 1 <= i < |acts| ==> acts[i] == acts[1..][i - 1];
      assert forall i :: 0 <= i < |acts| - 1 ==> acts[1..][i] == acts[i + 1];
      (if InRange(acts[0], uid, start, end) then 1 else 0) + rest
  }

  /** `count({ user: { id }, createdAt: Between(start, end) }) > 0`. */
  function HasActivityInRange(acts: seq<Activity>, uid: UserId, start: int, end: int): (r: bool)
    ensures r <==> exists i :: 0 <= i < |acts| && InRange(acts[i], uid, start, end)
  {
    CountInRange(acts, uid, start, end) > 0
  }

  /** The user's rows in `[start, end]` whose media type is exactly `kind`
      (the reduce keys the totals by the raw stored media type). */
  function CountKind(acts: seq<Activity>, uid: UserId, start: int, end: int, kind: string): (r: nat)
    ensures r <= CountInRange(acts, uid, start, end)
  {
    if acts == [] then 0
    else
      (if InRange(acts[0], uid, start, end) && acts[0].mediaType == kind then 1 else 0)
      + CountKind(acts[1..], uid, start, end, kind)
  }

  /** `Math.ceil(a / b)` for a positive divisor. */
  function CeilDiv(a: int, b: int): (r: int)
    requires b > 0
    ensures (r - 1) * b < a <= r * b
  {
    -((-a) / b)
  }

  /** `Math.max(1, Math.ceil((end - start) / week))`. */
  function Weeks(start: int, end: int): (r: int)
    ensures r >= 1
    ensures end - start <= r * WEEK
    ensures r > 1 ==> (r - 1) * WEEK < end - start
  {
    var c := CeilDiv(end - start, WEEK);
    if c < 1 then 1 else c
  }

  /** Not all three of story, post and reel reach the weekly quota scaled by
      the number of (rounded-up) weeks in the span. */
  function IsNonCompliantSince(acts: seq<Activity>, uid: UserId, start: int, end: int, cfg: WarningConfig): (r: bool)
    ensures !r <==>
      var w := Weeks(start, end);
      && CountKind(acts, uid, start, end, "story") >= cfg.expectedStoriesPerWeek * w
      && CountKind(acts, uid, start, end, "post") >= cfg.expectedPostsPerWeek * w
      && CountKind(acts, uid, start, end, "reel") >= cfg.expectedReelsPerWeek * w
  {
    var weeks := Weeks(start, end);
    var okStories := CountKind(acts, uid, start, end, "story") >= cfg.expectedStoriesPerWeek * weeks;
    var okPosts := CountKind(acts, uid, start, end, "post") >= cfg.expectedPostsPerWeek * weeks;
    var okReels := CountKind(acts, uid, start, end, "reel") >= cfg.expectedReelsPerWeek * weeks;
    var compliantCount := (if okStories then 1 else 0) + (if okPosts then 1 else 0) + (if okReels then 1 else 0);
    compliantCount < 3
  }

  datatype Decision = NoAction | Issue(level: int, reason: Reason, windowStart: int, windowEnd: int)

  /** The escalation rules of one user's turn, given the user's active
      level-1, level-2 and level-3 rows, tried in the source's order: an
      active level 3 ends the chain, then level 1, then level 2, then level 3
      by inactivity before level 3 by non-compliance. */
  function Step(uid: UserId, l1: Option<Warning>, l2: Option<Warning>, l3: Option<Warning>,
                acts: seq<Activity>, cfg: WarningConfig, now: int): (d: Decision)
    ensures d.Issue? ==> l3.None? && d.level in {1, 2, 3} && d.windowEnd == now
    // Level 1 exactly when there is no active level 1 or 3 and no activity in the trailing window.
    ensures (d.Issue? && d.level == 1) <==>
      l3.None? && l1.None? && !HasActivityInRange(acts, uid, now - cfg.inactivityWindowDays * DAY, now)
    ensures d.Issue? && d.level == 1 ==> d == Issue(1, Inactivity, now - cfg.inactivityWindowDays * DAY, now)
    // Level 2 only on an active level 1, after its grace period.
    ensures d.Issue? && d.level == 2 ==>
      && l1.Some? && l2.None?
      && now > AddDays(l1.value.sentAt, cfg.secondGraceDays)
      && d == Issue(2, Inactivity, l1.value.windowStart, now)
    // Level 2 must fire once its grace period has passed without activity.
    ensures l3.None? && l1.Some? && l2.None?
            && now > AddDays(l1.value.sentAt, cfg.secondGraceDays)
            && !HasActivityInRange(acts, uid, l1.value.windowStart, now)
            ==> d == Issue(2, Inactivity, l1.value.windowStart, now)
    // Level 3 only on an active level 2.
    ensures d.Issue? && d.level == 3 ==> l2.Some?
    // Level 3 by inactivity: after the third grace period, over the level-1
    // window start (`level1?.windowStart || windowStart`).
    ensures d.Issue? && d.level == 3 && d.reason == Inactivity ==>
      && now > AddDays(l2.value.sentAt, cfg.thirdGraceDays)
      && d.windowStart == (if l1.Some? then l1.value.windowStart else now - cfg.inactivityWindowDays * DAY)
    // ... and it must fire when its conditions hold (the rules before it cannot).
    ensures l3.None? && l1.Some? && l2.Some?
            && now > AddDays(l2.value.sentAt, cfg.thirdGraceDays)
            && !HasActivityInRange(acts, uid, l1.value.windowStart, now)
            ==> d == Issue(3, Inactivity, l1.value.windowStart, now)
    // Level 3 by non-compliance fires exactly when its own conditions hold and
    // neither level 1 nor the inactivity path fired first.
    ensures
      var start1 := now - cfg.inactivityWindowDays * DAY;
      var start3 := if l1.Some? then l1.value.windowStart else start1;
      l3.None? && l2.Some?
      && !(l1.None? && !HasActivityInRange(acts, uid, start1, now))
      && !(now > AddDays(l2.value.sentAt, cfg.thirdGraceDays) && !HasActivityInRange(acts, uid, start3, now))
      && now > AddDays(l2.value.sentAt, cfg.noncomplianceGraceDays)
      && HasActivityInRange(acts, uid, l2.value.sentAt, now)
      && IsNonCompliantSince(acts, uid, l2.value.sentAt, now, cfg)
      ==> d == Issue(3, NonCompliance, l2.value.sentAt, now)
    // Inactivity takes precedence: non-compliance only when the inactivity path did not fire.
    ensures d.Issue? && d.reason == NonCompliance ==>
      var start3 := if l1.Some? then l1.value.windowStart else now - cfg.inactivityWindowDays * DAY;
      !(now > AddDays(l2.value.sentAt, cfg.thirdGraceDays) && !HasActivityInRange(acts, uid, start3, now))
    // Every inactivity warning certifies that the user had no activity in its window.
    ensures d.Issue? && d.reason == Inactivity ==> !HasActivityInRange(acts, uid, d.windowStart, now)
    // A non-compliance warning is a level 3 for a user who did post, but too little.
    ensures d.Issue? && d.reason == NonCompliance ==>
      && d.level == 3 && l2.Some? && d.windowStart == l2.value.sentAt
      && now > AddDays(l2.value.sentAt, cfg.noncomplianceGraceDays)
      && HasActivityInRange(acts, uid, l2.value.sentAt, now)
      && IsNonCompliantSince(acts, uid, l2.value.sentAt, now, cfg)
  {
    if l3.Some? then NoAction
    else
      var windowStart := now - cfg.inactivityWindowDays * DAY;
      if l1.None? && !HasActivityInRange(acts, uid, windowStart, now) then
        Issue(1, Inactivity, windowStart, now)
      else if l1.Some? && l2.None? && now > AddDays(l1.value.sentAt, cfg.secondGraceDays)
              && !HasActivityInRange(acts, uid, l1.value.windowStart, now) then
        Issue(2, Inactivity, l1.value.windowStart, now)
      else if l2.Some? then
        var start3 := if l1.Some? then l1.value.windowStart else windowStart;
        if now > AddDays(l2.value.sentAt, cfg.thirdGraceDays)
           && !HasActivityInRange(acts, uid, start3, now) then
          Issue(3, Inactivity, start3, now)
        else if now > AddDays(l2.value.sentAt, cfg.noncomplianceGraceDays)
                && HasActivityInRange(acts, uid, l2.value.sentAt, now)
                && IsNonCompliantSince(acts, uid, l2.value.sentAt, now, cfg) then
          Issue(3, NonCompliance, l2.value.sentAt, now)
        else NoAction
      else NoAction
  }

  /** One user's turn in a pass: users outside the query and paused users
      are skipped, the rest go through the rules on their own active rows.
      `ws` is the whole warning table as loaded at the start of the pass. */
  function Decide(u: User, ws: seq<Warning>, acts: seq<Activity>, cfg: WarningConfig, now: int): (d: Decision)
    // Nothing for a user outside the query, a paused user, or a user with an active level 3.
    ensures d.Issue? ==> Eligible(u) && !Paused(u, now) && FindActive(UserWarnings(ws, u.id), 3).None?
    ensures d.Issue? ==> d.level in {1, 2, 3} && d.windowEnd == now
    // A level is issued only while the user has no active warning at that level.
    ensures d.Issue? ==> FindActive(UserWarnings(ws, u.id), d.level).None?
    // Escalation order: level 2 needs an active level 1, level 3 an active level 2.
    ensures d.Issue? && d.level == 2 ==> FindActive(UserWarnings(ws, u.id), 1).Some?
    ensures d.Issue? && d.level == 3 ==> FindActive(UserWarnings(ws, u.id), 2).Some?
  {
    if !Eligible(u) || Paused(u, now) then NoAction
    else
      var uw := UserWarnings(ws, u.id);
      Step(u.id, FindActive(uw, 1), FindActive(uw, 2), FindActive(uw, 3), acts, cfg, now)
  }

  /** The row `issueWarning` saves for a decision; new rows are active. */
  function RowFor(u: User, d: Decision, now: int): seq<Warning> {
    if d.Issue? then [Warning(u.id, d.level, d.reason, d.windowStart, d.windowEnd, now, true)] else []
  }

  /** The user row after a decision: a level 3 sets `warningEscalated`. */
  function Escalate(u: User, d: Decision): User {
    if d.Issue? && d.level == 3 then u.(warningEscalated := true) else u
  }

  /** The rows one pass appends, user by user in table order. */
  function PassWarnings(us: seq<User>, ws: seq<Warning>, acts: seq<Activity>, cfg: WarningConfig, now: int): seq<Warning>
    decreases |us|
  {
    if us == [] then []
    else
      var last := us[|us| - 1];
      PassWarnings(us[..|us| - 1], ws, acts, cfg, now) + RowFor(last, Decide(last, ws, acts, cfg, now), now)
  }

  /** One more user of the pass appends that user's row. */
  lemma PassWarningsStep(us: seq<User>, i: int, ws: seq<Warning>, acts: seq<Activity>, cfg: WarningConfig, now: int)
    requires 0 <= i < |us|
    ensures PassWarnings(us[..i + 1], ws, acts, cfg, now)
         == PassWarnings(us[..i], ws, acts, cfg, now) + RowFor(us[i], Decide(us[i], ws, acts, cfg, now), now)
  {
    assert us[..i + 1][..i] == us[..i];
  }

  // ---------------------------------------------------------------------
  // Table invariants and what a pass does to them
  // ---------------------------------------------------------------------

  /** At most one active warning per level per user. */
  predicate UniqueActive(ws: seq<Warning>) {
    forall i, j :: 0 <= i < j < |ws| && ws[i].active && ws[j].active && ws[i].userId == ws[j].userId
      ==> ws[i].level != ws[j].level
  }

  /** Every active level-2 or level-3 warning has an active warning one level
      below for the same user. */
  predicate Chained(ws: seq<Warning>) {
    forall i :: 0 <= i < |ws| && ws[i].active && ws[i].level in {2, 3} ==>
      exists j :: 0 <= j < |ws| && ws[j].active && ws[j].userId == ws[i].userId && ws[j].level == ws[i].level - 1
  }

  /** Row `w` was issued in the pass for one of the users `us`. */
  predicate IssuedFor(w: Warning, us: seq<User>, ws: seq<Warning>, acts: seq<Activity>, cfg: WarningConfig, now: int) {
    exists j :: 0 <= j < |us| && w.userId == us[j].id && [w] == RowFor(us[j], Decide(us[j], ws, acts, cfg, now), now)
  }

  /** Every row of a pass comes from one user's decision, and a pass appends
      at most one row per user. */
  lemma {:induction false} PassRows(us: seq<User>, ws: seq<Warning>, acts: seq<Activity>, cfg: WarningConfig, now: int)
    ensures var rows := PassWarnings(us, ws, acts, cfg, now);
      && |rows| <= |us|
      && forall m :: 0 <= m < |rows| ==> IssuedFor(rows[m], us, ws, acts, cfg, now)
    decreases |us|
  {
    if us != [] {
      var init := us[..|us| - 1];
      var last := us[|us| - 1];
      PassRows(init, ws, acts, cfg, now);
      var prev := PassWarnings(init, ws, acts, cfg, now);
      var rows := PassWarnings(us, ws, acts, cfg, now);
      assert rows == prev + RowFor(last, Decide(last, ws, acts, cfg, now), now);
      forall m | 0 <= m < |rows| ensures IssuedFor(rows[m], us, ws, acts, cfg, now) {
        if m < |prev| {
          var j :| 0 <= j < |init| && prev[m].userId == init[j].id
                   && [prev[m]] == RowFor(init[j], Decide(init[j], ws, acts, cfg, now), now);
          assert us[j] == init[j];
        } else {
          assert us[|us| - 1] == last;
        }
      }
    }
  }

  /** With distinct user ids, no two rows of a pass belong to the same user:
      a pass gives a user at most one warning. */
  lemma {:induction false} PassRowsDistinctUsers(us: seq<User>, ws: seq<Warning>, acts: seq<Activity>, cfg: WarningConfig, now: int)
    requires DistinctIds(us)
    ensures var rows := PassWarnings(us, ws, acts, cfg, now);
      forall m, n :: 0 <= m < n < |rows| ==> rows[m].userId != rows[n].userId
    decreases |us|
  {
    if us != [] {
      var init := us[..|us| - 1];
      var last := us[|us| - 1];
      assert DistinctIds(init);
      PassRowsDistinctUsers(init, ws, acts, cfg, now);
      PassRows(init, ws, acts, cfg, now);
      var prev := PassWarnings(init, ws, acts, cfg, now);
      var rows := PassWarnings(us, ws, acts, cfg, now);
      assert rows == prev + RowFor(last, Decide(last, ws, acts, cfg, now), now);
      forall m, n | 0 <= m < n < |rows| ensures rows[m].userId != rows[n].userId {
        if n >= |prev| {
          assert IssuedFor(prev[m], init, ws, acts, cfg, now);
          var j :| 0 <= j < |init| && prev[m].userId == init[j].id
                   && [prev[m]] == RowFor(init[j], Decide(init[j], ws, acts, cfg, now), now);
          assert us[j] == init[j];
        }
      }
    }
  }

  /** A user with no active row at `level` has no active row at `level`
      anywhere in the table. */
  lemma NoActiveInTable(ws: seq<Warning>, uid: UserId, level: int, i: int)
    requires FindActive(UserWarnings(ws, uid), level).None?
    requires 0 <= i < |ws| && ws[i].userId == uid && ws[i].active
    ensures ws[i].level != level
  {
    var uw := UserWarnings(ws, uid);
    var k :| 0 <= k < |uw| && uw[k] == ws[i];
  }

  /** A pass keeps "at most one active warning per level per user". */
  lemma PassPreservesUniqueActive(us: seq<User>, ws: seq<Warning>, acts: seq<Activity>, cfg: WarningConfig, now: int)
    requires DistinctIds(us) && UniqueActive(ws)
    ensures UniqueActive(ws + PassWarnings(us, ws, acts, cfg, now))
  {
    var rows := PassWarnings(us, ws, acts, cfg, now);
    PassRows(us, ws, acts, cfg, now);
    PassRowsDistinctUsers(us, ws, acts, cfg, now);
    var all := ws + rows;
    forall i, j | 0 <= i < j < |all| && all[i].active && all[j].active && all[i].userId == all[j].userId
      ensures all[i].level != all[j].level
    {
      if j >= |ws| && i < |ws| {
        var w := rows[j - |ws|];
        assert IssuedFor(w, us, ws, acts, cfg, now);
        var k :| 0 <= k < |us| && w.userId == us[k].id && [w] == RowFor(us[k], Decide(us[k], ws, acts, cfg, now), now);
        NoActiveInTable(ws, us[k].id, w.level, i);
      } else if j >= |ws| {
        assert false;
      } else {
        assert all[i] == ws[i] && all[j] == ws[j];
      }
    }
  }

  /** A pass keeps the escalation chain: a new level 2 or 3 always sits on an
      active warning one level below. */
  lemma PassPreservesChained(us: seq<User>, ws: seq<Warning>, acts: seq<Activity>, cfg: WarningConfig, now: int)
    requires Chained(ws)
    ensures Chained(ws + PassWarnings(us, ws, acts, cfg, now))
  {
    var rows := PassWarnings(us, ws, acts, cfg, now);
    PassRows(us, ws, acts, cfg, now);
    var all := ws + rows;
    forall i | 0 <= i < |all| && all[i].active && all[i].level in {2, 3}
      ensures exists j :: 0 <= j < |all| && all[j].active && all[j].userId == all[i].userId && all[j].level == all[i].level - 1
    {
      if i < |ws| {
        assert all[i] == ws[i];
        var j :| 0 <= j < |ws| && ws[j].active && ws[j].userId == ws[i].userId && ws[j].level == ws[i].level - 1;
        assert all[j] == ws[j];
      } else {
        var w := rows[i - |ws|];
        assert IssuedFor(w, us, ws, acts, cfg, now);
        var k :| 0 <= k < |us| && w.userId == us[k].id && [w] == RowFor(us[k], Decide(us[k], ws, acts, cfg, now), now);
        var below := FindActive(UserWarnings(ws, us[k].id), w.level - 1).value;
        assert below in ws;
        var j :| 0 <= j < |ws| && ws[j] == below;
        assert all[j] == below;
      }
    }
  }

  /** A user who is paused past `now` gets no warning from the pass. */
  lemma PausedUserGetsNothing(us: seq<User>, ws: seq<Warning>, acts: seq<Activity>, cfg: WarningConfig, now: int, p: int)
    requires DistinctIds(us) && 0 <= p < |us| && Paused(us[p], now)
    ensures forall w :: w in PassWarnings(us, ws, acts, cfg, now) ==> w.userId != us[p].id
  {
    var rows := PassWarnings(us, ws, acts, cfg, now);
    PassRows(us, ws, acts, cfg, now);
    forall w | w in rows ensures w.userId != us[p].id {
      var m :| 0 <= m < |rows| && rows[m] == w;
      assert IssuedFor(w, us, ws, acts, cfg, now);
      var k :| 0 <= k < |us| && w.userId == us[k].id && [w] == RowFor(us[k], Decide(us[k], ws, acts, cfg, now), now);
      assert k != p;
    }
  }

  // ---------------------------------------------------------------------
  // Re-running a pass at the same instant
  // ---------------------------------------------------------------------

  lemma {:induction false} UserWarningsAppend(a: seq<Warning>, b: seq<Warning>, uid: UserId)
    ensures UserWarnings(a + b, uid) == UserWarnings(a, uid) + UserWarnings(b, uid)
    decreases |b|
  {
    if b != [] {
      var b' := b[..|b| - 1];
      assert (a + b)[..|a + b| - 1] == a + b';
      UserWarningsAppend(a, b', uid);
    } else {
      assert a + b == a;
    }
  }

  lemma {:induction false} FindActiveAppend(a: seq<Warning>, b: seq<Warning>, level: int)
    ensures FindActive(a + b, level) == if FindActive(a, level).Some? then FindActive(a, level) else FindActive(b, level)
    decreases |a|
  {
    if a != [] {
      assert (a + b)[1..] == a[1..] + b;
      FindActiveAppend(a[1..], b, level);
    } else {
      assert a + b == b;
    }
  }

  /** In a pass over users with distinct ids, the rows for user `p` are
      exactly the row of p's own decision. */
  lemma {:induction false} PassRowsOfUser(us: seq<User>, ws: seq<Warning>, acts: seq<Activity>, cfg: WarningConfig, now: int, p: int)
    requires DistinctIds(us) && 0 <= p < |us|
    ensures UserWarnings(PassWarnings(us, ws, acts, cfg, now), us[p].id)
         == RowFor(us[p], Decide(us[p], ws, acts, cfg, now), now)
    decreases |us|
  {
    var init := us[..|us| - 1];
    var last := us[|us| - 1];
    var prev := PassWarnings(init, ws, acts, cfg, now);
    var mine := RowFor(last, Decide(last, ws, acts, cfg, now), now);
    UserWarningsAppend(prev, mine, us[p].id);
    if p == |us| - 1 {
      NoRowsOfAbsentUser(init, ws, acts, cfg, now, last.id);
    } else {
      assert DistinctIds(init) && init[p] == us[p];
      PassRowsOfUser(init, ws, acts, cfg, now, p);
    }
  }

  lemma {:induction false} NoRowsOfAbsentUser(us: seq<User>, ws: seq<Warning>, acts: seq<Activity>, cfg: WarningConfig, now: int, uid: UserId)
    requires forall j :: 0 <= j < |us| ==> us[j].id != uid
    ensures UserWarnings(PassWarnings(us, ws, acts, cfg, now), uid) == []
    decreases |us|
  {
    if us != [] {
      var init := us[..|us| - 1];
      var last := us[|us| - 1];
      UserWarningsAppend(PassWarnings(init, ws, acts, cfg, now), RowFor(last, Decide(last, ws, acts, cfg, now), now), uid);
      NoRowsOfAbsentUser(init, ws, acts, cfg, now, uid);
    }
  }

  /** Under the chain invariant, a user without an active level 1 has no
      active level 2 either. */
  lemma NoLevelTwoWithoutLevelOne(ws: seq<Warning>, uid: UserId)
    requires Chained(ws) && FindActive(UserWarnings(ws, uid), 1).None?
    ensures FindActive(UserWarnings(ws, uid), 2).None?
  {
  }

  /** Right after a level 1 or a level 2 was sent, at the same instant, no
      grace period has elapsed, so nothing more is due. */
  lemma NoStepRightAfterIssue(uid: UserId, l1: Option<Warning>, l2: Option<Warning>, l3: Option<Warning>,
                              acts: seq<Activity>, cfg: WarningConfig, now: int)
    requires cfg.secondGraceDays >= 0 && cfg.thirdGraceDays >= 0 && cfg.noncomplianceGraceDays >= 0
    requires || l3.Some?
             || (l1.Some? && l2.Some? && l2.value.sentAt == now)
             || (l1.Some? && l1.value.sentAt == now && l2.None?)
    ensures Step(uid, l1, l2, l3, acts, cfg, now) == NoAction
  {
  }

  /** The decision of a user does not change once the user's own new row
      from the same decision is in the table: a second pass issues nothing. */
  lemma DecideAgainIsNoAction(u: User, ws: seq<Warning>, acts: seq<Activity>, cfg: WarningConfig, now: int)
    requires Chained(ws)
    requires cfg.secondGraceDays >= 0 && cfg.thirdGraceDays >= 0 && cfg.noncomplianceGraceDays >= 0
    ensures var d := Decide(u, ws, acts, cfg, now);
      Decide(u, ws + RowFor(u, d, now), acts, cfg, now) == NoAction
  {
    var d := Decide(u, ws, acts, cfg, now);
    var row := RowFor(u, d, now);
    var uw := UserWarnings(ws, u.id);
    var uw2 := UserWarnings(ws + row, u.id);
    UserWarningsAppend(ws, row, u.id);
    assert UserWarnings(row, u.id) == row by {
      if row != [] {
        assert UserWarnings(row, u.id) == UserWarnings([], u.id) + row;
      }
    }
    assert uw2 == uw + row;
    FindActiveAppend(uw, row, 1);
    FindActiveAppend(uw, row, 2);
    FindActiveAppend(uw, row, 3);
    if d.NoAction? {
      assert uw2 == uw;
      DecideDependsOnOwnRows(u, ws, ws + row, acts, cfg, now);
    } else {
      if d.level == 1 {
        NoLevelTwoWithoutLevelOne(ws, u.id);
      }
      NoStepRightAfterIssue(u.id, FindActive(uw2, 1), FindActive(uw2, 2), FindActive(uw2, 3), acts, cfg, now);
    }
  }

  lemma {:induction false} PassOfNoActions(us: seq<User>, ws: seq<Warning>, acts: seq<Activity>, cfg: WarningConfig, now: int)
    requires forall j :: 0 <= j < |us| ==> Decide(us[j], ws, acts, cfg, now) == NoAction
    ensures PassWarnings(us, ws, acts, cfg, now) == []
    decreases |us|
  {
    if us != [] {
      PassOfNoActions(us[..|us| - 1], ws, acts, cfg, now);
    }
  }

  /** Idempotence of the engine: with non-negative grace periods, a second
      pass at the same instant over the table the first pass produced issues
      nothing. (The flag `warningEscalated` the first pass may set is never
      read by a pass, see EscalatedFlagNotRead.) */
  lemma SecondPassIssuesNothing(us: seq<User>, ws: seq<Warning>, acts: seq<Activity>, cfg: WarningConfig, now: int)
    requires DistinctIds(us) && Chained(ws)
    requires cfg.secondGraceDays >= 0 && cfg.thirdGraceDays >= 0 && cfg.noncomplianceGraceDays >= 0
    ensures PassWarnings(us, ws + PassWarnings(us, ws, acts, cfg, now), acts, cfg, now) == []
  {
    var rows := PassWarnings(us, ws, acts, cfg, now);
    forall j | 0 <= j < |us| ensures Decide(us[j], ws + rows, acts, cfg, now) == NoAction {
      var u := us[j];
      var d := Decide(u, ws, acts, cfg, now);
      PassRowsOfUser(us, ws, acts, cfg, now, j);
      UserWarningsAppend(ws, rows, u.id);
      UserWarningsAppend(ws, RowFor(u, d, now), u.id);
      assert UserWarnings(ws + rows, u.id) == UserWarnings(ws + RowFor(u, d, now), u.id);
      DecideAgainIsNoAction(u, ws, acts, cfg, now);
      DecideDependsOnOwnRows(u, ws + rows, ws + RowFor(u, d, now), acts, cfg, now);
    }
    PassOfNoActions(us, ws + rows, acts, cfg, now);
  }

  /** A decision reads only the user's own warning rows. */
  lemma DecideDependsOnOwnRows(u: User, ws1: seq<Warning>, ws2: seq<Warning>, acts: seq<Activity>, cfg: WarningConfig, now: int)
    requires UserWarnings(ws1, u.id) == UserWarnings(ws2, u.id)
    ensures Decide(u, ws1, acts, cfg, now) == Decide(u, ws2, acts, cfg, now)
  {
  }

  /** The terminal skip is keyed on an active level-3 row, not on the user's
      `warningEscalated` flag, which no rule reads. */
  lemma EscalatedFlagNotRead(u: User, b: bool, ws: seq<Warning>, acts: seq<Activity>, cfg: WarningConfig, now: int)
    ensures Decide(u.(warningEscalated := b), ws, acts, cfg, now) == Decide(u, ws, acts, cfg, now)
  {
  }

  // ---------------------------------------------------------------------
  // Manual clear
  // ---------------------------------------------------------------------

  /** `update({ user: { id }, active: true }, { active: false })`. */
  function Deactivate(ws: seq<Warning>, uid: UserId): (r: seq<Warning>)
    ensures |r| == |ws|
    ensures forall i :: 0 <= i < |ws| ==> r[i] == (if ws[i].userId == uid then ws[i].(active := false) else ws[i])
  {
    seq(|ws|, i requires 0 <= i < |ws| => if ws[i].userId == uid then ws[i].(active := false) else ws[i])
  }

  /** Clearing keeps both table invariants. */
  lemma DeactivatePreservesInvariants(ws: seq<Warning>, uid: UserId)
    requires UniqueActive(ws) && Chained(ws)
    ensures UniqueActive(Deactivate(ws, uid)) && Chained(Deactivate(ws, uid))
  {
    var r := Deactivate(ws, uid);
    forall i | 0 <= i < |r| && r[i].active && r[i].level in {2, 3}
      ensures exists j :: 0 <= j < |r| && r[j].active && r[j].userId == r[i].userId && r[j].level == r[i].level - 1
    {
      var j :| 0 <= j < |ws| && ws[j].active && ws[j].userId == ws[i].userId && ws[j].level == ws[i].level - 1;
      assert r[j].active;
    }
  }

  /** After a clear, a still-inactive user restarts at level 1: the chain is
      not resumed. */
  lemma ClearRestartsAtLevelOne(u: User, ws: seq<Warning>, acts: seq<Activity>, cfg: WarningConfig, now: int)
    requires Eligible(u) && !Paused(u, now)
    requires !HasActivityInRange(acts, u.id, now - cfg.inactivityWindowDays * DAY, now)
    ensures Decide(u, Deactivate(ws, u.id), acts, cfg, now)
         == Issue(1, Inactivity, now - cfg.inactivityWindowDays * DAY, now)
  {
    var cleared := Deactivate(ws, u.id);
    var uw := UserWarnings(cleared, u.id);
    forall w | w in uw ensures !w.active {
      var i :| 0 <= i < |cleared| && cleared[i] == w;
    }
    assert FindActive(uw, 1).None? && FindActive(uw, 3).None?;
  }
}
