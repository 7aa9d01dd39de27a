/** The warning service: it owns the user flags the engine writes
    (`warningEscalated`, `warningPausedUntil`) and the warning table, and
    records every mail it would send in a ghost outbox. Each method is proved
    against the pure rules of module WarningRules. */
module Warnings {
  import opened Common
  import opened Entities
  import opened WarningRules

  /** A mail the service hands to the mailer. */
  datatype Mail =
    | ToAmbassador(userId: UserId, template: string, level: int, reason: Reason, windowStart: int, windowEnd: int)
    | ToAdmins(message: string)

  /** The ORM's refusal of an update whose SET list is empty. */
  const UpdateValuesMissing: string := "Cannot perform update query because update values are not defined."

  /** The configured template of a level (anything but 1 and 2 uses level 3's). */
  function Template(cfg: WarningConfig, level: int): (r: string)
    ensures level == 1 ==> r == cfg.emailTemplateLevel1
    ensures level == 2 ==> r == cfg.emailTemplateLevel2
    ensures level != 1 && level != 2 ==> r == cfg.emailTemplateLevel3
  {
    if level == 1 then cfg.emailTemplateLevel1
    else if level == 2 then cfg.emailTemplateLevel2
    else cfg.emailTemplateLevel3
  }

  function AdminNotice(u: User): string {
    "Ambassador " + u.name + " (" + u.username + ") reached 3 warnings. Recommended removal."
  }

  /** The mails one decision sends: the ambassador's mail, then, for a
      level 3, the admin notice. */
  function MailFor(u: User, cfg: WarningConfig, d: Decision): seq<Mail> {
    if d.NoAction? then []
    else
      [ToAmbassador(u.id, Template(cfg, d.level), d.level, d.reason, d.windowStart, d.windowEnd)]
      + (if d.level == 3 then [ToAdmins(AdminNotice(u))] else [])
  }

  /** The mails of a whole pass, user by user. */
  function PassMail(us: seq<User>, ws: seq<Warning>, acts: seq<Activity>, cfg: WarningConfig, now: int): seq<Mail>
    decreases |us|
  {
    if us == [] then []
    else
      var last := us[|us| - 1];
      PassMail(us[..|us| - 1], ws, acts, cfg, now) + MailFor(last, cfg, Decide(last, ws, acts, cfg, now))
  }

  /** The user table after a pass: every user who got a level 3 is flagged. */
  function PassUsers(us: seq<User>, ws: seq<Warning>, acts: seq<Activity>, cfg: WarningConfig, now: int): (r: seq<User>)
    ensures |r| == |us|
    ensures forall k :: 0 <= k < |us| ==> r[k] == Escalate(us[k], Decide(us[k], ws, acts, cfg, now))
  {
    seq(|us|, k requires 0 <= k < |us| => Escalate(us[k], Decide(us[k], ws, acts, cfg, now)))
  }

  /** `usersRepo.update(id, { warningEscalated: b })`. */
  function SetEscalated(us: seq<User>, uid: UserId, b: bool): (r: seq<User>)
    ensures |r| == |us|
    ensures forall k :: 0 <= k < |us| ==> r[k] == (if us[k].id == uid then us[k].(warningEscalated := b) else us[k])
  {
    seq(|us|, k requires 0 <= k < |us| => if us[k].id == uid then us[k].(warningEscalated := b) else us[k])
  }

  /** `usersRepo.update(id, { warningPausedUntil: t })`. */
  function SetPausedUntil(us: seq<User>, uid: UserId, t: int): (r: seq<User>)
    ensures |r| == |us|
    ensures forall k :: 0 <= k < |us| ==> r[k] == (if us[k].id == uid then us[k].(warningPausedUntil := Some(t)) else us[k])
  {
    seq(|us|, k requires 0 <= k < |us| => if us[k].id == uid then us[k].(warningPausedUntil := Some(t)) else us[k])
  }

  /** Pausing a user until a later instant keeps the next pass from
      warning that user, and only that user's outcome is affected. */
  lemma PauseSilencesUser(us: seq<User>, uid: UserId, t: int, ws: seq<Warning>, acts: seq<Activity>, cfg: WarningConfig, now: int)
    requires DistinctIds(us) && t > now
    ensures forall w :: w in PassWarnings(SetPausedUntil(us, uid, t), ws, acts, cfg, now) ==> w.userId != uid
  {
    var paused := SetPausedUntil(us, uid, t);
    assert DistinctIds(paused);
    var rows := PassWarnings(paused, ws, acts, cfg, now);
    PassRows(paused, ws, acts, cfg, now);
    forall w | w in rows ensures w.userId != uid {
      var m :| 0 <= m < |rows| && rows[m] == w;
      assert IssuedFor(w, paused, ws, acts, cfg, now);
      var k :| 0 <= k < |paused| && w.userId == paused[k].id
               && [w] == RowFor(paused[k], Decide(paused[k], ws, acts, cfg, now), now);
      if paused[k].id == uid {
        assert false;
      }
    }
  }

  lemma PassMailStep(us: seq<User>, i: int, ws: seq<Warning>, acts: seq<Activity>, cfg: WarningConfig, now: int)
    requires 0 <= i < |us|
    ensures PassMail(us[..i + 1], ws, acts, cfg, now)
         == PassMail(us[..i], ws, acts, cfg, now) + MailFor(us[i], cfg, Decide(us[i], ws, acts, cfg, now))
  {
    assert us[..i + 1][..i] == us[..i];
  }

  /** The user table part-way through a pass: the first `i` users have had
      their turn. */
  function UsersAfter(us: seq<User>, i: int, ws: seq<Warning>, acts: seq<Activity>, cfg: WarningConfig, now: int): (r: seq<User>)
    requires 0 <= i <= |us|
    ensures |r| == |us|
    ensures forall k :: 0 <= k < |us| ==> r[k].id == us[k].id
  {
    PassUsers(us[..i], ws, acts, cfg, now) + us[i..]
  }

  /** One more user of the pass adds that user's row. */
  lemma PassUsersStep(us: seq<User>, i: int, ws: seq<Warning>, acts: seq<Activity>, cfg: WarningConfig, now: int)
    requires 0 <= i < |us|
    ensures PassUsers(us[..i + 1], ws, acts, cfg, now)
         == PassUsers(us[..i], ws, acts, cfg, now) + [Escalate(us[i], Decide(us[i], ws, acts, cfg, now))]
  {
    var done := PassUsers(us[..i], ws, acts, cfg, now);
    var done1 := PassUsers(us[..i + 1], ws, acts, cfg, now);
    forall k | 0 <= k < i ensures done1[k] == done[k] {
      assert us[..i + 1][k] == us[..i][k];
    }
  }

  /** Escalating the user at one position of a table with distinct ids is
      `SetEscalated` on that user's id. */
  lemma EscalateInPlace(done: seq<User>, u: User, rest: seq<User>, d: Decision)
    requires DistinctIds(done + [u] + rest)
    ensures done + [Escalate(u, d)] + rest
         == if d.Issue? && d.level == 3 then SetEscalated(done + [u] + rest, u.id, true) else done + [u] + rest
  {
    var before := done + [u] + rest;
    var after := done + [Escalate(u, d)] + rest;
    if d.Issue? && d.level == 3 {
      var expected := SetEscalated(before, u.id, true);
      forall k | 0 <= k < |before| ensures after[k] == expected[k] {
        if k != |done| {
          assert before[|done|] == u;
          assert before[k].id != u.id;
        }
      }
    }
  }

  /** User `i`'s turn touches only row `i` of the user table. */
  lemma UsersAfterStep(us: seq<User>, i: int, ws: seq<Warning>, acts: seq<Activity>, cfg: WarningConfig, now: int)
    requires DistinctIds(us) && 0 <= i < |us|
    ensures var d := Decide(us[i], ws, acts, cfg, now);
      var before := UsersAfter(us, i, ws, acts, cfg, now);
      UsersAfter(us, i + 1, ws, acts, cfg, now)
        == if d.Issue? && d.level == 3 then SetEscalated(before, us[i].id, true) else before
  {
    var done := PassUsers(us[..i], ws, acts, cfg, now);
    var before := UsersAfter(us, i, ws, acts, cfg, now);
    PassUsersStep(us, i, ws, acts, cfg, now);
    assert us[i..] == [us[i]] + us[i + 1..];
    assert before == done + [us[i]] + us[i + 1..];
    assert DistinctIds(before) by {
      forall a, b | 0 <= a < b < |before| ensures before[a].id != before[b].id {
        assert before[a].id == us[a].id && before[b].id == us[b].id;
      }
    }
    EscalateInPlace(done, us[i], us[i + 1..], Decide(us[i], ws, acts, cfg, now));
  }

  /** After the last turn the tables are those of the whole pass, and user
      ids are still distinct. */
  lemma PassDone(us: seq<User>, ws: seq<Warning>, acts: seq<Activity>, cfg: WarningConfig, now: int)
    requires DistinctIds(us)
    ensures UsersAfter(us, |us|, ws, acts, cfg, now) == PassUsers(us, ws, acts, cfg, now)
    ensures PassWarnings(us[..|us|], ws, acts, cfg, now) == PassWarnings(us, ws, acts, cfg, now)
    ensures PassMail(us[..|us|], ws, acts, cfg, now) == PassMail(us, ws, acts, cfg, now)
    ensures DistinctIds(PassUsers(us, ws, acts, cfg, now))
  {
    assert us[..|us|] == us;
    var after := PassUsers(us, ws, acts, cfg, now);
    forall a, b | 0 <= a < b < |after| ensures after[a].id != after[b].id {
      assert after[a].id == us[a].id && after[b].id == us[b].id;
    }
  }

  class WarningsService {
    /** The user table (the engine only writes its two warning fields). */
    var users: seq<User>
    /** The warning table. */
    var warnings: seq<Warning>
    /** Every mail sent so far, in order. */
    ghost var outbox: seq<Mail>

    /** User ids are primary keys. */
    ghost predicate Valid()
      reads this
    {
      DistinctIds(users)
    }

    /** The table invariants the engine keeps: one active warning per level
        per user, and every active level above 1 sits on the level below. */
    ghost predicate Consistent()
      reads this
    {
      UniqueActive(warnings) && Chained(warnings)
    }

    constructor(users0: seq<User>, warnings0: seq<Warning>)
      requires DistinctIds(users0)
      ensures Valid()
      ensures users == users0 && warnings == warnings0 && outbox == []
    {
      users := users0;
      warnings := warnings0;
      outbox := [];
    }

    /** Saves an active warning sent now, mails the level's template and, for
        a level 3, flags the user as escalated. */
    method IssueWarning(u: User, level: int, reason: Reason, windowStart: int, windowEnd: int,
                        cfg: WarningConfig, now: int)
      requires Valid()
      modifies this
      ensures Valid()
      ensures warnings == old(warnings) + [Warning(u.id, level, reason, windowStart, windowEnd, now, true)]
      ensures outbox == old(outbox) + [ToAmbassador(u.id, Template(cfg, level), level, reason, windowStart, windowEnd)]
      ensures users == if level == 3 then SetEscalated(old(users), u.id, true) else old(users)
    {
      warnings := warnings + [Warning(u.id, level, reason, windowStart, windowEnd, now, true)];
      var tpl := if level == 1 then cfg.emailTemplateLevel1
                 else if level == 2 then cfg.emailTemplateLevel2
                 else cfg.emailTemplateLevel3;
      outbox := outbox + [ToAmbassador(u.id, tpl, level, reason, windowStart, windowEnd)];
      if level == 3 {
        users := SetEscalated(users, u.id, true);
      }
    }

    method EscalateToAdmins(u: User)
      modifies this
      ensures outbox == old(outbox) + [ToAdmins(AdminNotice(u))]
      ensures users == old(users) && warnings == old(warnings)
    {
      outbox := outbox + [ToAdmins("Ambassador " + u.name + " (" + u.username + ") reached 3 warnings. Recommended removal.")];
    }

    /** One iteration of the pass for an eligible user `u`, on the warning
        table `ws0` loaded at the start of the pass: paused users and users
        with an active level 3 are skipped, the rest go through the rules. */
    method EvaluateUser(u: User, ws0: seq<Warning>, acts: seq<Activity>, cfg: WarningConfig, now: int)
      requires Valid() && Eligible(u)
      modifies this
      ensures Valid()
      ensures var d := Decide(u, ws0, acts, cfg, now);
        && warnings == old(warnings) + RowFor(u, d, now)
        && outbox == old(outbox) + MailFor(u, cfg, d)
        && users == if d.Issue? && d.level == 3 then SetEscalated(old(users), u.id, true) else old(users)
    {
      if u.warningPausedUntil.Some? && u.warningPausedUntil.value > now {
        return;
      }
      var userWarnings := UserWarnings(ws0, u.id);
      var level1 := FindActive(userWarnings, 1);
      var level2 := FindActive(userWarnings, 2);
      var level3 := FindActive(userWarnings, 3);
      if level3.Some? {
        return;
      }
      ApplyRules(u, level1, level2, acts, cfg, now);
    }

    /** The three rules for a user with no active level 3, given the user's
        active level-1 and level-2 rows; the first rule that fires issues
        its warning and ends the user's turn. */
    method ApplyRules(u: User, level1: Option<Warning>, level2: Option<Warning>,
                      acts: seq<Activity>, cfg: WarningConfig, now: int)
      requires Valid()
      modifies this
      ensures Valid()
      ensures var d := Step(u.id, level1, level2, None, acts, cfg, now);
        && warnings == old(warnings) + RowFor(u, d, now)
        && outbox == old(outbox) + MailFor(u, cfg, d)
        && users == if d.Issue? && d.level == 3 then SetEscalated(old(users), u.id, true) else old(users)
    {
      ghost var d := Step(u.id, level1, level2, None, acts, cfg, now);
      var windowStart := now - cfg.inactivityWindowDays * DAY;
      var hasAnyActivity := HasActivityInRange(acts, u.id, windowStart, now);
      if level1.None? && !hasAnyActivity {
        assert d == Issue(1, Inactivity, windowStart, now);
        IssueWarning(u, 1, Inactivity, windowStart, now, cfg, now);
        return;
      }
      if level1.Some? && level2.None? {
        var secondDue := AddDays(level1.value.sentAt, cfg.secondGraceDays);
        if now > secondDue {
          var stillNoActivity := !HasActivityInRange(acts, u.id, level1.value.windowStart, now);
          if stillNoActivity {
            assert d == Issue(2, Inactivity, level1.value.windowStart, now);
            IssueWarning(u, 2, Inactivity, level1.value.windowStart, now, cfg, now);
            return;
          }
        }
      }
      if level2.Some? {
        var thirdDue := AddDays(level2.value.sentAt, cfg.thirdGraceDays);
        var nonComplDue := AddDays(level2.value.sentAt, cfg.noncomplianceGraceDays);
        var start3 := if level1.Some? then level1.value.windowStart else windowStart;
        if now > thirdDue {
          var stillNoActivity := !HasActivityInRange(acts, u.id, start3, now);
          if stillNoActivity {
            assert d == Issue(3, Inactivity, start3, now);
            IssueWarning(u, 3, Inactivity, start3, now, cfg, now);
            EscalateToAdmins(u);
            assert MailFor(u, cfg, d) == [ToAmbassador(u.id, Template(cfg, 3), 3, Inactivity, start3, now), ToAdmins(AdminNotice(u))];
            return;
          }
        }
        if now > nonComplDue {
          var hasPosted := HasActivityInRange(acts, u.id, level2.value.sentAt, now);
          if hasPosted {
            var nonCompl := IsNonCompliantSince(acts, u.id, level2.value.sentAt, now, cfg);
            if nonCompl {
              assert d == Issue(3, NonCompliance, level2.value.sentAt, now);
              IssueWarning(u, 3, NonCompliance, level2.value.sentAt, now, cfg, now);
              EscalateToAdmins(u);
              assert MailFor(u, cfg, d) == [ToAmbassador(u.id, Template(cfg, 3), 3, NonCompliance, level2.value.sentAt, now), ToAdmins(AdminNotice(u))];
              return;
            }
          }
        }
      }
      assert d == NoAction;
    }

    /** The turn of user `i` of the pass: users outside the query are
        skipped, the others are evaluated. */
    method TakeTurn(snapshot: seq<User>, i: int, ws0: seq<Warning>, ghost mails0: seq<Mail>,
                    acts: seq<Activity>, cfg: WarningConfig, now: int)
      requires DistinctIds(snapshot) && 0 <= i < |snapshot|
      requires warnings == ws0 + PassWarnings(snapshot[..i], ws0, acts, cfg, now)
      requires outbox == mails0 + PassMail(snapshot[..i], ws0, acts, cfg, now)
      requires users == UsersAfter(snapshot, i, ws0, acts, cfg, now)
      modifies this
      ensures warnings == ws0 + PassWarnings(snapshot[..i + 1], ws0, acts, cfg, now)
      ensures outbox == mails0 + PassMail(snapshot[..i + 1], ws0, acts, cfg, now)
      ensures users == UsersAfter(snapshot, i + 1, ws0, acts, cfg, now)
    {
      var user := snapshot[i];
      ghost var d := Decide(user, ws0, acts, cfg, now);
      ghost var sent := PassMail(snapshot[..i], ws0, acts, cfg, now);
      PassWarningsStep(snapshot, i, ws0, acts, cfg, now);
      PassMailStep(snapshot, i, ws0, acts, cfg, now);
      UsersAfterStep(snapshot, i, ws0, acts, cfg, now);
      assert Valid();
      // The query's where-clause: only active ambassadors are loaded.
      if Eligible(user) {
        EvaluateUser(user, ws0, acts, cfg, now);
      } else {
        assert d == NoAction && MailFor(user, cfg, d) == [];
      }
      AppendAssoc(mails0, sent, MailFor(user, cfg, d));
      AppendAssoc(ws0, PassWarnings(snapshot[..i], ws0, acts, cfg, now), RowFor(user, d, now));
    }

    /** One evaluation pass at instant `now` over the active ambassadors,
        in user-table order, on the tables as they were at the start. */
    method EvaluateAndSend(acts: seq<Activity>, cfg: WarningConfig, now: int)
      requires Valid()
      modifies this
      ensures Valid()
      ensures warnings == old(warnings) + PassWarnings(old(users), old(warnings), acts, cfg, now)
      ensures outbox == old(outbox) + PassMail(old(users), old(warnings), acts, cfg, now)
      ensures users == PassUsers(old(users), old(warnings), acts, cfg, now)
      ensures old(Consistent()) ==> Consistent()
    {
      var snapshot := users;
      var ws0 := warnings;
      ghost var mails0 := outbox;
      var i := 0;
      while i < |snapshot|
        invariant 0 <= i <= |snapshot| && DistinctIds(snapshot)
        invariant warnings == ws0 + PassWarnings(snapshot[..i], ws0, acts, cfg, now)
        invariant outbox == mails0 + PassMail(snapshot[..i], ws0, acts, cfg, now)
        invariant users == UsersAfter(snapshot, i, ws0, acts, cfg, now)
      {
        TakeTurn(snapshot, i, ws0, mails0, acts, cfg, now);
        i := i + 1;
      }
      PassDone(snapshot, ws0, acts, cfg, now);
      if old(Consistent()) {
        PassPreservesUniqueActive(snapshot, ws0, acts, cfg, now);
        PassPreservesChained(snapshot, ws0, acts, cfg, now);
      }
    }

    /** Deactivates all of the user's active warnings and resets the
        escalation flag. An unknown id changes nothing. */
    method ClearUserWarnings(uid: UserId)
      requires Valid()
      modifies this
      ensures Valid()
      ensures warnings == Deactivate(old(warnings), uid)
      ensures users == SetEscalated(old(users), uid, false)
      ensures outbox == old(outbox)
      ensures old(Consistent()) ==> Consistent()
    {
      if Consistent() {
        DeactivatePreservesInvariants(warnings, uid);
      }
      warnings := Deactivate(warnings, uid);
      users := SetEscalated(users, uid, false);
    }

    /** Pauses warnings for the user until `until`. A missing `until`
        (`null`) becomes `undefined`, which the update drops from its SET
        list; with no column left to set (the user row has no update-date
        or version column) the update is refused and nothing changes. */
    method PauseUserWarnings(uid: UserId, until: Option<int>) returns (r: Result<()>)
      requires Valid()
      modifies this
      ensures Valid()
      ensures r.Err? <==> until.None?
      ensures r.Err? ==> r.error == Failure(UpdateValuesMissing)
      ensures users == if until.Some? then SetPausedUntil(old(users), uid, until.value) else old(users)
      ensures warnings == old(warnings) && outbox == old(outbox)
    {
      if until.None? {
        return Err(Failure(UpdateValuesMissing));
      }
      users := SetPausedUntil(users, uid, until.value);
      r := Ok(());
    }
  }
}
