/** What each operation on users, teams and invitations answers, and the one row it changes, told by columns. */
module IdentityOutcomes {
  import opened Wrappers
  import opened Identity

  ghost predicate Acting(rows: Rows, user: Id) { user in rows.users && rows.users[user].Active? }

  ghost predicate ActingAdmin(rows: Rows, user: Id) { user in rows.admins && Acting(rows, user) }

  /** The member is an owner, and the team has no other. */
  ghost predicate LastOwner(rows: Rows, m: MemberId) {
    m in rows.members && rows.members[m].Owner? &&
    forall other | other in rows.members && other.team == m.team && rows.members[other].Owner? :: other == m
  }

  ghost predicate Unanswered(row: Invitation) { row.accepted.None? && row.rejected.None? && row.revoked.None? }

  /** The rows before and after agree but for one key, which is there afterwards with this value. */
  ghost predicate Writes<K(!new), V>(before: map<K, V>, after: map<K, V>, key: K, value: V) {
    (forall k :: k in after <==> k == key || k in before) && after[key] == value &&
    forall k | k in before && k != key :: after[k] == before[k]
  }

  ghost predicate UserCreated(before: Rows, after: Rows, outcome: Outcome, user: Id, status: UserStatus) {
    (outcome.Conflict? <==> user in before.users) && !outcome.NotFound? && !outcome.Failed? &&
    after == before.(users := after.users) &&
    if outcome.Done? then Writes(before.users, after.users, user, status) else after == before
  }

  /** Disabling is refused exactly for the last acting administrator. */
  ghost predicate StatusSet(before: Rows, after: Rows, outcome: Outcome, user: Id, status: UserStatus) {
    (outcome.NotFound? <==> user !in before.users) &&
    (outcome.Conflict? <==>
     status.Disabled? && ActingAdmin(before, user) && forall other | ActingAdmin(before, other) :: other == user) &&
    !outcome.Failed? && after == before.(users := after.users) &&
    if outcome.Done? then Writes(before.users, after.users, user, status) else after == before
  }

  /** Removing the flag from an active user is refused exactly while there are no two acting administrators. */
  ghost predicate AdminSet(before: Rows, after: Rows, outcome: Outcome, user: Id, enabled: bool) {
    (outcome.NotFound? <==> user !in before.users) &&
    (outcome.Conflict? <==>
     !enabled && Acting(before, user) && forall a, b | ActingAdmin(before, a) && ActingAdmin(before, b) :: a == b) &&
    !outcome.Failed? && after == before.(admins := after.admins) &&
    if outcome.Done? then
      forall other :: other in after.admins <==> if other == user then enabled else other in before.admins
    else after == before
  }

  /** A new team starts with one owner. */
  ghost predicate TeamCreated(before: Rows, after: Rows, outcome: Outcome, team: Id, owner: Id) {
    (outcome.Conflict? <==> team in before.teams) &&
    (outcome.Failed? <==>
     team !in before.teams && (owner !in before.users || MemberId(team, owner) in before.members)) &&
    !outcome.NotFound? && after == before.(teams := after.teams, members := after.members) &&
    if outcome.Done? then
      (forall t :: t in after.teams <==> t == team || t in before.teams) &&
      Writes(before.members, after.members, MemberId(team, owner), Owner)
    else after == before
  }

  /** Giving the last owner another role is refused. */
  ghost predicate MemberPut(before: Rows, after: Rows, outcome: Outcome, team: Id, user: Id, role: Role) {
    var m := MemberId(team, user);
    (outcome.NotFound? <==> !Acting(before, user)) &&
    (outcome.Failed? <==> Acting(before, user) && m !in before.members && team !in before.teams) &&
    (outcome.Conflict? <==> Acting(before, user) && LastOwner(before, m) && !role.Owner?) &&
    after == before.(members := after.members) &&
    if outcome.Done? then Writes(before.members, after.members, m, role) else after == before
  }

  /** Removing the last owner is refused; any other member is then gone, and no one else. */
  ghost predicate MemberRemoved(before: Rows, after: Rows, outcome: Outcome, team: Id, user: Id) {
    var m := MemberId(team, user);
    (outcome.Done? <==> m in before.members && !LastOwner(before, m)) &&
    (outcome.NotFound? <==> m !in before.members) && (outcome.Conflict? <==> LastOwner(before, m)) &&
    after == before.(members := after.members) &&
    if outcome.Done? then
      (forall k :: k in after.members <==> k in before.members && k != m) &&
      forall k | k in after.members :: after.members[k] == before.members[k]
    else after == before
  }

  /** Who was invited is invited once: an unanswered invitation refuses a second one until it expires, and an
      expired one is revoked when the next is made. */
  ghost predicate Invited(before: Rows, after: Rows, outcome: Outcome, id: Id, invitation: Invitation) {
    (outcome.Failed? <==> invitation.team !in before.teams || invitation.user !in before.users) &&
    (outcome.Conflict? <==>
     invitation.team in before.teams && invitation.user in before.users &&
     (id in before.invitations ||
      exists k | k in before.invitations ::
        var row := before.invitations[k];
        row.team == invitation.team && row.user == invitation.user && Unanswered(row) &&
        row.expires > invitation.created)) &&
    !outcome.NotFound? && after == before.(invitations := after.invitations) &&
    if outcome.Done? then
      (forall k :: k in after.invitations <==> k == id || k in before.invitations) &&
      after.invitations[id] == Invitation(invitation.team, invitation.user, invitation.role, invitation.expires,
          invitation.created, None, None, None) &&
      forall k | k in before.invitations ::
        var row := before.invitations[k];
        after.invitations[k] ==
          if row.team == invitation.team && row.user == invitation.user && Unanswered(row)
          then row.(revoked := Some(invitation.created)) else row
    else after == before
  }

  /** Only the invited, while active, can answer, once and in time; accepting makes a member of a non-member. */
  ghost predicate Responded(before: Rows, after: Rows, outcome: Outcome, id: Id, user: Id, accept: bool,
          now: Instant)
  {
    (outcome.NotFound? <==> id !in before.invitations || before.invitations[id].user != user) && !outcome.Failed? &&
    (outcome.Done? <==>
     id in before.invitations && before.invitations[id].user == user && Unanswered(before.invitations[id]) &&
     now < before.invitations[id].expires && Acting(before, user) &&
     (accept ==> MemberId(before.invitations[id].team, user) !in before.members)) &&
    after == before.(members := after.members, invitations := after.invitations) &&
    if outcome.Done? then
      var row := before.invitations[id];
      Writes(before.invitations, after.invitations, id,
          Invitation(row.team, row.user, row.role, row.expires, row.created, if accept then Some(now) else None,
                     if accept then None else Some(now), None)) &&
      if accept then Writes(before.members, after.members, MemberId(row.team, user), row.role)
      else after.members == before.members
    else after == before
  }

  /** An invitation of the team can be revoked at any time, with an effect only while it is unanswered. */
  ghost predicate InvitationRevoked(before: Rows, after: Rows, outcome: Outcome, team: Id, id: Id, now: Instant) {
    (outcome.NotFound? <==> id !in before.invitations || before.invitations[id].team != team) &&
    !outcome.Conflict? && !outcome.Failed? && after == before.(invitations := after.invitations) &&
    if outcome.Done? then
      var row := before.invitations[id];
      Writes(before.invitations, after.invitations, id, if Unanswered(row) then row.(revoked := Some(now)) else row)
    else after == before
  }

  /** The invited person is invited again in place of an invitation, unless that person is not active or a member,
      or the new identifier is taken, or a third invitation is unanswered. */
  ghost predicate InvitationReissued(before: Rows, after: Rows, outcome: Outcome, team: Id, id: Id, replacement: Id,
          now: Instant, expires: Instant)
  {
    (outcome.NotFound? <==> id !in before.invitations || before.invitations[id].team != team) && !outcome.Failed? &&
    (outcome.Conflict? <==>
     id in before.invitations && before.invitations[id].team == team &&
     var user := before.invitations[id].user;
     !Acting(before, user) || MemberId(team, user) in before.members || replacement in before.invitations ||
     exists k | k in before.invitations && k != id ::
       before.invitations[k].team == team && before.invitations[k].user == user && Unanswered(before.invitations[k])) &&
    after == before.(invitations := after.invitations) &&
    if outcome.Done? then
      var row := before.invitations[id];
      (forall k :: k in after.invitations <==> k == replacement || k in before.invitations) &&
      after.invitations[replacement] ==
          Invitation(team, row.user, row.role, expires, now, None, None, None) &&
      after.invitations[id] == (if Unanswered(row) then row.(revoked := Some(now)) else row) &&
      forall k | k in before.invitations && k != id :: after.invitations[k] == before.invitations[k]
    else after == before
  }

  /** The answer and the changed row of every operation. */
  ghost predicate Answers(before: Rows, after: Rows, outcome: Outcome, operation: Operation) {
    match operation
    case CreateUser(user, status) => UserCreated(before, after, outcome, user, status)
    case SetUserStatus(user, status) => StatusSet(before, after, outcome, user, status)
    case SetSystemAdmin(user, enabled) => AdminSet(before, after, outcome, user, enabled)
    case CreateTeam(team, owner) => TeamCreated(before, after, outcome, team, owner)
    case PutTeamMember(team, user, role) => MemberPut(before, after, outcome, team, user, role)
    case RemoveTeamMember(team, user) => MemberRemoved(before, after, outcome, team, user)
    case CreateInvitation(id, invitation) => Invited(before, after, outcome, id, invitation)
    case RespondInvitation(id, user, accept, now) => Responded(before, after, outcome, id, user, accept, now)
    case RevokeInvitation(team, id, now) => InvitationRevoked(before, after, outcome, team, id, now)
    case ReissueInvitation(team, id, replacement, now, expires) =>
      InvitationReissued(before, after, outcome, team, id, replacement, now, expires)
  }

  // ---- Proofs

  lemma OneAdminAtMost(rows: Rows)
    ensures |ActiveAdmins(rows)| <= 1 <==> forall a, b | ActingAdmin(rows, a) && ActingAdmin(rows, b) :: a == b
  {
    var admins := ActiveAdmins(rows);
    if a, b :| ActingAdmin(rows, a) && ActingAdmin(rows, b) && a != b {
      SubsetSize({a, b}, admins);
    } else if admins != {} {
      var a :| a in admins;
      assert forall b | b in admins :: ActingAdmin(rows, b);
      assert ActingAdmin(rows, a) && admins <= {a};
      SubsetSize(admins, {a});
    }
  }

  lemma OnlyAdmin(rows: Rows, user: Id)
    requires ActingAdmin(rows, user)
    ensures |ActiveAdmins(rows)| <= 1 <==> forall other | ActingAdmin(rows, other) :: other == user
  {
    OneAdminAtMost(rows);
  }

  lemma StatusSets(rows: Rows, user: Id, status: UserStatus)
    ensures var (next, outcome) := Apply(rows, SetUserStatus(user, status));
            StatusSet(rows, next, outcome, user, status)
  {
    if ActingAdmin(rows, user) { OnlyAdmin(rows, user); }
  }

  lemma AdminSets(rows: Rows, user: Id, enabled: bool)
    ensures var (next, outcome) := Apply(rows, SetSystemAdmin(user, enabled));
            AdminSet(rows, next, outcome, user, enabled)
  {
    OneAdminAtMost(rows);
  }

  lemma NoOtherOwner(rows: Rows, team: Id, user: Id)
    requires MemberId(team, user) in rows.members && rows.members[MemberId(team, user)].Owner?
    ensures OtherOwners(rows, team, user) == {} <==> LastOwner(rows, MemberId(team, user))
  {
    if m :| m in rows.members && m.team == team && rows.members[m].Owner? && m != MemberId(team, user) {
      assert m in OtherOwners(rows, team, user);
    }
  }

  lemma MemberPuts(rows: Rows, team: Id, user: Id, role: Role)
    ensures var (next, outcome) := Apply(rows, PutTeamMember(team, user, role));
            MemberPut(rows, next, outcome, team, user, role)
  {
    if MemberId(team, user) in rows.members && rows.members[MemberId(team, user)].Owner? {
      NoOtherOwner(rows, team, user);
    }
  }

  lemma MemberRemoves(rows: Rows, team: Id, user: Id)
    ensures var (next, outcome) := Apply(rows, RemoveTeamMember(team, user));
            MemberRemoved(rows, next, outcome, team, user)
  {
    if MemberId(team, user) in rows.members && rows.members[MemberId(team, user)].Owner? {
      NoOtherOwner(rows, team, user);
    }
  }

  lemma ExpiredAreRevoked(rows: Rows, team: Id, user: Id, now: Instant)
    ensures var cleared := Terminalized(rows, team, user, now);
            PendingFor(cleared, team, user) <==>
            exists k | k in rows.invitations ::
              rows.invitations[k].team == team && rows.invitations[k].user == user &&
              Unanswered(rows.invitations[k]) && rows.invitations[k].expires > now
  {
    var cleared := Terminalized(rows, team, user, now);
    if PendingFor(cleared, team, user) {
      var k :| k in cleared.invitations && cleared.invitations[k].team == team &&
               cleared.invitations[k].user == user && Pending(cleared.invitations[k]);
      assert k in rows.invitations && Unanswered(rows.invitations[k]);
    }
    if k :| k in rows.invitations && rows.invitations[k].team == team && rows.invitations[k].user == user &&
            Unanswered(rows.invitations[k]) && rows.invitations[k].expires > now {
      assert Pending(cleared.invitations[k]);
    }
  }

  lemma Invites(rows: Rows, id: Id, invitation: Invitation)
    ensures var (next, outcome) := Apply(rows, CreateInvitation(id, invitation));
            Invited(rows, next, outcome, id, invitation)
  {
    ExpiredAreRevoked(rows, invitation.team, invitation.user, invitation.created);
  }

  lemma Responds(rows: Rows, id: Id, user: Id, accept: bool, now: Instant)
    ensures var (next, outcome) := Apply(rows, RespondInvitation(id, user, accept, now));
            Responded(rows, next, outcome, id, user, accept, now)
  {
  }

  lemma StillUnanswered(rows: Rows, id: Id, now: Instant)
    requires id in rows.invitations
    ensures var row := rows.invitations[id];
            var revoked := if Pending(row) then rows.(invitations := rows.invitations[id := row.(revoked := Some(now))])
                else rows;
            PendingFor(revoked, row.team, row.user) <==>
            exists k | k in rows.invitations && k != id ::
              rows.invitations[k].team == row.team && rows.invitations[k].user == row.user &&
              Unanswered(rows.invitations[k])
  {
    var row := rows.invitations[id];
    var revoked := if Pending(row) then rows.(invitations := rows.invitations[id := row.(revoked := Some(now))])
        else rows;
    if k :| k in rows.invitations && k != id && rows.invitations[k].team == row.team &&
            rows.invitations[k].user == row.user && Unanswered(rows.invitations[k]) {
      assert k in revoked.invitations && Pending(revoked.invitations[k]);
    }
  }

  lemma Reissues(rows: Rows, team: Id, id: Id, replacement: Id, now: Instant, expires: Instant)
    ensures var (next, outcome) := Apply(rows, ReissueInvitation(team, id, replacement, now, expires));
            InvitationReissued(rows, next, outcome, team, id, replacement, now, expires)
  {
    if id in rows.invitations { StillUnanswered(rows, id, now); }
  }

  /** Every operation answers as its columns say, and changes the row it says and no other. */
  lemma AppliesExactly(rows: Rows, operation: Operation)
    ensures Answers(rows, Apply(rows, operation).0, Apply(rows, operation).1, operation)
  {
    match operation
    case SetUserStatus(user, status) => StatusSets(rows, user, status);
    case SetSystemAdmin(user, enabled) => AdminSets(rows, user, enabled);
    case PutTeamMember(team, user, role) => MemberPuts(rows, team, user, role);
    case RemoveTeamMember(team, user) => MemberRemoves(rows, team, user);
    case CreateInvitation(id, invitation) => Invites(rows, id, invitation);
    case RespondInvitation(id, user, accept, now) => Responds(rows, id, user, accept, now);
    case ReissueInvitation(team, id, replacement, now, expires) => Reissues(rows, team, id, replacement, now, expires);
    case CreateUser(_, _) | CreateTeam(_, _) | RevokeInvitation(_, _, _) =>
  }

  /** The columns leave no choice: one answer and one state of the rows fit them. */
  lemma AnsweredOnce(rows: Rows, a: Rows, b: Rows, x: Outcome, y: Outcome, operation: Operation)
    requires Answers(rows, a, x, operation) && Answers(rows, b, y, operation)
    ensures a == b && x == y
  {
    assert a.users == b.users && a.admins == b.admins && a.teams == b.teams && a.members == b.members &&
           a.invitations == b.invitations;
  }
}
