/** No operation on users, teams and invitations ever leaves the system without an administrator, or a
    team without an owner, or an invitation in two minds. */
module IdentitySafety {
  import opened Wrappers
  import opened Identity

  // ---- The invariant

  /** Some administrator is active. */
  ghost predicate AdminsOk(rows: Rows) {
    exists user | user in rows.admins :: user in rows.users && rows.users[user].Active?
  }

  lemma ActingAdmin(rows: Rows) returns (user: Id)
    requires AdminsOk(rows)
    ensures user in ActiveAdmins(rows)
  {
    user :| user in rows.admins && user in rows.users && rows.users[user].Active?;
  }

  ghost predicate Owned(rows: Rows, team: Id) { exists m | m in rows.members ::
          m.team == team && rows.members[m].Owner? }

  ghost predicate TeamsOk(rows: Rows) { forall team | team in rows.teams :: Owned(rows, team) }

  function Stamps(invitation: Invitation): nat {
    (if invitation.accepted.Some? then 1 else 0) + (if invitation.rejected.Some? then 1
        else 0) + (if invitation.revoked.Some? then 1 else 0)
  }

  ghost predicate InvitationsOk(rows: Rows) {
    (forall id | id in rows.invitations :: Stamps(rows.invitations[id]) <= 1) &&
    forall i, j | i in rows.invitations && j in rows.invitations && Pending(rows.invitations[i]) &&
        Pending(rows.invitations[j]) &&
                  rows.invitations[i].team == rows.invitations[j].team &&
                      rows.invitations[i].user == rows.invitations[j].user :: i == j
  }

  ghost predicate RowsOk(rows: Rows) { AdminsOk(rows) && TeamsOk(rows) && InvitationsOk(rows) }

  lemma BootstrappedOk(admin: Id)
    ensures RowsOk(Bootstrapped(admin))
  {
    assert admin in ActiveAdmins(Bootstrapped(admin));
  }

  /** More than one administrator means one beside any given user. */
  lemma AnotherAdmin(rows: Rows, user: Id)
    requires |ActiveAdmins(rows)| > 1
    ensures exists other :: other in ActiveAdmins(rows) && other != user
  {
    if forall other | other in ActiveAdmins(rows) :: other == user {
      assert ActiveAdmins(rows) <= {user};
      SubsetSize(ActiveAdmins(rows), {user});
      assert false;
    }
  }

  lemma KeepsAdmins(rows: Rows, operation: Operation)
    requires AdminsOk(rows)
    ensures AdminsOk(Apply(rows, operation).0)
  {
    var next := Apply(rows, operation).0;
    if (operation.SetUserStatus? || operation.SetSystemAdmin?) && |ActiveAdmins(rows)| > 1 {
      AnotherAdmin(rows, operation.user);
      var other :| other in ActiveAdmins(rows) && other != operation.user;
      assert other in ActiveAdmins(next);
    } else {
      var admin := ActingAdmin(rows);
      SubsetSize({admin}, ActiveAdmins(rows));
      if operation.SetSystemAdmin? && !operation.enabled && operation.user == admin {
        assert next == rows;
      }
      assert admin in ActiveAdmins(next);
    }
  }

  lemma KeepsOwned(rows: Rows, operation: Operation, team: Id)
    requires Owned(rows, team) && team in rows.teams
    ensures Owned(Apply(rows, operation).0, team)
  {
    var next := Apply(rows, operation).0;
    if (operation.PutTeamMember? || operation.RemoveTeamMember?) && operation.team == team &&
        OtherOwners(rows, team, operation.user) != {} {
      var m :| m in OtherOwners(rows, team, operation.user);
      assert m in next.members;
    } else {
      var m :| m in rows.members && m.team == team && rows.members[m].Owner?;
      if (operation.PutTeamMember? || operation.RemoveTeamMember?) && operation.team == team &&
          m.user != operation.user {
        assert m in OtherOwners(rows, team, operation.user);
      }
      assert m in next.members && next.members[m].Owner?;
    }
  }

  lemma KeepsTeams(rows: Rows, operation: Operation)
    requires TeamsOk(rows)
    ensures TeamsOk(Apply(rows, operation).0)
  {
    var next := Apply(rows, operation).0;
    forall team | team in next.teams ensures Owned(next, team) {
      if team in rows.teams {
        KeepsOwned(rows, operation, team);
      } else {
        assert MemberId(team, operation.owner) in next.members;
      }
    }
  }

  // ---- Invitations

  lemma InsertKeeps(rows: Rows, id: Id, invitation: Invitation)
    requires InvitationsOk(rows) && Stamps(invitation) <= 1
    ensures Insert(rows, id, invitation).Some? ==> InvitationsOk(Insert(rows, id, invitation).value)
  {
    if Insert(rows, id, invitation).Some? && Pending(invitation) {
      assert !PendingFor(rows, invitation.team, invitation.user);
    }
  }

  lemma TerminalizedKeeps(rows: Rows, team: Id, user: Id, now: Instant)
    requires InvitationsOk(rows)
    ensures InvitationsOk(Terminalized(rows, team, user, now))
  {
    var next := Terminalized(rows, team, user, now);
    forall id | id in next.invitations
        ensures Stamps(next.invitations[id]) <= 1 &&
                (Pending(next.invitations[id]) ==> next.invitations[id] == rows.invitations[id]) {
      assert Stamps(rows.invitations[id]) <= 1;
    }
  }

  /** Stamping a pending invitation keeps the others as they were. */
  lemma StampKeeps(rows: Rows, id: Id, stamped: Invitation)
    requires InvitationsOk(rows) && id in rows.invitations && Pending(rows.invitations[id]) && !Pending(stamped) &&
             Stamps(stamped) <= 1
    ensures InvitationsOk(rows.(invitations := rows.invitations[id := stamped]))
  {
  }

  lemma KeepsInvitations(rows: Rows, operation: Operation)
    requires InvitationsOk(rows)
    ensures InvitationsOk(Apply(rows, operation).0)
  {
    match operation
    case CreateInvitation(id, invitation) =>
      TerminalizedKeeps(rows, invitation.team, invitation.user, invitation.created);
      InsertKeeps(Terminalized(rows, invitation.team, invitation.user, invitation.created), id,
                  Fresh(invitation.team, invitation.user, invitation.role, invitation.expires, invitation.created));
    case RespondInvitation(id, user, accept, now) =>
      if Respond(rows, id, user, accept, now).1.Done? {
        StampKeeps(rows, id, Apply(rows, operation).0.invitations[id]);
      }
    case RevokeInvitation(team, id, now) =>
      if id in rows.invitations && Pending(rows.invitations[id]) {
        StampKeeps(rows, id, rows.invitations[id].(revoked := Some(now)));
      }
    case ReissueInvitation(team, id, replacement, now, expires) =>
      if id in rows.invitations {
        var row := rows.invitations[id];
        if Pending(row) { StampKeeps(rows, id, row.(revoked := Some(now))); }
        InsertKeeps(if Pending(row) then rows.(invitations := rows.invitations[id := row.(revoked := Some(now))])
            else rows, replacement,
                    Fresh(team, row.user, row.role, expires, now));
      }
    case _ =>
  }

  lemma ApplyKeeps(rows: Rows, operation: Operation)
    requires RowsOk(rows)
    ensures RowsOk(Apply(rows, operation).0)
  {
    KeepsAdmins(rows, operation);
    KeepsTeams(rows, operation);
    KeepsInvitations(rows, operation);
  }

  lemma ApplyKeepsRows(rows: Rows, operation: Operation)
    ensures RowsOk(rows) ==> RowsOk(Apply(rows, operation).0)
  {
    if RowsOk(rows) { ApplyKeeps(rows, operation); }
  }

  lemma {:induction false} ApplyAllKeeps(rows: Rows, operations: seq<Operation>)
    requires RowsOk(rows)
    ensures RowsOk(ApplyAll(rows, operations))
    decreases |operations|
  {
    if operations != [] {
      ApplyKeeps(rows, operations[0]);
      ApplyAllKeeps(Apply(rows, operations[0]).0, operations[1..]);
    }
  }

  // ---- Over whole runs

  /** From a first start on, there is always an active administrator, every team has an owner, no
      invitation bears two stamps, and nobody has two pending invitations to one team. */
  lemma NeverOrphaned(admin: Id, operations: seq<Operation>, team: Id)
    ensures var rows := ApplyAll(Bootstrapped(admin), operations);
            AdminsOk(rows) &&
            (team in rows.teams ==>
                exists m | m in rows.members :: m.team == team && rows.members[m].Owner?) &&
            InvitationsOk(rows)
  {
    BootstrappedOk(admin);
    ApplyAllKeeps(Bootstrapped(admin), operations);
    var rows := ApplyAll(Bootstrapped(admin), operations);
    if team in rows.teams { assert Owned(rows, team); }
  }

  /** An invitation that bears a stamp never changes again. */
  ghost predicate StampsStay(before: Rows, after: Rows) {
    forall id | id in before.invitations ::
      id in after.invitations && (!Pending(before.invitations[id]) ==> after.invitations[id] == before.invitations[id])
  }

  lemma ApplyKeepsStamps(rows: Rows, operation: Operation)
    ensures StampsStay(rows, Apply(rows, operation).0)
  {
  }

  lemma {:induction false} StampsAreFinal(rows: Rows, operations: seq<Operation>)
    ensures StampsStay(rows, ApplyAll(rows, operations))
    decreases |operations|
  {
    if operations != [] {
      ApplyKeepsStamps(rows, operations[0]);
      StampsAreFinal(Apply(rows, operations[0]).0, operations[1..]);
    }
  }

  /** A new invitation conflicts exactly when its identifier is taken or the same person has a pending
      invitation to the same team that has not expired by then. */
  lemma InviteConflictsExactly(rows: Rows, id: Id, invitation: Invitation)
    requires invitation.team in rows.teams && invitation.user in rows.users
    ensures Invite(rows, id, invitation).1.Conflict? <==>
            id in rows.invitations ||
            exists other | other in rows.invitations ::
              rows.invitations[other].team == invitation.team && rows.invitations[other].user == invitation.user &&
              Pending(rows.invitations[other]) && rows.invitations[other].expires > invitation.created
  {
    var cleared := Terminalized(rows, invitation.team, invitation.user, invitation.created);
    forall other | other in rows.invitations && rows.invitations[other].team == invitation.team &&
        rows.invitations[other].user == invitation.user
      ensures Pending(cleared.invitations[other]) <==>
              Pending(rows.invitations[other]) && rows.invitations[other].expires > invitation.created
    {
    }
    if PendingFor(cleared, invitation.team, invitation.user) {
      var other :| other in cleared.invitations && cleared.invitations[other].team == invitation.team &&
                   cleared.invitations[other].user == invitation.user && Pending(cleared.invitations[other]);
      assert other in rows.invitations && Pending(rows.invitations[other]);
    }
    if exists other | other in rows.invitations ::
         rows.invitations[other].team == invitation.team && rows.invitations[other].user == invitation.user &&
         Pending(rows.invitations[other]) && rows.invitations[other].expires > invitation.created {
      var other :| other in rows.invitations && rows.invitations[other].team == invitation.team &&
                   rows.invitations[other].user == invitation.user && Pending(rows.invitations[other]) &&
                       rows.invitations[other].expires > invitation.created;
      assert Pending(cleared.invitations[other]);
    }
  }

  /** An invitation becomes accepted only in the step that makes the person a member with the invited role. */
  lemma AcceptingIsJoining(rows: Rows, operation: Operation, id: Id)
    requires id in rows.invitations && rows.invitations[id].accepted.None?
    ensures var next := Apply(rows, operation).0;
            id in next.invitations && next.invitations[id].accepted.Some? ==>
              var m := MemberId(rows.invitations[id].team, rows.invitations[id].user);
              m !in rows.members && m in next.members && next.members[m] == rows.invitations[id].role &&
                  IsActive(rows, m.user) &&
              Pending(rows.invitations[id])
  {
  }

  /** Revoking twice is revoking once. */
  lemma RevokeIdempotent(rows: Rows, team: Id, id: Id, first: Instant, second: Instant)
    ensures Revoke(Revoke(rows, team, id, first).0, team, id, second) == Revoke(rows, team, id, first)
  {
  }
}
