/** The identity repository as it runs: each operation is one transaction over the rows it keeps. */
module IdentityRepository {
  import opened Wrappers
  import opened Identity
  import IdentityOutcomes
  import IdentitySafety

  class Repository {
    var users: map<Id, UserStatus>
    var admins: set<Id>
    var teams: set<Id>
    var members: map<MemberId, Role>
    var invitations: map<Id, Invitation>

    constructor (admin: Id)
      ensures State() == Bootstrapped(admin) && IdentitySafety.RowsOk(State())
    {
      users, admins, teams, members, invitations := map[admin := Active], {admin}, {}, map[], map[];
      new;
      IdentitySafety.BootstrappedOk(admin);
    }

    function State(): Rows
      reads this
    {
      Rows(users, admins, teams, members, invitations)
    }

    method SetUserStatus(user: Id, status: UserStatus) returns (outcome: Outcome)
      modifies this
      ensures (State(), outcome) == Apply(old(State()), Operation.SetUserStatus(user, status))
      ensures IdentityOutcomes.StatusSet(old(State()), State(), outcome, user, status)
      ensures IdentitySafety.RowsOk(old(State())) ==> IdentitySafety.RowsOk(State())
    {
      IdentitySafety.ApplyKeepsRows(State(), Operation.SetUserStatus(user, status));
      IdentityOutcomes.AppliesExactly(State(), Operation.SetUserStatus(user, status));
      if user !in users {
        return NotFound;
      }
      if users[user] == status {
        return Done;
      }
      if status == Disabled {
        var activeAdmins := |ActiveAdmins(State())|;
        if user in admins && activeAdmins <= 1 {
          return Conflict;
        }
      }
      users := users[user := status];
      outcome := Done;
    }

    method SetSystemAdmin(user: Id, enabled: bool) returns (outcome: Outcome)
      modifies this
      ensures (State(), outcome) == Apply(old(State()), Operation.SetSystemAdmin(user, enabled))
      ensures IdentityOutcomes.AdminSet(old(State()), State(), outcome, user, enabled)
      ensures IdentitySafety.RowsOk(old(State())) ==> IdentitySafety.RowsOk(State())
    {
      IdentitySafety.ApplyKeepsRows(State(), Operation.SetSystemAdmin(user, enabled));
      IdentityOutcomes.AppliesExactly(State(), Operation.SetSystemAdmin(user, enabled));
      if user !in users {
        return NotFound;
      }
      if enabled {
        admins := admins + {user};
        return Done;
      }
      var activeAdmins := |ActiveAdmins(State())|;
      if users[user] == Active && activeAdmins <= 1 {
        return Conflict;
      }
      admins := admins - {user};
      outcome := Done;
    }

    method CreateTeam(team: Id, owner: Id) returns (outcome: Outcome)
      modifies this
      ensures (State(), outcome) == Apply(old(State()), Operation.CreateTeam(team, owner))
      ensures IdentityOutcomes.TeamCreated(old(State()), State(), outcome, team, owner)
      ensures IdentitySafety.RowsOk(old(State())) ==> IdentitySafety.RowsOk(State())
    {
      IdentitySafety.ApplyKeepsRows(State(), Operation.CreateTeam(team, owner));
      IdentityOutcomes.AppliesExactly(State(), Operation.CreateTeam(team, owner));
      if team in teams {
        return Conflict;
      }
      if owner !in users || MemberId(team, owner) in members {
        return Failed;
      }
      teams := teams + {team};
      members := members[MemberId(team, owner) := Owner];
      outcome := Done;
    }

    /** Whether the team would keep an owner without this user. */
    method EnsureOtherOwner(team: Id, user: Id) returns (ok: bool)
      ensures ok <==> OtherOwners(State(), team, user) != {}
    {
      var count := |OtherOwners(State(), team, user)|;
      ok := count != 0;
    }

    method PutTeamMember(team: Id, user: Id, role: Role) returns (outcome: Outcome)
      modifies this
      ensures (State(), outcome) == Apply(old(State()), Operation.PutTeamMember(team, user, role))
      ensures IdentityOutcomes.MemberPut(old(State()), State(), outcome, team, user, role)
      ensures IdentitySafety.RowsOk(old(State())) ==> IdentitySafety.RowsOk(State())
    {
      IdentitySafety.ApplyKeepsRows(State(), Operation.PutTeamMember(team, user, role));
      IdentityOutcomes.AppliesExactly(State(), Operation.PutTeamMember(team, user, role));
      var m := MemberId(team, user);
      if user !in users || users[user] != Active {
        return NotFound;
      }
      if m !in members {
        if team !in teams {
          return Failed;
        }
        members := members[m := role];
        return Done;
      }
      if members[m] == role {
        return Done;
      }
      if members[m] == Owner && role != Owner {
        var ok := EnsureOtherOwner(team, user);
        if !ok {
          return Conflict;
        }
      }
      members := members[m := role];
      outcome := Done;
    }

    method RemoveTeamMember(team: Id, user: Id) returns (outcome: Outcome)
      modifies this
      ensures (State(), outcome) == Apply(old(State()), Operation.RemoveTeamMember(team, user))
      ensures IdentityOutcomes.MemberRemoved(old(State()), State(), outcome, team, user)
      ensures IdentitySafety.RowsOk(old(State())) ==> IdentitySafety.RowsOk(State())
    {
      IdentitySafety.ApplyKeepsRows(State(), Operation.RemoveTeamMember(team, user));
      IdentityOutcomes.AppliesExactly(State(), Operation.RemoveTeamMember(team, user));
      var m := MemberId(team, user);
      if m !in members {
        return NotFound;
      }
      if members[m] == Owner {
        var ok := EnsureOtherOwner(team, user);
        if !ok {
          return Conflict;
        }
      }
      members := members - {m};
      outcome := Done;
    }

    /** The unique indexes on invitations decide whether a row can be added. */
    method InsertInvitation(id: Id, invitation: Invitation) returns (ok: bool)
      modifies this`invitations
      ensures Insert(old(State()), id, invitation) == if ok then Some(State()) else None
      ensures !ok ==> State() == old(State())
    {
      if id in invitations || (Pending(invitation) && PendingFor(State(), invitation.team, invitation.user)) {
        return false;
      }
      invitations := invitations[id := invitation];
      ok := true;
    }

    method CreateTeamInvitation(id: Id, invitation: Invitation) returns (outcome: Outcome)
      modifies this
      ensures (State(), outcome) == Apply(old(State()), CreateInvitation(id, invitation))
      ensures IdentityOutcomes.Invited(old(State()), State(), outcome, id, invitation)
      ensures IdentitySafety.RowsOk(old(State())) ==> IdentitySafety.RowsOk(State())
    {
      IdentitySafety.ApplyKeepsRows(State(), CreateInvitation(id, invitation));
      IdentityOutcomes.AppliesExactly(State(), CreateInvitation(id, invitation));
      if invitation.team !in teams || invitation.user !in users {
        return Failed;
      }
      var before := invitations;
      invitations := map k | k in invitations ::
        var row := invitations[k];
        if row.team == invitation.team && row.user == invitation.user && Pending(row) &&
            row.expires <= invitation.created
        then row.(revoked := Some(invitation.created)) else row;
      assert State() == Terminalized(old(State()), invitation.team, invitation.user, invitation.created);
      var ok := InsertInvitation(id,
          Fresh(invitation.team, invitation.user, invitation.role, invitation.expires, invitation.created));
      if !ok {
        invitations := before;
        return Conflict;
      }
      outcome := Done;
    }

    method RespondInvitation(id: Id, user: Id, accept: bool, now: Instant) returns (outcome: Outcome)
      modifies this
      ensures (State(), outcome) == Apply(old(State()), Operation.RespondInvitation(id, user, accept, now))
      ensures IdentityOutcomes.Responded(old(State()), State(), outcome, id, user, accept, now)
      ensures IdentitySafety.RowsOk(old(State())) ==> IdentitySafety.RowsOk(State())
    {
      IdentitySafety.ApplyKeepsRows(State(), Operation.RespondInvitation(id, user, accept, now));
      IdentityOutcomes.AppliesExactly(State(), Operation.RespondInvitation(id, user, accept, now));
      if id !in invitations || invitations[id].user != user {
        return NotFound;
      }
      var invitation := invitations[id];
      if invitation.accepted.Some? || invitation.rejected.Some? || invitation.revoked.Some? ||
          invitation.expires <= now {
        return Conflict;
      }
      if user !in users || users[user] != Active {
        return Conflict;
      }
      if accept {
        if MemberId(invitation.team, user) in members {
          return Conflict;
        }
        members := members[MemberId(invitation.team, user) := invitation.role];
        invitations := invitations[id := invitation.(accepted := Some(now))];
        return Done;
      }
      invitations := invitations[id := invitation.(rejected := Some(now))];
      outcome := Done;
    }

    method RevokeInvitation(team: Id, id: Id, now: Instant) returns (outcome: Outcome)
      modifies this
      ensures (State(), outcome) == Apply(old(State()), Operation.RevokeInvitation(team, id, now))
      ensures IdentityOutcomes.InvitationRevoked(old(State()), State(), outcome, team, id, now)
      ensures IdentitySafety.RowsOk(old(State())) ==> IdentitySafety.RowsOk(State())
    {
      IdentitySafety.ApplyKeepsRows(State(), Operation.RevokeInvitation(team, id, now));
      IdentityOutcomes.AppliesExactly(State(), Operation.RevokeInvitation(team, id, now));
      if id in invitations && invitations[id].team == team && Pending(invitations[id]) {
        invitations := invitations[id := invitations[id].(revoked := Some(now))];
        return Done;
      }
      outcome := if id in invitations && invitations[id].team == team then Done else NotFound;
    }

    method ReissueInvitation(team: Id, id: Id, replacement: Id, now: Instant, expires: Instant)
            returns (outcome: Outcome)
      modifies this
      ensures (State(), outcome) == Apply(old(State()),
              Operation.ReissueInvitation(team, id, replacement, now, expires))
      ensures IdentityOutcomes.InvitationReissued(old(State()), State(), outcome, team, id, replacement, now, expires)
      ensures IdentitySafety.RowsOk(old(State())) ==> IdentitySafety.RowsOk(State())
    {
      IdentitySafety.ApplyKeepsRows(State(), Operation.ReissueInvitation(team, id, replacement, now, expires));
      IdentityOutcomes.AppliesExactly(State(), Operation.ReissueInvitation(team, id, replacement, now, expires));
      if id !in invitations || invitations[id].team != team {
        return NotFound;
      }
      var previous := invitations[id];
      if previous.user !in users || users[previous.user] != Active {
        return Conflict;
      }
      if MemberId(team, previous.user) in members {
        return Conflict;
      }
      var before := invitations;
      if Pending(previous) {
        invitations := invitations[id := previous.(revoked := Some(now))];
      }
      var ok := InsertInvitation(replacement, Fresh(team, previous.user, previous.role, expires, now));
      if !ok {
        invitations := before;
        return Conflict;
      }
      outcome := Done;
    }
  }
}
