/** Users, administrators, teams and invitations: what each operation does to the rows, as functions. */
module Identity {
  import opened Wrappers

  type Id(==, !new)
  type Instant = int

  datatype UserStatus = Active | Disabled
  datatype Role = Owner | Admin | Maintainer | Developer | Viewer
  datatype MemberId = MemberId(team: Id, user: Id)

  /** At most one of the three stamps is ever set. */
  datatype Invitation = Invitation(
    team: Id, user: Id, role: Role, expires: Instant, created: Instant,
    accepted: Option<Instant>, rejected: Option<Instant>, revoked: Option<Instant>)

  datatype Rows = Rows(
    users: map<Id, UserStatus>, admins: set<Id>, teams: set<Id>, members: map<MemberId, Role>,
    invitations: map<Id, Invitation>)

  datatype Outcome = Done | NotFound | Conflict | Failed

  datatype Operation =
    | CreateUser(user: Id, status: UserStatus)
    | SetUserStatus(user: Id, status: UserStatus)
    | SetSystemAdmin(user: Id, enabled: bool)
    | CreateTeam(team: Id, owner: Id)
    | PutTeamMember(team: Id, user: Id, role: Role)
    | RemoveTeamMember(team: Id, user: Id)
    | CreateInvitation(id: Id, invitation: Invitation)
    | RespondInvitation(id: Id, user: Id, accept: bool, now: Instant)
    | RevokeInvitation(team: Id, id: Id, now: Instant)
    | ReissueInvitation(team: Id, id: Id, replacement: Id, now: Instant, expires: Instant)

  predicate IsActive(rows: Rows, user: Id) { user in rows.users && rows.users[user].Active? }

  function ActiveAdmins(rows: Rows): set<Id> { set user | user in rows.admins && IsActive(rows, user) }

  function OtherOwners(rows: Rows, team: Id, user: Id): set<MemberId> {
    set m | m in rows.members && m.team == team && rows.members[m].Owner? && m.user != user
  }

  predicate Pending(invitation: Invitation) { invitation.accepted.None? && invitation.rejected.None? &&
          invitation.revoked.None? }

  /** The partial unique index on pending invitations. */
  predicate PendingFor(rows: Rows, team: Id, user: Id) {
    exists id | id in rows.invitations :: rows.invitations[id].team == team && rows.invitations[id].user == user &&
        Pending(rows.invitations[id])
  }

  function SetStatus(rows: Rows, user: Id, status: UserStatus): (Rows, Outcome) {
    if user !in rows.users then (rows, NotFound)
    else if rows.users[user] == status then (rows, Done)
    else if status.Disabled? && user in rows.admins && |ActiveAdmins(rows)| <= 1 then (rows, Conflict)
    else (rows.(users := rows.users[user := status]), Done)
  }

  function SetAdmin(rows: Rows, user: Id, enabled: bool): (Rows, Outcome) {
    if user !in rows.users then (rows, NotFound)
    else if enabled then (rows.(admins := rows.admins + {user}), Done)
    else if IsActive(rows, user) && |ActiveAdmins(rows)| <= 1 then (rows, Conflict)
    else (rows.(admins := rows.admins - {user}), Done)
  }

  function AddTeam(rows: Rows, team: Id, owner: Id): (Rows, Outcome) {
    if team in rows.teams then (rows, Conflict)
    else if owner !in rows.users || MemberId(team, owner) in rows.members then (rows, Failed)
    else (rows.(teams := rows.teams + {team}, members := rows.members[MemberId(team, owner) := Owner]), Done)
  }

  function PutMember(rows: Rows, team: Id, user: Id, role: Role): (Rows, Outcome) {
    var m := MemberId(team, user);
    if !IsActive(rows, user) then (rows, NotFound)
    else if m !in rows.members then
      if team in rows.teams then (rows.(members := rows.members[m := role]), Done) else (rows, Failed)
    else if rows.members[m] == role then (rows, Done)
    else if rows.members[m].Owner? && OtherOwners(rows, team, user) == {} then (rows, Conflict)
    else (rows.(members := rows.members[m := role]), Done)
  }

  function RemoveMember(rows: Rows, team: Id, user: Id): (Rows, Outcome) {
    var m := MemberId(team, user);
    if m !in rows.members then (rows, NotFound)
    else if rows.members[m].Owner? && OtherOwners(rows, team, user) == {} then (rows, Conflict)
    else (rows.(members := rows.members - {m}), Done)
  }

  /** Revokes the invitations of the same person to the same team that have expired unanswered. */
  function Terminalized(rows: Rows, team: Id, user: Id, now: Instant): Rows {
    rows.(invitations := map id | id in rows.invitations ::
      var row := rows.invitations[id];
      if row.team == team && row.user == user && Pending(row) && row.expires <= now then row.(revoked := Some(now))
      else row)
  }

  function Insert(rows: Rows, id: Id, invitation: Invitation): Option<Rows> {
    if id in rows.invitations || (Pending(invitation) && PendingFor(rows, invitation.team, invitation.user)) then None
    else Some(rows.(invitations := rows.invitations[id := invitation]))
  }

  function Fresh(team: Id, user: Id, role: Role, expires: Instant, created: Instant): Invitation {
    Invitation(team, user, role, expires, created, None, None, None)
  }

  function Invite(rows: Rows, id: Id, invitation: Invitation): (Rows, Outcome) {
    if invitation.team !in rows.teams || invitation.user !in rows.users then (rows, Failed) else
    var pending := Fresh(invitation.team, invitation.user, invitation.role, invitation.expires, invitation.created);
    match Insert(Terminalized(rows, invitation.team, invitation.user, invitation.created), id, pending)
    case None => (rows, Conflict)
    case Some(next) => (next, Done)
  }

  function Respond(rows: Rows, id: Id, user: Id, accept: bool, now: Instant): (Rows, Outcome) {
    if id !in rows.invitations || rows.invitations[id].user != user then (rows, NotFound) else
    var row := rows.invitations[id];
    if !Pending(row) || row.expires <= now || !IsActive(rows, user) then (rows, Conflict)
    else if !accept then (rows.(invitations := rows.invitations[id := row.(rejected := Some(now))]), Done)
    else if MemberId(row.team, user) in rows.members then (rows, Conflict)
    else (rows.(members := rows.members[MemberId(row.team, user) := row.role],
                invitations := rows.invitations[id := row.(accepted := Some(now))]), Done)
  }

  function Revoke(rows: Rows, team: Id, id: Id, now: Instant): (Rows, Outcome) {
    if id !in rows.invitations || rows.invitations[id].team != team then (rows, NotFound)
    else if Pending(rows.invitations[id]) then
        (rows.(invitations := rows.invitations[id := rows.invitations[id].(revoked := Some(now))]), Done)
    else (rows, Done)
  }

  function Reissue(rows: Rows, team: Id, id: Id, replacement: Id, now: Instant, expires: Instant): (Rows, Outcome) {
    if id !in rows.invitations || rows.invitations[id].team != team then (rows, NotFound) else
    var row := rows.invitations[id];
    if !IsActive(rows, row.user) || MemberId(team, row.user) in rows.members then (rows, Conflict) else
    var revoked := if Pending(row) then rows.(invitations := rows.invitations[id := row.(revoked := Some(now))])
        else rows;
    match Insert(revoked, replacement, Fresh(team, row.user, row.role, expires, now))
    case None => (rows, Conflict)
    case Some(next) => (next, Done)
  }

  function Apply(rows: Rows, operation: Operation): (Rows, Outcome) {
    match operation
    case CreateUser(user, status) => if user in rows.users then (rows, Conflict)
        else (rows.(users := rows.users[user := status]), Done)
    case SetUserStatus(user, status) => SetStatus(rows, user, status)
    case SetSystemAdmin(user, enabled) => SetAdmin(rows, user, enabled)
    case CreateTeam(team, owner) => AddTeam(rows, team, owner)
    case PutTeamMember(team, user, role) => PutMember(rows, team, user, role)
    case RemoveTeamMember(team, user) => RemoveMember(rows, team, user)
    case CreateInvitation(id, invitation) => Invite(rows, id, invitation)
    case RespondInvitation(id, user, accept, now) => Respond(rows, id, user, accept, now)
    case RevokeInvitation(team, id, now) => Revoke(rows, team, id, now)
    case ReissueInvitation(team, id, replacement, now, expires) => Reissue(rows, team, id, replacement, now, expires)
  }

  function ApplyAll(rows: Rows, operations: seq<Operation>): Rows
    decreases |operations|
  {
    if operations == [] then rows else ApplyAll(Apply(rows, operations[0]).0, operations[1..])
  }

  /** What a first start leaves behind. */
  function Bootstrapped(admin: Id): Rows { Rows(map[admin := Active], {admin}, {}, map[], map[]) }
}
