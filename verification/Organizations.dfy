/** Members, owners and invitations (organizations/organizations.service.ts), one call at a time. */
module Organizations {
  import opened Common
  import opened Text

  datatype Role = Owner | Admin | Member | Viewer

  datatype Membership = Membership(organization: Id, user: Id)

  datatype InvitationStatus = Pending | Accepted | Canceled

  datatype Invitation = Invitation(organization: Id, email: string, role: Role, status: InvitationStatus)

  datatype Error = NotFound | Forbidden | RuleViolation | Conflict

  /** The audit trail of the organizations, plus their creation. */
  datatype Entry =
    | Created(organization: Id, creator: Id)
    | RoleChanged(organization: Id, actor: Id, member: Id, role: Role)
    | Removed(organization: Id, actor: Id, member: Id)
    | Invited(organization: Id, actor: Id, invitation: Id, role: Role)
    | InvitationCanceled(organization: Id, actor: Id, invitation: Id)
    | Joined(organization: Id, member: Id, invitation: Id, role: Role)

  type Members = map<Membership, Role>

  /** The rows for `members.update`, `members.remove` and `invitations.create` of the role matrix. */
  predicate IsManager(role: Role) {
    role == Owner || role == Admin
  }

  function Rank(role: Role): nat {
    match role
    case Owner => 4
    case Admin => 3
    case Member => 2
    case Viewer => 1
  }

  predicate IsDownward(from: Role, to: Role) {
    Rank(to) < Rank(from)
  }

  function Owners(members: Members, organization: Id): set<Id> {
    set m | m in members && m.organization == organization && members[m] == Owner :: m.user
  }

  /** Somebody besides `user` owns the organization. */
  predicate HasAnotherOwner(members: Members, organization: Id, user: Id) {
    exists other :: other in Owners(members, organization) && other != user
  }

  /** Counting to more than one tells an owner whether there is another. */
  lemma AnotherOwnerIff(members: Members, organization: Id, user: Id)
    requires user in Owners(members, organization)
    ensures HasAnotherOwner(members, organization, user) <==> |Owners(members, organization)| > 1
  {
    var others := Owners(members, organization) - {user};
    assert Owners(members, organization) == others + {user};
    if |others| > 0 {
      var other :| other in others;
    }
  }

  // ---------------------------------------------------------------------------------------------
  // The trail
  // ---------------------------------------------------------------------------------------------

  /** The memberships the trail adds up to. */
  function Replay(log: seq<Entry>): Members {
    if |log| == 0 then map[]
    else
      var (before, last) := (Replay(log[..|log| - 1]), log[|log| - 1]);
      match last
      case Created(organization, creator) => before[Membership(organization, creator) := Owner]
      case RoleChanged(organization, _, member, role) => before[Membership(organization, member) := role]
      case Removed(organization, _, member) => before - {Membership(organization, member)}
      case Invited(_, _, _, _) => before
      case InvitationCanceled(_, _, _) => before
      case Joined(organization, member, _, role) => before[Membership(organization, member) := role]
  }

  ghost predicate WasOwner(log: seq<Entry>, i: nat, organization: Id, user: Id)
    requires i <= |log|
  {
    var members := Replay(log[..i]);
    Membership(organization, user) in members && members[Membership(organization, user)] == Owner
  }

  /** An owner's grant or invitation; members join with the role they were invited to. */
  ghost predicate EntryOk(log: seq<Entry>, i: nat)
    requires i < |log|
  {
    match log[i]
    case RoleChanged(organization, actor, _, role) => role == Owner ==> WasOwner(log, i, organization, actor)
    case Invited(organization, actor, _, role) => role == Owner ==> WasOwner(log, i, organization, actor)
    case Joined(organization, _, invitation, role) =>
      exists j :: 0 <= j < i && log[j].Invited? && log[j].organization == organization && log[j].invitation == invitation && log[j].role == role
    case _ => true
  }

  ghost predicate LogOk(log: seq<Entry>) {
    forall i :: 0 <= i < |log| ==> EntryOk(log, i)
  }

  /** An entry by which `user` became an owner. */
  predicate MakesOwner(entry: Entry, organization: Id, user: Id) {
    match entry
    case Created(o, creator) => o == organization && creator == user
    case RoleChanged(o, _, member, role) => o == organization && member == user && role == Owner
    case Joined(o, member, _, role) => o == organization && member == user && role == Owner
    case _ => false
  }

  /**
   * Among the first `n` entries there is one that made `user` an owner: the creation of the
   * organization, or a grant, or the acceptance of an invitation, whose actor was then an owner and
   * traces back in turn.
   */
  ghost predicate Traced(log: seq<Entry>, n: nat, organization: Id, user: Id)
    requires n <= |log|
    decreases n, 0
  {
    exists i :: 0 <= i < n && MakesOwner(log[i], organization, user) && TracedAt(log, i, organization)
  }

  ghost predicate TracedAt(log: seq<Entry>, i: nat, organization: Id)
    requires i < |log|
    decreases i, 1
  {
    match log[i]
    case Created(_, _) => true
    case RoleChanged(_, actor, _, _) => WasOwner(log, i, organization, actor) && Traced(log, i, organization, actor)
    case Joined(_, _, invitation, _) =>
      exists j :: 0 <= j < i && InvitedByOwner(log, j, organization, invitation) && Traced(log, j, organization, log[j].actor)
    case _ => false
  }

  ghost predicate InvitedByOwner(log: seq<Entry>, j: nat, organization: Id, invitation: Id)
    requires j < |log|
  {
    && log[j].Invited? && log[j].organization == organization && log[j].invitation == invitation && log[j].role == Owner
    && WasOwner(log, j, organization, log[j].actor)
  }

  /** Whoever is an owner was made one by some entry. */
  lemma {:induction false} OwnerWasMade(log: seq<Entry>, n: nat, organization: Id, user: Id) returns (i: nat)
    requires n <= |log| && WasOwner(log, n, organization, user)
    ensures i < n && MakesOwner(log[i], organization, user)
  {
    assert log[..n][..n - 1] == log[..n - 1];
    if MakesOwner(log[n - 1], organization, user) {
      i := n - 1;
    } else {
      i := OwnerWasMade(log, n - 1, organization, user);
    }
  }

  /** Every owner traces back to the creation of the organization through members who were owners at the time. */
  lemma {:induction false} OwnersTraceBack(log: seq<Entry>, n: nat, organization: Id, user: Id)
    requires LogOk(log) && n <= |log| && WasOwner(log, n, organization, user)
    ensures Traced(log, n, organization, user)
    decreases n
  {
    var i := OwnerWasMade(log, n, organization, user);
    assert EntryOk(log, i);
    if log[i].RoleChanged? {
      OwnersTraceBack(log, i, organization, log[i].actor);
    } else if log[i].Joined? {
      var j :| 0 <= j < i && log[j].Invited? && log[j].organization == organization
               && log[j].invitation == log[i].invitation && log[j].role == log[i].role;
      assert EntryOk(log, j);
      OwnersTraceBack(log, j, organization, log[j].actor);
      assert InvitedByOwner(log, j, organization, log[i].invitation);
    }
    assert TracedAt(log, i, organization);
  }

  // ---------------------------------------------------------------------------------------------
  // The rules
  // ---------------------------------------------------------------------------------------------

  /** Who may give whom which role, the last-owner rule aside. */
  predicate MayChangeRole(actor: Role, target: Role, isSelf: bool, newRole: Role) {
    if isSelf then (newRole == Owner ==> actor == Owner) && (IsManager(actor) || IsDownward(actor, newRole))
    else IsManager(actor) && (target == Owner || newRole == Owner ==> actor == Owner)
  }

  predicate MayRemove(actor: Role, target: Role, isSelf: bool) {
    isSelf || (IsManager(actor) && (target == Owner ==> actor == Owner))
  }

  /** What the service answers to a role change. */
  function ChangeError(members: Members, organization: Id, actor: Id, target: Id, newRole: Role): Option<Error>
    requires Membership(organization, actor) in members
  {
    var (own, other) := (Membership(organization, actor), Membership(organization, target));
    if other !in members then Some(NotFound)
    else if !MayChangeRole(members[own], members[other], actor == target, newRole) then Some(Forbidden)
    else if members[other] == Owner && newRole != Owner && !HasAnotherOwner(members, organization, target) then Some(RuleViolation)
    else None
  }

  function RemoveError(members: Members, organization: Id, actor: Id, target: Id): Option<Error>
    requires Membership(organization, actor) in members
  {
    var (own, other) := (Membership(organization, actor), Membership(organization, target));
    if other !in members then Some(NotFound)
    else if !MayRemove(members[own], members[other], actor == target) then Some(Forbidden)
    else if members[other] == Owner && !HasAnotherOwner(members, organization, target) then Some(RuleViolation)
    else None
  }

  /**
   * The role matrix of a role change, role by role. Others: an owner may do everything, an admin
   * everything that neither takes nor gives ownership, nobody else anything. Oneself: an owner is
   * free, an admin may take any role but owner, a member may become a viewer.
   */
  lemma RoleChangeForbiddenIff(members: Members, organization: Id, actor: Id, target: Id, newRole: Role)
    requires Membership(organization, actor) in members && Membership(organization, target) in members
    ensures var (own, other) := (members[Membership(organization, actor)], members[Membership(organization, target)]);
            ChangeError(members, organization, actor, target, newRole) != Some(Forbidden) <==>
              match own
              case Owner => true
              case Admin => newRole != Owner && (actor == target || other != Owner)
              case Member => actor == target && newRole == Viewer
              case Viewer => false
  {
  }

  /** The same of a removal: oneself always, an owner anybody, an admin anybody but owners. */
  lemma RemovalForbiddenIff(members: Members, organization: Id, actor: Id, target: Id)
    requires Membership(organization, actor) in members && Membership(organization, target) in members
    ensures var (own, other) := (members[Membership(organization, actor)], members[Membership(organization, target)]);
            RemoveError(members, organization, actor, target) != Some(Forbidden) <==>
              actor == target || own == Owner || (own == Admin && other != Owner)
  {
  }

  /** Nobody but an owner makes an owner, or touches one other than itself; nobody else rises by its own hand. */
  lemma OnlyOwnersHandleOwners(actor: Role, target: Role, isSelf: bool, newRole: Role)
    requires MayChangeRole(actor, target, isSelf, newRole) && (isSelf ==> actor == target) && actor != Owner
    ensures newRole != Owner && target != Owner
    ensures actor == Member || actor == Viewer ==> isSelf && target == Member && newRole == Viewer
  {
  }

  ghost predicate EveryOrganizationOwned(organizations: set<Id>, members: Members) {
    forall o :: o in organizations ==> Owners(members, o) != {}
  }

  lemma OwnersOf(members: Members, organization: Id, user: Id)
    ensures user in Owners(members, organization) <==>
              Membership(organization, user) in members && members[Membership(organization, user)] == Owner
  {
  }

  /** Taking one of two owners leaves one. */
  lemma AnOwnerRemains(members: Members, after: Members, organization: Id, gone: Id)
    requires forall m :: m in members && m != Membership(organization, gone) ==> m in after && after[m] == members[m]
    requires HasAnotherOwner(members, organization, gone)
    ensures Owners(after, organization) != {}
  {
    var other :| other in Owners(members, organization) && other != gone;
    OwnersOf(members, organization, other);
    OwnersOf(after, organization, other);
  }

  /** The rule refuses no more than it has to: an owner cannot go exactly when nobody would be left. */
  lemma LastOwnerRuleIsExact(members: Members, organization: Id, target: Id)
    requires target in Owners(members, organization)
    ensures Owners(members - {Membership(organization, target)}, organization) == {} <==> !HasAnotherOwner(members, organization, target)
  {
    var after := members - {Membership(organization, target)};
    if HasAnotherOwner(members, organization, target) {
      AnOwnerRemains(members, after, organization, target);
    }
    forall u | u in Owners(after, organization)
      ensures u in Owners(members, organization) && u != target
    {
      OwnersOf(after, organization, u);
      OwnersOf(members, organization, u);
    }
  }

  /**
   * The last-owner rule on whole calls: of what the role matrix allows, exactly the change and the
   * removal that would leave the organization without an owner are refused by it.
   */
  lemma RefusedForTheLastOwnerIff(members: Members, organization: Id, actor: Id, target: Id, newRole: Role)
    requires Membership(organization, actor) in members && Membership(organization, target) in members
    requires Owners(members, organization) != {}
    ensures var (change, removal) := (ChangeError(members, organization, actor, target, newRole), RemoveError(members, organization, actor, target));
            && (change == Some(RuleViolation) <==>
                  change != Some(Forbidden) && Owners(members[Membership(organization, target) := newRole], organization) == {})
            && (removal == Some(RuleViolation) <==>
                  removal != Some(Forbidden) && Owners(members - {Membership(organization, target)}, organization) == {})
            && change != Some(NotFound) && removal != Some(NotFound)
  {
    OwnersOf(members, organization, target);
    OwnerlessIff(members, members - {Membership(organization, target)}, organization, target);
    OwnerlessIff(members, members[Membership(organization, target) := newRole], organization, target);
  }

  /** Whether an owner is left when one membership has changed. */
  lemma OwnerlessIff(members: Members, after: Members, organization: Id, target: Id)
    requires Owners(members, organization) != {}
    requires forall m :: m != Membership(organization, target) ==> (m in members <==> m in after) && (m in after ==> after[m] == members[m])
    ensures Owners(after, organization) == {} <==>
              target in Owners(members, organization) && target !in Owners(after, organization) && !HasAnotherOwner(members, organization, target)
  {
    forall u | u != target
      ensures u in Owners(after, organization) <==> u in Owners(members, organization)
    {
      OwnersOf(after, organization, u);
      OwnersOf(members, organization, u);
    }
    var some :| some in Owners(members, organization);
  }

  lemma OthersKeepOwners(organizations: set<Id>, members: Members, after: Members, organization: Id, user: Id)
    requires EveryOrganizationOwned(organizations, members) && Owners(after, organization) != {}
    requires forall m :: m in members && m != Membership(organization, user) ==> m in after && after[m] == members[m]
    ensures EveryOrganizationOwned(organizations, after)
  {
    forall o | o in organizations && o != organization
      ensures Owners(after, o) != {}
    {
      var u :| u in Owners(members, o);
      OwnersOf(members, o, u);
      OwnersOf(after, o, u);
    }
  }

  // ---------------------------------------------------------------------------------------------
  // The service
  // ---------------------------------------------------------------------------------------------

  lemma LogExtends(log: seq<Entry>, entry: Entry)
    requires LogOk(log) && EntryOk(log + [entry], |log|)
    ensures LogOk(log + [entry])
  {
    var longer := log + [entry];
    forall i | 0 <= i < |longer|
      ensures EntryOk(longer, i)
    {
      if i < |log| {
        assert longer[..i] == log[..i] && EntryOk(log, i);
      }
    }
  }

  lemma ReplayNext(log: seq<Entry>, entry: Entry)
    ensures (log + [entry])[..|log|] == log
    ensures entry.RoleChanged? ==> Replay(log + [entry]) == Replay(log)[Membership(entry.organization, entry.member) := entry.role]
    ensures entry.Removed? ==> Replay(log + [entry]) == Replay(log) - {Membership(entry.organization, entry.member)}
    ensures entry.Joined? ==> Replay(log + [entry]) == Replay(log)[Membership(entry.organization, entry.member) := entry.role]
    ensures entry.Created? ==> Replay(log + [entry]) == Replay(log)[Membership(entry.organization, entry.creator) := Owner]
    ensures entry.Invited? || entry.InvitationCanceled? ==> Replay(log + [entry]) == Replay(log)
  {
    assert (log + [entry])[..|log|] == log;
  }

  /** An invitation row has its entry in the trail. */
  ghost predicate InvitationOk(log: seq<Entry>, id: Id, invitation: Invitation) {
    exists j :: 0 <= j < |log| && log[j].Invited? && log[j].organization == invitation.organization
                && log[j].invitation == id && log[j].role == invitation.role
  }

  ghost predicate InvitationsOk(log: seq<Entry>, invitations: map<Id, Invitation>) {
    forall id :: id in invitations ==> InvitationOk(log, id, invitations[id])
  }

  lemma InvitationsKept(log: seq<Entry>, entry: Entry, invitations: map<Id, Invitation>)
    requires InvitationsOk(log, invitations)
    ensures InvitationsOk(log + [entry], invitations)
  {
    forall id | id in invitations
      ensures InvitationOk(log + [entry], id, invitations[id])
    {
      assert InvitationOk(log, id, invitations[id]);
      var j :| 0 <= j < |log| && log[j].Invited? && log[j].organization == invitations[id].organization
               && log[j].invitation == id && log[j].role == invitations[id].role;
      assert (log + [entry])[j] == log[j];
    }
  }

  /** The rows agree with the trail, the trail is in order, and every organization has an owner. */
  ghost predicate TablesOk(organizations: set<Id>, members: Members, invitations: map<Id, Invitation>, log: seq<Entry>) {
    && LogOk(log) && members == Replay(log) && InvitationsOk(log, invitations)
    && (forall m :: m in members ==> m.organization in organizations)
    && EveryOrganizationOwned(organizations, members)
  }

  /** One owner is enough if it is not the one that goes; so is a new one in its place. */
  lemma SomeOwnerLeft(members: Members, after: Members, organization: Id, target: Id)
    requires Owners(members, organization) != {}
    requires forall m :: m in members && m != Membership(organization, target) ==> m in after && after[m] == members[m]
    requires target in Owners(after, organization) || target !in Owners(members, organization) || HasAnotherOwner(members, organization, target)
    ensures Owners(after, organization) != {}
  {
    if target !in Owners(after, organization) {
      if target in Owners(members, organization) {
        AnOwnerRemains(members, after, organization, target);
      } else {
        var u :| u in Owners(members, organization);
        OwnersOf(members, organization, u);
        OwnersOf(after, organization, u);
      }
    }
  }

  /** One entry, and one membership of an organization that is there: all that is left is who owns it. */
  lemma StepKeeps(organizations: set<Id>, members: Members, invitations: map<Id, Invitation>, log: seq<Entry>,
                  entry: Entry, after: Members, organization: Id, user: Id)
    requires TablesOk(organizations, members, invitations, log) && organization in organizations
    requires EntryOk(log + [entry], |log|) && after == Replay(log + [entry])
    requires forall m :: m in members && m != Membership(organization, user) ==> m in after && after[m] == members[m]
    requires forall m :: m in after && m != Membership(organization, user) ==> m in members
    requires user in Owners(after, organization) || user !in Owners(members, organization) || HasAnotherOwner(members, organization, user)
    ensures TablesOk(organizations, after, invitations, log + [entry])
  {
    LogExtends(log, entry);
    InvitationsKept(log, entry, invitations);
    SomeOwnerLeft(members, after, organization, user);
    OthersKeepOwners(organizations, members, after, organization, user);
  }

  lemma RoleChangeKeeps(organizations: set<Id>, members: Members, invitations: map<Id, Invitation>, log: seq<Entry>,
                        organization: Id, actor: Id, target: Id, newRole: Role)
    requires TablesOk(organizations, members, invitations, log) && Membership(organization, actor) in members
    requires ChangeError(members, organization, actor, target, newRole) == None
    ensures TablesOk(organizations, members[Membership(organization, target) := newRole], invitations,
                     log + [RoleChanged(organization, actor, target, newRole)])
  {
    var (entry, after) := (RoleChanged(organization, actor, target, newRole), members[Membership(organization, target) := newRole]);
    ReplayNext(log, entry);
    OwnersOf(members, organization, target);
    OwnersOf(after, organization, target);
    StepKeeps(organizations, members, invitations, log, entry, after, organization, target);
  }

  lemma RemovalKeeps(organizations: set<Id>, members: Members, invitations: map<Id, Invitation>, log: seq<Entry>,
                     organization: Id, actor: Id, target: Id)
    requires TablesOk(organizations, members, invitations, log) && Membership(organization, actor) in members
    requires RemoveError(members, organization, actor, target) == None
    ensures TablesOk(organizations, members - {Membership(organization, target)}, invitations,
                     log + [Removed(organization, actor, target)])
  {
    var (entry, after) := (Removed(organization, actor, target), members - {Membership(organization, target)});
    ReplayNext(log, entry);
    OwnersOf(members, organization, target);
    StepKeeps(organizations, members, invitations, log, entry, after, organization, target);
  }

  lemma CreationKeeps(organizations: set<Id>, members: Members, invitations: map<Id, Invitation>, log: seq<Entry>,
                      organization: Id, user: Id)
    requires TablesOk(organizations, members, invitations, log) && organization !in organizations
    ensures TablesOk(organizations + {organization}, members[Membership(organization, user) := Owner], invitations,
                     log + [Created(organization, user)])
  {
    var (entry, after) := (Created(organization, user), members[Membership(organization, user) := Owner]);
    ReplayNext(log, entry);
    LogExtends(log, entry);
    InvitationsKept(log, entry, invitations);
    OwnersOf(after, organization, user);
    OthersKeepOwners(organizations, members, after, organization, user);
  }

  // ---------------------------------------------------------------------------------------------
  // Invitations
  // ---------------------------------------------------------------------------------------------

  predicate HasPending(invitations: map<Id, Invitation>, organization: Id, email: string) {
    exists id :: id in invitations && invitations[id].organization == organization && invitations[id].email == email
                 && invitations[id].status == Pending
  }

  function InviteError(members: Members, invitations: map<Id, Invitation>, users: map<string, Id>, organization: Id, actor: Id,
                       email: string, role: Role): Option<Error>
    requires Membership(organization, actor) in members
  {
    var own := members[Membership(organization, actor)];
    if !IsManager(own) || (role == Owner && own != Owner) then Some(Forbidden)
    else if email in users && Membership(organization, users[email]) in members then Some(Conflict)
    else if HasPending(invitations, organization, email) then Some(Conflict)
    else None
  }

  function AcceptError(members: Members, invitations: map<Id, Invitation>, user: Id, email: string, id: Id): Option<Error> {
    if id !in invitations || invitations[id].email != email then Some(NotFound)
    else if invitations[id].status != Pending then Some(RuleViolation)
    else if Membership(invitations[id].organization, user) in members then Some(Conflict)
    else None
  }

  function CancelError(invitations: map<Id, Invitation>, organization: Id, id: Id): Option<Error> {
    if id !in invitations || invitations[id].organization != organization then Some(NotFound)
    else if invitations[id].status == Accepted then Some(RuleViolation)
    else None
  }

  /**
   * Who may invite, and whom: an owner to any role, an admin to any role but owner; an address
   * whose account is no member of the organization and that has no invitation pending there.
   */
  lemma InvitationGoesOutIff(members: Members, invitations: map<Id, Invitation>, users: map<string, Id>, organization: Id, actor: Id,
                             email: string, role: Role)
    requires Membership(organization, actor) in members
    ensures var own := members[Membership(organization, actor)];
            && (InviteError(members, invitations, users, organization, actor, email, role) == Some(Forbidden) <==>
                  !(own == Owner || (own == Admin && role != Owner)))
            && (InviteError(members, invitations, users, organization, actor, email, role) == None <==>
                  && (own == Owner || (own == Admin && role != Owner))
                  && !(email in users && Membership(organization, users[email]) in members)
                  && forall id :: id in invitations && invitations[id].organization == organization && invitations[id].email == email
                       ==> invitations[id].status != Pending)
  {
  }

  /** An organization has at most one invitation pending for an address. */
  ghost predicate OnePending(invitations: map<Id, Invitation>) {
    forall a, b | a in invitations && b in invitations && invitations[a].status == Pending && invitations[b].status == Pending
                  && invitations[a].organization == invitations[b].organization && invitations[a].email == invitations[b].email :: a == b
  }

  lemma InvitationKeeps(organizations: set<Id>, members: Members, invitations: map<Id, Invitation>, log: seq<Entry>,
                        organization: Id, actor: Id, id: Id, email: string, role: Role)
    requires TablesOk(organizations, members, invitations, log) && Membership(organization, actor) in members
    requires id !in invitations && (role == Owner ==> members[Membership(organization, actor)] == Owner)
    ensures TablesOk(organizations, members, invitations[id := Invitation(organization, email, role, Pending)],
                     log + [Invited(organization, actor, id, role)])
  {
    var entry := Invited(organization, actor, id, role);
    var longer := log + [entry];
    ReplayNext(log, entry);
    LogExtends(log, entry);
    InvitationsKept(log, entry, invitations);
    assert longer[|log|] == entry;
    assert InvitationOk(longer, id, Invitation(organization, email, role, Pending));
  }

  lemma CancelingKeeps(organizations: set<Id>, members: Members, invitations: map<Id, Invitation>, log: seq<Entry>, actor: Id, id: Id)
    requires TablesOk(organizations, members, invitations, log) && id in invitations
    ensures TablesOk(organizations, members, invitations[id := invitations[id].(status := Canceled)],
                     log + [InvitationCanceled(invitations[id].organization, actor, id)])
  {
    var entry := InvitationCanceled(invitations[id].organization, actor, id);
    ReplayNext(log, entry);
    LogExtends(log, entry);
    InvitationsKept(log, entry, invitations);
    assert InvitationOk(log + [entry], id, invitations[id]);
  }

  lemma JoiningKeeps(organizations: set<Id>, members: Members, invitations: map<Id, Invitation>, log: seq<Entry>, user: Id, id: Id)
    requires TablesOk(organizations, members, invitations, log) && id in invitations && invitations[id].organization in organizations
    requires Membership(invitations[id].organization, user) !in members
    ensures var invitation := invitations[id];
            TablesOk(organizations, members[Membership(invitation.organization, user) := invitation.role],
                     invitations[id := invitation.(status := Accepted)], log + [Joined(invitation.organization, user, id, invitation.role)])
  {
    var invitation := invitations[id];
    var entry := Joined(invitation.organization, user, id, invitation.role);
    var after := members[Membership(invitation.organization, user) := invitation.role];
    ReplayNext(log, entry);
    assert InvitationOk(log, id, invitation);
    var j :| 0 <= j < |log| && log[j].Invited? && log[j].organization == invitation.organization
             && log[j].invitation == id && log[j].role == invitation.role;
    assert (log + [entry])[j] == log[j];
    assert EntryOk(log + [entry], |log|);
    OwnersOf(members, invitation.organization, user);
    StepKeeps(organizations, members, invitations, log, entry, after, invitation.organization, user);
    assert InvitationOk(log + [entry], id, invitation.(status := Accepted)) by {
      assert InvitationOk(log + [entry], id, invitation);
    }
  }

  class OrganizationService {
    var organizations: set<Id>
    var members: Members
    var invitations: map<Id, Invitation>
    var log: seq<Entry>
    /** Accounts by their email. */
    const users: map<string, Id>

    ghost predicate Valid()
      reads this
    {
      && TablesOk(organizations, members, invitations, log) && OnePending(invitations)
      && forall id :: id in invitations ==> invitations[id].organization in organizations
    }

    constructor (users: map<string, Id>)
      ensures Valid() && organizations == {} && members == map[] && invitations == map[] && log == [] && this.users == users
    {
      organizations, members, invitations, log := {}, map[], map[], [];
      this.users := users;
    }

    /** The organization and its creator's ownership, in one transaction. */
    method Create(organization: Id, user: Id)
      requires Valid() && organization !in organizations
      modifies this`organizations, this`members, this`log
      ensures Valid()
      ensures organizations == old(organizations) + {organization}
      ensures members == old(members)[Membership(organization, user) := Owner]
      ensures log == old(log) + [Created(organization, user)]
    {
      CreationKeeps(organizations, members, invitations, log, organization, user);
      organizations := organizations + {organization};
      members := members[Membership(organization, user) := Owner];
      log := log + [Created(organization, user)];
    }

    /** The last-owner rule: another owner has to be there. */
    method AssertOwnerRemains(organization: Id) returns (result: Result<(), Error>)
      ensures result == Success(()) || result == Failure(RuleViolation)
      ensures Owners(members, organization) == {} ==> result.Failure?
      ensures forall target :: target in Owners(members, organization) ==>
                (result.Success? <==> HasAnotherOwner(members, organization, target))
    {
      forall target | target in Owners(members, organization)
        ensures HasAnotherOwner(members, organization, target) <==> |Owners(members, organization)| > 1
      {
        AnotherOwnerIff(members, organization, target);
      }
      var ownerCount := |Owners(members, organization)|;
      result := if ownerCount <= 1 then Failure(RuleViolation) else Success(());
    }

    /** The checks of a role change, in their order; the guard has resolved the actor's membership. */
    method CheckRoleChange(organization: Id, actor: Id, target: Id, newRole: Role) returns (result: Result<(), Error>)
      requires Membership(organization, actor) in members
      ensures var error := ChangeError(members, organization, actor, target, newRole);
              result == if error.Some? then Failure(error.value) else Success(())
    {
      var other := Membership(organization, target);
      if other !in members {
        return Failure(NotFound);
      }
      var (role, current) := (members[Membership(organization, actor)], members[other]);
      if target != actor {
        if !IsManager(role) {
          return Failure(Forbidden);
        }
        if current == Owner && role != Owner {
          return Failure(Forbidden);
        }
        if newRole == Owner && role != Owner {
          return Failure(Forbidden);
        }
      } else {
        if newRole == Owner && role != Owner {
          return Failure(Forbidden);
        }
        if role != Owner && role != Admin && !IsDownward(role, newRole) {
          return Failure(Forbidden);
        }
      }
      if current == Owner && newRole != Owner {
        OwnersOf(members, organization, target);
        result := AssertOwnerRemains(organization);
      } else {
        result := Success(());
      }
    }

    method UpdateMember(organization: Id, actor: Id, target: Id, newRole: Role) returns (result: Result<(), Error>)
      requires Valid() && Membership(organization, actor) in members
      modifies this`members, this`log
      ensures Valid()
      ensures var error := ChangeError(old(members), organization, actor, target, newRole);
              if error.Some? then result == Failure(error.value) && members == old(members) && log == old(log)
              else
                && result == Success(())
                && members == old(members)[Membership(organization, target) := newRole]
                && log == old(log) + [RoleChanged(organization, actor, target, newRole)]
    {
      result := CheckRoleChange(organization, actor, target, newRole);
      if result.Success? {
        RoleChangeKeeps(organizations, members, invitations, log, organization, actor, target, newRole);
        members := members[Membership(organization, target) := newRole];
        log := log + [RoleChanged(organization, actor, target, newRole)];
      }
    }

    /** The checks of a removal, in their order. */
    method CheckRemoval(organization: Id, actor: Id, target: Id) returns (result: Result<(), Error>)
      requires Membership(organization, actor) in members
      ensures var error := RemoveError(members, organization, actor, target);
              result == if error.Some? then Failure(error.value) else Success(())
    {
      var other := Membership(organization, target);
      if other !in members {
        return Failure(NotFound);
      }
      var (role, current) := (members[Membership(organization, actor)], members[other]);
      if target != actor {
        if !IsManager(role) {
          return Failure(Forbidden);
        }
        if current == Owner && role != Owner {
          return Failure(Forbidden);
        }
      }
      if current == Owner {
        OwnersOf(members, organization, target);
        result := AssertOwnerRemains(organization);
      } else {
        result := Success(());
      }
    }

    method RemoveMember(organization: Id, actor: Id, target: Id) returns (result: Result<(), Error>)
      requires Valid() && Membership(organization, actor) in members
      modifies this`members, this`log
      ensures Valid()
      ensures var error := RemoveError(old(members), organization, actor, target);
              if error.Some? then result == Failure(error.value) && members == old(members) && log == old(log)
              else
                && result == Success(())
                && members == old(members) - {Membership(organization, target)}
                && log == old(log) + [Removed(organization, actor, target)]
    {
      result := CheckRemoval(organization, actor, target);
      if result.Success? {
        RemovalKeeps(organizations, members, invitations, log, organization, actor, target);
        members := members - {Membership(organization, target)};
        log := log + [Removed(organization, actor, target)];
      }
    }

    /** `id` is the new invitation's. */
    method CreateInvitation(organization: Id, actor: Id, id: Id, address: string, role: Role) returns (result: Result<(), Error>)
      requires Valid() && Membership(organization, actor) in members && id !in invitations
      modifies this`invitations, this`log
      ensures Valid()
      ensures var email := Lower(Trim(address));
              var error := InviteError(members, old(invitations), users, organization, actor, email, role);
              if error.Some? then result == Failure(error.value) && invitations == old(invitations) && log == old(log)
              else
                && result == Success(())
                && invitations == old(invitations)[id := Invitation(organization, email, role, Pending)]
                && log == old(log) + [Invited(organization, actor, id, role)]
    {
      var email := Lower(Trim(address));
      var own := members[Membership(organization, actor)];
      if !IsManager(own) {
        return Failure(Forbidden);
      }
      if role == Owner && own != Owner {
        return Failure(Forbidden);
      }
      if email in users {
        if Membership(organization, users[email]) in members {
          return Failure(Conflict);
        }
      }
      if HasPending(invitations, organization, email) {
        return Failure(Conflict);
      }
      InvitationKeeps(organizations, members, invitations, log, organization, actor, id, email, role);
      invitations := invitations[id := Invitation(organization, email, role, Pending)];
      log := log + [Invited(organization, actor, id, role)];
      result := Success(());
    }

    /** Cancelling twice is a no-op that leaves no second entry. */
    method CancelInvitation(organization: Id, actor: Id, id: Id) returns (result: Result<(), Error>)
      requires Valid()
      modifies this`invitations, this`log
      ensures Valid()
      ensures var error := CancelError(old(invitations), organization, id);
              if error.Some? || old(invitations)[id].status == Canceled then
                && result == (if error.Some? then Failure(error.value) else Success(()))
                && invitations == old(invitations) && log == old(log)
              else
                && result == Success(())
                && invitations == old(invitations)[id := old(invitations)[id].(status := Canceled)]
                && log == old(log) + [InvitationCanceled(organization, actor, id)]
    {
      if id !in invitations || invitations[id].organization != organization {
        return Failure(NotFound);
      }
      var invitation := invitations[id];
      if invitation.status == Accepted {
        return Failure(RuleViolation);
      }
      if invitation.status == Pending {
        CancelingKeeps(organizations, members, invitations, log, actor, id);
        invitations := invitations[id := invitation.(status := Canceled)];
        log := log + [InvitationCanceled(organization, actor, id)];
      }
      result := Success(());
    }

    /** The invitation is taken and the membership made in one transaction. */
    method AcceptInvitation(user: Id, email: string, id: Id) returns (result: Result<(), Error>)
      requires Valid()
      modifies this`members, this`invitations, this`log
      ensures Valid()
      ensures var error := AcceptError(old(members), old(invitations), user, email, id);
              if error.Some? then
                result == Failure(error.value) && members == old(members) && invitations == old(invitations) && log == old(log)
              else
                var invitation := old(invitations)[id];
                && result == Success(())
                && members == old(members)[Membership(invitation.organization, user) := invitation.role]
                && invitations == old(invitations)[id := invitation.(status := Accepted)]
                && log == old(log) + [Joined(invitation.organization, user, id, invitation.role)]
    {
      if id !in invitations || invitations[id].email != email {
        return Failure(NotFound);
      }
      var invitation := invitations[id];
      if invitation.status != Pending {
        return Failure(RuleViolation);
      }
      if Membership(invitation.organization, user) in members {
        return Failure(Conflict);
      }
      JoiningKeeps(organizations, members, invitations, log, user, id);
      invitations := invitations[id := invitation.(status := Accepted)];
      members := members[Membership(invitation.organization, user) := invitation.role];
      log := log + [Joined(invitation.organization, user, id, invitation.role)];
      result := Success(());
    }

    /** Whoever owns an organization now traces back to its creation through owners. */
    lemma OwnersAreTraced(organization: Id, user: Id)
      requires Valid() && user in Owners(members, organization)
      ensures Traced(log, |log|, organization, user)
    {
      assert log[..|log|] == log;
      OwnersOf(members, organization, user);
      OwnersTraceBack(log, |log|, organization, user);
    }
  }
}
