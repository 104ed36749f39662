/**
 * Client-side role checks of the web app: the `useRole` membership test,
 * the `withAuth` page guard and the `can` permission table.
 */
module Auth {
  import opened Seqs

  /** The three account roles. */
  datatype UserRole = Candidate | Admin | Viewer

  /** What a guard asks for: one role, or any role of a list. */
  datatype RoleSpec = One(role: UserRole) | AnyOf(roles: seq<UserRole>)

  /** `useRole(requiredRole)` for the signed-in user's `role`, which may be absent. */
  function UseRole(required: RoleSpec, role: Option<UserRole>): (ok: bool)
    ensures required.AnyOf? ==> (ok <==> role.Some? && role.value in required.roles)
    ensures required.One? ==> (ok <==> role == Some(required.role))
    ensures role.None? ==> !ok
  {
    match required
    case AnyOf(rs) => if role.Some? then role.value in rs else false
    case One(r) => role == Some(r)
  }

  /** Asking for one role is the same as asking for the list holding only it. */
  lemma UseRoleSingleton(r: UserRole, role: Option<UserRole>)
    ensures UseRole(One(r), role) == UseRole(AnyOf([r]), role)
  {
  }

  /** Session status as the session hook reports it. */
  datatype SessionStatus = Loading | Authenticated | Unauthenticated

  /** What a page wrapped by `withAuth` shows. */
  datatype Guarded = LoadingView | LoginPrompt | NoPermission | Page

  /** `withAuth(Component, requiredRoles)` rendered for one session. */
  function WithAuth(status: SessionStatus, role: Option<UserRole>, required: Option<RoleSpec>): (v: Guarded)
    ensures v == Page <==>
      status == Authenticated && (required.None? || UseRole(required.value, role))
    ensures v == LoadingView <==> status == Loading
    ensures v == LoginPrompt <==> status == Unauthenticated
  {
    match status
    case Loading => LoadingView
    case Unauthenticated => LoginPrompt
    case Authenticated =>
      if required.Some? && !HasRequiredRole(required.value, role) then NoPermission
      else Page
  }

  /** The role test written inline in `withAuth`. */
  function HasRequiredRole(required: RoleSpec, role: Option<UserRole>): (ok: bool)
    ensures ok == UseRole(required, role)
  {
    match required
    case AnyOf(rs) => role.Some? && role.value in rs
    case One(r) => role == Some(r)
  }

  /** The permissions of the `can` table. */
  datatype Permission =
    | ViewUsers | ManageUsers | ViewCandidates | ManageCandidates
    | ViewProofs | ApproveProofs | ViewBroadcasts | CreateBroadcasts
    | ViewOwnProfile | ViewOwnTasks | ViewEducation | AccessChat
    | ViewAuditLogs | ManageSettings

  /** `can[p](role)`. */
  function Can(p: Permission, role: Option<UserRole>): bool {
    match p
    case ViewUsers => role == Some(Admin)
    case ManageUsers => role == Some(Admin)
    case ViewCandidates => role == Some(Admin) || role == Some(Viewer)
    case ManageCandidates => role == Some(Admin)
    case ViewProofs => role == Some(Admin) || role == Some(Viewer)
    case ApproveProofs => role == Some(Admin)
    case ViewBroadcasts => role == Some(Admin) || role == Some(Viewer)
    case CreateBroadcasts => role == Some(Admin)
    case ViewOwnProfile => role.Some?
    case ViewOwnTasks => role == Some(Candidate)
    case ViewEducation => role == Some(Candidate)
    case AccessChat => role.Some?
    case ViewAuditLogs => role == Some(Admin)
    case ManageSettings => role == Some(Admin)
  }

  /** The permissions reserved to administrators. */
  predicate AdminOnly(p: Permission) {
    p in {ViewUsers, ManageUsers, ManageCandidates, ApproveProofs, CreateBroadcasts,
          ViewAuditLogs, ManageSettings}
  }

  /** The read-only management permissions shared by administrators and viewers. */
  predicate Management(p: Permission) {
    p in {ViewCandidates, ViewProofs, ViewBroadcasts}
  }

  /** The permissions of any signed-in user. */
  predicate AnySignedIn(p: Permission) {
    p in {ViewOwnProfile, AccessChat}
  }

  /** The permissions reserved to candidates. */
  predicate CandidateOnly(p: Permission) {
    p in {ViewOwnTasks, ViewEducation}
  }

  /**
   * The permission table, class by class: who holds each permission is
   * exactly the set of roles its class names.
   */
  lemma CanByClass(p: Permission, role: Option<UserRole>)
    ensures AdminOnly(p) ==> (Can(p, role) <==> role == Some(Admin))
    ensures Management(p) ==> (Can(p, role) <==> role == Some(Admin) || role == Some(Viewer))
    ensures AnySignedIn(p) ==> (Can(p, role) <==> role.Some?)
    ensures CandidateOnly(p) ==> (Can(p, role) <==> role == Some(Candidate))
    ensures AdminOnly(p) || Management(p) || AnySignedIn(p) || CandidateOnly(p)
  {
  }

  /** Without a role no permission is granted. */
  lemma NoRoleNoPermission(p: Permission)
    ensures !Can(p, None)
  {
  }

  /** Whatever a viewer may do, an administrator may do too. */
  lemma ViewerBelowAdmin(p: Permission)
    ensures Can(p, Some(Viewer)) ==> Can(p, Some(Admin))
  {
  }

  /** A viewer can never change anything the admin-only permissions guard. */
  lemma ViewerCannotManage(p: Permission)
    requires AdminOnly(p)
    ensures !Can(p, Some(Viewer)) && !Can(p, Some(Candidate))
  {
  }
}
