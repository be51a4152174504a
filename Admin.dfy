/**
 * The admin page: the admin gate, the client-side joins of profiles with roles and of
 * analyses with profiles, deletion of an analysis, and the statistic counts.
 */
module Admin {
  import opened Common
  import opened Lists

  /** A `profiles` row; email and full name may be null. */
  datatype Profile = Profile(userId: string, email: Option<string>, fullName: Option<string>, createdAt: string)

  /** A `user_roles` row. */
  datatype RoleRow = RoleRow(userId: string, role: string)

  /** A user as the page lists it. */
  datatype User = User(id: string, email: string, fullName: string, createdAt: string, role: string)

  /** A `crop_analyses` row. */
  datatype AnalysisRow = AnalysisRow(
    id: string, userId: string, cropType: string, diseaseDetected: string,
    severityLevel: string, confidenceScore: int, analysisDate: string)

  /** The `profiles` object attached to an analysis. */
  datatype ProfileRef = ProfileRef(fullName: Option<string>, email: Option<string>)

  /** An analysis with its author's profile, or null when no profile matches. */
  datatype AdminAnalysis = AdminAnalysis(row: AnalysisRow, profiles: Option<ProfileRef>)

  /** The reply of the `.single()` role query: a row or null, and an error code or none. */
  datatype RoleReply = RoleReply(data: Option<RoleRow>, errorCode: Option<string>)

  /** The code the query library reports when `.single()` finds no row. */
  const NoRowsCode := "PGRST116"

  /** `rolesData.find(role => role.user_id === userId)?.role || 'user'`. */
  function RoleFor(roles: seq<RoleRow>, userId: string): (role: string)
    ensures var k := FindIndex(roles, (r: RoleRow) => r.userId == userId);
      role == if k < |roles| && roles[k].role != "" then roles[k].role else "user"
  {
    match Find(roles, (r: RoleRow) => r.userId == userId)
    case None => "user"
    case Some(r) => if r.role != "" then r.role else "user"
  }

  function ToUser(p: Profile, roles: seq<RoleRow>): User
  {
    User(p.userId, p.email.GetOr(""), p.fullName.GetOr(""), p.createdAt, RoleFor(roles, p.userId))
  }

  /** The profiles-with-roles join: one user per profile, in profile order. */
  function JoinUsers(profiles: seq<Profile>, roles: seq<RoleRow>): (users: seq<User>)
    ensures |users| == |profiles|
    ensures forall i :: 0 <= i < |profiles| ==>
      && users[i].id == profiles[i].userId
      && users[i].email == (if profiles[i].email.Some? then profiles[i].email.value else "")
      && users[i].fullName == (if profiles[i].fullName.Some? then profiles[i].fullName.value else "")
      && users[i].createdAt == profiles[i].createdAt
      && users[i].role == RoleFor(roles, profiles[i].userId)
  {
    seq(|profiles|, i requires 0 <= i < |profiles| => ToUser(profiles[i], roles))
  }

  /** `profilesData.find(p => p.user_id === userId)`, reduced to its name and email. */
  function ProfileFor(profiles: seq<Profile>, userId: string): (r: Option<ProfileRef>)
    ensures r.None? <==> forall j :: 0 <= j < |profiles| ==> profiles[j].userId != userId
    ensures var k := FindIndex(profiles, (p: Profile) => p.userId == userId);
      k < |profiles| ==> r == Some(ProfileRef(profiles[k].fullName, profiles[k].email))
  {
    match Find(profiles, (p: Profile) => p.userId == userId)
    case None => None
    case Some(p) => Some(ProfileRef(p.fullName, p.email))
  }

  /** The analyses-with-profiles join: every analysis kept, in order, with its first author profile. */
  function JoinAnalyses(rows: seq<AnalysisRow>, profiles: seq<Profile>): (r: seq<AdminAnalysis>)
    ensures |r| == |rows|
    ensures forall i :: 0 <= i < |rows| ==> r[i].row == rows[i] && r[i].profiles == ProfileFor(profiles, rows[i].userId)
  {
    seq(|rows|, i requires 0 <= i < |rows| => AdminAnalysis(rows[i], ProfileFor(profiles, rows[i].userId)))
  }

  /** The user list after `fetchUsers`: the join when both queries succeed, else the list it had. */
  function UsersFetched(current: seq<User>, profiles: Query<seq<Profile>>, roles: Query<seq<RoleRow>>): (r: seq<User>)
    ensures profiles.Rows? && roles.Rows? ==> r == JoinUsers(profiles.data, roles.data)
    ensures profiles.QueryFailed? || roles.QueryFailed? ==> r == current
  {
    if profiles.QueryFailed? || roles.QueryFailed? then current else JoinUsers(profiles.data, roles.data)
  }

  /** The analysis list after `fetchAnalyses`: the join when both queries succeed, else the list it had. */
  function AnalysesFetched(current: seq<AdminAnalysis>, rows: Query<seq<AnalysisRow>>, profiles: Query<seq<Profile>>): (r: seq<AdminAnalysis>)
    ensures rows.Rows? && profiles.Rows? ==> r == JoinAnalyses(rows.data, profiles.data)
    ensures rows.QueryFailed? || profiles.QueryFailed? ==> r == current
  {
    if rows.QueryFailed? || profiles.QueryFailed? then current else JoinAnalyses(rows.data, profiles.data)
  }

  /** "Admin Users": users whose role is exactly "admin". */
  function CountAdmins(users: seq<User>): nat
  {
    CountWhere(users, (u: User) => u.role == "admin")
  }

  /** "Issues Found": analyses whose severity is anything but "healthy". */
  function CountIssues(analyses: seq<AdminAnalysis>): nat
  {
    CountWhere(analyses, (a: AdminAnalysis) => a.row.severityLevel != "healthy")
  }

  /** What the page shows. */
  datatype View = Loading | AccessDenied | Dashboard(totalUsers: nat, totalAnalyses: nat, adminUsers: nat, issuesFound: nat)

  /** The component's state. */
  class AdminPanel {
    var users: seq<User>
    var analyses: seq<AdminAnalysis>
    var loading: bool
    var isAdmin: bool

    constructor()
      ensures users == [] && analyses == [] && loading && !isAdmin
    {
      users, analyses, loading, isAdmin := [], [], true, false;
    }

    /** The page for the current state: loading first, then the gate, then the dashboard. */
    function Render(): (v: View)
      reads this
      ensures loading ==> v == Loading
      ensures !loading && !isAdmin ==> v == AccessDenied
      ensures !loading && isAdmin ==>
        && v.Dashboard?
        && v.totalUsers == |users| && v.totalAnalyses == |analyses|
        && v.adminUsers == CountAdmins(users) && v.issuesFound == CountIssues(analyses)
        && v.adminUsers <= |users| && v.issuesFound <= |analyses|
    {
      if loading then Loading
      else if !isAdmin then AccessDenied
      else Dashboard(|users|, |analyses|, CountAdmins(users), CountIssues(analyses))
    }

    method FetchUsers(profiles: Query<seq<Profile>>, roles: Query<seq<RoleRow>>)
      modifies this
      ensures users == UsersFetched(old(users), profiles, roles)
      ensures analyses == old(analyses) && loading == old(loading) && isAdmin == old(isAdmin)
    {
      if profiles.QueryFailed? {
        return;
      }
      if roles.QueryFailed? {
        return;
      }
      users := JoinUsers(profiles.data, roles.data);
    }

    method FetchAnalyses(rows: Query<seq<AnalysisRow>>, profiles: Query<seq<Profile>>)
      modifies this
      ensures analyses == AnalysesFetched(old(analyses), rows, profiles)
      ensures users == old(users) && loading == old(loading) && isAdmin == old(isAdmin)
    {
      if rows.QueryFailed? {
        return;
      }
      if profiles.QueryFailed? {
        return;
      }
      analyses := JoinAnalyses(rows.data, profiles.data);
    }

    /**
     * `checkAdminStatus`: the signed-in user id (None when signed out), the role query's reply,
     * and the replies the two fetches would get.
     */
    method CheckAdminStatus(user: Option<string>, reply: RoleReply,
                            profiles: Query<seq<Profile>>, roles: Query<seq<RoleRow>>,
                            analysisRows: Query<seq<AnalysisRow>>, authors: Query<seq<Profile>>)
      modifies this
      ensures user.None? ==>
        users == old(users) && analyses == old(analyses) && loading == old(loading) && isAdmin == old(isAdmin)
      ensures user.Some? ==> !loading
      ensures user.Some? && reply.errorCode.Some? && reply.errorCode.value != NoRowsCode ==>
        users == old(users) && analyses == old(analyses) && isAdmin == old(isAdmin)
      ensures user.Some? && (reply.errorCode.None? || reply.errorCode.value == NoRowsCode) ==>
        && isAdmin == reply.data.Some?
        && users == (if isAdmin then UsersFetched(old(users), profiles, roles) else old(users))
        && analyses == (if isAdmin then AnalysesFetched(old(analyses), analysisRows, authors) else old(analyses))
    {
      if user.None? {
        return;
      }
      if reply.errorCode.Some? && reply.errorCode.value != NoRowsCode {
        loading := false;
        return;
      }
      isAdmin := reply.data.Some?;
      if reply.data.Some? {
        FetchUsers(profiles, roles);
        FetchAnalyses(analysisRows, authors);
      }
      loading := false;
    }

    /** `deleteAnalysis`: on success the local list drops exactly the entries with that id. */
    method DeleteAnalysis(id: string, deleted: bool)
      modifies this
      ensures analyses == if deleted then WithoutId(old(analyses), (a: AdminAnalysis) => a.row.id, id) else old(analyses)
      ensures users == old(users) && loading == old(loading) && isAdmin == old(isAdmin)
    {
      if deleted {
        analyses := WithoutId(analyses, (a: AdminAnalysis) => a.row.id, id);
      }
    }
  }

  /** A profile with no role row is listed as "user"; the same holds when its role is empty. */
  lemma RoleDefaultsToUser(roles: seq<RoleRow>, userId: string)
    ensures (forall j :: 0 <= j < |roles| ==> roles[j].userId != userId) ==> RoleFor(roles, userId) == "user"
    ensures RoleFor(roles, userId) != ""
  {
  }

  /** With no role rows at all, nobody counts as an admin. */
  lemma NoRolesNoAdmins(profiles: seq<Profile>)
    ensures CountAdmins(JoinUsers(profiles, [])) == 0
  {
    var users := JoinUsers(profiles, []);
    forall j | 0 <= j < |users|
      ensures users[j].role != "admin"
    {
      RoleDefaultsToUser([], profiles[j].userId);
    }
  }

  /** Issues and healthy analyses partition the list. */
  lemma IssuesAndHealthyPartition(analyses: seq<AdminAnalysis>)
    ensures CountIssues(analyses) + CountWhere(analyses, (a: AdminAnalysis) => a.row.severityLevel == "healthy") == |analyses|
  {
    CountWhereComplement(analyses, (a: AdminAnalysis) => a.row.severityLevel != "healthy",
                         (a: AdminAnalysis) => a.row.severityLevel == "healthy");
  }

  /** One more analysis adds one issue exactly when it is not "healthy" (so "mild" counts). */
  lemma IssuesGrowByNonHealthy(analyses: seq<AdminAnalysis>, a: AdminAnalysis)
    ensures CountIssues(analyses + [a]) == CountIssues(analyses) + (if a.row.severityLevel != "healthy" then 1 else 0)
  {
    CountWhereAppend(analyses, [a], (x: AdminAnalysis) => x.row.severityLevel != "healthy");
  }

  /** One more user adds one admin exactly when its role is the exact string "admin". */
  lemma AdminsGrowByExactRole(users: seq<User>, u: User)
    ensures CountAdmins(users + [u]) == CountAdmins(users) + (if u.role == "admin" then 1 else 0)
  {
    CountWhereAppend(users, [u], (x: User) => x.role == "admin");
  }

  /** Deleting removes as many entries as carry the id, and leaves the list alone when none does. */
  lemma DeleteRemovesExactlyMatching(analyses: seq<AdminAnalysis>, id: string)
    ensures var after := WithoutId(analyses, (a: AdminAnalysis) => a.row.id, id);
      && |after| == |analyses| - CountWhere(analyses, (a: AdminAnalysis) => a.row.id == id)
      && ((forall j :: 0 <= j < |analyses| ==> analyses[j].row.id != id) ==> after == analyses)
  {
    WithoutIdLength(analyses, (a: AdminAnalysis) => a.row.id, id, (a: AdminAnalysis) => a.row.id == id);
    if forall j :: 0 <= j < |analyses| ==> analyses[j].row.id != id {
      WithoutIdAbsent(analyses, (a: AdminAnalysis) => a.row.id, id);
    }
  }
}
