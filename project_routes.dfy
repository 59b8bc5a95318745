/**
 * The project endpoints: bulk creation at onboarding, the two kinds of grant,
 * and the listing of what a user owns and may access. Every handler acts for
 * the authenticated caller `currentUserId`, a user the authentication
 * dependency has already found in the store.
 */
module ProjectRoutes {
  import opened Wrappers
  import opened Http
  import opened ProjectModel
  import opened ProjectSchema
  import opened Store

  // ---- queries ----

  /** Projects whose owner is `owner`, in table order. */
  function OwnedBy(projects: seq<Project>, owner: int): (r: seq<Project>)
    ensures forall p :: p in r <==> p in projects && p.ownerId == owner
  {
    Filter(projects, (p: Project) => p.ownerId == owner)
  }

  /** Individual grants held by `viewer`. */
  function GrantsTo(grants: seq<UserProject>, viewer: int): (r: seq<UserProject>)
    ensures forall a :: a in r <==> a in grants && a.userId == viewer
  {
    Filter(grants, (a: UserProject) => a.userId == viewer)
  }

  /** Global grants received by `viewer`. */
  function GlobalGrantsTo(grants: seq<GlobalAccess>, viewer: int): (r: seq<GlobalAccess>)
    ensures forall g :: g in r <==> g in grants && g.userId == viewer
  {
    Filter(grants, (g: GlobalAccess) => g.userId == viewer)
  }

  /** Each project of `owner` is listed as often as the table holds it, and no other project is. */
  lemma OwnedByCounts(projects: seq<Project>, owner: int, p: Project)
    ensures multiset(OwnedBy(projects, owner))[p] == if p.ownerId == owner then multiset(projects)[p] else 0
  {
    FilterCounts(projects, (q: Project) => q.ownerId == owner, p);
  }

  /** Each grant held by `viewer` is listed as often as the table holds it, and no other grant is. */
  lemma GrantsToCounts(grants: seq<UserProject>, viewer: int, a: UserProject)
    ensures multiset(GrantsTo(grants, viewer))[a] == if a.userId == viewer then multiset(grants)[a] else 0
  {
    FilterCounts(grants, (b: UserProject) => b.userId == viewer, a);
  }

  /** The same for global grants. */
  lemma GlobalGrantsToCounts(grants: seq<GlobalAccess>, viewer: int, g: GlobalAccess)
    ensures multiset(GlobalGrantsTo(grants, viewer))[g] == if g.userId == viewer then multiset(grants)[g] else 0
  {
    FilterCounts(grants, (h: GlobalAccess) => h.userId == viewer, g);
  }

  predicate NameTaken(projects: seq<Project>, owner: int, name: string)
  {
    exists i :: 0 <= i < |projects| && projects[i].ownerId == owner && projects[i].name == name
  }

  predicate OwnsProject(projects: seq<Project>, owner: int, projectId: int)
  {
    exists i :: 0 <= i < |projects| && projects[i].id == projectId && projects[i].ownerId == owner
  }

  predicate HasProjectGrant(grants: seq<UserProject>, projectId: int, userId: int)
  {
    exists i :: 0 <= i < |grants| && grants[i].projectId == projectId && grants[i].userId == userId
  }

  predicate HasGlobalGrant(grants: seq<GlobalAccess>, ownerId: int, userId: int)
  {
    exists i :: 0 <= i < |grants| && grants[i].ownerId == ownerId && grants[i].userId == userId
  }

  /** The project a grant points at (the `access.project` relationship). */
  function ProjectById(projects: seq<Project>, id: int): (p: Project)
    requires HasProject(projects, id)
    ensures p in projects && p.id == id
  {
    var found := First(projects, (q: Project) => q.id == id);
    assert found.Some? by {
      var i :| 0 <= i < |projects| && projects[i].id == id;
    }
    projects[found.value]
  }

  /** Role mapping: an administrator's blanket grant gives full access, any other preview only. */
  function MapGlobalRole(g: GlobalRole): (r: ProjectRole)
    ensures r == FullAccess <==> g == Administrator
    ensures r == PreviewOnly <==> g.Standard? || g.Observer?
  {
    if g == Administrator then FullAccess else PreviewOnly
  }

  // ---- the listing, as a specification ----

  predicate GrantsResolve(projects: seq<Project>, grants: seq<UserProject>)
  {
    forall a :: a in grants ==> HasProject(projects, a.projectId)
  }

  function IndividualInfo(projects: seq<Project>, a: UserProject): ProjectAccessInfo
    requires HasProject(projects, a.projectId)
  {
    ProjectAccessInfo(ProjectById(projects, a.projectId), a.role, "individual")
  }

  /** One "individual" entry per grant, in grant order. */
  function IndividualInfos(grants: seq<UserProject>, projects: seq<Project>): (r: seq<ProjectAccessInfo>)
    requires GrantsResolve(projects, grants)
    decreases |grants|
  {
    if grants == [] then []
    else
      var last := grants[|grants| - 1];
      IndividualInfos(grants[..|grants| - 1], projects) + [IndividualInfo(projects, last)]
  }

  /** One "global" entry with `role` per project, in project order. */
  function RoleInfos(ps: seq<Project>, role: ProjectRole): (r: seq<ProjectAccessInfo>)
    decreases |ps|
  {
    if ps == [] then []
    else RoleInfos(ps[..|ps| - 1], role) + [ProjectAccessInfo(ps[|ps| - 1], role, "global")]
  }

  /** For each global grant in order, every project of its owner with the mapped role. */
  function GlobalInfos(grants: seq<GlobalAccess>, projects: seq<Project>): (r: seq<ProjectAccessInfo>)
    decreases |grants|
  {
    if grants == [] then []
    else
      var last := grants[|grants| - 1];
      GlobalInfos(grants[..|grants| - 1], projects) + RoleInfos(OwnedBy(projects, last.ownerId), MapGlobalRole(last.role))
  }

  /** The `accessible_projects` list `list_projects` builds for `viewer`. */
  function AccessibleProjects(projects: seq<Project>, userProjects: seq<UserProject>,
                              globalAccesses: seq<GlobalAccess>, viewer: int): seq<ProjectAccessInfo>
    requires GrantsResolve(projects, userProjects)
  {
    IndividualInfos(GrantsTo(userProjects, viewer), projects)
      + GlobalInfos(GlobalGrantsTo(globalAccesses, viewer), projects)
  }

  /** Sum over the global grants of the number of projects their owner has. */
  function OwnerProjectCount(grants: seq<GlobalAccess>, projects: seq<Project>): nat
    decreases |grants|
  {
    if grants == [] then 0
    else OwnerProjectCount(grants[..|grants| - 1], projects) + |OwnedBy(projects, grants[|grants| - 1].ownerId)|
  }

  // ---- lemmas about the listing ----

  lemma {:induction false} IndividualInfosLength(grants: seq<UserProject>, projects: seq<Project>)
    requires GrantsResolve(projects, grants)
    ensures |IndividualInfos(grants, projects)| == |grants|
    decreases |grants|
  {
    if grants != [] {
      IndividualInfosLength(grants[..|grants| - 1], projects);
    }
  }

  lemma {:induction false} IndividualInfosMembership(grants: seq<UserProject>, projects: seq<Project>, info: ProjectAccessInfo)
    requires GrantsResolve(projects, grants)
    ensures info in IndividualInfos(grants, projects) <==>
              exists a :: a in grants && info == IndividualInfo(projects, a)
    decreases |grants|
  {
    if grants != [] {
      var init := grants[..|grants| - 1];
      var last := grants[|grants| - 1];
      assert grants == init + [last];
      IndividualInfosMembership(init, projects, info);
      if info in IndividualInfos(init, projects) {
        var a :| a in init && info == IndividualInfo(projects, a);
        assert a in grants;
      }
    }
  }

  lemma {:induction false} RoleInfosLength(ps: seq<Project>, role: ProjectRole)
    ensures |RoleInfos(ps, role)| == |ps|
    decreases |ps|
  {
    if ps != [] {
      var init := ps[..|ps| - 1];
      assert ps == init + [ps[|ps| - 1]];
      RoleInfosLength(init, role);
    }
  }

  lemma {:induction false} RoleInfosMembership(ps: seq<Project>, role: ProjectRole, info: ProjectAccessInfo)
    ensures info in RoleInfos(ps, role) <==> info.project in ps && info.role == role && info.accessType == "global"
    decreases |ps|
  {
    if ps != [] {
      var init := ps[..|ps| - 1];
      assert ps == init + [ps[|ps| - 1]];
      RoleInfosMembership(init, role, info);
    }
  }

  lemma {:induction false} GlobalInfosLength(grants: seq<GlobalAccess>, projects: seq<Project>)
    ensures |GlobalInfos(grants, projects)| == OwnerProjectCount(grants, projects)
    decreases |grants|
  {
    if grants != [] {
      var last := grants[|grants| - 1];
      GlobalInfosLength(grants[..|grants| - 1], projects);
      RoleInfosLength(OwnedBy(projects, last.ownerId), MapGlobalRole(last.role));
    }
  }

  /** A global entry is a project of some grant's owner, with that grant's mapped role. */
  lemma {:induction false} GlobalInfosMembership(grants: seq<GlobalAccess>, projects: seq<Project>, info: ProjectAccessInfo)
    ensures info in GlobalInfos(grants, projects) <==>
              exists g, p :: g in grants && p in projects && p.ownerId == g.ownerId
                             && info == ProjectAccessInfo(p, MapGlobalRole(g.role), "global")
    decreases |grants|
  {
    if grants != [] {
      var init := grants[..|grants| - 1];
      var last := grants[|grants| - 1];
      assert grants == init + [last];
      GlobalInfosMembership(init, projects, info);
      RoleInfosMembership(OwnedBy(projects, last.ownerId), MapGlobalRole(last.role), info);
      if info in GlobalInfos(init, projects) {
        var g, p :| g in init && p in projects && p.ownerId == g.ownerId
                    && info == ProjectAccessInfo(p, MapGlobalRole(g.role), "global");
        assert g in grants;
      } else if info in RoleInfos(OwnedBy(projects, last.ownerId), MapGlobalRole(last.role)) {
        assert last in grants && info.project in projects;
      }
    }
  }

  /** Size of the accessible list: one per individual grant plus, per global grant, one per owner project. */
  lemma AccessibleProjectsLength(projects: seq<Project>, userProjects: seq<UserProject>,
                                 globalAccesses: seq<GlobalAccess>, viewer: int)
    requires GrantsResolve(projects, userProjects)
    ensures |AccessibleProjects(projects, userProjects, globalAccesses, viewer)|
            == |GrantsTo(userProjects, viewer)| + OwnerProjectCount(GlobalGrantsTo(globalAccesses, viewer), projects)
  {
    IndividualInfosLength(GrantsTo(userProjects, viewer), projects);
    GlobalInfosLength(GlobalGrantsTo(globalAccesses, viewer), projects);
  }

  /** Exactly the entries reachable through an individual grant or a global grant to `viewer`. */
  lemma AccessibleProjectsMembership(projects: seq<Project>, userProjects: seq<UserProject>,
                                     globalAccesses: seq<GlobalAccess>, viewer: int, info: ProjectAccessInfo)
    requires GrantsResolve(projects, userProjects)
    ensures info in AccessibleProjects(projects, userProjects, globalAccesses, viewer) <==>
              (exists a :: a in userProjects && a.userId == viewer && info == IndividualInfo(projects, a))
              || (exists g, p :: g in globalAccesses && g.userId == viewer && p in projects && p.ownerId == g.ownerId
                                 && info == ProjectAccessInfo(p, MapGlobalRole(g.role), "global"))
  {
    IndividualInfosMembership(GrantsTo(userProjects, viewer), projects, info);
    GlobalInfosMembership(GlobalGrantsTo(globalAccesses, viewer), projects, info);
  }

  lemma AccessibleProjectsCharacterised(projects: seq<Project>, userProjects: seq<UserProject>,
                                        globalAccesses: seq<GlobalAccess>, viewer: int)
    requires GrantsResolve(projects, userProjects)
    ensures forall info :: info in AccessibleProjects(projects, userProjects, globalAccesses, viewer) <==>
              (exists a :: a in userProjects && a.userId == viewer && info == IndividualInfo(projects, a))
              || (exists g, p :: g in globalAccesses && g.userId == viewer && p in projects && p.ownerId == g.ownerId
                                 && info == ProjectAccessInfo(p, MapGlobalRole(g.role), "global"))
  {
    forall info
      ensures info in AccessibleProjects(projects, userProjects, globalAccesses, viewer) <==>
              (exists a :: a in userProjects && a.userId == viewer && info == IndividualInfo(projects, a))
              || (exists g, p :: g in globalAccesses && g.userId == viewer && p in projects && p.ownerId == g.ownerId
                                 && info == ProjectAccessInfo(p, MapGlobalRole(g.role), "global"))
    {
      AccessibleProjectsMembership(projects, userProjects, globalAccesses, viewer, info);
    }
  }

  /**
   * No de-duplication and no precedence: a project reached through both an
   * individual grant and a global grant from its owner is listed at least
   * twice, at two distinct positions.
   */
  lemma ListedOncePerPath(projects: seq<Project>, userProjects: seq<UserProject>,
                          globalAccesses: seq<GlobalAccess>, viewer: int, a: UserProject, g: GlobalAccess)
    requires GrantsResolve(projects, userProjects)
    requires a in userProjects && a.userId == viewer
    requires g in globalAccesses && g.userId == viewer && g.ownerId == ProjectById(projects, a.projectId).ownerId
    ensures var list := AccessibleProjects(projects, userProjects, globalAccesses, viewer);
            var p := ProjectById(projects, a.projectId);
            ProjectAccessInfo(p, a.role, "individual") in list
            && ProjectAccessInfo(p, MapGlobalRole(g.role), "global") in list
            && exists i, j :: 0 <= i < j < |list| && list[i].project == p && list[j].project == p
  {
    var list := AccessibleProjects(projects, userProjects, globalAccesses, viewer);
    var p := ProjectById(projects, a.projectId);
    var e1 := ProjectAccessInfo(p, a.role, "individual");
    var e2 := ProjectAccessInfo(p, MapGlobalRole(g.role), "global");
    AccessibleProjectsMembership(projects, userProjects, globalAccesses, viewer, e1);
    AccessibleProjectsMembership(projects, userProjects, globalAccesses, viewer, e2);
    var i :| 0 <= i < |list| && list[i] == e1;
    var j :| 0 <= j < |list| && list[j] == e2;
    assert i != j;
    if i < j { assert list[i].project == p && list[j].project == p; }
    else { assert list[j].project == p && list[i].project == p; }
  }

  // ---- the handlers ----

  function DuplicateNameDetail(name: string): string
  {
    "Project with name '" + name + "' already exists for this user"
  }

  predicate NoRepeats(names: seq<string>)
  {
    forall i, j :: 0 <= i < j < |names| ==> names[i] != names[j]
  }

  /**
   * Appending one owner's projects whose names are all new for that owner keeps
   * (owner, name) unique exactly when the new names are pairwise distinct.
   */
  lemma AppendOwnedKeepsNamesUnique(projects: seq<Project>, added: seq<Project>, owner: int, names: seq<string>)
    requires OwnerNamesUnique(projects)
    requires |added| == |names|
    requires forall k :: 0 <= k < |added| ==> added[k].ownerId == owner && added[k].name == names[k]
    requires forall k :: 0 <= k < |names| ==> !NameTaken(projects, owner, names[k])
    ensures OwnerNamesUnique(projects + added) <==> NoRepeats(names)
  {
    var all := projects + added;
    var n := |projects|;
    if NoRepeats(names) {
      forall i, j | 0 <= i < j < |all|
        ensures !(all[i].ownerId == all[j].ownerId && all[i].name == all[j].name)
      {
        if j >= n && i < n {
          assert !NameTaken(projects, owner, names[j - n]);
          assert all[i] == projects[i];
        }
      }
    } else {
      var i, j :| 0 <= i < j < |names| && names[i] == names[j];
      assert all[n + i].ownerId == all[n + j].ownerId && all[n + i].name == all[n + j].name;
    }
  }

  /**
   * `create_onboarding`: if any requested name is already one of the caller's
   * projects the whole batch is refused before anything is added; otherwise one
   * project per requested name is added, in request order. Names repeated
   * inside the request are not checked against each other.
   */
  method CreateOnboarding(db: Database, currentUserId: int, request: OnboardingRequest)
    returns (r: Result<seq<Project>, HttpError>)
    requires db.Valid() && HasUser(db.users, currentUserId)
    modifies db
    ensures db.Valid()
    ensures db.users == old(db.users) && db.userProjects == old(db.userProjects)
    ensures db.globalAccesses == old(db.globalAccesses)
    ensures db.nextUserId == old(db.nextUserId) && db.nextUserProjectId == old(db.nextUserProjectId)
    ensures db.nextGlobalAccessId == old(db.nextGlobalAccessId)
    ensures r.Err? <==> exists k :: 0 <= k < |request.projects| && NameTaken(old(db.projects), currentUserId, request.projects[k])
    ensures r.Err? ==> db.projects == old(db.projects) && db.nextProjectId == old(db.nextProjectId)
    ensures r.Err? ==> exists k :: 0 <= k < |request.projects|
                          && NameTaken(old(db.projects), currentUserId, request.projects[k])
                          && (forall j :: 0 <= j < k ==> !NameTaken(old(db.projects), currentUserId, request.projects[j]))
                          && r.error == HttpError(BAD_REQUEST, DuplicateNameDetail(request.projects[k]))
    ensures r.Ok? ==> db.projects == old(db.projects) + r.value
    ensures r.Ok? ==> |r.value| == |request.projects| && db.nextProjectId == old(db.nextProjectId) + |request.projects|
    ensures r.Ok? ==> forall k :: 0 <= k < |r.value| ==>
                        r.value[k] == Project(old(db.nextProjectId) + k, request.projects[k], currentUserId, request.language)
    ensures r.Ok? && old(OwnerNamesUnique(db.projects)) ==> (OwnerNamesUnique(db.projects) <==> NoRepeats(request.projects))
  {
    var names := request.projects;
    var k := 0;
    while k < |names|
      invariant 0 <= k <= |names|
      invariant forall j :: 0 <= j < k ==> !NameTaken(db.projects, currentUserId, names[j])
    {
      if NameTaken(db.projects, currentUserId, names[k]) {
        r := Err(HttpError(BAD_REQUEST, DuplicateNameDetail(names[k])));
        return;
      }
      k := k + 1;
    }

    ghost var before := db.projects;
    var created: seq<Project> := [];
    k := 0;
    while k < |names|
      invariant 0 <= k <= |names| && |created| == k
      invariant db.projects == before + created && db.nextProjectId == old(db.nextProjectId) + k
      invariant forall j :: 0 <= j < k ==>
                  created[j] == Project(old(db.nextProjectId) + j, names[j], currentUserId, request.language)
      invariant db.users == old(db.users) && db.userProjects == old(db.userProjects)
      invariant db.globalAccesses == old(db.globalAccesses)
      invariant db.nextUserId == old(db.nextUserId) && db.nextUserProjectId == old(db.nextUserProjectId)
      invariant db.nextGlobalAccessId == old(db.nextGlobalAccessId)
      invariant db.Valid()
    {
      var project := Project(db.nextProjectId, names[k], currentUserId, request.language);
      db.AddProject(project);
      created := created + [project];
      k := k + 1;
    }
    r := Ok(created);
    if OwnerNamesUnique(before) {
      AppendOwnedKeepsNamesUnique(before, created, currentUserId, names);
    }
  }

  /**
   * `create_global_access`: an unknown grantee is 404, an existing grant from
   * the caller to that user is 400, otherwise exactly one grant is added.
   */
  method CreateGlobalAccess(db: Database, currentUserId: int, access: GlobalAccessCreate)
    returns (r: Result<GlobalAccess, HttpError>)
    requires db.Valid() && HasUser(db.users, currentUserId)
    modifies db
    ensures db.Valid()
    ensures db.users == old(db.users) && db.projects == old(db.projects) && db.userProjects == old(db.userProjects)
    ensures db.nextUserId == old(db.nextUserId) && db.nextProjectId == old(db.nextProjectId)
    ensures db.nextUserProjectId == old(db.nextUserProjectId)
    ensures !HasUser(old(db.users), access.userId) ==> r == Err(HttpError(NOT_FOUND, "User not found"))
    ensures HasUser(old(db.users), access.userId) && HasGlobalGrant(old(db.globalAccesses), currentUserId, access.userId)
            ==> r == Err(HttpError(BAD_REQUEST, "Access already exists"))
    ensures HasUser(old(db.users), access.userId) && !HasGlobalGrant(old(db.globalAccesses), currentUserId, access.userId)
            ==> r == Ok(GlobalAccess(old(db.nextGlobalAccessId), currentUserId, access.userId, access.role))
    ensures r.Err? ==> db.globalAccesses == old(db.globalAccesses) && db.nextGlobalAccessId == old(db.nextGlobalAccessId)
    ensures r.Ok? ==> db.globalAccesses == old(db.globalAccesses) + [r.value]
                      && db.nextGlobalAccessId == old(db.nextGlobalAccessId) + 1
    ensures old(GlobalGrantsUnique(db.globalAccesses)) ==> GlobalGrantsUnique(db.globalAccesses)
  {
    if !HasUser(db.users, access.userId) {
      return Err(HttpError(NOT_FOUND, "User not found"));
    }
    if HasGlobalGrant(db.globalAccesses, currentUserId, access.userId) {
      return Err(HttpError(BAD_REQUEST, "Access already exists"));
    }
    var globalAccess := GlobalAccess(db.nextGlobalAccessId, currentUserId, access.userId, access.role);
    db.globalAccesses := db.globalAccesses + [globalAccess];
    db.nextGlobalAccessId := db.nextGlobalAccessId + 1;
    r := Ok(globalAccess);
  }

  /**
   * `create_project_access`, checks in this order: the project must exist and
   * be the caller's (404), the grantee must exist (404), no grant for that
   * (project, user) may exist (400); then exactly one grant is added.
   */
  method CreateProjectAccess(db: Database, currentUserId: int, access: ProjectAccessCreate)
    returns (r: Result<UserProject, HttpError>)
    requires db.Valid() && HasUser(db.users, currentUserId)
    modifies db
    ensures db.Valid()
    ensures db.users == old(db.users) && db.projects == old(db.projects) && db.globalAccesses == old(db.globalAccesses)
    ensures db.nextUserId == old(db.nextUserId) && db.nextProjectId == old(db.nextProjectId)
    ensures db.nextGlobalAccessId == old(db.nextGlobalAccessId)
    ensures !OwnsProject(old(db.projects), currentUserId, access.projectId)
            ==> r == Err(HttpError(NOT_FOUND, "Project not found or you're not the owner"))
    ensures OwnsProject(old(db.projects), currentUserId, access.projectId) && !HasUser(old(db.users), access.userId)
            ==> r == Err(HttpError(NOT_FOUND, "User not found"))
    ensures OwnsProject(old(db.projects), currentUserId, access.projectId) && HasUser(old(db.users), access.userId)
            && HasProjectGrant(old(db.userProjects), access.projectId, access.userId)
            ==> r == Err(HttpError(BAD_REQUEST, "Access already exists"))
    ensures OwnsProject(old(db.projects), currentUserId, access.projectId) && HasUser(old(db.users), access.userId)
            && !HasProjectGrant(old(db.userProjects), access.projectId, access.userId)
            ==> r == Ok(UserProject(old(db.nextUserProjectId), access.userId, access.projectId, access.role))
    ensures r.Err? ==> db.userProjects == old(db.userProjects) && db.nextUserProjectId == old(db.nextUserProjectId)
    ensures r.Ok? ==> db.userProjects == old(db.userProjects) + [r.value]
                      && db.nextUserProjectId == old(db.nextUserProjectId) + 1
    ensures old(ProjectGrantsUnique(db.userProjects)) ==> ProjectGrantsUnique(db.userProjects)
  {
    if !OwnsProject(db.projects, currentUserId, access.projectId) {
      return Err(HttpError(NOT_FOUND, "Project not found or you're not the owner"));
    }
    if !HasUser(db.users, access.userId) {
      return Err(HttpError(NOT_FOUND, "User not found"));
    }
    if HasProjectGrant(db.userProjects, access.projectId, access.userId) {
      return Err(HttpError(BAD_REQUEST, "Access already exists"));
    }
    var projectAccess := UserProject(db.nextUserProjectId, access.userId, access.projectId, access.role);
    db.userProjects := db.userProjects + [projectAccess];
    db.nextUserProjectId := db.nextUserProjectId + 1;
    r := Ok(projectAccess);
  }

  /** In a valid store every individual grant points at a stored project. */
  lemma ValidGrantsResolve(db: Database)
    requires db.Valid()
    ensures GrantsResolve(db.projects, db.userProjects)
  {
    forall a | a in db.userProjects ensures HasProject(db.projects, a.projectId) {
      var k :| 0 <= k < |db.userProjects| && db.userProjects[k] == a;
    }
  }

  lemma RoleInfosStep(ps: seq<Project>, j: nat, role: ProjectRole)
    requires j < |ps|
    ensures RoleInfos(ps[..j + 1], role) == RoleInfos(ps[..j], role) + [ProjectAccessInfo(ps[j], role, "global")]
  {
    assert ps[..j + 1][..j] == ps[..j];
  }

  lemma GlobalInfosStep(grants: seq<GlobalAccess>, g: nat, projects: seq<Project>)
    requires g < |grants|
    ensures GlobalInfos(grants[..g + 1], projects)
            == GlobalInfos(grants[..g], projects) + RoleInfos(OwnedBy(projects, grants[g].ownerId), MapGlobalRole(grants[g].role))
  {
    assert grants[..g + 1][..g] == grants[..g];
  }

  /** The loop at the individual grants: one "individual" entry per grant, in grant order. */
  method CollectIndividualAccess(individualAccesses: seq<UserProject>, projects: seq<Project>)
    returns (entries: seq<ProjectAccessInfo>)
    requires GrantsResolve(projects, individualAccesses)
    ensures entries == IndividualInfos(individualAccesses, projects)
  {
    entries := [];
    var k := 0;
    while k < |individualAccesses|
      invariant 0 <= k <= |individualAccesses|
      invariant entries == IndividualInfos(individualAccesses[..k], projects)
    {
      var access := individualAccesses[k];
      entries := entries + [ProjectAccessInfo(ProjectById(projects, access.projectId), access.role, "individual")];
      assert individualAccesses[..k + 1][..k] == individualAccesses[..k];
      k := k + 1;
    }
    assert individualAccesses[..k] == individualAccesses;
  }

  /**
   * The inner loop at one global grant: every project of the grant's owner,
   * with the grant's role mapped at each entry.
   */
  method CollectOwnerProjects(ownerProjects: seq<Project>, globalAccess: GlobalAccess)
    returns (entries: seq<ProjectAccessInfo>)
    ensures entries == RoleInfos(ownerProjects, MapGlobalRole(globalAccess.role))
  {
    entries := [];
    var j := 0;
    while j < |ownerProjects|
      invariant 0 <= j <= |ownerProjects|
      invariant entries == RoleInfos(ownerProjects[..j], MapGlobalRole(globalAccess.role))
    {
      var project := ownerProjects[j];
      var projectRole := if globalAccess.role == Administrator then FullAccess else PreviewOnly;
      entries := entries + [ProjectAccessInfo(project, projectRole, "global")];
      RoleInfosStep(ownerProjects, j, MapGlobalRole(globalAccess.role));
      j := j + 1;
    }
    assert ownerProjects[..j] == ownerProjects;
  }

  /** The outer loop at the global grants received, in grant order. */
  method CollectGlobalAccess(globalAccesses: seq<GlobalAccess>, projects: seq<Project>)
    returns (entries: seq<ProjectAccessInfo>)
    ensures entries == GlobalInfos(globalAccesses, projects)
  {
    entries := [];
    var g := 0;
    while g < |globalAccesses|
      invariant 0 <= g <= |globalAccesses|
      invariant entries == GlobalInfos(globalAccesses[..g], projects)
    {
      var globalAccess := globalAccesses[g];
      var ownerProjects := OwnedBy(projects, globalAccess.ownerId);
      var ownerEntries := CollectOwnerProjects(ownerProjects, globalAccess);
      entries := entries + ownerEntries;
      GlobalInfosStep(globalAccesses, g, projects);
      g := g + 1;
    }
    assert globalAccesses[..g] == globalAccesses;
  }

  /**
   * `list_projects`: the caller's own projects, then every individual grant
   * followed by every project reached through a global grant, with no
   * de-duplication. It changes nothing.
   */
  method ListProjects(db: Database, currentUserId: int) returns (response: ProjectListResponse)
    requires GrantsResolve(db.projects, db.userProjects)
    ensures response.ownedProjects == OwnedBy(db.projects, currentUserId)
    ensures forall p :: p in response.ownedProjects <==> p in db.projects && p.ownerId == currentUserId
    ensures response.accessibleProjects
            == AccessibleProjects(db.projects, db.userProjects, db.globalAccesses, currentUserId)
    ensures |response.accessibleProjects|
            == |GrantsTo(db.userProjects, currentUserId)|
               + OwnerProjectCount(GlobalGrantsTo(db.globalAccesses, currentUserId), db.projects)
    ensures forall info :: info in response.accessibleProjects <==>
              (exists a :: a in db.userProjects && a.userId == currentUserId && info == IndividualInfo(db.projects, a))
              || (exists g, p :: g in db.globalAccesses && g.userId == currentUserId && p in db.projects
                                 && p.ownerId == g.ownerId && info == ProjectAccessInfo(p, MapGlobalRole(g.role), "global"))
  {
    var projects := db.projects;
    var ownedProjects := OwnedBy(projects, currentUserId);
    var individualAccesses := GrantsTo(db.userProjects, currentUserId);
    var globalAccesses := GlobalGrantsTo(db.globalAccesses, currentUserId);
    var individualEntries := CollectIndividualAccess(individualAccesses, projects);
    var globalEntries := CollectGlobalAccess(globalAccesses, projects);
    var accessibleProjects := individualEntries + globalEntries;
    response := ProjectListResponse(ownedProjects, accessibleProjects);
    AccessibleProjectsLength(projects, db.userProjects, db.globalAccesses, currentUserId);
    AccessibleProjectsCharacterised(projects, db.userProjects, db.globalAccesses, currentUserId);
  }
}
