/**
 * Request and response shapes of the project endpoints, and the parsing of the
 * enum strings a request carries. A request value of these datatypes is one
 * that has passed parsing; the parse functions say which raw inputs do.
 */
module ProjectSchema {
  import opened Wrappers
  import opened ProjectModel

  /** Parsing a Language from its string: only the two listed values are accepted. */
  function ParseLanguage(s: string): (r: Option<Language>)
    ensures r.Some? <==> s == "indonesia" || s == "english"
    ensures r.Some? ==> LanguageValue(r.value) == s
  {
    if s == "indonesia" then Some(Indonesia)
    else if s == "english" then Some(English)
    else None
  }

  function ParseGlobalRole(s: string): (r: Option<GlobalRole>)
    ensures r.Some? <==> s == "standard" || s == "observer" || s == "administrator"
    ensures r.Some? ==> GlobalRoleValue(r.value) == s
  {
    if s == "standard" then Some(Standard)
    else if s == "observer" then Some(Observer)
    else if s == "administrator" then Some(Administrator)
    else None
  }

  function ParseProjectRole(s: string): (r: Option<ProjectRole>)
    ensures r.Some? <==> s == "full_access" || s == "preview_only"
    ensures r.Some? ==> ProjectRoleValue(r.value) == s
  {
    if s == "full_access" then Some(FullAccess)
    else if s == "preview_only" then Some(PreviewOnly)
    else None
  }

  /** member -> string -> member, for all three enums. */
  lemma EnumRoundTrips(l: Language, g: GlobalRole, p: ProjectRole)
    ensures ParseLanguage(LanguageValue(l)) == Some(l)
    ensures ParseGlobalRole(GlobalRoleValue(g)) == Some(g)
    ensures ParseProjectRole(ProjectRoleValue(p)) == Some(p)
  {
  }

  /** The two role vocabularies share no string: a global role is never a valid project role. */
  lemma GlobalRoleIsNotProjectRole(g: GlobalRole)
    ensures ParseProjectRole(GlobalRoleValue(g)) == None
  {
  }

  /** Body of `POST /project/onboarding`: names to create, one language for the whole batch. */
  datatype OnboardingRequest = OnboardingRequest(projects: seq<string>, language: Language)

  /** Body of `POST /project/access/global`. */
  datatype GlobalAccessCreate = GlobalAccessCreate(userId: int, role: GlobalRole)

  /** Body of `POST /project/access/project`. */
  datatype ProjectAccessCreate = ProjectAccessCreate(userId: int, projectId: int, role: ProjectRole)

  function ParseOnboardingRequest(projects: seq<string>, language: string): (r: Option<OnboardingRequest>)
    ensures r.Some? <==> ParseLanguage(language).Some?
    ensures r.Some? ==> r.value.projects == projects && LanguageValue(r.value.language) == language
  {
    match ParseLanguage(language)
    case Some(l) => Some(OnboardingRequest(projects, l))
    case None => None
  }

  function ParseGlobalAccessCreate(userId: int, role: string): (r: Option<GlobalAccessCreate>)
    ensures r.Some? <==> ParseGlobalRole(role).Some?
    ensures r.Some? ==> r.value.userId == userId && GlobalRoleValue(r.value.role) == role
  {
    match ParseGlobalRole(role)
    case Some(g) => Some(GlobalAccessCreate(userId, g))
    case None => None
  }

  function ParseProjectAccessCreate(userId: int, projectId: int, role: string): (r: Option<ProjectAccessCreate>)
    ensures r.Some? <==> ParseProjectRole(role).Some?
    ensures r.Some? ==> r.value.userId == userId && r.value.projectId == projectId
                        && ProjectRoleValue(r.value.role) == role
  {
    match ParseProjectRole(role)
    case Some(p) => Some(ProjectAccessCreate(userId, projectId, p))
    case None => None
  }

  /** One entry of the accessible list; `accessType` is "individual" unless given. */
  datatype ProjectAccessInfo = ProjectAccessInfo(project: Project, role: ProjectRole, accessType: string := "individual")

  lemma AccessTypeDefault(p: Project, r: ProjectRole)
    ensures ProjectAccessInfo(p, r).accessType == "individual"
  {
  }

  /** Response of `GET /project/projects`: exactly two lists. */
  datatype ProjectListResponse = ProjectListResponse(ownedProjects: seq<Project>, accessibleProjects: seq<ProjectAccessInfo>)
}
