/**
 * The project tables: the three string-valued enums and the records of the
 * `projects`, `user_projects` and `global_accesses` tables. Columns declared
 * `nullable=False` are plain fields; none of them is optional. The creation and
 * update timestamps are not part of this model.
 */
module ProjectModel {

  /** Language of a project; stored as one of two strings. */
  datatype Language = Indonesia | English

  /** Role of a blanket grant from one user to another. */
  datatype GlobalRole = Standard | Observer | Administrator

  /** Role of one user on one project. */
  datatype ProjectRole = FullAccess | PreviewOnly

  /** The string value of each Language member. */
  function LanguageValue(l: Language): (s: string)
    ensures s == "indonesia" || s == "english"
  {
    match l
    case Indonesia => "indonesia"
    case English => "english"
  }

  function GlobalRoleValue(g: GlobalRole): (s: string)
    ensures s == "standard" || s == "observer" || s == "administrator"
  {
    match g
    case Standard => "standard"
    case Observer => "observer"
    case Administrator => "administrator"
  }

  function ProjectRoleValue(r: ProjectRole): (s: string)
    ensures s == "full_access" || s == "preview_only"
  {
    match r
    case FullAccess => "full_access"
    case PreviewOnly => "preview_only"
  }

  /** Each enum's string value identifies its member. */
  lemma ValuesIdentifyMembers(l: Language, m: Language, g: GlobalRole, h: GlobalRole, r: ProjectRole, q: ProjectRole)
    ensures LanguageValue(l) == LanguageValue(m) ==> l == m
    ensures GlobalRoleValue(g) == GlobalRoleValue(h) ==> g == h
    ensures ProjectRoleValue(r) == ProjectRoleValue(q) ==> r == q
  {
  }

  /** A row of `projects`: its owner is a user id, its name is free text. */
  datatype Project = Project(id: int, name: string, ownerId: int, language: Language)

  /** A row of `user_projects`: an individual grant of `role` on one project to one user. */
  datatype UserProject = UserProject(id: int, userId: int, projectId: int, role: ProjectRole)

  /** A row of `global_accesses`: `ownerId` grants `userId` `role` on all of the owner's projects. */
  datatype GlobalAccess = GlobalAccess(id: int, ownerId: int, userId: int, role: GlobalRole)
}
