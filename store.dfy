/**
 * The four tables as one in-memory store, the stand-in for the database
 * session the handlers receive. Each table is a sequence of rows in insertion
 * order; ids come from per-table auto-increment counters. `Valid` holds the
 * constraints the schema declares: primary keys, foreign keys and the unique
 * email. The uniqueness of (owner, name), (project, user) and (owner, user)
 * is declared nowhere in the schema and is stated separately.
 */
module Store {
  import opened Wrappers
  import opened ProjectModel
  import opened UserModel

  /** `.filter(p).first()`: the index of the first row satisfying `p`. */
  function First<T>(rows: seq<T>, p: T -> bool): (r: Option<nat>)
    ensures r.Some? ==> r.value < |rows| && p(rows[r.value])
    ensures r.Some? ==> forall j :: 0 <= j < r.value ==> !p(rows[j])
    ensures r.None? ==> forall j :: 0 <= j < |rows| ==> !p(rows[j])
    decreases |rows|
  {
    if rows == [] then None
    else if p(rows[0]) then Some(0)
    else match First(rows[1..], p)
      case Some(k) => Some(k + 1)
      case None => None
  }

  /**
   * `.filter(p).all()`: the rows satisfying `p`, in table order, each as
   * often as the table holds it.
   */
  function Filter<T>(rows: seq<T>, p: T -> bool): (r: seq<T>)
    ensures |r| <= |rows|
    ensures forall i :: 0 <= i < |r| ==> r[i] in rows && p(r[i])
    ensures forall i :: 0 <= i < |rows| && p(rows[i]) ==> rows[i] in r
    decreases |rows|
  {
    if rows == [] then []
    else (if p(rows[0]) then [rows[0]] else []) + Filter(rows[1..], p)
  }

  /** Each row satisfying `p` is kept as often as the table holds it, and no other row is. */
  lemma {:induction false} FilterCounts<T>(rows: seq<T>, p: T -> bool, x: T)
    ensures multiset(Filter(rows, p))[x] == if p(x) then multiset(rows)[x] else 0
    decreases |rows|
  {
    if rows != [] {
      FilterCounts(rows[1..], p, x);
      assert rows == [rows[0]] + rows[1..];
      var head := if p(rows[0]) then [rows[0]] else [];
      assert multiset(Filter(rows, p)) == multiset(head) + multiset(Filter(rows[1..], p));
    }
  }

  /** Filtering keeps table order: it distributes over concatenation. */
  lemma {:induction false} FilterAppend<T>(front: seq<T>, back: seq<T>, p: T -> bool)
    ensures Filter(front + back, p) == Filter(front, p) + Filter(back, p)
    decreases |front|
  {
    if front != [] {
      assert (front + back)[1..] == front[1..] + back;
      FilterAppend(front[1..], back, p);
    } else {
      assert front + back == back;
    }
  }

  function FindUserById(users: seq<User>, id: int): Option<nat>
  {
    First(users, (u: User) => u.id == id)
  }

  function FindUserByEmail(users: seq<User>, email: string): Option<nat>
  {
    First(users, (u: User) => u.email == email)
  }

  function FindUserByVerificationToken(users: seq<User>, token: string): Option<nat>
  {
    First(users, (u: User) => u.verificationToken == Some(token))
  }

  function FindUserByResetToken(users: seq<User>, token: string): Option<nat>
  {
    First(users, (u: User) => u.resetPasswordToken == Some(token))
  }

  predicate HasUser(users: seq<User>, id: int)
  {
    exists i :: 0 <= i < |users| && users[i].id == id
  }

  predicate HasProject(projects: seq<Project>, id: int)
  {
    exists i :: 0 <= i < |projects| && projects[i].id == id
  }

  /** A stored id is found by the lookup on `id`. */
  lemma FindUserByIdFinds(users: seq<User>, id: int)
    requires HasUser(users, id)
    ensures FindUserById(users, id).Some?
  {
    var k :| 0 <= k < |users| && users[k].id == id;
    assert ((u: User) => u.id == id)(users[k]);
  }

  /** Rewriting a user row without changing its id leaves the set of user ids as it was. */
  lemma ReplaceUserKeepsIds(users: seq<User>, i: nat, u: User)
    requires i < |users| && u.id == users[i].id
    ensures forall id :: HasUser(users[i := u], id) <==> HasUser(users, id)
  {
    forall id ensures HasUser(users[i := u], id) <==> HasUser(users, id) {
      if HasUser(users, id) {
        var k :| 0 <= k < |users| && users[k].id == id;
        assert users[i := u][k].id == id;
      }
      if HasUser(users[i := u], id) {
        var k :| 0 <= k < |users| && users[i := u][k].id == id;
        assert users[k].id == id;
      }
    }
  }

  /** Primary keys are unique and below the table's auto-increment counter. */
  predicate UserKeys(users: seq<User>, next: int)
  {
    && (forall i :: 0 <= i < |users| ==> users[i].id < next)
    && (forall i, j :: 0 <= i < j < |users| ==> users[i].id != users[j].id)
  }

  predicate ProjectKeys(projects: seq<Project>, next: int)
  {
    && (forall i :: 0 <= i < |projects| ==> projects[i].id < next)
    && (forall i, j :: 0 <= i < j < |projects| ==> projects[i].id != projects[j].id)
  }

  predicate UserProjectKeys(grants: seq<UserProject>, next: int)
  {
    && (forall i :: 0 <= i < |grants| ==> grants[i].id < next)
    && (forall i, j :: 0 <= i < j < |grants| ==> grants[i].id != grants[j].id)
  }

  predicate GlobalAccessKeys(grants: seq<GlobalAccess>, next: int)
  {
    && (forall i :: 0 <= i < |grants| ==> grants[i].id < next)
    && (forall i, j :: 0 <= i < j < |grants| ==> grants[i].id != grants[j].id)
  }

  /** Foreign keys: every owner, grantee and granted project exists. */
  predicate ProjectOwnersExist(users: seq<User>, projects: seq<Project>)
  {
    forall k :: 0 <= k < |projects| ==> HasUser(users, projects[k].ownerId)
  }

  predicate UserProjectRefsExist(users: seq<User>, projects: seq<Project>, grants: seq<UserProject>)
  {
    forall k :: 0 <= k < |grants| ==> HasUser(users, grants[k].userId) && HasProject(projects, grants[k].projectId)
  }

  predicate GlobalAccessRefsExist(users: seq<User>, grants: seq<GlobalAccess>)
  {
    forall k :: 0 <= k < |grants| ==> HasUser(users, grants[k].ownerId) && HasUser(users, grants[k].userId)
  }

  // ---- uniqueness that only the route checks maintain ----

  predicate OwnerNamesUnique(projects: seq<Project>)
  {
    forall i, j :: 0 <= i < j < |projects| ==>
      !(projects[i].ownerId == projects[j].ownerId && projects[i].name == projects[j].name)
  }

  predicate ProjectGrantsUnique(grants: seq<UserProject>)
  {
    forall i, j :: 0 <= i < j < |grants| ==>
      !(grants[i].projectId == grants[j].projectId && grants[i].userId == grants[j].userId)
  }

  predicate GlobalGrantsUnique(grants: seq<GlobalAccess>)
  {
    forall i, j :: 0 <= i < j < |grants| ==>
      !(grants[i].ownerId == grants[j].ownerId && grants[i].userId == grants[j].userId)
  }

  class Database {
    var users: seq<User>
    var projects: seq<Project>
    var userProjects: seq<UserProject>
    var globalAccesses: seq<GlobalAccess>
    var nextUserId: int
    var nextProjectId: int
    var nextUserProjectId: int
    var nextGlobalAccessId: int

    ghost predicate Valid()
      reads this
    {
      && UserKeys(users, nextUserId)
      && ProjectKeys(projects, nextProjectId)
      && UserProjectKeys(userProjects, nextUserProjectId)
      && GlobalAccessKeys(globalAccesses, nextGlobalAccessId)
      && EmailsUnique(users)
      && ProjectOwnersExist(users, projects)
      && UserProjectRefsExist(users, projects, userProjects)
      && GlobalAccessRefsExist(users, globalAccesses)
    }

    /** An empty database whose counters start at 1. */
    constructor ()
      ensures Valid()
      ensures users == [] && projects == [] && userProjects == [] && globalAccesses == []
    {
      users, projects, userProjects, globalAccesses := [], [], [], [];
      nextUserId, nextProjectId, nextUserProjectId, nextGlobalAccessId := 1, 1, 1, 1;
    }

    /** `db.add(user)` and commit: the row takes the next user id and an email no row holds. */
    method AddUser(user: User)
      requires Valid()
      requires user.id == nextUserId
      requires forall k :: 0 <= k < |users| ==> users[k].email != user.email
      modifies this
      ensures Valid()
      ensures users == old(users) + [user] && nextUserId == old(nextUserId) + 1
      ensures projects == old(projects) && userProjects == old(userProjects) && globalAccesses == old(globalAccesses)
      ensures nextProjectId == old(nextProjectId)
      ensures nextUserProjectId == old(nextUserProjectId) && nextGlobalAccessId == old(nextGlobalAccessId)
    {
      ghost var previous := users;
      users := users + [user];
      forall id | HasUser(previous, id) ensures HasUser(users, id) {
        var k :| 0 <= k < |previous| && previous[k].id == id;
        assert users[k].id == id;
      }
      nextUserId := nextUserId + 1;
    }

    /** `db.add(project)` and commit: the row takes the next project id. */
    method AddProject(project: Project)
      requires Valid()
      requires project.id == nextProjectId && HasUser(users, project.ownerId)
      modifies this
      ensures Valid()
      ensures projects == old(projects) + [project] && nextProjectId == old(nextProjectId) + 1
      ensures users == old(users) && userProjects == old(userProjects) && globalAccesses == old(globalAccesses)
      ensures nextUserId == old(nextUserId)
      ensures nextUserProjectId == old(nextUserProjectId) && nextGlobalAccessId == old(nextGlobalAccessId)
    {
      ghost var previous := projects;
      projects := projects + [project];
      forall a | 0 <= a < |userProjects| ensures HasProject(projects, userProjects[a].projectId) {
        assert HasProject(previous, userProjects[a].projectId);
        var i :| 0 <= i < |previous| && previous[i].id == userProjects[a].projectId;
        assert projects[i] == previous[i];
      }
      nextProjectId := nextProjectId + 1;
    }

    /**
     * Assigning columns of one loaded user row and committing: the row keeps
     * its id, and the new email must not be held by any other row.
     */
    method UpdateUser(i: nat, u: User)
      requires Valid()
      requires i < |users| && u.id == users[i].id
      requires forall k :: 0 <= k < |users| && k != i ==> users[k].email != u.email
      modifies this
      ensures Valid()
      ensures users == old(users)[i := u]
      ensures projects == old(projects) && userProjects == old(userProjects) && globalAccesses == old(globalAccesses)
      ensures nextUserId == old(nextUserId) && nextProjectId == old(nextProjectId)
      ensures nextUserProjectId == old(nextUserProjectId) && nextGlobalAccessId == old(nextGlobalAccessId)
    {
      ReplaceUserKeepsIds(users, i, u);
      users := users[i := u];
    }
  }
}
