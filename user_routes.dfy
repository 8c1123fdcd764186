/** The user endpoints: the roster, one user, a team, a manager's subordinates
    and the mock rating. None of them changes anything. */
module UserRoutes {
  import opened Collections
  import opened Types
  import opened Http
  import opened MockData

  const UserNotFound := "Пользователь не найден"
  const ManagerNotFound := "Руководитель не найден"

  const RatingComment := "Отличный сотрудник, всегда выполняет задачи в срок"
  const CharacteristicHead := "Высокопроизводительный сотрудник с отличными результатами. Работает в команде "
  const CharacteristicTail := ", демонстрирует командный дух. Проявляет инициативу в решении задач и готов к развитию."
  const RatingTimestamp := "2025-01-01T10:00:00Z"

  /** The rating literal the GET /:userId/rating handler builds. */
  datatype EmployeeRating = EmployeeRating(
    id: int, employeeId: int, managerId: int, managerName: string, rating: int,
    comment: string, characteristic: string, createdAt: string, updatedAt: string)

  /** GET /: the whole roster, as stored. */
  function ListUsers(users: seq<User>): (r: Reply<seq<User>>)
    ensures r.Ok? && r.code == 200 && r.data == users
  {
    Ok(200, users)
  }

  /** GET /:id: the user with that id, or 404 when the id does not parse or no user has it. */
  function GetUser(users: seq<User>, id: Option<int>): (r: Reply<User>)
    ensures r.Fail? <==> id.None? || forall u :: u in users ==> u.id != id.value
    ensures r.Fail? ==> r == Fail(404, UserNotFound)
    ensures r.Ok? ==> r.code == 200 && r.data in users && r.data.id == id.value
    ensures r.Ok? ==> Some(r.data) == FindUserById(users, id.value)
  {
    if id.None? then Fail(404, UserNotFound)
    else match FindUserById(users, id.value)
      case None => Fail(404, UserNotFound)
      case Some(u) => Ok(200, u)
  }

  /** GET /team/:team: the members of the team in roster order; an unknown team gives an empty list. */
  function TeamMembers(users: seq<User>, team: string): (r: Reply<seq<User>>)
    ensures r.Ok? && r.code == 200 && r.data == GetTeamMembers(users, team)
    ensures forall u :: u in r.data <==> u in users && u.team == team
  {
    Ok(200, GetTeamMembers(users, team))
  }

  /** GET /manager/:managerId/subordinates: 404 unless the id names a manager;
      otherwise the employees of that manager's team. */
  function Subordinates(users: seq<User>, managerId: Option<int>): (r: Reply<seq<User>>)
    ensures r.Fail? <==> managerId.None? || FindUserById(users, managerId.value).None? ||
                         FindUserById(users, managerId.value).value.role != Manager
    ensures r.Fail? ==> r == Fail(404, ManagerNotFound)
    ensures r.Ok? ==>
              var m := FindUserById(users, managerId.value).value;
              && r.code == 200 && m in users && m.id == managerId.value && m.role == Manager
              && (forall u :: u in r.data <==> u in users && u.role == Employee && u.team == m.team)
              && m !in r.data
              && (forall u :: multiset(r.data)[u] ==
                                if u.role == Employee && u.team == m.team then multiset(users)[u] else 0)
  {
    if managerId.None? then Fail(404, ManagerNotFound)
    else match FindUserById(users, managerId.value)
      case None => Fail(404, ManagerNotFound)
      case Some(m) =>
        if m.role != Manager then Fail(404, ManagerNotFound)
        else Ok(200, Filter(users, (u: User) => u.role == Employee && u.team == m.team))
  }

  /** The rating's characteristic text, which names the user's team. */
  function Characteristic(team: string): string
  {
    CharacteristicHead + team + CharacteristicTail
  }

  /** GET /:userId/rating: 404 for an unknown user, else a fixed rating of 4 for that
      user. The manager name depends on the team; the manager id is always 2. */
  function Rating(users: seq<User>, userId: Option<int>): (r: Reply<EmployeeRating>)
    ensures r.Fail? <==> userId.None? || forall u :: u in users ==> u.id != userId.value
    ensures r.Fail? ==> r == Fail(404, UserNotFound)
    ensures r.Ok? ==>
              var u := FindUserById(users, userId.value).value;
              && r.code == 200 && r.data.employeeId == userId.value && u.id == userId.value
              && (r.data.managerName == "Далер Алямов" <==> u.team == "frontend")
              && (u.team != "frontend" ==> r.data.managerName == "Денис")
              && r.data.managerId == 2 && r.data.rating == 4 && r.data.comment == RatingComment
              && r.data.characteristic == CharacteristicHead + u.team + CharacteristicTail
  {
    if userId.None? then Fail(404, UserNotFound)
    else match FindUserById(users, userId.value)
      case None => Fail(404, UserNotFound)
      case Some(u) =>
        Ok(200, EmployeeRating(1, userId.value, 2, if u.team == "frontend" then "Далер Алямов" else "Денис",
                               4, RatingComment, Characteristic(u.team), RatingTimestamp, RatingTimestamp))
  }

  /** On the seed roster a backend employee's rating names Денис, whose id is 4,
      yet carries manager id 2, the frontend manager's. */
  lemma SeedRatingManagerMismatch()
    ensures var r := Rating(SeedUsers(), Some(3));
            r.Ok? && r.data.managerName == "Денис" && r.data.managerId == 2
    ensures FindUserById(SeedUsers(), 2) == Some(Daler) && Daler.name != "Денис"
  {
  }
}
