/** `UsersService`: the in-memory, ordered user table behind the users
    endpoints. Ids are not guaranteed unique (they come from the clock), so
    every lookup means the FIRST user with that id. */
module Users {
  import opened Wrappers

  /** `createdAt` is a timestamp in milliseconds. */
  datatype User = User(id: string, name: string, email: string, createdAt: int)

  datatype CreateUserDto = CreateUserDto(name: string, email: string)

  /** A partial update: an absent field keeps its old value. */
  datatype UpdateUserDto = UpdateUserDto(name: Option<string>, email: Option<string>)

  /** `NotFoundException` (HTTP 404) with its message. */
  datatype NotFound = NotFound(message: string)

  function NotFoundError(id: string): NotFound {
    NotFound("User with ID " + id + " not found")
  }

  /** The position of the first user with `id`, if any. */
  function FirstIndexOf(users: seq<User>, id: string): (r: Option<nat>)
    ensures r.Some? ==> r.value < |users| && users[r.value].id == id
    ensures r.Some? ==> forall j :: 0 <= j < r.value ==> users[j].id != id
    ensures r.None? <==> forall j :: 0 <= j < |users| ==> users[j].id != id
  {
    if users == [] then None
    else if users[0].id == id then Some(0)
    else
      match FirstIndexOf(users[1..], id)
      case None => None
      case Some(k) => Some(k + 1)
  }

  /** `{ ...user, ...dto }`: the fields the update carries overwrite, the
      others (the id and creation time always) are kept. */
  function Merge(user: User, dto: UpdateUserDto): (r: User)
    ensures r.id == user.id && r.createdAt == user.createdAt
    ensures dto.name.Some? ==> r.name == dto.name.value
    ensures dto.name.None? ==> r.name == user.name
    ensures dto.email.Some? ==> r.email == dto.email.value
    ensures dto.email.None? ==> r.email == user.email
  {
    user.(name := dto.name.GetOr(user.name), email := dto.email.GetOr(user.email))
  }

  /** Applying the same update twice is applying it once; an empty update
      changes nothing. */
  lemma MergeIdempotent(user: User, dto: UpdateUserDto)
    ensures Merge(Merge(user, dto), dto) == Merge(user, dto)
    ensures Merge(user, UpdateUserDto(None, None)) == user
  {
  }

  /** `splice(i, 1)`: the list without position `i`, the rest in order. */
  function RemoveAt(users: seq<User>, i: nat): (r: seq<User>)
    requires i < |users|
    ensures |r| == |users| - 1
    ensures forall j :: 0 <= j < i ==> r[j] == users[j]
    ensures forall j :: i <= j < |r| ==> r[j] == users[j + 1]
    ensures multiset(r) + multiset{users[i]} == multiset(users)
  {
    assert users == users[..i] + [users[i]] + users[i + 1..];
    users[..i] + users[i + 1..]
  }

  /** How many users carry `id`. */
  function CountId(users: seq<User>, id: string): nat {
    if users == [] then 0 else (if users[0].id == id then 1 else 0) + CountId(users[1..], id)
  }

  lemma {:induction false} CountIdConcat(xs: seq<User>, ys: seq<User>, id: string)
    ensures CountId(xs + ys, id) == CountId(xs, id) + CountId(ys, id)
  {
    if xs == [] {
      assert xs + ys == ys;
    } else {
      assert (xs + ys)[1..] == xs[1..] + ys;
      CountIdConcat(xs[1..], ys, id);
    }
  }

  /** Removing the first user with an id removes one user with that id and
      no other: any later duplicates stay. */
  lemma RemoveFirstDropsOne(users: seq<User>, id: string, other: string)
    requires FirstIndexOf(users, id).Some?
    ensures var r := RemoveAt(users, FirstIndexOf(users, id).value);
      CountId(r, id) == CountId(users, id) - 1 &&
      (other != id ==> CountId(r, other) == CountId(users, other))
  {
    var i := FirstIndexOf(users, id).value;
    assert users == users[..i] + ([users[i]] + users[i + 1..]);
    CountIdConcat(users[..i], [users[i]] + users[i + 1..], id);
    CountIdConcat(users[..i], users[i + 1..], id);
    CountIdConcat(users[..i], [users[i]] + users[i + 1..], other);
    CountIdConcat(users[..i], users[i + 1..], other);
    assert ([users[i]] + users[i + 1..])[1..] == users[i + 1..];
  }

  /** A matching position with no match before it is the first one. */
  lemma FirstIndexIs(users: seq<User>, id: string, i: nat)
    requires i < |users| && users[i].id == id
    requires forall j :: 0 <= j < i ==> users[j].id != id
    ensures FirstIndexOf(users, id) == Some(i)
  {
    var r := FirstIndexOf(users, id);
    assert r.Some?;
    assert !(r.value < i);
    assert !(r.value > i);
  }

  /** An update leaves the updated user first among those with its id, so a
      later lookup of that id finds the merged user. */
  lemma UpdateKeepsFirstMatch(users: seq<User>, id: string, dto: UpdateUserDto)
    requires FirstIndexOf(users, id).Some?
    ensures var i := FirstIndexOf(users, id).value;
      FirstIndexOf(users[i := Merge(users[i], dto)], id) == Some(i)
  {
    var i := FirstIndexOf(users, id).value;
    var updated := users[i := Merge(users[i], dto)];
    assert forall j :: 0 <= j < i ==> updated[j] == users[j];
    FirstIndexIs(updated, id, i);
  }

  /** Appending a user does not change which user an existing id finds; a
      new user is found by its id only when no earlier user has it. */
  lemma AppendLookup(users: seq<User>, u: User, id: string)
    ensures FirstIndexOf(users + [u], id) ==
      if FirstIndexOf(users, id).Some? then FirstIndexOf(users, id)
      else if u.id == id then Some(|users|)
      else None
  {
    var all := users + [u];
    assert forall j :: 0 <= j < |users| ==> all[j] == users[j];
    assert all[|users|] == u;
    match FirstIndexOf(users, id)
    case Some(i) =>
      FirstIndexIs(all, id, i);
    case None =>
      if u.id == id {
        FirstIndexIs(all, id, |users|);
      }
  }

  /** The two users the service starts with; each reads the clock on its
      own, so their creation times may differ. */
  function SeedUsers(johnCreated: int, janeCreated: int): seq<User> {
    [User("1", "John Doe", "john@example.com", johnCreated),
     User("2", "Jane Smith", "jane@example.com", janeCreated)]
  }

  class UsersService {
    var users: seq<User>

    constructor (johnCreated: int, janeCreated: int)
      ensures users == SeedUsers(johnCreated, janeCreated)
    {
      users := SeedUsers(johnCreated, janeCreated);
    }

    /** `findAll`: the whole list, in order. */
    method FindAll() returns (all: seq<User>)
      ensures all == users
    {
      all := users;
    }

    /** `users.findIndex(u => u.id === id)`: the first position, or -1. */
    method FindIndex(id: string) returns (index: int)
      ensures FirstIndexOf(users, id).None? ==> index == -1
      ensures FirstIndexOf(users, id).Some? ==> index == FirstIndexOf(users, id).value
    {
      var i := 0;
      while i < |users|
        invariant 0 <= i <= |users|
        invariant forall j :: 0 <= j < i ==> users[j].id != id
      {
        if users[i].id == id {
          return i;
        }
        i := i + 1;
      }
      return -1;
    }

    /** `findOne`: the first user with `id`, or NotFound. */
    method FindOne(id: string) returns (r: Result<User, NotFound>)
      ensures r.Success? <==> exists j :: 0 <= j < |users| && users[j].id == id
      ensures r.Success? ==> r.value.id == id && r.value in users
      ensures r.Success? ==> r.value == users[FirstIndexOf(users, id).value]
      ensures r.Failure? ==> r.error == NotFoundError(id)
    {
      var index := FindIndex(id);
      if index == -1 {
        return Failure(NotFoundError(id));
      }
      return Success(users[index]);
    }

    /** `create`: appends a user with the given fields; the clock's id and
        timestamp are parameters. */
    method Create(dto: CreateUserDto, id: string, now: int) returns (u: User)
      modifies this
      ensures u == User(id, dto.name, dto.email, now)
      ensures users == old(users) + [u]
    {
      u := User(id, dto.name, dto.email, now);
      users := users + [u];
    }

    /** `update`: merges the update into the first user with `id` in place,
        or throws NotFound and changes nothing. */
    method Update(id: string, dto: UpdateUserDto) returns (r: Result<User, NotFound>)
      modifies this
      ensures match FirstIndexOf(old(users), id)
        case None => r == Failure(NotFoundError(id)) && users == old(users)
        case Some(i) => users == old(users)[i := Merge(old(users)[i], dto)] && r == Success(users[i])
    {
      var index := FindIndex(id);
      if index == -1 {
        return Failure(NotFoundError(id));
      }
      users := users[index := Merge(users[index], dto)];
      return Success(users[index]);
    }

    /** `remove`: splices out the first user with `id`, or throws NotFound
        and changes nothing. */
    method Remove(id: string) returns (r: Result<(), NotFound>)
      modifies this
      ensures match FirstIndexOf(old(users), id)
        case None => r == Failure(NotFoundError(id)) && users == old(users)
        case Some(i) => r == Success(()) && users == RemoveAt(old(users), i)
    {
      var index := FindIndex(id);
      if index == -1 {
        return Failure(NotFoundError(id));
      }
      users := RemoveAt(users, index);
      return Success(());
    }
  }
}
