/**
 * The persistence layer as in-memory collections: the `users`, `doors` and
 * `accesslogs` collections, with the lookups the route handlers perform.
 */
module Store {
  import opened Model

  /** A snapshot of the three collections. */
  datatype World = World(users: seq<User>, doors: seq<Door>, logs: seq<AccessEvent>)

  /** The user collection after a request, with the reply. */
  datatype Outcome<R> = Outcome(users: seq<User>, reply: R)

  /** All three collections after a request, with the reply. */
  datatype Effect<R> = Effect(world: World, reply: R)

  class Store {
    var users: seq<User>
    var doors: seq<Door>
    var logs: seq<AccessEvent>

    constructor (users0: seq<User>, doors0: seq<Door>)
      ensures users == users0 && doors == doors0 && logs == []
    {
      users, doors, logs := users0, doors0, [];
    }

    function Snapshot(): World
      reads this
    {
      World(users, doors, logs)
    }
  }

  /** `User.findById(id)`: the position of the user document with that id. */
  function FindUser(users: seq<User>, id: Id): (r: Option<nat>)
    ensures r.Some? ==> r.value < |users| && users[r.value].id == id
    ensures r.Some? ==> forall j :: 0 <= j < r.value ==> users[j].id != id
    ensures r.None? <==> forall j :: 0 <= j < |users| ==> users[j].id != id
  {
    IndexWhere(users, (u: User) => u.id == id)
  }

  /** `User.findOne({ email })`. */
  function FindUserByEmail(users: seq<User>, email: string): (r: Option<nat>)
    ensures r.Some? ==> r.value < |users| && users[r.value].email == email
    ensures r.Some? ==> forall j :: 0 <= j < r.value ==> users[j].email != email
    ensures r.None? <==> forall j :: 0 <= j < |users| ==> users[j].email != email
  {
    IndexWhere(users, (u: User) => u.email == email)
  }

  /** `Door.findById(id)`. */
  function FindDoor(doors: seq<Door>, id: Id): (r: Option<nat>)
    ensures r.Some? ==> r.value < |doors| && doors[r.value].id == id
    ensures r.None? <==> forall j :: 0 <= j < |doors| ==> doors[j].id != id
  {
    IndexWhere(doors, (d: Door) => d.id == id)
  }

  /** An id no stored user carries, as MongoDB assigns to a new document. */
  function FreshUserId(users: seq<User>): (r: Id)
    ensures forall j :: 0 <= j < |users| ==> users[j].id < r
  {
    if |users| == 0 then 0
    else
      var rest := FreshUserId(users[1..]);
      assert forall j :: 1 <= j < |users| ==> users[j] == users[1..][j - 1];
      if users[0].id < rest then rest else users[0].id + 1
  }
}
