/** The ObjectsUser resource, as a value and as the object the controller changes. */
module UserApi {
  import opened Kube
  import opened TagMaps

  datatype UserSpec = UserSpec(
    displayName: string,
    tags: Tags,
    hasSecretRef: bool,
    orphan: bool)  // spec.deletionPolicy is Orphan

  datatype UserStatus = UserStatus(
    conditions: seq<Condition>,
    userID: string,
    tags: Tags,
    displayName: string)

  const NO_STATUS := UserStatus([], "", map[], "")

  datatype UserObject = UserObject(
    name: string,
    uid: nat,
    annotations: map<string, string>,
    deleting: bool,
    spec: UserSpec,
    status: UserStatus)

  const USER_ID_ANNOTATION := "cloudscale.crossplane.io/user-id"
  const EXTERNAL_NAME_ANNOTATION := "crossplane.io/external-name"

  lemma AnnotationsDiffer()
    ensures USER_ID_ANNOTATION != EXTERNAL_NAME_ANNOTATION
  {
  }

  function ExternalName(u: UserObject): string {
    if EXTERNAL_NAME_ANNOTATION in u.annotations then u.annotations[EXTERNAL_NAME_ANNOTATION] else ""
  }

  function GetDisplayName(u: UserObject): string {
    if u.spec.displayName != "" then u.spec.displayName
    else if ExternalName(u) != "" then ExternalName(u)
    else u.name
  }

  /** The display name is the first of these that is given: the one in spec, the
      external name, `metadata.name`. */
  lemma DisplayNameChain(u: UserObject)
    ensures u.spec.displayName != "" ==> GetDisplayName(u) == u.spec.displayName
    ensures var key := "crossplane.io/external-name";
      && (u.spec.displayName == "" && key in u.annotations && u.annotations[key] != "" ==>
            GetDisplayName(u) == u.annotations[key])
      && (u.spec.displayName == "" && !(key in u.annotations && u.annotations[key] != "") ==>
            GetDisplayName(u) == u.name)
  {
  }

  /** The ObjectsUser struct the controller holds a pointer to. */
  class ObjectsUser {
    const name: string
    const uid: nat
    const deleting: bool
    var annotations: Option<map<string, string>>  // None is Go's nil map
    var spec: UserSpec
    var status: UserStatus

    constructor (u: UserObject)
      ensures View() == u
    {
      name, uid, deleting := u.name, u.uid, u.deleting;
      annotations, spec, status := Some(u.annotations), u.spec, u.status;
    }

    function View(): UserObject
      reads this
    {
      UserObject(name, uid, if annotations.None? then map[] else annotations.value, deleting, spec, status)
    }
  }
}

/** The part of the cloudscale.ch API that manages objects users. */
module UserService {
  import opened Kube
  import opened TagMaps
  import opened Credentials

  datatype CsUser = CsUser(displayName: string, tags: Tags, keys: Keys)

  type Users = map<string, CsUser>

  /** An empty name or absent tags are not sent and leave the field alone. */
  datatype Request = Request(displayName: string, tags: Option<Tags>)

  datatype GetReply = Got(user: CsUser) | GetError(code: int)

  const NOT_FOUND := 404

  function Patch(u: CsUser, r: Request): CsUser {
    CsUser(if r.displayName == "" then u.displayName else r.displayName,
           if r.tags.None? then u.tags else r.tags.value,
           u.keys)
  }

  function Get(users: Users, id: string, fault: ReadFault): GetReply {
    match fault
    case Fails(code) => GetError(code)
    case Answers => if id in users then Got(users[id]) else GetError(NOT_FOUND)
  }

  /** The service chooses `id` and `keys`; display names may repeat. */
  function CreateUser(users: Users, id: string, r: Request, keys: Keys, fault: CallFault): (Users, bool) {
    if fault == FailsBefore then (users, false)
    else (users[id := Patch(CsUser("", map[], keys), r)], fault == Works)
  }

  function UpdateUser(users: Users, id: string, r: Request, fault: CallFault): (Users, bool) {
    if id !in users || fault == FailsBefore then (users, false)
    else (users[id := Patch(users[id], r)], fault == Works)
  }

  function DeleteUser(users: Users, id: string, fault: CallFault): (Users, bool) {
    if id !in users || fault == FailsBefore then (users, false)
    else (users - {id}, fault == Works)
  }

  class Service {
    var users: Users

    constructor (users: Users)
      ensures this.users == users
    {
      this.users := users;
    }
  }
}
