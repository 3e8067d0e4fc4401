/** What each call of the ObjectsUser controller computes. */
module UserController {
  import opened Kube
  import opened TagMaps
  import opened Credentials
  import opened UserApi
  import opened UserService

  // ---- observe.go

  predicate HasIdAnnotation(u: UserObject) {
    USER_ID_ANNOTATION in u.annotations
  }

  /** The ID that Create left in the annotation moves to status; `None` for a
      resource that has no ID at all. */
  function TakeOver(u: UserObject): Option<UserObject> {
    if u.status.userID != "" then Some(u)
    else if HasIdAnnotation(u) then
      Some(u.(status := u.status.(userID := u.annotations[USER_ID_ANNOTATION]),
              annotations := u.annotations - {USER_ID_ANNOTATION}))
    else None
  }

  predicate Settled(u: UserObject, cs: CsUser) {
    !TagsDiffer(u.spec.tags, cs.tags) && GetDisplayName(u) == cs.displayName
  }

  /** The user has the desired display name and every desired tag, and no tags at
      all if none are desired. */
  predicate AsDesired(u: UserObject, cs: CsUser) {
    && cs.displayName == GetDisplayName(u)
    && u.spec.tags.Items <= cs.tags.Items
    && (u.spec.tags == map[] ==> cs.tags == map[])
  }

  lemma SettledExactly(u: UserObject, cs: CsUser)
    ensures Settled(u, cs) <==> AsDesired(u, cs)
  {
    NoUpdateNeeded(u.spec.tags, cs.tags);
  }

  /** `reply` answers the Get call for the ID in status. */
  function Compare(u: UserObject, reply: GetReply): (UserObject, Observation<int>) {
    match reply
    case GetError(code) => (u, if code == NOT_FOUND then Observed(false, false) else ObserveFailed(code))
    case Got(cs) =>
      var o := u.(status := u.status.(tags := cs.tags, displayName := cs.displayName));
      if !Settled(u, cs) then (o, Observed(true, false))
      else (o.(status := o.status.(conditions := SetCondition(o.status.conditions, AVAILABLE))), Observed(true, true))
  }

  function Observe(u: UserObject, users: Users, read: ReadFault): (UserObject, Observation<int>) {
    match TakeOver(u)
    case None => (u, Observed(false, false))
    case Some(v) => Compare(v, Get(users, v.status.userID, read))
  }

  /** The ID that a resource has, wherever it is kept. */
  function KnownId(u: UserObject): string {
    if u.status.userID != "" then u.status.userID
    else if HasIdAnnotation(u) then u.annotations[USER_ID_ANNOTATION]
    else ""
  }

  lemma TakeOverKeepsName(u: UserObject)
    requires TakeOver(u).Some?
    ensures GetDisplayName(TakeOver(u).value) == GetDisplayName(u)
    ensures TakeOver(u).value.status.userID == KnownId(u)
  {
    AnnotationsDiffer();
  }

  /** The ID in status comes first. Otherwise the one in the annotation moves to
      status and leaves the annotation. Without an ID nothing changes. */
  lemma HandOff(u: UserObject, users: Users, read: ReadFault)
    ensures var (o, key) := (Observe(u, users, read).0, "cloudscale.crossplane.io/user-id");
      && (u.status.userID != "" ==> o.status.userID == u.status.userID == KnownId(u) && o.annotations == u.annotations)
      && (u.status.userID == "" && key in u.annotations ==>
            o.status.userID == u.annotations[key] == KnownId(u) && o.annotations == u.annotations - {key})
      && (u.status.userID == "" && key !in u.annotations ==> o == u && KnownId(u) == "")
      && o == u.(status := o.status, annotations := o.annotations)
  {
  }

  /** The user counts as there exactly if the API returned it, and as up to date
      exactly if it has the desired name and tags; then the resource is ready.
      Status mirrors the user that was returned. The user counts as absent
      exactly if there is no ID or the API answered 404; any other code is an
      error. */
  lemma ObserveReports(u: UserObject, users: Users, read: ReadFault)
    ensures var (o, obs) := Observe(u, users, read); var id := KnownId(u);
      var known := u.status.userID != "" || "cloudscale.crossplane.io/user-id" in u.annotations;
      && (obs == Observed(false, false) <==> !known || Get(users, id, read) == GetError(404))
      && (forall code :: obs == ObserveFailed(code) <==> known && Get(users, id, read) == GetError(code) && code != 404)
      && (obs.Observed? && obs.found <==> known && Get(users, id, read).Got?)
      && (obs.Observed? && obs.found ==>
            && o.status.tags == users[id].tags && o.status.displayName == users[id].displayName
            && (obs.upToDate <==>
                  && users[id].displayName == GetDisplayName(u)
                  && u.spec.tags.Items <= users[id].tags.Items
                  && (u.spec.tags == map[] ==> users[id].tags == map[]))
            && FindCondition(o.status.conditions, Ready)
               == (if obs.upToDate then Some(AVAILABLE) else FindCondition(u.status.conditions, Ready)))
  {
    FindAfterSet(u.status.conditions, AVAILABLE, Ready);
    if TakeOver(u).Some? {
      TakeOverKeepsName(u);
      if KnownId(u) in users {
        SettledExactly(u, users[KnownId(u)]);
      }
    }
  }

  // ---- create.go

  function CreateRequest(u: UserObject): Request {
    Request(GetDisplayName(u), Some(u.spec.tags))
  }

  datatype CreateOutcome = CreateOutcome(user: UserObject, users: Users, ok: bool)

  /** `id` and `keys` are what the service hands out if a user is created. */
  function Create(u: UserObject, users: Users, id: string, keys: Keys, fault: CallFault, secret: CallFault): CreateOutcome {
    if u.status.userID != "" then CreateOutcome(u, users, true)
    else
      var (after, ok) := CreateUser(users, id, CreateRequest(u), keys, fault);
      if !ok then CreateOutcome(u, after, false)
      else CreateOutcome(u.(annotations := u.annotations[USER_ID_ANNOTATION := id]), after,
                         !u.spec.hasSecretRef || secret == Works)
  }

  /** A resource that has an ID gets no other user. Otherwise the request asks
      for one with the desired name and exactly the desired tags; its ID is noted
      if the answer arrives, even when writing the Secret fails, and then Create
      fails as well. */
  lemma CreateEffect(u: UserObject, users: Users, id: string, keys: Keys, fault: CallFault, secret: CallFault)
    requires u.name != ""
    ensures var out := Create(u, users, id, keys, fault, secret);
      && (u.status.userID != "" ==> out == CreateOutcome(u, users, true))
      && (u.status.userID == "" ==>
            && out.users == (if fault == FailsBefore then users
                             else users[id := CsUser(GetDisplayName(u), u.spec.tags, keys)])
            && out.user == (if fault == Works
                            then u.(annotations := u.annotations["cloudscale.crossplane.io/user-id" := id]) else u)
            && (out.ok <==> fault == Works && (u.spec.hasSecretRef ==> secret == Works)))
  {
  }

  // ---- update.go

  datatype UpdateFaults = UpdateFaults(name: CallFault, tags: CallFault, secret: CallFault)

  function NameRequest(u: UserObject): Request {
    Request(GetDisplayName(u), None)
  }

  function TagsRequest(u: UserObject): Request {
    Request("", Some(u.spec.tags))
  }

  /** First the display name, then the tags, each in a request of its own. */
  function UpdateObjectsUser(u: UserObject, users: Users, faults: UpdateFaults): (Users, bool) {
    var (named, ok) := UpdateUser(users, u.status.userID, NameRequest(u), faults.name);
    if !ok then (named, false) else UpdateUser(named, u.status.userID, TagsRequest(u), faults.tags)
  }

  function Update(u: UserObject, users: Users, faults: UpdateFaults): (Users, bool) {
    var (after, ok) := UpdateObjectsUser(u, users, faults);
    (after, ok && (!u.spec.hasSecretRef || faults.secret == Works))
  }

  /** The two partial requests together are the one full request: the user
      gets exactly the desired name and tags, none if none are desired; asking
      again changes nothing, and the next comparison finds no difference. */
  lemma TwoRequestsAreOne(u: UserObject, cs: CsUser)
    requires u.name != ""
    ensures var both := Patch(Patch(cs, NameRequest(u)), TagsRequest(u));
      && both == Patch(cs, CreateRequest(u))
      && both == CsUser(GetDisplayName(u), u.spec.tags, cs.keys)
      && Patch(Patch(both, NameRequest(u)), TagsRequest(u)) == both
      && AsDesired(u, both)
  {
  }

  /** After a failure between the requests nothing that agreed differs. */
  lemma HalfUpdate(u: UserObject, cs: CsUser)
    requires u.name != ""
    ensures var half := Patch(cs, NameRequest(u));
      && half.displayName == GetDisplayName(u) && half.tags == cs.tags
      && (AsDesired(u, cs) ==> AsDesired(u, half))
  {
  }

  /** What is left of every outcome of the two requests: the name goes first, and
      unless that request was answered, the tags stay as they are. The call
      succeeds exactly if both requests do, and the write of the Secret if the
      resource wants one. */
  lemma UpdateExactly(u: UserObject, users: Users, faults: UpdateFaults)
    requires u.name != ""
    ensures var (after, ok) := Update(u, users, faults); var (id, name) := (u.status.userID, GetDisplayName(u));
      && (id !in users || faults.name == FailsBefore ==> after == users)
      && (id in users && (faults.name == FailsAfter || (faults.name == Works && faults.tags == FailsBefore)) ==>
            after == users[id := CsUser(name, users[id].tags, users[id].keys)])
      && (id in users && faults.name == Works && faults.tags != FailsBefore ==>
            after == users[id := CsUser(name, u.spec.tags, users[id].keys)])
      && (ok <==>
            && id in users && faults.name == Works && faults.tags == Works
            && (u.spec.hasSecretRef ==> faults.secret == Works))
  {
  }

  /** Update changes the user with the ID in status only. If its requests
      succeed, that user is as desired; however they fail, one that was stays so. */
  lemma UpdateEffect(u: UserObject, users: Users, faults: UpdateFaults)
    requires u.name != ""
    ensures var (after, ok) := Update(u, users, faults); var id := u.status.userID;
      && after.Keys == users.Keys
      && (forall j :: j in users && j != id ==> after[j] == users[j])
      && (ok ==> id in users && AsDesired(u, after[id]) && after[id].tags == u.spec.tags)
      && (id in users && AsDesired(u, users[id]) ==> AsDesired(u, after[id]))
  {
  }

  // ---- delete.go

  function Delete(u: UserObject, users: Users, fault: CallFault): (Users, bool) {
    DeleteUser(users, u.status.userID, fault)
  }

  /** Success means that the user with the ID in status was there and is gone,
      and a user that is there goes unless the request fails before it took
      effect. No other user is touched. */
  lemma DeleteEffect(u: UserObject, users: Users, fault: CallFault)
    ensures var (after, ok) := Delete(u, users, fault); var id := u.status.userID;
      && (ok ==> id in users && id !in after)
      && (ok <==> id in users && fault == Works)
      && (id in users && fault != FailsBefore ==> id !in after)
      && (fault == FailsBefore ==> after == users)
      && (forall j :: j != id ==> (j in after <==> j in users) && (j in after ==> after[j] == users[j]))
  {
  }
}
