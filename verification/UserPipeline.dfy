/** The ObjectsUser controller step by step, on the objects it changes. */
module UserPipeline {
  import opened Kube
  import opened TagMaps
  import opened Credentials
  import opened UserApi
  import opened UserService
  import C = UserController

  method IsNotFound(code: int) returns (yes: bool)
    ensures yes <==> code == NOT_FOUND
  {
    yes := code == NOT_FOUND;
  }

  /** What the calls of one pipeline hand on to each other. */
  class ObjectsUserPipeline {
    const api: Service
    const slot: SecretSlot

    constructor (api: Service, slot: SecretSlot)
      ensures this.api == api && this.slot == slot
    {
      this.api, this.slot := api, slot;
    }

    /** `secretReadFails` and the content of the Secret have no influence: the
        error handler of the nested steps drops every error. */
    method Observe(user: ObjectsUser, read: ReadFault, secretReadFails: bool) returns (obs: Observation<int>)
      modifies user
      ensures (user.View(), obs) == C.Observe(old(user.View()), api.users, read)
      ensures api.users == old(api.users) && slot.content == old(slot.content)
    {
      if user.status.userID == "" {
        if user.annotations.Some? && USER_ID_ANNOTATION in user.annotations.value {
          user.status := user.status.(userID := user.annotations.value[USER_ID_ANNOTATION]);
          user.annotations := Some(user.annotations.value - {USER_ID_ANNOTATION});
        } else {
          return Observed(false, false);
        }
      }
      var reply := Get(api.users, user.status.userID, read);
      if reply.GetError? {
        var notFound := IsNotFound(reply.code);
        if notFound {
          return Observed(false, false);
        }
        return ObserveFailed(reply.code);
      }
      var csUser := reply.user;
      var tags := FromTagMap(csUser.tags);
      user.status := user.status.(tags := tags);
      user.status := user.status.(displayName := csUser.displayName);
      var differ := TagsNeedUpdate(user.spec.tags, csUser.tags);
      if differ || GetDisplayName(user.View()) != csUser.displayName {
        return Observed(true, false);
      }
      var failed := ObserveCredentials(user, csUser, secretReadFails);
      if failed {
        return Observed(true, false);
      }
      user.status := user.status.(conditions := SetCondition(user.status.conditions, AVAILABLE));
      return Observed(true, true);
    }

    /** The nested steps with their error handler. */
    method ObserveCredentials(user: ObjectsUser, csUser: CsUser, secretReadFails: bool) returns (failed: bool)
      ensures !failed
    {
      failed := false;
      if user.spec.hasSecretRef {
        failed := secretReadFails || slot.content.None?;
        if !failed {
          var matching := CheckCredentials(slot.content.value.data, csUser.keys);
          failed := !matching;
        }
        if failed {
          failed := ObserveCredentialsHandler();
        }
      }
    }

    method ObserveCredentialsHandler() returns (failed: bool)
      ensures !failed
    {
      failed := false;
    }

    method CreateObjectsUser(user: ObjectsUser, id: string, keys: Keys, fault: CallFault) returns (ok: bool)
      modifies user, api
      ensures (api.users, ok) == CreateUser(old(api.users), id, C.CreateRequest(old(user.View())), keys, fault)
      ensures user.View() == if ok then old(user.View()).(annotations := old(user.View()).annotations[USER_ID_ANNOTATION := id])
                             else old(user.View())
    {
      var tags := ToTagMap(user.spec.tags);
      var (after, made) := CreateUser(api.users, id, Request(GetDisplayName(user.View()), Some(tags)), keys, fault);
      api.users, ok := after, made;
      if ok {
        if user.annotations.None? {
          user.annotations := Some(map[]);
        }
        user.annotations := Some(user.annotations.value[USER_ID_ANNOTATION := id]);
      }
    }

    /** The Secret is written exactly if a user was created just now. */
    method Create(user: ObjectsUser, id: string, keys: Keys, fault: CallFault, secret: CallFault) returns (ok: bool)
      modifies user, api, slot
      ensures C.CreateOutcome(user.View(), api.users, ok)
           == C.Create(old(user.View()), old(api.users), id, keys, fault, secret)
      ensures slot.content ==
        if old(user.status.userID) == "" && fault == Works && user.spec.hasSecretRef
        then Written(old(slot.content), keys, user.name, user.uid, secret)
        else old(slot.content)
    {
      if user.status.userID != "" {
        return true;
      }
      ok := CreateObjectsUser(user, id, keys, fault);
      if ok && user.spec.hasSecretRef {
        ok := EnsureCredentialsSecret(slot, keys, user.name, user.uid, secret);
      }
    }

    method UpdateObjectsUser(user: ObjectsUser, faults: C.UpdateFaults) returns (ok: bool)
      modifies api
      ensures (api.users, ok) == C.UpdateObjectsUser(user.View(), old(api.users), faults)
    {
      var id := user.status.userID;
      var (named, done) := UpdateUser(api.users, id, Request(GetDisplayName(user.View()), None), faults.name);
      api.users, ok := named, done;
      if !ok {
        return;
      }
      var tags := ToTagMap(user.spec.tags);
      var (tagged, done2) := UpdateUser(api.users, id, Request("", Some(tags)), faults.tags);
      api.users, ok := tagged, done2;
    }

    /** The pipeline of Update never fetched the user, so the Secret step has
        no keys to write. */
    method Update(user: ObjectsUser, faults: C.UpdateFaults) returns (ok: bool)
      modifies api, slot
      ensures (api.users, ok) == C.Update(user.View(), old(api.users), faults)
      ensures slot.content ==
        if C.UpdateObjectsUser(user.View(), old(api.users), faults).1 && user.spec.hasSecretRef
        then Written(old(slot.content), None, user.name, user.uid, faults.secret)
        else old(slot.content)
    {
      ok := UpdateObjectsUser(user, faults);
      if ok && user.spec.hasSecretRef {
        ok := EnsureCredentialsSecret(slot, None, user.name, user.uid, faults.secret);
      }
    }

    method Delete(user: ObjectsUser, fault: CallFault) returns (ok: bool)
      modifies api
      ensures (api.users, ok) == C.Delete(user.View(), old(api.users), fault)
    {
      var (after, deleted) := DeleteUser(api.users, user.status.userID, fault);
      api.users, ok := after, deleted;
    }
  }
}
