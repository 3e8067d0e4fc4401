/** The credentials Secret, written by the ObjectsUser controller and read by
    the Bucket controller. */
module Credentials {
  import opened Kube

  /** Go maps can be nil. */
  type NilableMap = Option<map<string, string>>

  type SecretData = NilableMap

  /** The keys of a user as the API returns them: the list and each of its
      entries can be nil. */
  type Keys = Option<seq<NilableMap>>

  const ACCESS_KEY_ID := "AWS_ACCESS_KEY_ID"
  const SECRET_ACCESS_KEY := "AWS_SECRET_ACCESS_KEY"

  function ValueOrEmpty(m: map<string, string>, key: string): string {
    if key in m then m[key] else ""
  }

  predicate HasFirstKey(keys: Keys) {
    keys.Some? && keys.value != [] && keys.value[0].Some?
  }

  /** The access key and the secret key of the first entry, or nothing. */
  function ToConnectionDetails(keys: Keys): map<string, string> {
    if !HasFirstKey(keys) then map[]
    else
      var first := keys.value[0].value;
      map[ACCESS_KEY_ID := ValueOrEmpty(first, "access_key"),
          SECRET_ACCESS_KEY := ValueOrEmpty(first, "secret_key")]
  }

  predicate Filled(data: map<string, string>, key: string) {
    key in data && data[key] != ""
  }

  /** What the Bucket controller asks of a Secret. */
  predicate ValidSecret(data: SecretData) {
    data.Some? && Filled(data.value, ACCESS_KEY_ID) && Filled(data.value, SECRET_ACCESS_KEY)
  }

  // ---- writing the Secret

  datatype SecretObject = SecretObject(labels: map<string, string>, data: SecretData, owners: set<nat>)

  const EMPTY_SECRET := SecretObject(map[], None, {})

  const GROUP := "cloudscale.crossplane.io"

  function GetCommonLabels(instance: string): map<string, string> {
    map["app.kubernetes.io/instance" := instance,
        "app.kubernetes.io/managed-by" := GROUP,
        "app.kubernetes.io/created-by" := "controller-objectsuser"]
  }

  function OrEmpty(m: NilableMap): map<string, string> {
    if m.None? then map[] else m.value
  }

  /** The Secret after the labels, the credentials and the owner were added. */
  function Ensured(s: SecretObject, keys: Keys, instance: string, owner: nat): SecretObject {
    SecretObject(
      s.labels + GetCommonLabels(instance),
      Some(OrEmpty(s.data) + ToConnectionDetails(keys)),
      s.owners + {owner})
  }

  /** The credentials in the Secret are those of the user. */
  predicate Matches(data: SecretData, keys: Keys) {
    var details := ToConnectionDetails(keys);
    && OrEmpty(data) != map[]
    && forall k :: k in details ==> k in OrEmpty(data) && OrEmpty(data)[k] == details[k]
  }

  /** The Secret struct while it is being changed. */
  class Secret {
    var labels: NilableMap
    var data: NilableMap
    var owners: set<nat>

    constructor (s: SecretObject)
      ensures View() == s
    {
      labels, data, owners := Some(s.labels), s.data, s.owners;
    }

    function View(): SecretObject
      reads this
    {
      SecretObject(OrEmpty(labels), data, owners)
    }

    method SetData(details: map<string, string>)
      requires data.Some?
      modifies this`data
      ensures data == Some(old(data).value + details)
    {
      ghost var before := data.value;
      var rest := details.Keys;
      while rest != {}
        invariant rest <= details.Keys && data.Some?
        invariant data.value.Keys == before.Keys + (details.Keys - rest)
        invariant forall k :: k in data.value ==>
          data.value[k] == if k in details && k !in rest then details[k] else before[k]
      {
        var k :| k in rest;
        data := Some(data.value[k := details[k]]);
        rest := rest - {k};
      }
      assert data.value == before + details;
    }

    method Ensure(keys: Keys, instance: string, owner: nat)
      modifies this
      ensures View() == Ensured(old(View()), keys, instance, owner)
    {
      labels := Some(OrEmpty(labels) + GetCommonLabels(instance));
      if data.None? {
        data := Some(map[]);
      }
      SetData(ToConnectionDetails(keys));
      owners := owners + {owner};
    }
  }

  /** The Secret in the cluster, if there is one. */
  class SecretSlot {
    var content: Option<SecretObject>
  }

  function ContentOrEmpty(content: Option<SecretObject>): SecretObject {
    if content.None? then EMPTY_SECRET else content.value
  }

  /** What is in the cluster after an attempt to ensure the credentials. */
  function Written(content: Option<SecretObject>, keys: Keys, instance: string, owner: nat, fault: CallFault)
    : Option<SecretObject>
  {
    if fault == FailsBefore then content else Some(Ensured(ContentOrEmpty(content), keys, instance, owner))
  }

  /** Reads the Secret or starts a new one, changes it and writes it back. */
  method EnsureCredentialsSecret(slot: SecretSlot, keys: Keys, instance: string, owner: nat, fault: CallFault)
    returns (ok: bool)
    modifies slot
    ensures ok <==> fault == Works
    ensures slot.content == Written(old(slot.content), keys, instance, owner, fault)
    ensures fault == FailsBefore ==> slot.content == old(slot.content)
    ensures fault != FailsBefore ==>
      slot.content == Some(Ensured(ContentOrEmpty(old(slot.content)), keys, instance, owner))
  {
    var secret := new Secret(ContentOrEmpty(slot.content));
    secret.Ensure(keys, instance, owner);
    if fault == FailsBefore {
      return false;
    }
    slot.content := Some(secret.View());
    return fault == Works;
  }

  method CheckCredentials(data: SecretData, keys: Keys) returns (ok: bool)
    ensures ok == Matches(data, keys)
  {
    if |OrEmpty(data)| == 0 {
      return false;
    }
    var details := ToConnectionDetails(keys);
    var rest := details.Keys;
    while rest != {}
      invariant rest <= details.Keys
      invariant forall k :: k in details && k !in rest ==> k in OrEmpty(data) && OrEmpty(data)[k] == details[k]
    {
      var k :| k in rest;
      if k !in OrEmpty(data) || OrEmpty(data)[k] != details[k] {
        return false;
      }
      rest := rest - {k};
    }
    return true;
  }

  // ---- what the Secret holds

  /** A write puts the access key and the secret key of the first entry under
      the names that the Bucket controller reads, an absent one as the empty
      string. All other data stay, and without a first entry all data do. */
  lemma EnsuredKeys(s: SecretObject, keys: Keys, instance: string, owner: nat)
    ensures var data := Ensured(s, keys, instance, owner).data;
      var (id, secret) := ("AWS_ACCESS_KEY_ID", "AWS_SECRET_ACCESS_KEY");
      var given := keys.Some? && |keys.value| > 0 && keys.value[0].Some?;
      && data.Some?
      && (given ==>
            var first := keys.value[0].value;
            && id in data.value && secret in data.value
            && data.value[id] == (if "access_key" in first then first["access_key"] else "")
            && data.value[secret] == (if "secret_key" in first then first["secret_key"] else ""))
      && (forall k :: !(given && (k == id || k == secret)) ==>
            && (k in data.value <==> s.data.Some? && k in s.data.value)
            && (k in data.value ==> data.value[k] == s.data.value[k]))
  {
  }

  /** A write adds the three common labels and the owner, and takes none away. */
  lemma EnsuredMeta(s: SecretObject, keys: Keys, instance: string, owner: nat)
    ensures var e := Ensured(s, keys, instance, owner);
      && e.labels == s.labels
           ["app.kubernetes.io/instance" := instance]
           ["app.kubernetes.io/managed-by" := "cloudscale.crossplane.io"]
           ["app.kubernetes.io/created-by" := "controller-objectsuser"]
      && e.owners == s.owners + {owner}
  {
  }

  /** The check fails exactly if there are no data, or if a key of the first
      entry is missing in them or has another value. */
  lemma MatchesExactly(data: SecretData, keys: Keys)
    ensures var (id, secret) := ("AWS_ACCESS_KEY_ID", "AWS_SECRET_ACCESS_KEY");
      !Matches(data, keys) <==>
        || data.None? || data.value == map[]
        || (keys.Some? && |keys.value| > 0 && keys.value[0].Some?
            && var first := keys.value[0].value;
               || id !in data.value
               || data.value[id] != (if "access_key" in first then first["access_key"] else "")
               || secret !in data.value
               || data.value[secret] != (if "secret_key" in first then first["secret_key"] else ""))
  {
  }

  // ---- agreement of the controllers

  /** Data and labels of others stay, and writing twice is writing once. */
  lemma EnsureIsGentle(s: SecretObject, keys: Keys, instance: string, owner: nat)
    ensures var e := Ensured(s, keys, instance, owner); var details := ToConnectionDetails(keys);
      && (forall k :: k in OrEmpty(s.data) && k !in details ==> k in e.data.value && e.data.value[k] == s.data.value[k])
      && (forall k :: k in s.labels && k !in GetCommonLabels(instance) ==> k in e.labels && e.labels[k] == s.labels[k])
      && s.owners <= e.owners
      && Ensured(e, keys, instance, owner) == e
  {
    var e := Ensured(s, keys, instance, owner);
    assert e.data.value + ToConnectionDetails(keys) == e.data.value;
    assert e.labels + GetCommonLabels(instance) == e.labels;
  }

  /** A write that knows no user, like the one of every Update, leaves the
      credentials of the Secret as they are. */
  lemma NoUserNoKeys(s: SecretObject, instance: string, owner: nat)
    ensures OrEmpty(Ensured(s, None, instance, owner).data) == OrEmpty(s.data)
  {
  }

  /** After a write the check of the ObjectsUser controller succeeds exactly
      when there is any data at all. */
  lemma EnsuredMatches(s: SecretObject, keys: Keys, instance: string, owner: nat)
    ensures var e := Ensured(s, keys, instance, owner);
      Matches(e.data, keys) <==> e.data.value != map[]
  {
  }

  /** After a write the Bucket controller accepts the Secret exactly when the
      first key entry of the user holds both keys; without an entry, exactly
      when it accepted the Secret before. */
  lemma EnsuredValid(s: SecretObject, keys: Keys, instance: string, owner: nat)
    ensures var e := Ensured(s, keys, instance, owner);
      ValidSecret(e.data) <==>
        if HasFirstKey(keys) then
          Filled(keys.value[0].value, "access_key") && Filled(keys.value[0].value, "secret_key")
        else ValidSecret(s.data)
  {
  }
}
