/** The secrets of a namespace, and how the controller fills and deletes the secret of a credential. */
module Secrets {
  import opened Common
  import opened Credentials

  /** GetControllerOf */
  method GetControllerOf(refs: seq<OwnerReference>) returns (controller: Option<nat>)
    ensures controller == ControllerOf(refs)
  {
    for i := 0 to |refs|
      invariant ControllerOf(refs) == ControllerOf(refs[i..])
    {
      if refs[i].controller.Some? && refs[i].controller.value == true {
        return Some(refs[i].uid);
      }
      assert refs[i..][1..] == refs[i + 1..];
    }
    return None;
  }

  /** A controller reference is what ControllerOf finds, whatever other owners there are before it. */
  lemma {:induction false} ControllerIsFirst(refs: seq<OwnerReference>, i: nat)
    requires i < |refs| && refs[i].controller == Some(true)
    requires forall j :: 0 <= j < i ==> refs[j].controller != Some(true)
    ensures ControllerOf(refs) == Some(refs[i].uid)
  {
    if i > 0 {
      ControllerIsFirst(refs[1..], i - 1);
    }
  }

  /** Without a controller reference there is no controller. */
  lemma {:induction false} NoController(refs: seq<OwnerReference>)
    requires forall i :: 0 <= i < |refs| ==> refs[i].controller != Some(true)
    ensures ControllerOf(refs) == None
  {
    if refs != [] {
      NoController(refs[1..]);
    }
  }

  /** The loop that serializes the broker's credentials, in any order, and gives up at the first failure. */
  method SerializePayload(p: Payload) returns (data: Option<map<Name, string>>)
    ensures data == SerializeAll(p)
  {
    var done: map<Name, string> := map[];
    var keys := p.Keys;
    while keys != {}
      invariant keys <= p.Keys && done.Keys == p.Keys - keys
      invariant forall k :: k in done ==> Serialize(p[k]) == Some(done[k])
    {
      var k :| k in keys;
      var text := Serialize(p[k]);
      if text.None? {
        return None;
      }
      done := done[k := text.value];
      keys := keys - {k};
    }
    assert done == map k | k in p :: Serialize(p[k]).value;
    return Some(done);
  }

  /** The secrets of one namespace, with the outcomes its operations will have in this pass. */
  class SecretStore {
    var secrets: map<Name, Secret>
    const getFails: bool
    const write: SecretWrite

    constructor (secrets: map<Name, Secret>, getFails: bool, write: SecretWrite)
      ensures this.secrets == secrets && this.getFails == getFails && this.write == write
    {
      this.secrets := secrets;
      this.getFails := getFails;
      this.write := write;
    }

    function Slot(name: Name): Option<Secret>
      reads this
    {
      if name in secrets then Some(secrets[name]) else None
    }

    /** Creates or overwrites a secret; it may do so without the caller hearing of it. */
    method Put(name: Name, secret: Secret) returns (ok: bool)
      modifies this
      ensures secrets == if write.NotWritten? then old(secrets) else old(secrets)[name := secret]
      ensures ok == write.Written?
    {
      if !write.NotWritten? {
        secrets := secrets[name := secret];
      }
      return write.Written?;
    }

    /** injectServiceInstanceCredential: only the credential's own secret changes, and only if it controls it. */
    method InjectCredential(name: Name, uid: nat, p: Payload) returns (ok: bool)
      modifies this
      ensures (Slot(name), ok) == Inject(old(Slot(name)), uid, p, getFails, write)
      ensures forall other :: other != name ==> Slot(other) == old(Slot(other))
    {
      var data := SerializePayload(p);
      if data.None? {
        return false;
      }
      if getFails {
        return false;
      }
      if name in secrets {
        var existing := secrets[name];
        var controller := GetControllerOf(existing.owners);
        if controller.None? || controller.value != uid {
          return false;
        }
        ok := Put(name, existing.(data := data.value));
      } else {
        ok := Put(name, Secret([OwnerReference(uid, Some(true))], data.value));
      }
    }

    /** ejectServiceInstanceCredential: deletes by name; an absent secret counts as deleted. */
    method EjectCredential(name: Name) returns (ok: bool)
      modifies this
      ensures (Slot(name), ok) == Eject(old(Slot(name)), write)
      ensures forall other :: other != name ==> Slot(other) == old(Slot(other))
    {
      if !write.NotWritten? {
        secrets := secrets - {name};
      }
      return write.Written?;
    }
  }
}
