/**
 * Routing of informer notifications to queue keys (pkg/controller/controller.go):
 * FunctionIngress updates are filtered by a spec diff, and a deleted
 * Ingress leads back to its owning FunctionIngress.
 */
module EventRouter {
  import opened Wrappers
  import opened Meta
  import opened IngressTypes
  import opened Networking
  import opened Snapshot
  import LegacySynth
  import opened Converge

  /** What an informer hands to a handler. */
  datatype Payload =
    | FunctionIngressObject(fni: FunctionIngress)
    | IngressObject(ingress: Ingress)
    | Tombstone(key: string, obj: Payload)   // a delete whose final state was missed
    | Foreign                                // any other type

  /** The object metadata of a payload that is a Kubernetes object. */
  function MetaOf(p: Payload): Option<ObjectMeta>
  {
    match p
    case FunctionIngressObject(fni) => Some(fni.meta)
    case IngressObject(ing) => Some(ing.meta)
    case _ => None
  }

  /** cache.MetaNamespaceKeyFunc: the queue key of an object, none for other payloads. */
  function ObjectKey(p: Payload): (k: Option<string>)
    ensures p.FunctionIngressObject? ==> k == Some(KeyString(p.fni.meta))
    ensures p.IngressObject? ==> k == Some(KeyString(p.ingress.meta))
    ensures p.Tombstone? || p.Foreign? ==> k.None?
  {
    match MetaOf(p)
    case Some(m) => Some(KeyString(m))
    case None => None
  }

  /** The UpdateFunc filter: only a FunctionIngress whose spec changed is enqueued. */
  function UpdateKey(oldObj: Payload, newObj: Payload): (k: Option<string>)
    ensures k.Some? <==> oldObj.FunctionIngressObject? && newObj.FunctionIngressObject? && oldObj.fni.spec != newObj.fni.spec
    ensures k.Some? ==> k.value == KeyString(newObj.fni.meta)
  {
    if oldObj.FunctionIngressObject? && newObj.FunctionIngressObject? && oldObj.fni.spec != newObj.fni.spec
    then ObjectKey(newObj)
    else None
  }

  /** The metadata handleObject recovers: from the object itself, or from a tombstone's object. */
  function DeletedMeta(p: Payload): Option<ObjectMeta>
  {
    match p
    case Tombstone(_, inner) => MetaOf(inner)
    case _ => MetaOf(p)
  }

  /**
   * handleObject: the key of the FunctionIngress that controls the deleted
   * object, if the controller reference names that kind and the owner is
   * still cached; lookup errors mean the owner is gone.
   */
  function OwnerToEnqueue(functions: Lister<FunctionIngress>, p: Payload): (k: Option<string>)
    ensures k.Some? ==>
      && DeletedMeta(p).Some?
      && GetControllerOf(DeletedMeta(p).value).Some?
      && GetControllerOf(DeletedMeta(p).value).value.kind == LegacySynth.FaasIngressKind
    ensures k.Some? ==>
      var m := DeletedMeta(p).value;
      var owner := Get(functions, Key(m.namespace, GetControllerOf(m).value.name));
      owner.Found? && k.value == KeyString(owner.obj.meta)
  {
    match DeletedMeta(p)
    case None => None
    case Some(m) =>
      match GetControllerOf(m)
      case None => None
      case Some(ref) =>
        if ref.kind != LegacySynth.FaasIngressKind then None
        else
          match Get(functions, Key(m.namespace, ref.name))
          case Found(owner) => Some(KeyString(owner.meta))
          case _ => None
  }

  /** An enqueue from a deletion happens exactly when the owner is a cached FunctionIngress. */
  lemma OwnerToEnqueueCases(functions: Lister<FunctionIngress>, p: Payload)
    ensures OwnerToEnqueue(functions, p).Some? <==>
      && DeletedMeta(p).Some?
      && GetControllerOf(DeletedMeta(p).value).Some?
      && GetControllerOf(DeletedMeta(p).value).value.kind == LegacySynth.FaasIngressKind
      && Get(functions, Key(DeletedMeta(p).value.namespace, GetControllerOf(DeletedMeta(p).value).value.name)).Found?
  {
  }

  /** With a well-keyed cache, the key enqueued is the deleted object's namespace with the owner's name. */
  lemma {:induction false} OwnerToEnqueueIsOwnerKey(functions: Lister<FunctionIngress>, p: Payload)
    requires FunctionsWellKeyed(functions)
    ensures var k := OwnerToEnqueue(functions, p);
      k.Some? ==> k.value == KeyString(DeletedMeta(p).value.(name := GetControllerOf(DeletedMeta(p).value).value.name))
  {
    var k := OwnerToEnqueue(functions, p);
    if k.Some? {
      var m := DeletedMeta(p).value;
      var key := Key(m.namespace, GetControllerOf(m).value.name);
      assert key in functions.objects && key !in functions.errors;
    }
  }

  /**
   * Self-healing: when an Ingress the create path built is deleted while its
   * FunctionIngress is still cached, the owner's key is enqueued and the next
   * run for it creates the same Ingress again.
   */
  lemma {:induction false} DeletedIngressIsRecreated(rev: Revision, codec: Codec, functions: Lister<FunctionIngress>,
                                 ingresses: Lister<Ingress>, fni: FunctionIngress)
    requires FunctionsWellKeyed(functions)
    requires '/' !in fni.meta.namespace && '/' !in fni.meta.name
    requires Get(functions, OwnerKey(fni)) == Found(fni)
    requires Get(ingresses, OwnerKey(fni)).NotFound?
    ensures var deleted := NewIngress(rev, codec, fni, fni.meta.namespace, fni.meta.name);
      var k := OwnerToEnqueue(functions, IngressObject(deleted));
      && k == Some(KeyString(fni.meta))
      && Decide(rev, codec, functions, ingresses, k.value)
         == Create(fni.meta.namespace, deleted, OwnerKey(fni))
  {
    var deleted := NewIngress(rev, codec, fni, fni.meta.namespace, fni.meta.name);
    var refs := LegacySynth.MakeOwnerRef(fni);
    var ref := OwnerReference(LegacySynth.FaasIngressKind, fni.meta.name, fni.meta.uid, true);
    assert deleted.meta.ownerReferences == refs;
    assert GetControllerOf(deleted.meta) == GetControllerOf(EmptyMeta.(ownerReferences := refs)) == Some(ref);
    assert DeletedMeta(IngressObject(deleted)) == Some(deleted.meta);
    assert Key(deleted.meta.namespace, ref.name) == OwnerKey(fni);
    var k := OwnerToEnqueue(functions, IngressObject(deleted));
    assert k == Some(KeyString(fni.meta));
    SplitKeyString(fni.meta);
    assert SplitKey(k.value) == Success(OwnerKey(fni));
    assert DecideFound(rev, codec, ingresses, OwnerKey(fni), fni) == Create(fni.meta.namespace, deleted, OwnerKey(fni));
  }
}
