/**
 * The controller object: its caches, its work queue, and the log of the
 * writes it sends to the API server and the events it records. Its methods
 * are the sync handler, one worker step and the informer handlers.
 */
module IngressController {
  import opened Wrappers
  import opened Meta
  import opened IngressTypes
  import opened Networking
  import opened Snapshot
  import LegacySynth
  import opened Converge
  import opened EventRouter
  import opened WorkQueue

  /** What one pass of the worker loop ends in. */
  datatype WorkerStep = Continue | Shutdown | Panic

  /** Whether the worker forgets an item's backoff after handling it. */
  predicate Forgets(item: Item, result: HandlerResult)
  {
    item.Foreign? || result == Returned(None)
  }

  class Controller {
    const revision: Revision
    const codec: Codec
    const queue: Queue
    var functions: Lister<FunctionIngress>
    var ingresses: Lister<Ingress>
    var writes: seq<Write>
    var events: seq<Event>

    constructor (revision: Revision, codec: Codec, functions: Lister<FunctionIngress>, ingresses: Lister<Ingress>)
      ensures this.revision == revision && this.codec == codec
      ensures this.functions == functions && this.ingresses == ingresses
      ensures writes == [] && events == []
      ensures fresh(queue) && queue.Valid() && queue.items == [] && !queue.shuttingDown
      ensures queue.dirty == {} && queue.processing == {} && queue.failures == map[]
      ensures queue.delayed == [] && queue.forgotten == []
    {
      this.revision := revision;
      this.codec := codec;
      this.functions := functions;
      this.ingresses := ingresses;
      writes, events := [], [];
      queue := new Queue();
    }

    /**
     * Converges the Ingress of one key. `apiErr` is the API server's answer
     * to the create or update, if one is sent.
     */
    method SyncHandler(key: string, apiErr: Option<string>) returns (result: HandlerResult)
      modifies this`writes, this`events
      ensures var d := Decide(revision, codec, functions, ingresses, key);
        && result == Outcome(d, apiErr)
        && writes == old(writes) + WritesOf(d)
        && events == old(events) + EventsOf(d, apiErr)
    {
      var split := SplitKey(key);
      if split.Failure? {
        return Returned(None);
      }
      var k := split.value;

      var lookup := Get(functions, k);
      if lookup.NotFound? {
        return Returned(None);
      } else if lookup.Failed? {
        return Returned(Some(ListerError(lookup.err)));
      }
      result := SyncFound(k, lookup.obj, apiErr);
    }

    /** The handler from the FunctionIngress lookup on. */
    method SyncFound(k: Key, fni: FunctionIngress, apiErr: Option<string>) returns (result: HandlerResult)
      modifies this`writes, this`events
      ensures var d := DecideFound(revision, codec, ingresses, k, fni);
        && result == Outcome(d, apiErr)
        && writes == old(writes) + WritesOf(d)
        && events == old(events) + EventsOf(d, apiErr)
    {
      var ingressLookup := Get(ingresses, Key(k.namespace, fni.meta.name));
      var createIngress := ingressLookup.NotFound?;

      if createIngress {
        var newIngress := BuildNewIngress(fni, k.namespace, k.name);
        writes := writes + [CreateWrite(k.namespace, newIngress)];
        // a failed create is only logged
        events := events + [Synced(OwnerKey(fni))];
        return Returned(None);
      }

      if ingressLookup.Failed? {
        // no Ingress came back, and its annotations are read regardless
        return Panicked;
      }
      result := SyncExisting(k.namespace, ingressLookup.obj, fni, apiErr);
    }

    /** The handler once the existing Ingress is in hand: decode, compare, update. */
    method SyncExisting(namespace: string, ingress: Ingress, fni: FunctionIngress, apiErr: Option<string>) returns (result: HandlerResult)
      modifies this`writes, this`events
      ensures var d := DecideExisting(revision, codec, namespace, ingress, fni);
        && result == Outcome(d, apiErr)
        && writes == old(writes) + WritesOf(d)
        && events == old(events) + EventsOf(d, apiErr)
    {
      var previous := ZeroFunctionIngress;
      if LegacySynth.SpecKey in ingress.meta.annotations && |ingress.meta.annotations[LegacySynth.SpecKey]| > 0 {
        var decoded := codec.decode(ingress.meta.annotations[LegacySynth.SpecKey]);
        if decoded.Failure? {
          return Returned(Some(UnmarshalError(decoded.error)));
        }
        previous := decoded.value;
      }

      if LegacySynth.IngressNeedsUpdate(previous, fni) {
        if previous.meta.name != fni.meta.name {
          return Returned(Some(RenameError));
        }
        var updated := BuildUpdatedIngress(ingress, fni);
        writes := writes + [UpdateWrite(namespace, updated)];
        if apiErr.Some? {
          return Returned(Some(UpdateError(apiErr.value)));
        }
      }

      events := events + [Synced(OwnerKey(fni))];
      return Returned(None);
    }

    /** The create path's Ingress: named after the key, owned by the FunctionIngress. */
    method BuildNewIngress(fni: FunctionIngress, namespace: string, name: string) returns (newIngress: Ingress)
      ensures newIngress == NewIngress(revision, codec, fni, namespace, name)
    {
      var rules := Rules(revision, fni);
      var tls := TLS(revision, fni);
      var annotations := LegacySynth.MakeAnnotations(codec, fni);
      newIngress := Ingress(
        ObjectMeta(name, namespace, "", annotations, map[], LegacySynth.MakeOwnerRef(fni)),
        IngressSpec(rules, tls));
    }

    /** The update path's deep copy, with merged annotations and new rules and TLS. */
    method BuildUpdatedIngress(ingress: Ingress, fni: FunctionIngress) returns (updated: Ingress)
      ensures updated == UpdatedIngress(revision, codec, ingress, fni)
    {
      updated := ingress;
      var rules := Rules(revision, fni);
      var annotations := LegacySynth.MakeAnnotations(codec, fni);
      var merged := MergeAnnotations(updated.meta.annotations, annotations);
      updated := updated.(meta := updated.meta.(annotations := merged));
      updated := updated.(spec := updated.spec.(rules := rules));
      updated := updated.(spec := updated.spec.(tls := TLS(revision, fni)));
    }

    /**
     * One pass of the worker loop: take an item, hand a key to the sync
     * handler, forget the item's backoff when it is not a key or its sync
     * succeeded, and release it. A failed sync is neither forgotten nor
     * added again here.
     */
    method ProcessNextWorkItem(apiErr: Option<string>) returns (step: WorkerStep)
      requires queue.Valid()
      requires |queue.items| > 0 || queue.shuttingDown
      modifies queue, this`writes, this`events
      ensures queue.Valid()
      ensures step == Shutdown <==> old(|queue.items|) == 0
      ensures old(|queue.items|) == 0 ==>
        && queue.items == old(queue.items) && queue.dirty == old(queue.dirty)
        && queue.processing == old(queue.processing) && queue.failures == old(queue.failures)
        && queue.forgotten == old(queue.forgotten)
        && writes == old(writes) && events == old(events)
      ensures old(|queue.items|) > 0 ==>
        var item := old(queue.items[0]);
        var result := if item.KeyItem? then Outcome(Decide(revision, codec, functions, ingresses, item.key), apiErr)
                      else Returned(None);
        && queue.items == old(queue.items[1..])
        && queue.dirty == old(queue.dirty) - {item}
        && queue.processing == old(queue.processing)
        && queue.forgotten == old(queue.forgotten) + (if Forgets(item, result) then [item] else [])
        && queue.failures == (if Forgets(item, result) then old(queue.failures) - {item} else old(queue.failures))
        && writes == old(writes) + (if item.KeyItem? then WritesOf(Decide(revision, codec, functions, ingresses, item.key)) else [])
        && events == old(events) + (if item.KeyItem? then EventsOf(Decide(revision, codec, functions, ingresses, item.key), apiErr) else [])
        && step == (if result.Panicked? then Panic else Continue)
      ensures queue.delayed == old(queue.delayed) && queue.shuttingDown == old(queue.shuttingDown)
    {
      var obj := queue.Get();
      if obj.None? {
        return Shutdown;
      }
      var item := obj.value;

      if item.Foreign? {
        queue.Forget(item);
        queue.Done(item);
        return Continue;
      }

      var result := SyncHandler(item.key, apiErr);
      if result == Returned(None) {
        queue.Forget(item);
      }
      queue.Done(item);
      step := if result.Panicked? then Panic else Continue;
    }

    /** enqueueFunction: a rate-limited add of the object's key, if it has one. */
    method EnqueueFunction(p: Payload)
      modifies queue`failures, queue`delayed
      ensures EnqueuedIfSome(ObjectKey(p))
    {
      EnqueueKey(ObjectKey(p));
    }

    /** The queue change a rate-limited add of `k` makes, if `k` is present. */
    twostate predicate EnqueuedIfSome(k: Option<string>)
      reads this, queue
    {
      && (k.None? ==> queue.failures == old(queue.failures) && queue.delayed == old(queue.delayed))
      && (k.Some? ==>
            && queue.failures == old(queue.failures)[KeyItem(k.value) := FailureCount(old(queue.failures), KeyItem(k.value)) + 1]
            && queue.delayed == old(queue.delayed)
                                + (if queue.shuttingDown || KeyItem(k.value) in old(queue.delayed) then [] else [KeyItem(k.value)]))
    }

    method EnqueueKey(k: Option<string>)
      modifies queue`failures, queue`delayed
      ensures EnqueuedIfSome(k)
    {
      if k.Some? {
        queue.AddRateLimited(KeyItem(k.value));
      }
    }

    /** UpdateFunc: enqueue the new FunctionIngress only when its spec changed. */
    method OnUpdate(oldObj: Payload, newObj: Payload)
      modifies queue`failures, queue`delayed
      ensures EnqueuedIfSome(UpdateKey(oldObj, newObj))
    {
      if oldObj.FunctionIngressObject? && newObj.FunctionIngressObject? && oldObj.fni.spec != newObj.fni.spec {
        EnqueueFunction(newObj);
      } else {
        EnqueueKey(None);
      }
    }

    /** The Ingress DeleteFunc (handleObject): enqueue the owning FunctionIngress, if cached. */
    method OnIngressDelete(p: Payload)
      modifies queue`failures, queue`delayed
      ensures EnqueuedIfSome(OwnerToEnqueue(functions, p))
    {
      EnqueueKey(OwnerToEnqueue(functions, p));
    }
  }
}
