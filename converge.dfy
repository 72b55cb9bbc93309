/**
 * The converge decision of the sync handlers (syncHandler in
 * pkg/controller/controller.go, SyncHandler.handler in
 * pkg/controller/v1/controller.go and pkg/controller/v1beta1/controller.go),
 * as a function of the two caches and the key, and the annotation merge loop
 * the handlers run on the copied Ingress.
 */
module Converge {
  import opened Wrappers
  import opened Meta
  import opened IngressTypes
  import opened Networking
  import opened Snapshot
  import LegacySynth
  import RouteSynth

  /** Which controller revision synthesizes the Ingress; chosen once at startup. */
  datatype Revision = Legacy | V1beta1 | V1

  function Rules(rev: Revision, fni: FunctionIngress): seq<IngressRule>
  {
    match rev
    case Legacy => LegacySynth.MakeRules(fni)
    case V1beta1 => RouteSynth.MakeRules(fni, None)
    case V1 => RouteSynth.MakeRules(fni, Some(ImplementationSpecific))
  }

  function TLS(rev: Revision, fni: FunctionIngress): seq<IngressTLS>
  {
    if rev == Legacy then LegacySynth.MakeTLS(fni) else RouteSynth.MakeTLS(fni)
  }

  /** A namespaced cache: the objects it holds and the keys whose lookups fail with another error. */
  datatype Lister<T> = Lister(objects: map<Key, T>, errors: map<Key, string>)

  datatype Lookup<T> = Found(obj: T) | NotFound | Failed(err: string)

  function Get<T>(l: Lister<T>, k: Key): Lookup<T>
  {
    if k in l.errors then Failed(l.errors[k])
    else if k in l.objects then Found(l.objects[k])
    else NotFound
  }

  /** An informer cache stores every object under its own namespace and name. */
  ghost predicate FunctionsWellKeyed(l: Lister<FunctionIngress>)
  {
    forall k | k in l.objects :: l.objects[k].meta.namespace == k.namespace && l.objects[k].meta.name == k.name
  }

  ghost predicate IngressesWellKeyed(l: Lister<Ingress>)
  {
    forall k | k in l.objects :: l.objects[k].meta.namespace == k.namespace && l.objects[k].meta.name == k.name
  }

  /** The cache after it has caught up with a write of `ing`. */
  function Stored(l: Lister<Ingress>, ing: Ingress): Lister<Ingress>
  {
    l.(objects := l.objects[Key(ing.meta.namespace, ing.meta.name) := ing])
  }

  datatype HandlerError =
    | ListerError(message: string)
    | UnmarshalError(message: string)
    | RenameError
    | UpdateError(message: string)

  /** What one run of the handler decides to do for a key. */
  datatype Decision =
    | Drop                                                 // malformed key or FunctionIngress gone
    | Fail(error: HandlerError)                            // error returned before any write
    | Crash                                                // the Ingress lookup failed: nil dereference
    | Create(namespace: string, ingress: Ingress, owner: Key)
    | Update(namespace: string, ingress: Ingress, owner: Key)
    | NoOp(owner: Key)                                     // snapshot spec equals current spec

  /** What the handler returns: an error or nil, unless it panics. */
  datatype HandlerResult = Returned(err: Option<HandlerError>) | Panicked

  datatype Write = CreateWrite(namespace: string, ingress: Ingress) | UpdateWrite(namespace: string, ingress: Ingress)

  /** A "Synced" event recorded on the FunctionIngress with this key. */
  datatype Event = Synced(object: Key)

  /** The Ingress the create path builds: named after the key, owned by the FunctionIngress. */
  function NewIngress(rev: Revision, codec: Codec, fni: FunctionIngress, namespace: string, name: string): Ingress
  {
    Ingress(
      ObjectMeta(name, namespace, "", LegacySynth.Annotations(codec, fni), map[], LegacySynth.MakeOwnerRef(fni)),
      IngressSpec(Rules(rev, fni), TLS(rev, fni)))
  }

  /** The update path's copy: computed annotations laid over the existing ones, rules and TLS replaced. */
  function UpdatedIngress(rev: Revision, codec: Codec, ing: Ingress, fni: FunctionIngress): Ingress
  {
    ing.(meta := ing.meta.(annotations := ing.meta.annotations + LegacySynth.Annotations(codec, fni)),
         spec := ing.spec.(rules := Rules(rev, fni), tls := TLS(rev, fni)))
  }

  /** The previously applied FunctionIngress: absent or empty annotation means the zero object. */
  function PreviousSpec(codec: Codec, ing: Ingress): (r: Result<FunctionIngress, string>)
    ensures LegacySynth.SpecKey !in ing.meta.annotations || ing.meta.annotations[LegacySynth.SpecKey] == ""
            ==> r == Success(ZeroFunctionIngress)
    ensures r.Failure? ==> LegacySynth.SpecKey in ing.meta.annotations && |ing.meta.annotations[LegacySynth.SpecKey]| > 0
    ensures LegacySynth.SpecKey in ing.meta.annotations && |ing.meta.annotations[LegacySynth.SpecKey]| > 0
            ==> r == codec.decode(ing.meta.annotations[LegacySynth.SpecKey])
  {
    var annotations := ing.meta.annotations;
    if LegacySynth.SpecKey in annotations && |annotations[LegacySynth.SpecKey]| > 0
    then codec.decode(annotations[LegacySynth.SpecKey])
    else Success(ZeroFunctionIngress)
  }

  function OwnerKey(fni: FunctionIngress): Key
  {
    Key(fni.meta.namespace, fni.meta.name)
  }

  /** The decision of one handler run. */
  function Decide(rev: Revision, codec: Codec, functions: Lister<FunctionIngress>, ingresses: Lister<Ingress>, key: string): (d: Decision)
    ensures d.Create? || d.Update? || d.NoOp? ==>
      && SplitKey(key).Success? && Get(functions, SplitKey(key).value).Found?
      && d.owner == OwnerKey(Get(functions, SplitKey(key).value).obj)
    ensures d.Create? || d.Update? ==> d.namespace == SplitKey(key).value.namespace
  {
    match SplitKey(key)
    case Failure(_) => Drop
    case Success(k) =>
      match Get(functions, k)
      case NotFound => Drop
      case Failed(e) => Fail(ListerError(e))
      case Found(fni) => DecideFound(rev, codec, ingresses, k, fni)
  }

  /** The decision once the FunctionIngress of key `k` is found: create, crash, or compare. */
  function DecideFound(rev: Revision, codec: Codec, ingresses: Lister<Ingress>, k: Key, fni: FunctionIngress): (d: Decision)
    ensures d.Create? <==> Get(ingresses, Key(k.namespace, fni.meta.name)).NotFound?
    ensures d.Crash? <==> Get(ingresses, Key(k.namespace, fni.meta.name)).Failed?
    ensures d.Create? ==> d.ingress.meta.name == k.name && d.ingress.meta.namespace == k.namespace
    ensures d.Drop? == false
  {
    match Get(ingresses, Key(k.namespace, fni.meta.name))
    case NotFound => Create(k.namespace, NewIngress(rev, codec, fni, k.namespace, k.name), OwnerKey(fni))
    case Failed(_) => Crash
    case Found(ing) => DecideExisting(rev, codec, k.namespace, ing, fni)
  }

  /** The decision for an existing Ingress: compare its snapshot with the current spec. */
  function DecideExisting(rev: Revision, codec: Codec, namespace: string, ing: Ingress, fni: FunctionIngress): (d: Decision)
    ensures d.NoOp? <==> PreviousSpec(codec, ing).Success? && PreviousSpec(codec, ing).value.spec == fni.spec
    ensures d.Update? ==> PreviousSpec(codec, ing).Success? && PreviousSpec(codec, ing).value.meta.name == fni.meta.name
    ensures d.Update? ==> d.ingress.meta.name == ing.meta.name && d.ingress.meta.ownerReferences == ing.meta.ownerReferences
    ensures d.Update? ==> d.ingress == UpdatedIngress(rev, codec, ing, fni)
    ensures d.Update? || d.NoOp? || d.Fail?
  {
    match PreviousSpec(codec, ing)
    case Failure(e) => Fail(UnmarshalError(e))
    case Success(previous) =>
      if !LegacySynth.IngressNeedsUpdate(previous, fni) then NoOp(OwnerKey(fni))
      else if previous.meta.name != fni.meta.name then Fail(RenameError)
      else Update(namespace, UpdatedIngress(rev, codec, ing, fni), OwnerKey(fni))
  }

  /** The handler's return value, given the API server's answer to the write. */
  function Outcome(d: Decision, apiErr: Option<string>): HandlerResult
  {
    match d
    case Drop => Returned(None)
    case Fail(e) => Returned(Some(e))
    case Crash => Panicked
    case Create(_, _, _) => Returned(None)
    case Update(_, _, _) => if apiErr.Some? then Returned(Some(UpdateError(apiErr.value))) else Returned(None)
    case NoOp(_) => Returned(None)
  }

  function WritesOf(d: Decision): seq<Write>
  {
    match d
    case Create(ns, ing, _) => [CreateWrite(ns, ing)]
    case Update(ns, ing, _) => [UpdateWrite(ns, ing)]
    case _ => []
  }

  function EventsOf(d: Decision, apiErr: Option<string>): seq<Event>
  {
    match d
    case Create(_, _, owner) => [Synced(owner)]
    case Update(_, _, owner) => if apiErr.Some? then [] else [Synced(owner)]
    case NoOp(owner) => [Synced(owner)]
    case _ => []
  }

  /**
   * The merge loop of the update path: every computed annotation is written
   * into the copied map, so computed values win and other keys survive.
   */
  method MergeAnnotations(existing: map<string, string>, computed: map<string, string>) returns (merged: map<string, string>)
    ensures merged.Keys == existing.Keys + computed.Keys
    ensures forall k | k in computed :: merged[k] == computed[k]
    ensures forall k | k in existing && k !in computed :: merged[k] == existing[k]
    ensures merged == existing + computed
  {
    merged := existing;
    var rest := computed.Keys;
    while rest != {}
      invariant rest <= computed.Keys
      invariant merged.Keys == existing.Keys + (computed.Keys - rest)
      invariant forall k | k in merged :: merged[k] == if k in computed && k !in rest then computed[k] else existing[k]
      decreases rest
    {
      var k :| k in rest;
      merged := merged[k := computed[k]];
      rest := rest - {k};
    }
  }

  // ---- Properties of the decision ----

  /** Nothing is written and nil is returned for a malformed key or a vanished FunctionIngress. */
  lemma DropPaths(rev: Revision, codec: Codec, functions: Lister<FunctionIngress>, ingresses: Lister<Ingress>, key: string, apiErr: Option<string>)
    ensures var d := Decide(rev, codec, functions, ingresses, key);
      d == Drop <==> SplitKey(key).Failure? || Get(functions, SplitKey(key).value).NotFound?
    ensures var d := Decide(rev, codec, functions, ingresses, key);
      d == Drop ==> Outcome(d, apiErr) == Returned(None) && WritesOf(d) == [] && EventsOf(d, apiErr) == []
  {
  }

  /** Any other error of the FunctionIngress lister is returned, with no write. */
  lemma ListerErrorReturned(rev: Revision, codec: Codec, functions: Lister<FunctionIngress>, ingresses: Lister<Ingress>, key: string, apiErr: Option<string>)
    requires SplitKey(key).Success? && Get(functions, SplitKey(key).value).Failed?
    ensures var d := Decide(rev, codec, functions, ingresses, key);
      && Outcome(d, apiErr) == Returned(Some(ListerError(Get(functions, SplitKey(key).value).err)))
      && WritesOf(d) == [] && EventsOf(d, apiErr) == []
  {
  }

  /** The handler panics exactly when the Ingress lookup fails with an error other than not-found. */
  lemma CrashOnIngressListerError(rev: Revision, codec: Codec, functions: Lister<FunctionIngress>, ingresses: Lister<Ingress>, key: string, apiErr: Option<string>)
    ensures var d := Decide(rev, codec, functions, ingresses, key);
      d == Crash <==>
        && SplitKey(key).Success?
        && Get(functions, SplitKey(key).value).Found?
        && Get(ingresses, Key(SplitKey(key).value.namespace, Get(functions, SplitKey(key).value).obj.meta.name)).Failed?
    ensures Outcome(Crash, apiErr) == Panicked && WritesOf(Crash) == [] && EventsOf(Crash, apiErr) == []
  {
  }

  /**
   * A missing Ingress is created once, named after the key, carrying the
   * synthesized rules, TLS and annotations and one controller owner
   * reference; nil is returned and Synced recorded whatever the create
   * returned.
   */
  lemma {:induction false} CreatePath(rev: Revision, codec: Codec, functions: Lister<FunctionIngress>, ingresses: Lister<Ingress>, key: string, apiErr: Option<string>)
    requires SplitKey(key).Success? && Get(functions, SplitKey(key).value).Found?
    requires Get(ingresses, Key(SplitKey(key).value.namespace, Get(functions, SplitKey(key).value).obj.meta.name)).NotFound?
    ensures var k, fni := SplitKey(key).value, Get(functions, SplitKey(key).value).obj;
      var d := Decide(rev, codec, functions, ingresses, key);
      && d.Create?
      && WritesOf(d) == [CreateWrite(k.namespace, d.ingress)]
      && d.ingress.meta.name == k.name && d.ingress.meta.namespace == k.namespace
      && d.ingress.meta.annotations == LegacySynth.Annotations(codec, fni)
      && GetControllerOf(d.ingress.meta) == Some(OwnerReference(LegacySynth.FaasIngressKind, fni.meta.name, fni.meta.uid, true))
      && d.ingress.spec == IngressSpec(Rules(rev, fni), TLS(rev, fni))
      && Outcome(d, apiErr) == Returned(None)
      && EventsOf(d, apiErr) == [Synced(OwnerKey(fni))]
  {
    var fni := Get(functions, SplitKey(key).value).obj;
    var refs := LegacySynth.MakeOwnerRef(fni);
    assert GetControllerOf(EmptyMeta.(ownerReferences := refs)) == ControllerRef(refs);
  }

  /**
   * With the FunctionIngress and its Ingress both cached and the snapshot
   * readable, a write happens exactly when the snapshot's spec differs from
   * the current one and the names agree; differing names give the rename
   * error; an update error is returned without a Synced event.
   */
  lemma UpdatePath(rev: Revision, codec: Codec, functions: Lister<FunctionIngress>, ingresses: Lister<Ingress>, key: string, apiErr: Option<string>)
    requires SplitKey(key).Success? && Get(functions, SplitKey(key).value).Found?
    requires var fni := Get(functions, SplitKey(key).value).obj;
      Get(ingresses, Key(SplitKey(key).value.namespace, fni.meta.name)).Found?
    requires var fni := Get(functions, SplitKey(key).value).obj;
      PreviousSpec(codec, Get(ingresses, Key(SplitKey(key).value.namespace, fni.meta.name)).obj).Success?
    ensures var fni := Get(functions, SplitKey(key).value).obj;
      var previous := PreviousSpec(codec, Get(ingresses, Key(SplitKey(key).value.namespace, fni.meta.name)).obj).value;
      var d := Decide(rev, codec, functions, ingresses, key);
      && (WritesOf(d) != [] <==> previous.spec != fni.spec && previous.meta.name == fni.meta.name)
      && (d == NoOp(OwnerKey(fni)) <==> previous.spec == fni.spec)
      && (d == Fail(RenameError) <==> previous.spec != fni.spec && previous.meta.name != fni.meta.name)
      && (d.Update? && apiErr.Some? ==> Outcome(d, apiErr) == Returned(Some(UpdateError(apiErr.value))) && EventsOf(d, apiErr) == [])
      && (d.Update? && apiErr.None? ==> Outcome(d, apiErr) == Returned(None) && EventsOf(d, apiErr) == [Synced(OwnerKey(fni))])
      && (d.Update? ==> WritesOf(d) == [UpdateWrite(SplitKey(key).value.namespace,
            UpdatedIngress(rev, codec, Get(ingresses, Key(SplitKey(key).value.namespace, fni.meta.name)).obj, fni))])
  {
  }

  /** A snapshot that does not decode is an error, and nothing is written. */
  lemma MalformedSnapshot(rev: Revision, codec: Codec, functions: Lister<FunctionIngress>, ingresses: Lister<Ingress>, key: string)
    requires SplitKey(key).Success? && Get(functions, SplitKey(key).value).Found?
    requires var fni := Get(functions, SplitKey(key).value).obj;
      Get(ingresses, Key(SplitKey(key).value.namespace, fni.meta.name)).Found?
    requires var fni := Get(functions, SplitKey(key).value).obj;
      PreviousSpec(codec, Get(ingresses, Key(SplitKey(key).value.namespace, fni.meta.name)).obj).Failure?
    ensures var d := Decide(rev, codec, functions, ingresses, key);
      d.Fail? && d.error.UnmarshalError? && WritesOf(d) == []
  {
  }

  /**
   * The update keeps every annotation synthesis does not produce, sets every
   * one it does, replaces rules and TLS wholesale and leaves name, namespace,
   * labels and owner references alone.
   */
  lemma {:induction false} UpdateMergesAnnotations(rev: Revision, codec: Codec, ing: Ingress, fni: FunctionIngress)
    ensures var u, computed := UpdatedIngress(rev, codec, ing, fni), LegacySynth.Annotations(codec, fni);
      && (forall a | a in ing.meta.annotations && a !in computed :: a in u.meta.annotations && u.meta.annotations[a] == ing.meta.annotations[a])
      && (forall a | a in computed :: a in u.meta.annotations && u.meta.annotations[a] == computed[a])
      && u.meta.annotations.Keys == ing.meta.annotations.Keys + computed.Keys
      && u.spec.rules == Rules(rev, fni) && u.spec.tls == TLS(rev, fni)
      && u.meta.(annotations := ing.meta.annotations) == ing.meta
  {
  }

  /**
   * An Ingress without a usable snapshot, for a named FunctionIngress whose
   * spec is not the zero spec, always meets the rename guard: the zero
   * object it decodes to has an empty name.
   */
  lemma {:induction false} MissingSnapshotIsRename(rev: Revision, codec: Codec, functions: Lister<FunctionIngress>, ingresses: Lister<Ingress>, key: string)
    requires SplitKey(key).Success? && Get(functions, SplitKey(key).value).Found?
    requires var fni := Get(functions, SplitKey(key).value).obj;
      && fni.meta.name != "" && fni.spec != ZeroSpec
      && Get(ingresses, Key(SplitKey(key).value.namespace, fni.meta.name)).Found?
      && var annotations := Get(ingresses, Key(SplitKey(key).value.namespace, fni.meta.name)).obj.meta.annotations;
         LegacySynth.SpecKey !in annotations || annotations[LegacySynth.SpecKey] == ""
    ensures Decide(rev, codec, functions, ingresses, key) == Fail(RenameError)
  {
    var fni := Get(functions, SplitKey(key).value).obj;
    var ing := Get(ingresses, Key(SplitKey(key).value.namespace, fni.meta.name)).obj;
    assert PreviousSpec(codec, ing) == Success(ZeroFunctionIngress);
  }

  /** A run whose snapshot decodes to the current spec writes nothing and records Synced. */
  lemma MatchingSnapshotIsNoOp(rev: Revision, codec: Codec, functions: Lister<FunctionIngress>, ingresses: Lister<Ingress>,
                               key: string, fni: FunctionIngress, ing: Ingress)
    requires SplitKey(key).Success? && Get(functions, SplitKey(key).value) == Found(fni)
    requires Get(ingresses, Key(SplitKey(key).value.namespace, fni.meta.name)) == Found(ing)
    requires PreviousSpec(codec, ing).Success? && PreviousSpec(codec, ing).value.spec == fni.spec
    ensures Decide(rev, codec, functions, ingresses, key) == NoOp(OwnerKey(fni))
  {
  }

  /** The written Ingress carries the snapshot of the FunctionIngress it was built for. */
  lemma {:induction false} WrittenSnapshot(rev: Revision, codec: Codec, fni: FunctionIngress, existing: Ingress, namespace: string, name: string)
    ensures var n := NewIngress(rev, codec, fni, namespace, name);
      LegacySynth.SpecKey in n.meta.annotations && n.meta.annotations[LegacySynth.SpecKey] == codec.encode(fni)
    ensures var u := UpdatedIngress(rev, codec, existing, fni);
      LegacySynth.SpecKey in u.meta.annotations && u.meta.annotations[LegacySynth.SpecKey] == codec.encode(fni)
  {
    LegacySynth.AnnotationsContent(codec, fni);
  }

  /**
   * Idempotence: once the cache holds what a successful create or update
   * wrote, the next run for the same key writes nothing and records Synced.
   */
  lemma {:induction false} SecondReconcileIsNoOp(rev: Revision, codec: Codec, functions: Lister<FunctionIngress>, ingresses: Lister<Ingress>, key: string)
    requires RoundTrips(codec)
    requires FunctionsWellKeyed(functions) && IngressesWellKeyed(ingresses)
    requires Decide(rev, codec, functions, ingresses, key).Create? || Decide(rev, codec, functions, ingresses, key).Update?
    ensures var d := Decide(rev, codec, functions, ingresses, key);
      Decide(rev, codec, functions, Stored(ingresses, d.ingress), key) == NoOp(d.owner)
  {
    var d := Decide(rev, codec, functions, ingresses, key);
    var k := SplitKey(key).value;
    var fni := Get(functions, k).obj;
    var ik := Key(k.namespace, fni.meta.name);
    assert k in functions.objects;
    assert fni.meta.name == k.name && fni.meta.namespace == k.namespace;
    if d.Create? {
      assert ik !in ingresses.errors;
      assert d.ingress == NewIngress(rev, codec, fni, k.namespace, k.name);
      WrittenSnapshot(rev, codec, fni, d.ingress, k.namespace, k.name);
    } else {
      assert ik in ingresses.objects && ik !in ingresses.errors;
      var ing := ingresses.objects[ik];
      assert ing.meta.namespace == ik.namespace && ing.meta.name == ik.name;
      assert d.ingress == UpdatedIngress(rev, codec, ing, fni);
      WrittenSnapshot(rev, codec, fni, ing, k.namespace, k.name);
    }
    assert d.owner == OwnerKey(fni);
    assert Key(d.ingress.meta.namespace, d.ingress.meta.name) == ik;
    var after := Stored(ingresses, d.ingress);
    assert Get(after, ik) == Found(d.ingress);
    assert PreviousSpec(codec, d.ingress) == codec.decode(codec.encode(fni));
    MatchingSnapshotIsNoOp(rev, codec, functions, after, key, fni, d.ingress);
  }
}
