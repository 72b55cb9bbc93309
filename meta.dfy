/**
 * The parts of Kubernetes object metadata the controller touches, and the
 * "namespace/name" work-queue keys built and split by the client library
 * (cache.MetaNamespaceKeyFunc and cache.SplitMetaNamespaceKey).
 */
module Meta {
  import opened Wrappers

  /** An owner reference; `controller` marks the managing owner. */
  datatype OwnerReference = OwnerReference(kind: string, name: string, uid: string, controller: bool)

  /** Object metadata. A nil map and an empty map are the same value here. */
  datatype ObjectMeta = ObjectMeta(
    name: string,
    namespace: string,
    uid: string,
    annotations: map<string, string>,
    labels: map<string, string>,
    ownerReferences: seq<OwnerReference>)

  const EmptyMeta := ObjectMeta("", "", "", map[], map[], [])

  /** Identity of an object in a namespaced cache. */
  datatype Key = Key(namespace: string, name: string)

  /** The queue key of an object: "namespace/name", or just "name" without a namespace. */
  function KeyString(m: ObjectMeta): (s: string)
    ensures |m.name| <= |s| && s[|s| - |m.name|..] == m.name
    ensures |m.namespace| == 0 ==> s == m.name
    ensures |m.namespace| > 0 ==> |s| > |m.namespace| && s[..|m.namespace|] == m.namespace && s[|m.namespace|] == '/'
    ensures |m.namespace| > 0 ==> |s| == |m.namespace| + 1 + |m.name|
  {
    if |m.namespace| > 0 then m.namespace + "/" + m.name else m.name
  }

  /** Splits `s` at every '/', as strings.Split does. */
  function Split(s: string): (parts: seq<string>)
    ensures |parts| >= 1
    ensures '/' !in s ==> parts == [s]
    decreases |s|
  {
    if '/' !in s then [s]
    else
      var i := FirstSlash(s);
      [s[..i]] + Split(s[i + 1..])
  }

  /** Index of the first '/' in `s`. */
  function FirstSlash(s: string): (i: nat)
    requires '/' in s
    ensures i < |s| && s[i] == '/' && '/' !in s[..i]
  {
    if s[0] == '/' then 0
    else
      assert s == [s[0]] + s[1..];
      var j := FirstSlash(s[1..]);
      assert s[..j + 1] == [s[0]] + s[1..][..j];
      j + 1
  }

  /** A key with exactly one '/' splits into the text around it. */
  lemma {:induction false} SplitOneSlash(key: string, i: int)
    requires 0 <= i < |key| && key[i] == '/' && '/' !in key[..i] && '/' !in key[i + 1..]
    ensures Split(key) == [key[..i], key[i + 1..]]
  {
    assert FirstSlash(key) == i;
  }

  /** A key with two '/' splits into at least three parts. */
  lemma {:induction false} SplitTwoSlashes(key: string, i: int, j: int)
    requires 0 <= i < j < |key| && key[i] == '/' && key[j] == '/'
    ensures |Split(key)| >= 3
  {
    var f := FirstSlash(key);
    assert f <= i;
    var rest := key[f + 1..];
    assert rest[j - f - 1] == '/';
    var g := FirstSlash(rest);
    assert Split(rest) == [rest[..g]] + Split(rest[g + 1..]);
  }

  /** How Split treats keys with no '/', exactly one '/', and two or more. */
  lemma {:induction false} SplitCases(key: string)
    ensures '/' !in key ==> Split(key) == [key]
    ensures forall i | 0 <= i < |key| && key[i] == '/' && '/' !in key[..i] && '/' !in key[i + 1..] ::
      Split(key) == [key[..i], key[i + 1..]]
    ensures (exists i, j :: 0 <= i < j < |key| && key[i] == '/' && key[j] == '/') ==> |Split(key)| >= 3
  {
    forall i | 0 <= i < |key| && key[i] == '/' && '/' !in key[..i] && '/' !in key[i + 1..]
      ensures Split(key) == [key[..i], key[i + 1..]]
    {
      SplitOneSlash(key, i);
    }
    if exists i, j :: 0 <= i < j < |key| && key[i] == '/' && key[j] == '/' {
      var i, j :| 0 <= i < j < |key| && key[i] == '/' && key[j] == '/';
      SplitTwoSlashes(key, i, j);
    }
  }

  /**
   * cache.SplitMetaNamespaceKey: a key without '/' is a bare name, a key
   * with exactly one '/' is namespace and name around it, and a key with
   * more is malformed.
   */
  function SplitKey(key: string): (r: Result<Key, string>)
    ensures '/' !in key ==> r == Success(Key("", key))
    ensures forall i | 0 <= i < |key| && key[i] == '/' && '/' !in key[..i] && '/' !in key[i + 1..] ::
      r == Success(Key(key[..i], key[i + 1..]))
    ensures (exists i, j :: 0 <= i < j < |key| && key[i] == '/' && key[j] == '/') ==> r.Failure?
  {
    SplitCases(key);
    var parts := Split(key);
    if |parts| == 1 then Success(Key("", parts[0]))
    else if |parts| == 2 then Success(Key(parts[0], parts[1]))
    else Failure("unexpected key format: " + key)
  }

  /**
   * Splitting the key of an object gives back its namespace and name,
   * whenever neither contains '/' (Kubernetes names never do).
   */
  lemma {:induction false} SplitKeyString(m: ObjectMeta)
    requires '/' !in m.namespace && '/' !in m.name
    ensures SplitKey(KeyString(m)) == Success(Key(m.namespace, m.name))
  {
    if |m.namespace| > 0 {
      var s := m.namespace + "/" + m.name;
      FirstSlashAfter(m.namespace, m.name);
      assert s[FirstSlash(s) + 1..] == m.name;
      assert s[..FirstSlash(s)] == m.namespace;
      assert Split(s) == [m.namespace, m.name];
    }
  }

  lemma FirstSlashAfter(a: string, b: string)
    requires '/' !in a
    ensures '/' in a + "/" + b && FirstSlash(a + "/" + b) == |a|
  {
    var s := a + "/" + b;
    assert s[|a|] == '/';
  }

  /** metav1.GetControllerOf: the first owner reference marked as controller. */
  function GetControllerOf(m: ObjectMeta): (r: Option<OwnerReference>)
    ensures r.Some? <==> exists i :: 0 <= i < |m.ownerReferences| && m.ownerReferences[i].controller
    ensures r.Some? ==> exists i :: FirstController(m.ownerReferences, i) && m.ownerReferences[i] == r.value
  {
    ControllerRef(m.ownerReferences)
  }

  /** `refs[i]` is a controller reference and none before it is. */
  predicate FirstController(refs: seq<OwnerReference>, i: int)
  {
    0 <= i < |refs| && refs[i].controller && forall j | 0 <= j < i :: !refs[j].controller
  }

  function ControllerRef(refs: seq<OwnerReference>): (r: Option<OwnerReference>)
    ensures r.Some? <==> exists i :: 0 <= i < |refs| && refs[i].controller
    ensures r.Some? ==> exists i :: FirstController(refs, i) && refs[i] == r.value
  {
    if refs == [] then None
    else if refs[0].controller then
      assert FirstController(refs, 0);
      Some(refs[0])
    else
      var r := ControllerRef(refs[1..]);
      assert forall i :: 1 <= i < |refs| ==> refs[i] == refs[1..][i - 1];
      if r.Some? then
        var i :| FirstController(refs[1..], i) && refs[1..][i] == r.value;
        assert FirstController(refs, i + 1);
        r
      else r
  }
}
