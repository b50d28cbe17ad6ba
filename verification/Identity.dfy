/** Alerts, queue keys and the strings that identify them
    (internal/reliability/reliability.go, internal/watcher/controller.go, internal/watcher/util.go).

    The alert lifecycle is sound only if an alert key determines the object it belongs to, so the
    encodings are proved to have decoders. */
module Identity {
  datatype Severity = Warning | Critical

  datatype Reason =
    | CrashLoopBackOff
    | OOMKilled
    | ImagePullError
    | HighRestartCount
    | RapidRestart
    | PodStuckPending
    | NodeNotReady
    | NodePressure

  function ReasonText(r: Reason): (s: string)
    ensures '|' !in s
  {
    match r
    case CrashLoopBackOff => "CrashLoopBackOff"
    case OOMKilled => "OOMKilled"
    case ImagePullError => "ImagePullError"
    case HighRestartCount => "HighRestartCount"
    case RapidRestart => "RapidRestart"
    case PodStuckPending => "PodStuckPending"
    case NodeNotReady => "NodeNotReady"
    case NodePressure => "NodePressure"
  }

  lemma {:induction false} ReasonTextInjective(r: Reason, r': Reason)
    requires ReasonText(r) == ReasonText(r')
    ensures r == r'
  {
    if |ReasonText(r)| == 16 {
      assert ReasonText(r)[0] == ReasonText(r')[0];
    } else if |ReasonText(r)| == 12 {
      assert ReasonText(r)[0] == ReasonText(r')[0];
      assert ReasonText(r)[4] == ReasonText(r')[4];
    } else if |ReasonText(r)| == 9 {
      assert ReasonText(r)[0] == ReasonText(r')[0];
    }
  }

  /** One detected problem; the human-readable message is not modelled. */
  datatype Alert = Alert(
    reason: Reason,
    severity: Severity,
    kind: string,
    namespace: string,
    name: string,
    uid: string,
    container: string)

  /** The unit of work handed out by the work queue. */
  datatype QueueKey = QueueKey(kind: string, namespace: string, name: string)

  /** Deduplication identity of an alert. */
  function Key(a: Alert): (k: string)
  {
    ReasonText(a.reason) + "|" + a.kind + "|" + a.namespace + "/" + a.name + "|" + a.container
  }

  /** Key of an object in the controller's active map. */
  function ObjectKey(q: QueueKey): (o: string)
  {
    if q.namespace == "" then q.kind + "|" + q.name
    else q.kind + "|" + q.namespace + "/" + q.name
  }

  function PodKey(namespace: string, name: string): (k: string)
  {
    namespace + "/" + name
  }

  function ContainerKey(namespace: string, name: string, container: string): (k: string)
  {
    PodKey(namespace, name) + "/" + container
  }

  predicate HasPrefix(s: string, p: string)
  {
    p <= s
  }

  predicate ContainerKeyMatchesPod(containerKey: string, podKey: string)
  {
    HasPrefix(containerKey, podKey + "/")
  }

  /** Names the API server admits: no '/' and no '|'. */
  predicate WellFormedName(s: string)
  {
    '/' !in s && '|' !in s
  }

  predicate WellFormed(q: QueueKey)
  {
    && (q.kind == "Pod" || q.kind == "Node")
    && WellFormedName(q.namespace)
    && WellFormedName(q.name)
  }

  /** The object an alert is about. */
  function Subject(a: Alert): (q: QueueKey)
  {
    QueueKey(a.kind, a.namespace, a.name)
  }

  // ---------------------------------------------------------------- decoding

  /** Text before and after the first occurrence of c (all of s and nothing when c is absent). */
  function Cut(s: string, c: char): (r: (string, string))
  {
    if s == "" then ("", "")
    else if s[0] == c then ("", s[1..])
    else
      var (before, after) := Cut(s[1..], c);
      ([s[0]] + before, after)
  }

  lemma {:induction false} CutAtFirst(x: string, c: char, y: string)
    requires c !in x
    ensures Cut(x + [c] + y, c) == (x, y)
  {
    if x == "" {
      assert x + [c] + y == [c] + y;
    } else {
      CutAtFirst(x[1..], c, y);
      assert (x + [c] + y)[1..] == x[1..] + [c] + y;
      assert x == [x[0]] + x[1..];
    }
  }

  lemma {:induction false} SplitAroundMiddle(x: string, y: string, middle: string, x': string, y': string)
    requires '|' !in x && '|' !in x'
    requires x + "|" + (middle + y) == x' + "|" + (middle + y')
    ensures x == x' && y == y'
  {
    CutAtFirst(x, '|', middle + y);
    CutAtFirst(x', '|', middle + y');
    assert (middle + y)[|middle|..] == y;
    assert (middle + y')[|middle|..] == y';
  }

  lemma {:induction false} KeyShape(r: string, kind: string, path: string, name: string, container: string)
    ensures r + "|" + kind + "|" + path + "/" + name + "|" + container ==
            r + "|" + ((kind + "|" + path + "/" + name + "|") + container)
  {
  }

  /** The object and the other two fields written in an alert key. */
  datatype Parsed = Parsed(reason: string, subject: QueueKey, container: string)

  function ParseKey(k: string): (p: Parsed)
  {
    var (reason, rest) := Cut(k, '|');
    var (kind, rest') := Cut(rest, '|');
    var (path, container) := Cut(rest', '|');
    var (namespace, name) := Cut(path, '/');
    Parsed(reason, QueueKey(kind, namespace, name), container)
  }

  function ParseObjectKey(o: string): (q: QueueKey)
  {
    var (kind, path) := Cut(o, '|');
    if '/' in path then
      var (namespace, name) := Cut(path, '/');
      QueueKey(kind, namespace, name)
    else
      QueueKey(kind, "", path)
  }

  /** The object an alert key belongs to. */
  function Owner(k: string): (q: QueueKey)
  {
    ParseKey(k).subject
  }

  /** Every field of the identity can be read back out of the key. */
  lemma {:induction false} KeyRoundTrip(a: Alert)
    requires WellFormed(Subject(a))
    ensures ParseKey(Key(a)) == Parsed(ReasonText(a.reason), Subject(a), a.container)
  {
    var path := a.namespace + "/" + a.name;
    var rest' := path + "|" + a.container;
    var rest := a.kind + "|" + rest';
    assert Key(a) == ReasonText(a.reason) + "|" + rest;
    CutAtFirst(ReasonText(a.reason), '|', rest);
    CutAtFirst(a.kind, '|', rest');
    CutAtFirst(path, '|', a.container);
    CutAtFirst(a.namespace, '/', a.name);
  }

  /** Equal keys mean the same problem on the same container of the same object. */
  lemma {:induction false} KeyInjective(a: Alert, b: Alert)
    requires WellFormed(Subject(a)) && WellFormed(Subject(b))
    ensures Key(a) == Key(b) <==>
            a.reason == b.reason && Subject(a) == Subject(b) && a.container == b.container
  {
    KeyRoundTrip(a);
    KeyRoundTrip(b);
    if Key(a) == Key(b) {
      ReasonTextInjective(a.reason, b.reason);
    }
  }

  lemma {:induction false} ObjectKeyRoundTrip(q: QueueKey)
    requires WellFormed(q)
    ensures ParseObjectKey(ObjectKey(q)) == q
    ensures '/' in ObjectKey(q) <==> q.namespace != ""
  {
    if q.namespace == "" {
      CutAtFirst(q.kind, '|', q.name);
    } else {
      var path := q.namespace + "/" + q.name;
      assert path[|q.namespace|] == '/';
      assert ObjectKey(q) == q.kind + "|" + path;
      CutAtFirst(q.kind, '|', path);
      CutAtFirst(q.namespace, '/', q.name);
    }
  }

  lemma {:induction false} ObjectKeyInjective(q: QueueKey, q': QueueKey)
    requires WellFormed(q) && WellFormed(q')
    ensures ObjectKey(q) == ObjectKey(q') <==> q == q'
  {
    ObjectKeyRoundTrip(q);
    ObjectKeyRoundTrip(q');
  }

  /** Two alerts with one key live under one entry of the active map. */
  lemma {:induction false} KeyDeterminesObject(a: Alert, b: Alert)
    requires WellFormed(Subject(a)) && WellFormed(Subject(b))
    requires Key(a) == Key(b)
    ensures ObjectKey(Subject(a)) == ObjectKey(Subject(b))
    ensures Owner(Key(a)) == Subject(a) == Subject(b)
  {
    KeyRoundTrip(a);
    KeyRoundTrip(b);
  }

  /** The prefix test selects the containers of one pod and of no other. */
  lemma {:induction false} PrefixSelectsPod(
      namespace: string, name: string, container: string, namespace': string, name': string)
    requires '/' !in namespace && '/' !in name && '/' !in namespace' && '/' !in name'
    ensures ContainerKeyMatchesPod(ContainerKey(namespace, name, container), PodKey(namespace', name'))
            <==> namespace == namespace' && name == name'
  {
    var ck := ContainerKey(namespace, name, container);
    var pk := PodKey(namespace', name') + "/";
    if namespace == namespace' && name == name' {
      assert ck == pk + container;
    }
    if pk <= ck {
      var rest := ck[|pk|..];
      assert ck == pk + rest;
      assert ck == namespace' + "/" + (name' + "/" + rest);
      assert ck == namespace + "/" + (name + "/" + container);
      CutAtFirst(namespace', '/', name' + "/" + rest);
      CutAtFirst(namespace, '/', name + "/" + container);
      CutAtFirst(name', '/', rest);
      CutAtFirst(name, '/', container);
    }
  }

  /** Objects of kind Pod are exactly those whose object key starts with "Pod|". */
  lemma {:induction false} PodPrefix(q: QueueKey)
    requires WellFormed(q)
    ensures HasPrefix(ObjectKey(q), "Pod|") <==> q.kind == "Pod"
  {
    var tail := if q.namespace == "" then q.name else q.namespace + "/" + q.name;
    assert ObjectKey(q) == q.kind + "|" + tail;
    if q.kind == "Pod" {
      assert ObjectKey(q)[..4] == "Pod|";
    } else {
      assert ObjectKey(q)[0] == 'N';
    }
  }
}
