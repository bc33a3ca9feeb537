/** The netlink sink as a transition system: what each operation of the sink
    does to its containers, and how the kernel answers a request. */
module SinkModel {
  import opened Routes

  datatype Kind = Add | Del

  datatype Stage = Queued | Sent | Installed | Retry

  /** The mutable part of an entry. */
  datatype Rec = Rec(
    kind: Kind, hop: Hop, stage: Stage, seqno: nat, sentAt: real,
    attempts: nat, due: real, errno: nat, written: bool)

  /** One entry per kernel route key.  The same object sits in several
      containers at once; the containers below hold references to it. */
  class Entry {
    const key: Key
    var kind: Kind
    var hop: Hop
    var stage: Stage
    var seqno: nat
    var sentAt: real
    var attempts: nat
    var due: real
    var errno: nat
    var written: bool

    constructor (key: Key, kind: Kind, hop: Hop)
      ensures this.key == key
      ensures Now() == NewRec(kind, hop)
    {
      this.key, this.kind, this.hop := key, kind, hop;
      stage, seqno, sentAt, attempts, due, errno, written := Queued, 0, 0.0, 0, 0.0, 0, false;
    }

    function Now(): Rec
      reads this
    {
      Rec(kind, hop, stage, seqno, sentAt, attempts, due, errno, written)
    }

    method Intend(kind: Kind, hop: Hop)
      modifies this
      ensures Now() == old(Now()).(kind := kind, hop := hop, errno := 0)
    {
      this.kind, this.hop, errno := kind, hop, 0;
    }

    /** The kernel already has it. */
    method Adopt(hop: Hop)
      modifies this
      ensures Now() == old(Now()).(hop := hop, stage := Installed, written := true)
    {
      this.hop, stage, written := hop, Installed, true;
    }

    method Fail(code: nat, now: real)
      modifies this
      ensures Now() == var n := old(attempts) + 1;
        old(Now()).(attempts := n, errno := code, due := now + BackoffDelay(n), stage := Retry)
    {
      attempts := attempts + 1;
      errno, due, stage := code, now + BackoffDelay(attempts), Retry;
    }

    /** An installed entry already says what is wanted. */
    predicate Matches(wanted: Hop)
      reads this
    {
      hop.gateway == wanted.gateway && hop.oif == wanted.oif
    }
  }

  function NewRec(kind: Kind, hop: Hop): Rec {
    Rec(kind, hop, Queued, 0, 0.0, 0, 0.0, 0, false)
  }

  /** The sink's containers.  `heap` gives the fields of every entry object
      ever allocated.  `pending` is insertion-ordered in the source; sequence
      numbers are handed out in ascending order, so its order is key order. */
  datatype Sink = Sink(
    heap: map<Entry, Rec>,
    entries: map<Key, Entry>,
    queue: seq<Entry>,
    pending: map<nat, Entry>,
    retry: seq<Entry>,
    prefixKey: map<Prefix, Key>,
    lastSeq: nat)

  const EmptySink := Sink(map[], map[], [], map[], [], map[], 0)

  const MAX_SEQ: nat := 0x7fffffff

  // ----- the containers -----------------------------------------------------

  /** An ordered dictionary keyed by the entry's key, minus one key.  This is
      `q.pop(k, None)`, and with the first key also `q.popitem(last=False)`. */
  function Without(q: seq<Entry>, k: Key): (r: seq<Entry>)
    ensures forall e | e in q :: e.key != k ==> e in r
    ensures forall e | e in r :: e in q && e.key != k
    ensures |r| <= |q|
    ensures (exists e | e in q :: e.key == k) ==> |r| < |q|
  {
    if q == [] then []
    else
      var last := q[|q| - 1];
      var rest := Without(q[..|q| - 1], k);
      assert q == q[..|q| - 1] + [last];
      if last.key == k then rest else rest + [last]
  }

  /** `q[e.key] = e` on an ordered dictionary: in place, or at the end. */
  function Put(q: seq<Entry>, e: Entry): (r: seq<Entry>)
    ensures e in r
    ensures (forall x | x in q :: x.key != e.key) ==> r == q + [e]
  {
    if q == [] then [e]
    else if q[0].key == e.key then [e] + q[1..]
    else
      assert q == [q[0]] + q[1..];
      [q[0]] + Put(q[1..], e)
  }

  function Update(s: Sink, e: Entry, r: Rec): Sink {
    s.(heap := s.heap[e := r])
  }

  /** `_enqueue`: to the back of the queue, and out of the retry map. */
  function Enqueue(s: Sink, e: Entry): Sink
    requires e in s.heap
  {
    Update(s, e, s.heap[e].(stage := Queued)).(
      retry := Without(s.retry, e.key),
      queue := Without(s.queue, e.key) + [e])
  }

  /** `_forget`: out of every container the entry can be in. */
  function Forget(s: Sink, e: Entry): Sink
    requires e in s.heap
  {
    s.(queue := Without(s.queue, e.key),
       retry := Without(s.retry, e.key),
       entries := s.entries - {e.key},
       pending := if s.heap[e].seqno != 0 then s.pending - {s.heap[e].seqno} else s.pending)
  }

  /** `_retire`: the key a prefix no longer occupies. */
  function Retire(s: Sink, k: Key): Sink
    requires forall x :: x in s.entries ==> s.entries[x] in s.heap
  {
    if k !in s.entries then s
    else
      var e := s.entries[k];
      if !s.heap[e].written then Forget(s, e)
      else Enqueue(Update(s, e, s.heap[e].(kind := Del, attempts := 0, errno := 0)), e)
  }

  // ----- the FibSink surface ------------------------------------------------

  /** The entry `_entry_for` returns, and the containers after it. */
  function EntryFor(s: Sink, k: Key, hop: Hop, made: Entry): (Sink, Entry) {
    if k in s.entries then (s, s.entries[k])
    else (Update(s, made, NewRec(Add, hop)).(entries := s.entries[k := made]), made)
  }

  predicate AlreadyInstalled(s: Sink, k: Key, hop: Hop)
    requires forall x :: x in s.entries ==> s.entries[x] in s.heap
  {
    k in s.entries &&
    var r := s.heap[s.entries[k]];
    r.kind == Add && r.stage == Installed && r.hop == hop
  }

  /** `install`.  `made` is the object allocated if the key has no entry. */
  function Install(c: Conf, s: Sink, route: Route, made: Entry): Sink
    requires forall x :: x in s.entries ==> s.entries[x] in s.heap
    requires forall x :: x in s.entries ==> s.entries[x].key == x
  {
    match Attrs(c, route)
    case None => s
    case Some(t) =>
      var p := route.prefix;
      var k := Key(p, t.priority);
      var s1 :=
        if AlreadyInstalled(s, k, t.hop) then s
        else
          var (s0, e) := EntryFor(s, k, t.hop, made);
          Enqueue(Update(s0, e, s0.heap[e].(kind := Add, hop := t.hop, errno := 0)), e);
      var s2 := s1.(prefixKey := s.prefixKey[p := k]);
      if p in s.prefixKey && s.prefixKey[p] != k then Retire(s2, s.prefixKey[p]) else s2
  }

  /** `withdraw`: built from what was installed, not from the route. */
  function Withdraw(s: Sink, p: Prefix): Sink
    requires forall x :: x in s.entries ==> s.entries[x] in s.heap
  {
    if p !in s.prefixKey then s
    else
      var k := s.prefixKey[p];
      var s1 := s.(prefixKey := s.prefixKey - {p});
      if k !in s.entries then s1
      else
        var e := s.entries[k];
        if !s.heap[e].written then Forget(s1, e)
        else Enqueue(Update(s1, e, s.heap[e].(kind := Del, errno := 0)), e)
  }

  // ----- replies ------------------------------------------------------------

  const ENOENT: nat := 2
  const ESRCH: nat := 3

  /** "No such route" from a delete is success by another name. */
  predicate AlreadyGone(code: nat) {
    code == ESRCH || code == ENOENT
  }

  /** Exponential from `RETRY_MIN_S` = 1 second, clamped at a minute. */
  function BackoffDelay(attempts: nat): real {
    if attempts <= 1 then 1.0
    else
      var steps := if attempts - 1 < 32 then attempts - 1 else 32;
      if Pow2(steps) < 60 then Pow2(steps) as real else 60.0
  }

  function Pow2(n: nat): nat {
    if n == 0 then 1 else 2 * Pow2(n - 1)
  }

  function RecordSuccess(s: Sink, e: Entry): Sink
    requires e in s.heap
  {
    if s.heap[e].kind == Add
    then Update(s, e, s.heap[e].(stage := Installed, errno := 0, attempts := 0))
    else Forget(s, e)
  }

  function RecordError(s: Sink, e: Entry, code: nat, now: real): Sink
    requires e in s.heap
  {
    if s.heap[e].kind == Del && AlreadyGone(code) then RecordSuccess(s, e)
    else
      var n := s.heap[e].attempts + 1;
      Update(s, e, s.heap[e].(attempts := n, errno := code, due := now + BackoffDelay(n), stage := Retry)).(
        queue := Without(s.queue, e.key),
        retry := Put(s.retry, e))
  }

  /** `_handle` for an NLMSG_ERROR: only an answer to an entry's latest send,
      still awaited, is applied. */
  function Handle(s: Sink, seqno: nat, code: nat, now: real): Sink
    requires forall n :: n in s.pending ==> s.pending[n] in s.heap
  {
    if seqno !in s.pending then s
    else
      var e := s.pending[seqno];
      var s1 := s.(pending := s.pending - {seqno});
      if s.heap[e].seqno != seqno || s.heap[e].stage != Sent then s1
      else if code > 0 then RecordError(s1, e, code, now)
      else RecordSuccess(s1, e)
  }

  // ----- the flush phases, one request at a time ------------------------------

  function NextSeq(n: nat): nat {
    var m := (n + 1) % 0x8000_0000;
    if m == 0 then 1 else m
  }

  function Promote(s: Sink, e: Entry): Sink
    requires e in s.heap
  {
    Enqueue(s.(retry := Without(s.retry, e.key)), e)
  }

  function Expire(s: Sink, seqno: nat): Sink
    requires seqno in s.pending && s.pending[seqno] in s.heap
  {
    Enqueue(s.(pending := s.pending - {seqno}), s.pending[seqno])
  }

  /** The bookkeeping of a request the socket took. */
  function MarkSent(s: Sink, e: Entry, n: nat, now: real): Sink
    requires e in s.heap
  {
    Update(s, e, s.heap[e].(seqno := n, stage := Sent, sentAt := now,
                            written := s.heap[e].written || s.heap[e].kind == Add)).(
      pending := s.pending[n := e])
  }

  // ----- the kernel -----------------------------------------------------------

  datatype KernelKey = KernelKey(table: nat, key: Key)

  datatype KernelRoute = KernelRoute(protocol: nat, gateway: seq<Byte>, oif: nat)

  type Table = map<KernelKey, KernelRoute>

  /** What a built request asks for. */
  datatype Request = Request(kind: Kind, at: KernelKey, route: KernelRoute)

  datatype Ack = Ack(seqno: nat, code: nat)

  /** The kernel's decision: do it (resolving the interface of a gateway route
      that names none), or refuse with an errno. */
  datatype Verdict = Accept(oif: nat) | Refuse(code: nat)

  function RequestOf(c: Conf, k: Key, r: Rec): Request {
    Request(r.kind, KernelKey(c.table, k), KernelRoute(c.protocol, r.hop.gateway, r.hop.oif))
  }

  /** A refusal carries an errno, and "no such route" is only said of a delete
      when it is true. */
  predicate Honest(t: Table, q: Request, v: Verdict) {
    v.Refuse? ==>
      v.code > 0 && (q.kind == Del && AlreadyGone(v.code) ==> !(q.at in t && t[q.at].protocol == q.route.protocol))
  }

  /** An add is NLM_F_CREATE|NLM_F_REPLACE on the route identity; a delete
      matches identity and protocol. */
  function KernelDo(t: Table, q: Request, v: Verdict): (Table, nat) {
    if v.Refuse? then (t, v.code)
    else if q.kind == Add then
      (t[q.at := q.route.(oif := if q.route.oif != 0 then q.route.oif else v.oif)], 0)
    else if q.at in t && t[q.at].protocol == q.route.protocol then (t - {q.at}, 0)
    else (t, ESRCH)
  }

  /** How one attempt to write a request ends. */
  datatype Outcome = Blocked | Failed(code: nat) | Delivered(verdict: Verdict)

  /** The sink, the kernel's tables, and the acknowledgements written but not
      yet read, oldest first. */
  datatype World = World(sink: Sink, table: Table, inbox: seq<Ack>)

  /** One turn of the `_send_batch` loop. */
  function SendHead(c: Conf, w: World, o: Outcome, now: real): World
    requires w.sink.queue != [] && w.sink.queue[0] in w.sink.heap
  {
    var e := w.sink.queue[0];
    var n := NextSeq(w.sink.lastSeq);
    var s := w.sink.(queue := Without(w.sink.queue, e.key), lastSeq := n);
    match o
    case Blocked => w.(sink := w.sink.(lastSeq := n))
    case Failed(code) => w.(sink := RecordError(s, e, code, now))
    case Delivered(v) =>
      var (t, code) := KernelDo(w.table, RequestOf(c, e.key, s.heap[e]), v);
      World(MarkSent(s, e, n, now), t, w.inbox + [Ack(n, code)])
  }

  function ReadAck(w: World, now: real): World
    requires w.inbox != []
    requires forall n :: n in w.sink.pending ==> w.sink.pending[n] in w.sink.heap
  {
    w.(sink := Handle(w.sink, w.inbox[0].seqno, w.inbox[0].code, now), inbox := w.inbox[1..])
  }

  /** What a route of ours at a key looks like from the sink's side. */
  function Own(c: Conf, t: Table, k: Key): Option<Hop> {
    var at := KernelKey(c.table, k);
    if at in t && t[at].protocol == c.protocol then Some(Hop(t[at].gateway, t[at].oif)) else None
  }

  /** The comparison `reconcile` makes: same gateway, and the same interface
      unless one side names none. */
  predicate Agrees(kernel: Hop, wanted: Hop) {
    kernel.gateway == wanted.gateway &&
    (kernel.oif == 0 || wanted.oif == 0 || kernel.oif == wanted.oif)
  }
}
