/** Capture of inbound and outbound mailbox messages: store the body, then create the row
    (internal/commworker/mailbox_capture.go, internal/controlplane/comm_mailbox_capture.go,
    internal/commworker/store.go). Any number of captures interleave, are redelivered, and stop between
    any two steps; different deliveries may share an object key. */
module Mailbox {
  import opened Base
  import opened Text
  import opened ContentStore

  datatype RowKey = RowKey(instance: string, agent: string, createdAt: int, delivery: string)

  /** A mailbox row: its immutable content columns and its mutable state. */
  datatype Row = Row(hasContent: bool, content: Pointer, status: string, read: bool)

  datatype State = State(objects: Objects, rows: map<RowKey, Row>)

  /** One message to capture. Outbound captures always store content. */
  datatype Capture = Capture(row: RowKey, body: string, contentType: string, outbound: bool, storeContent: bool,
                             status: string) {
    function Stores(): bool { outbound || storeContent }
  }

  datatype Phase = PutObject | HeadObject | CreateRow(content: Option<Pointer>) | Done(ok: bool)

  /** A capture under way, with the object key computed for it. */
  datatype Writer = Writer(capture: Capture, key: string, phase: Phase)

  ghost function Key(sha: Sha, c: Capture): string
    requires HexDigest(sha)
  {
    ContentKey(sha, c.row.instance, c.row.agent, c.row.delivery)
  }

  /** What BeforeCreate demands of a row with content. */
  predicate ValidContent(p: Pointer) { p.key != "" && p.sha256 != "" && p.bytes > 0 }

  function NewRow(c: Capture, content: Option<Pointer>): Row {
    Row(c.Stores(), if content.Some? then content.value else Pointer("", "", 0, ""), c.status, c.outbound)
  }

  /** One store call of a capture. hasLength says whether a head reply carries the content length. */
  function WriterStep(sha: Sha, s: State, w: Writer, reply: Reply, hasLength: bool): (State, Writer)
  {
    var c := w.capture;
    match w.phase
    case PutObject =>
      if !c.Stores() then (s, w.(phase := CreateRow(None)))
      else if Trim(c.row.delivery) == "" || Trim(c.row.agent) == "" || Trim(c.body) == "" || reply == Fails then
        (s, w.(phase := Done(false)))
      else if w.key in s.objects then (s, w.(phase := if reply == Fine then HeadObject else Done(false)))
      else
        (s.(objects := s.objects[w.key := Object(c.body, sha(c.body), c.contentType)]),
         w.(phase := if reply == Fine then CreateRow(Some(FreshPointer(sha, w.key, c.body, c.contentType)))
                     else Done(false)))
    case HeadObject =>
      if reply != Fine || w.key !in s.objects then (s, w.(phase := Done(false)))
      else
        var p := ExistingPointer(s.objects[w.key], w.key, sha(c.body), |c.body|, c.contentType, hasLength);
        (s, w.(phase := if p.Success? then CreateRow(Some(p.value)) else Done(false)))
    case CreateRow(content) =>
      var row := NewRow(c, content);
      if (row.hasContent && !ValidContent(row.content)) || reply == Fails then (s, w.(phase := Done(false)))
      else if c.row in s.rows then (s, w.(phase := Done(reply == Fine)))
      else (s.(rows := s.rows[c.row := row]), w.(phase := Done(reply == Fine)))
    case Done(_) => (s, w)
  }

  datatype System = System(state: State, writers: map<nat, Writer>)

  /** Captures arrive and step; state changes update a row's status or read flag and nothing else. */
  datatype Event =
    | NewCapture(n: nat, capture: Capture)
    | WriterEvent(n: nat, reply: Reply, hasLength: bool)
    | ChangeState(row: RowKey, status: string, read: bool)

  ghost function Step(sha: Sha, s: System, e: Event): System
    requires HexDigest(sha)
  {
    match e
    case NewCapture(n, c) =>
      if n in s.writers then s else s.(writers := s.writers[n := Writer(c, Key(sha, c), PutObject)])
    case WriterEvent(n, reply, hasLength) =>
      if n !in s.writers then s
      else
        var (t, w) := WriterStep(sha, s.state, s.writers[n], reply, hasLength);
        System(t, s.writers[n := w])
    case ChangeState(k, status, read) =>
      if k !in s.state.rows then s
      else s.(state := s.state.(rows := s.state.rows[k := s.state.rows[k].(status := status, read := read)]))
  }

  ghost function Run(sha: Sha, s: System, es: seq<Event>): System
    requires HexDigest(sha)
    decreases |es|
  {
    if |es| == 0 then s else Step(sha, Run(sha, s, es[..|es| - 1]), es[|es| - 1])
  }

  function Empty(): System { System(State(map[], map[]), map[]) }

  // ---------------------------------------------------------------- invariant

  /** A row marked as having content describes a stored object. */
  predicate RowOk(o: Objects, r: Row) { r.hasContent ==> Describes(o, r.content) && ValidContent(r.content) }

  ghost predicate StateOk(sha: Sha, s: State) {
    ObjectsOk(sha, s.objects) && forall k <- s.rows :: RowOk(s.objects, s.rows[k])
  }

  /** A pointer in hand carries the digest of the writer's own body, and describes an object unless the
      head reply left out the length. */
  predicate WriterOk(sha: Sha, o: Objects, w: Writer) {
    w.phase.CreateRow? ==>
      if w.phase.content.None? then !w.capture.Stores()
      else w.phase.content.value.key == w.key && w.phase.content.value.sha256 == sha(w.capture.body)
           && (w.phase.content.value.bytes != 0 ==> Describes(o, w.phase.content.value))
  }

  ghost predicate Inv(sha: Sha, s: System) {
    && StateOk(sha, s.state)
    && forall n <- s.writers :: WriterOk(sha, s.state.objects, s.writers[n]) && Trimmed(s.writers[n].key)
  }

  lemma KeyIsTrimmed(sha: Sha, c: Capture)
    requires HexDigest(sha)
    ensures Trimmed(Key(sha, c))
  {
    var k := Key(sha, c);
    assert k[0] == 'm' && k[|k| - 1] == 't';
  }

  /** Objects are write-once, and a row's content columns never change. */
  ghost predicate Extends(s: State, s': State) {
    && WriteOnce(s.objects, s'.objects)
    && forall k <- s.rows :: k in s'.rows && SameContent(s.rows[k], s'.rows[k])
  }

  predicate SameContent(r: Row, r': Row) { r'.hasContent == r.hasContent && r'.content == r.content }

  lemma PutObjectOk(sha: Sha, s: State, w: Writer, reply: Reply, hasLength: bool)
    requires StateOk(sha, s) && w.phase.PutObject?
    ensures var (s', w') := WriterStep(sha, s, w, reply, hasLength);
            StateOk(sha, s') && WriterOk(sha, s'.objects, w') && Extends(s, s')
  {
    var s' := WriterStep(sha, s, w, reply, hasLength).0;
    forall k <- s'.rows ensures RowOk(s'.objects, s'.rows[k]) { assert RowOk(s.objects, s.rows[k]); }
  }

  lemma HeadObjectOk(sha: Sha, s: State, w: Writer, reply: Reply, hasLength: bool)
    requires HexDigest(sha) && StateOk(sha, s) && w.phase.HeadObject?
    ensures var (s', w') := WriterStep(sha, s, w, reply, hasLength); s' == s && WriterOk(sha, s'.objects, w')
  {
    var c := w.capture;
    HexIsNormal(sha(c.body));
    if w.key in s.objects {
      ExistingPointerDescribes(sha, s.objects, w.key, sha(c.body), |c.body|, c.contentType, hasLength);
    }
  }

  lemma WriterStepOk(sha: Sha, s: State, w: Writer, reply: Reply, hasLength: bool)
    requires HexDigest(sha) && StateOk(sha, s) && WriterOk(sha, s.objects, w)
    ensures var (s', w') := WriterStep(sha, s, w, reply, hasLength);
            StateOk(sha, s') && WriterOk(sha, s'.objects, w') && Extends(s, s')
  {
    if w.phase.PutObject? {
      PutObjectOk(sha, s, w, reply, hasLength);
    } else if w.phase.HeadObject? {
      HeadObjectOk(sha, s, w, reply, hasLength);
    }
  }

  lemma WriterStable(sha: Sha, o: Objects, o': Objects, w: Writer)
    requires WriteOnce(o, o') && WriterOk(sha, o, w)
    ensures WriterOk(sha, o', w)
  {
  }

  lemma WriterEventOk(sha: Sha, s: System, e: Event)
    requires HexDigest(sha) && Inv(sha, s) && e.WriterEvent? && e.n in s.writers
    ensures Inv(sha, Step(sha, s, e)) && Extends(s.state, Step(sha, s, e).state)
  {
    var s' := Step(sha, s, e);
    WriterStepOk(sha, s.state, s.writers[e.n], e.reply, e.hasLength);
    forall n <- s'.writers ensures WriterOk(sha, s'.state.objects, s'.writers[n]) {
      if n != e.n { WriterStable(sha, s.state.objects, s'.state.objects, s.writers[n]); }
    }
  }

  lemma StepOk(sha: Sha, s: System, e: Event)
    requires HexDigest(sha) && Inv(sha, s)
    ensures Inv(sha, Step(sha, s, e)) && Extends(s.state, Step(sha, s, e).state)
  {
    if e.WriterEvent? && e.n in s.writers {
      WriterEventOk(sha, s, e);
    } else if e.NewCapture? {
      KeyIsTrimmed(sha, e.capture);
    }
  }

  lemma ExtendsTransitive(a: State, b: State, c: State)
    requires Extends(a, b) && Extends(b, c)
    ensures Extends(a, c)
  {
    forall k <- a.rows ensures k in c.rows && SameContent(a.rows[k], c.rows[k]) {
      assert SameContent(a.rows[k], b.rows[k]) && SameContent(b.rows[k], c.rows[k]);
    }
  }

  lemma {:induction false} RunOk(sha: Sha, s: System, es: seq<Event>)
    requires HexDigest(sha) && Inv(sha, s)
    ensures Inv(sha, Run(sha, s, es)) && Extends(s.state, Run(sha, s, es).state)
    decreases |es|
  {
    if |es| > 0 {
      var m := Run(sha, s, es[..|es| - 1]);
      RunOk(sha, s, es[..|es| - 1]);
      StepOk(sha, m, es[|es| - 1]);
      ExtendsTransitive(s.state, m.state, Run(sha, s, es).state);
    }
  }

  // ---------------------------------------------------------------- main results

  /** In every run, every row marked as having content points to an object whose digest and length match
      the row, and that stays so in every continuation. */
  lemma ContentMatchesForever(sha: Sha, past: seq<Event>, future: seq<Event>, k: RowKey)
    requires HexDigest(sha)
    requires var s := Run(sha, Empty(), past).state; k in s.rows && s.rows[k].hasContent
    ensures var s, s' := Run(sha, Empty(), past).state, Run(sha, Run(sha, Empty(), past), future).state;
            && k in s'.rows && SameContent(s.rows[k], s'.rows[k])
            && Describes(s.objects, s.rows[k].content) && Describes(s'.objects, s'.rows[k].content)
            && s'.objects[s'.rows[k].content.key] == s.objects[s.rows[k].content.key]
            && s'.rows[k].content.sha256 == sha(s'.objects[s'.rows[k].content.key].body)
  {
    var m := Run(sha, Empty(), past);
    RunOk(sha, Empty(), past);
    RunOk(sha, m, future);
    var s' := Run(sha, m, future).state;
    assert SameContent(m.state.rows[k], s'.rows[k]) && RowOk(s'.objects, s'.rows[k])
      && RowOk(m.state.objects, m.state.rows[k]);
  }

  predicate NoClash(sha: Sha, x: string, y: string) { sha(x) == sha(y) ==> x == y }

  /** A captured body is what is read back: once a capture creates its row, every later read through the row
      returns exactly that body, or reports that it exceeds the limit, even if another delivery with a
      colliding key wrote the object first. */
  lemma CapturedBodyIsReadBack(sha: Sha, past: seq<Event>, n: nat, reply: Reply, hasLength: bool, future: seq<Event>,
                               limit: int)
    requires HexDigest(sha) && limit > 0
    requires var s := Run(sha, Empty(), past);
             && n in s.writers && s.writers[n].phase.CreateRow? && s.writers[n].capture.Stores()
             && s.writers[n].capture.row !in s.state.rows
             && s.writers[n].capture.row in Step(sha, s, WriterEvent(n, reply, hasLength)).state.rows
    requires var s := Run(sha, Empty(), past);
             forall k <- s.state.objects :: NoClash(sha, s.state.objects[k].body, s.writers[n].capture.body)
    ensures var s := Run(sha, Empty(), past);
            var c := s.writers[n].capture;
            var s' := Run(sha, Step(sha, s, WriterEvent(n, reply, hasLength)), future).state;
            && c.row in s'.rows
            && var got := GetContent(sha, s'.objects, s'.rows[c.row].content, limit);
               if |c.body| <= limit then got.Success? && got.value.body == c.body && got.value.bytes == |c.body|
               else got.Failure?
  {
    var s := Run(sha, Empty(), past);
    var c := s.writers[n].capture;
    var s1 := Step(sha, s, WriterEvent(n, reply, hasLength));
    RunOk(sha, Empty(), past);
    StepOk(sha, s, WriterEvent(n, reply, hasLength));
    RunOk(sha, s1, future);
    var s' := Run(sha, s1, future).state;
    assert WriterOk(sha, s.state.objects, s.writers[n]);
    assert RowOk(s'.objects, s'.rows[c.row]) && SameContent(s1.state.rows[c.row], s'.rows[c.row]);
    TrimmedIsFixed(s.writers[n].key);
    HexIsNormal(sha(c.body));
  }
}
