/** What the answer to a mailbox capture rests on, in every interleaving (internal/commworker/mailbox_capture.go,
    internal/controlplane/comm_mailbox_capture.go, internal/commworker/store.go). */
module MailboxAnswers {
  import opened Base
  import opened Text
  import opened ContentStore
  import opened Mailbox

  /** The object key of a row. */
  ghost function RowsKey(sha: Sha, k: RowKey): string
    requires HexDigest(sha)
  {
    ContentKey(sha, k.instance, k.agent, k.delivery)
  }

  /** Content rows point to the key of their own delivery. */
  ghost predicate RowsKeyed(sha: Sha, rows: map<RowKey, Row>)
    requires HexDigest(sha)
  {
    forall k <- rows | rows[k].hasContent :: rows[k].content.key == RowsKey(sha, k)
  }

  /** The object at the writer's key has the digest of its body. */
  predicate Holds(sha: Sha, o: Objects, w: Writer) { w.key in o && o[w.key].digest == sha(w.capture.body) }

  /** A capture answered with success has its row, and its body's digest if it stores content. */
  predicate AnswerOk(sha: Sha, s: State, w: Writer) {
    w.phase == Done(true) ==> w.capture.row in s.rows && (w.capture.Stores() ==> Holds(sha, s.objects, w))
  }

  ghost predicate WriterFits(sha: Sha, s: State, w: Writer)
    requires HexDigest(sha)
  {
    w.key == RowsKey(sha, w.capture.row) && AnswerOk(sha, s, w)
  }

  ghost predicate Fits(sha: Sha, s: System)
    requires HexDigest(sha)
  {
    RowsKeyed(sha, s.state.rows) && forall n <- s.writers :: WriterFits(sha, s.state, s.writers[n])
  }

  /** Storing the body creates no row and gives no good answer. */
  lemma StoreStep(sha: Sha, s: State, w: Writer, reply: Reply, hasLength: bool)
    requires w.phase.PutObject? || w.phase.HeadObject?
    ensures var (s', w') := WriterStep(sha, s, w, reply, hasLength);
            s'.rows == s.rows && w'.phase != Done(true) && w'.key == w.key && w'.capture == w.capture
  {
  }

  /** Creating the row: it is there afterwards, old or new, and a new one carries the writer's pointer. */
  lemma CreateStep(sha: Sha, s: State, w: Writer, reply: Reply, hasLength: bool)
    requires WriterOk(sha, s.objects, w) && w.phase.CreateRow?
    ensures var (s', w') := WriterStep(sha, s, w, reply, hasLength);
            && s'.objects == s.objects && w'.key == w.key && w'.capture == w.capture && AnswerOk(sha, s', w')
            && (s'.rows == s.rows
                || (s'.rows == s.rows[w.capture.row := s'.rows[w.capture.row]] && w.capture.row in s'.rows
                    && (s'.rows[w.capture.row].hasContent ==> s'.rows[w.capture.row].content.key == w.key)))
  {
  }

  lemma KeyedPut(sha: Sha, rows: map<RowKey, Row>, k: RowKey, row: Row)
    requires HexDigest(sha) && RowsKeyed(sha, rows) && (row.hasContent ==> row.content.key == RowsKey(sha, k))
    ensures RowsKeyed(sha, rows[k := row])
  {
  }

  /** One store call of a capture. */
  lemma CaptureStep(sha: Sha, s: State, w: Writer, reply: Reply, hasLength: bool)
    requires HexDigest(sha) && WriterOk(sha, s.objects, w) && RowsKeyed(sha, s.rows) && WriterFits(sha, s, w)
    ensures var (s', w') := WriterStep(sha, s, w, reply, hasLength); RowsKeyed(sha, s'.rows) && WriterFits(sha, s', w')
  {
    var (s', w') := WriterStep(sha, s, w, reply, hasLength);
    if w.phase.CreateRow? {
      CreateStep(sha, s, w, reply, hasLength);
      if s'.rows != s.rows {
        KeyedPut(sha, s.rows, w.capture.row, s'.rows[w.capture.row]);
      }
    } else if !w.phase.Done? {
      StoreStep(sha, s, w, reply, hasLength);
    }
  }

  lemma FitsStays(sha: Sha, s: State, s': State, w: Writer)
    requires HexDigest(sha) && Extends(s, s') && WriterFits(sha, s, w)
    ensures WriterFits(sha, s', w)
  {
  }

  lemma CaptureEventFits(sha: Sha, s: System, e: Event)
    requires HexDigest(sha) && Fits(sha, s)
    ensures Inv(sha, s) && e.WriterEvent? && e.n in s.writers ==> Fits(sha, Step(sha, s, e))
  {
    if Inv(sha, s) && e.WriterEvent? && e.n in s.writers {
      var s' := Step(sha, s, e);
      CaptureStep(sha, s.state, s.writers[e.n], e.reply, e.hasLength);
      StepOk(sha, s, e);
      forall n <- s'.writers ensures WriterFits(sha, s'.state, s'.writers[n]) {
        if n != e.n {
          FitsStays(sha, s.state, s'.state, s.writers[n]);
        }
      }
    }
  }

  lemma ChangeFits(sha: Sha, s: System, e: Event)
    requires HexDigest(sha) && Fits(sha, s) && e.ChangeState?
    ensures Fits(sha, Step(sha, s, e))
  {
    var s' := Step(sha, s, e);
    forall k <- s'.state.rows | s'.state.rows[k].hasContent ensures s'.state.rows[k].content.key == RowsKey(sha, k) {
      assert s.state.rows[k].hasContent;
    }
  }

  lemma {:induction false} RunFits(sha: Sha, es: seq<Event>)
    requires HexDigest(sha)
    ensures Fits(sha, Run(sha, Empty(), es))
    decreases |es|
  {
    if |es| > 0 {
      var s, e := Run(sha, Empty(), es[..|es| - 1]), es[|es| - 1];
      RunFits(sha, es[..|es| - 1]);
      RunOk(sha, Empty(), es[..|es| - 1]);
      if e.ChangeState? {
        ChangeFits(sha, s, e);
      } else if e.WriterEvent? && e.n in s.writers {
        CaptureEventFits(sha, s, e);
      }
    }
  }

  // ---------------------------------------------------------------- main results

  /** What a reader gets for the row of a capture: its body, or the report that it exceeds the limit. */
  ghost predicate ReadsBody(sha: Sha, s: State, c: Capture, limit: int)
    requires c.row in s.rows
  {
    var got := GetContent(sha, s.objects, s.rows[c.row].content, limit);
    if |c.body| <= limit then got.Success? && got.value.body == c.body else got.Failure?
  }

  lemma HeldIsRead(sha: Sha, s: State, w: Writer, limit: int)
    requires HexDigest(sha) && limit > 0 && StateOk(sha, s) && RowsKeyed(sha, s.rows) && WriterFits(sha, s, w)
    requires Trimmed(w.key) && w.phase == Done(true) && w.capture.Stores() && s.rows[w.capture.row].hasContent
    requires NoClash(sha, s.objects[w.key].body, w.capture.body)
    ensures ReadsBody(sha, s, w.capture, limit)
  {
    assert RowOk(s.objects, s.rows[w.capture.row]);
    TrimmedIsFixed(w.key);
    HexIsNormal(sha(w.capture.body));
  }

  /** In every run a capture that was answered with success has its row. If it stores content and that row has content,
      readers get exactly its body. */
  lemma CaptureAnswers(sha: Sha, es: seq<Event>, n: nat, limit: int)
    requires HexDigest(sha) && limit > 0
    ensures var s := Run(sha, Empty(), es);
            n in s.writers && s.writers[n].phase == Done(true) ==>
              var c := s.writers[n].capture;
              && c.row in s.state.rows
              && (c.Stores() && s.state.rows[c.row].hasContent
                  && (forall k <- s.state.objects :: NoClash(sha, s.state.objects[k].body, c.body)) ==>
                    ReadsBody(sha, s.state, c, limit))
  {
    var s := Run(sha, Empty(), es);
    RunFits(sha, es);
    RunOk(sha, Empty(), es);
    if n in s.writers && s.writers[n].phase == Done(true) {
      var c := s.writers[n].capture;
      if c.Stores() && s.state.rows[c.row].hasContent
        && forall k <- s.state.objects :: NoClash(sha, s.state.objects[k].body, c.body) {
        HeldIsRead(sha, s.state, s.writers[n], limit);
      }
    }
  }

  /** Exactly when the content of a capture that is answered with success is reachable through its row: unless the row
      was there before without content. Rows never change their content columns, so this holds for good. */
  lemma ContentReachableIff(sha: Sha, s: State, w: Writer, reply: Reply, hasLength: bool)
    requires w.phase.CreateRow? && w.capture.Stores()
    ensures var (s', w') := WriterStep(sha, s, w, reply, hasLength);
            w'.phase == Done(true) ==>
              w.capture.row in s'.rows
              && (s'.rows[w.capture.row].hasContent
                <==> !(w.capture.row in s.rows && !s.rows[w.capture.row].hasContent))
  {
  }

  /** In every run and every continuation: the content of a capture answered with success can be reached through its row
      for good, or never, and never exactly when the row was there without content at the moment of the answer. */
  lemma ContentReachableForeverIff(sha: Sha, past: seq<Event>, n: nat, hasLength: bool, future: seq<Event>)
    requires HexDigest(sha)
    ensures var s := Run(sha, Empty(), past);
            n in s.writers && s.writers[n].phase.CreateRow? && s.writers[n].capture.Stores() ==>
              var s1, k := Step(sha, s, WriterEvent(n, Fine, hasLength)), s.writers[n].capture.row;
              var later := Run(sha, s1, future).state;
              s1.writers[n].phase == Done(true) ==>
                k in later.rows && (later.rows[k].hasContent <==> !(k in s.state.rows && !s.state.rows[k].hasContent))
  {
    var s := Run(sha, Empty(), past);
    RunOk(sha, Empty(), past);
    if n in s.writers && s.writers[n].phase.CreateRow? && s.writers[n].capture.Stores() {
      ContentReachableIff(sha, s.state, s.writers[n], Fine, hasLength);
      var s1 := Step(sha, s, WriterEvent(n, Fine, hasLength));
      StepOk(sha, s, WriterEvent(n, Fine, hasLength));
      RunOk(sha, s1, future);
      if s1.writers[n].phase == Done(true) {
        assert SameContent(s1.state.rows[s.writers[n].capture.row],
          Run(sha, s1, future).state.rows[s.writers[n].capture.row]);
      }
    }
  }

  // ---------------------------------------------------------------- a bounce comes first

  /** A message that bounced without content, and the same message captured again with its content. */
  function Bounce(k: RowKey, body: string): Capture { Capture(k, body, "text/plain", false, false, "bounced") }

  function Retry(k: RowKey, body: string): Capture { Capture(k, body, "text/plain", false, true, "accepted") }

  lemma RunNext(sha: Sha, es: seq<Event>, e: Event)
    requires HexDigest(sha)
    ensures Run(sha, Empty(), es + [e]) == Step(sha, Run(sha, Empty(), es), e)
  {
    assert (es + [e])[..|es|] == es;
  }

  /** The bounce alone: it creates the row, without content. */
  lemma BounceRuns(sha: Sha, k: RowKey, body: string) returns (es: seq<Event>)
    requires HexDigest(sha)
    ensures var s := Run(sha, Empty(), es);
            && s.state == State(map[], map[k := NewRow(Bounce(k, body), None)])
            && s.writers == map[0 := Writer(Bounce(k, body), RowsKey(sha, k), Done(true))]
  {
    var go := WriterEvent(0, Fine, true);
    var w := Writer(Bounce(k, body), RowsKey(sha, k), PutObject);
    es := [NewCapture(0, Bounce(k, body))];
    assert es[..0] == [];
    assert Run(sha, Empty(), es) == System(State(map[], map[]), map[0 := w]);
    RunNext(sha, es, go);
    es := es + [go];
    assert Run(sha, Empty(), es) == System(State(map[], map[]), map[0 := w.(phase := CreateRow(None))]);
    RunNext(sha, es, go);
    es := es + [go];
  }

  /** Such a run: after the bounce a capture of the same row with content is answered with success. Its body is stored,
      but the row has no content and leads nobody to it. */
  lemma SuccessWithoutReachableContent(sha: Sha, k: RowKey, body: string) returns (es: seq<Event>)
    requires HexDigest(sha) && Trim(k.delivery) != "" && Trim(k.agent) != "" && Trim(body) != ""
    ensures var s := Run(sha, Empty(), es);
            && 1 in s.writers && s.writers[1].capture == Retry(k, body) && s.writers[1].phase == Done(true)
            && k in s.state.rows && !s.state.rows[k].hasContent && RowsKey(sha, k) in s.state.objects
  {
    es := BounceRuns(sha, k, body);
    var s0, c, key := Run(sha, Empty(), es), Retry(k, body), RowsKey(sha, k);
    var go := WriterEvent(1, Fine, true);
    RunNext(sha, es, NewCapture(1, c));
    es := es + [NewCapture(1, c)];
    var s1 := Run(sha, Empty(), es);
    assert s1.state == s0.state && s1.writers[1] == Writer(c, key, PutObject);
    RunNext(sha, es, go);
    es := es + [go];
    var s2 := Run(sha, Empty(), es);
    assert s2.state.rows == s0.state.rows && key in s2.state.objects;
    assert s2.writers[1].phase == CreateRow(Some(FreshPointer(sha, key, body, "text/plain")));
    HexIsNonBlank(sha, key, body);
    RunNext(sha, es, go);
    es := es + [go];
  }

  lemma HexIsNonBlank(sha: Sha, key: string, body: string)
    requires HexDigest(sha) && Trim(body) != "" && key != ""
    ensures ValidContent(FreshPointer(sha, key, body, "text/plain"))
  {
    assert IsHex(sha(body));
    ZeroLengthNotBlank(body);
  }
}
