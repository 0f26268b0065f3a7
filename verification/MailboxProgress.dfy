/** Captures come to an end: after a crash, a redelivery of the same message finds its object and creates the row, and a
    capture whose key holds another body is refused (internal/commmailbox/content_store.go,
    internal/commworker/mailbox_capture.go). */
module MailboxProgress {
  import opened Base
  import opened Text
  import opened ContentStore
  import opened Mailbox
  import opened MailboxAnswers

  /** The capture stores content and names a delivery, an agent and a body. */
  predicate Complete(c: Capture) {
    c.Stores() && Trim(c.row.delivery) != "" && Trim(c.row.agent) != "" && Trim(c.body) != ""
  }

  /** The object has the digest and the length of the body. */
  predicate SameBody(sha: Sha, obj: Object, body: string) { obj.digest == sha(body) && |obj.body| == |body| }

  /** The capture will be done, with its row, after k more of its own calls. */
  predicate OnTrack(sha: Sha, s: State, w: Writer, k: nat) {
    match w.phase
    case PutObject => false
    case HeadObject => k >= 2 && w.key in s.objects && SameBody(sha, s.objects[w.key], w.capture.body)
    case CreateRow(Some(p)) => k >= 1 && ValidContent(p)
    case CreateRow(None) => k >= 1 && !w.capture.Stores()
    case Done(ok) => ok && w.capture.row in s.rows
  }

  /** The capture is refused, after one more of its own calls at most. */
  predicate Refused(sha: Sha, s: State, w: Writer, k: nat) {
    match w.phase
    case HeadObject => k >= 1 && w.key in s.objects && !SameBody(sha, s.objects[w.key], w.capture.body)
    case Done(ok) => !ok
    case _ => false
  }

  // ---------------------------------------------------------------- the first call

  lemma FreshIsValid(sha: Sha, key: string, body: string, ct: string)
    requires HexDigest(sha) && Trim(body) != "" && key != ""
    ensures ValidContent(FreshPointer(sha, key, body, ct))
  {
    assert IsHex(sha(body));
    ZeroLengthNotBlank(body);
  }

  /** The put, answered: a free key takes the body, a taken one is looked at. */
  lemma FirstCall(sha: Sha, s: State, w: Writer)
    requires HexDigest(sha) && w.phase.PutObject? && w.key != ""
    ensures var (s', w') := WriterStep(sha, s, w, Fine, true);
            && s'.rows == s.rows
            && (Complete(w.capture) ==>
                  if w.key in s.objects && !SameBody(sha, s.objects[w.key], w.capture.body) then Refused(sha, s', w', 1)
                  else OnTrack(sha, s', w', 2))
            && (!w.capture.Stores() ==> OnTrack(sha, s', w', 1))
            && (w.capture.Stores() && !Complete(w.capture) ==> w'.phase == Done(false) && s' == s)
  {
    if Complete(w.capture) {
      FreshIsValid(sha, w.key, w.capture.body, w.capture.contentType);
    }
  }

  // ---------------------------------------------------------------- the calls after it

  lemma HeadCall(sha: Sha, s: State, w: Writer, k: nat)
    requires HexDigest(sha) && ObjectsOk(sha, s.objects) && w.phase.HeadObject? && w.key != "" && Complete(w.capture)
    ensures var (s', w') := WriterStep(sha, s, w, Fine, true);
            && s' == s
            && (OnTrack(sha, s, w, k) ==> k >= 2 && OnTrack(sha, s', w', k - 1))
            && (Refused(sha, s, w, k) ==> w'.phase == Done(false))
  {
    if w.key in s.objects {
      AdoptedIff(sha, s.objects, w.key, w.capture.body, w.capture.contentType, true);
      assert IsHex(sha(w.capture.body));
      ZeroLengthNotBlank(w.capture.body);
    }
  }

  lemma RowCall(sha: Sha, s: State, w: Writer, k: nat)
    requires w.phase.CreateRow? && OnTrack(sha, s, w, k)
    ensures var (s', w') := WriterStep(sha, s, w, Fine, true); w'.phase == Done(true) && w.capture.row in s'.rows
  {
  }

  /** A writer's own call brings it nearer to its end. */
  lemma OwnCall(sha: Sha, s: State, w: Writer, k: nat)
    requires HexDigest(sha) && ObjectsOk(sha, s.objects) && w.key != "" && (w.phase.HeadObject? ==> Complete(w.capture))
    ensures var (s', w') := WriterStep(sha, s, w, Fine, true);
            && (w'.phase.HeadObject? && w.phase.HeadObject? ==> Complete(w'.capture))
            && (OnTrack(sha, s, w, k) ==> OnTrack(sha, s', w', if k == 0 then 0 else k - 1))
            && (Refused(sha, s, w, k) ==> Refused(sha, s', w', 0) && s' == s)
  {
    if w.phase.HeadObject? {
      HeadCall(sha, s, w, k);
    } else if w.phase.CreateRow? && OnTrack(sha, s, w, k) {
      RowCall(sha, s, w, k);
    }
  }

  /** Other writers cannot push it off its way. */
  lemma OthersKeep(sha: Sha, s: State, s': State, w: Writer, k: nat)
    requires Extends(s, s')
    ensures OnTrack(sha, s, w, k) ==> OnTrack(sha, s', w, k)
    ensures Refused(sha, s, w, k) ==> Refused(sha, s', w, k)
  {
  }

  // ---------------------------------------------------------------- over runs

  function OwnCalls(es: seq<Event>, n: nat): nat {
    if es == [] then 0
    else OwnCalls(es[..|es| - 1], n) + if es[|es| - 1].WriterEvent? && es[|es| - 1].n == n then 1 else 0
  }

  /** All calls of writer n are answered, head replies with the length. */
  predicate AllAnswered(es: seq<Event>, n: nat) {
    forall e <- es :: e.WriterEvent? && e.n == n ==> e.reply == Fine && e.hasLength
  }

  /** The writer is set up and past its first call. */
  predicate Going(s: System, n: nat) {
    && n in s.writers && s.writers[n].key != ""
    && (s.writers[n].phase.HeadObject? ==> Complete(s.writers[n].capture))
  }

  function Less(k: nat, own: nat): nat { if own >= k then 0 else k - own }

  /** What a call, own or not, does for the writer. */
  predicate Kept(sha: Sha, s: State, w: Writer, s': State, w': Writer, k: nat, k': nat) {
    && (OnTrack(sha, s, w, k) ==> OnTrack(sha, s', w', k'))
    && (Refused(sha, s, w, k) ==> Refused(sha, s', w', k'))
  }

  lemma OwnEvent(sha: Sha, s: System, e: Event, n: nat, k: nat)
    requires HexDigest(sha) && ObjectsOk(sha, s.state.objects) && Going(s, n) && !s.writers[n].phase.PutObject?
    requires e == WriterEvent(n, Fine, true)
    ensures var s' := Step(sha, s, e);
            && Going(s', n) && !s'.writers[n].phase.PutObject?
            && Kept(sha, s.state, s.writers[n], s'.state, s'.writers[n], k, Less(k, 1))
  {
    OwnCall(sha, s.state, s.writers[n], k);
  }

  lemma OtherEvent(sha: Sha, s: System, e: Event, n: nat, k: nat)
    requires HexDigest(sha) && Inv(sha, s) && n in s.writers && !(e.WriterEvent? && e.n == n)
    ensures var s' := Step(sha, s, e);
            && n in s'.writers && s'.writers[n] == s.writers[n]
            && Kept(sha, s.state, s.writers[n], s'.state, s'.writers[n], k, k)
  {
    StepOk(sha, s, e);
    OthersKeep(sha, s.state, Step(sha, s, e).state, s.writers[n], k);
  }

  lemma StepTrack(sha: Sha, s: System, e: Event, n: nat, k: nat)
    requires HexDigest(sha) && Inv(sha, s) && Going(s, n) && !s.writers[n].phase.PutObject?
    requires e.WriterEvent? && e.n == n ==> e.reply == Fine && e.hasLength
    ensures var s' := Step(sha, s, e);
            && Going(s', n) && !s'.writers[n].phase.PutObject?
            && Kept(sha, s.state, s.writers[n], s'.state, s'.writers[n], k,
                    Less(k, if e.WriterEvent? && e.n == n then 1 else 0))
  {
    if e.WriterEvent? && e.n == n {
      OwnEvent(sha, s, e, n, k);
    } else {
      OtherEvent(sha, s, e, n, k);
    }
  }

  lemma {:induction false} RunTrack(sha: Sha, s: System, es: seq<Event>, n: nat, k: nat)
    requires HexDigest(sha) && Inv(sha, s) && Going(s, n) && !s.writers[n].phase.PutObject? && AllAnswered(es, n)
    ensures var s' := Run(sha, s, es);
            var k' := Less(k, OwnCalls(es, n));
            && Going(s', n) && !s'.writers[n].phase.PutObject?
            && Kept(sha, s.state, s.writers[n], s'.state, s'.writers[n], k, k')
    decreases |es|
  {
    if |es| > 0 {
      var init, e := es[..|es| - 1], es[|es| - 1];
      assert e in es;
      RunTrack(sha, s, init, n, k);
      RunOk(sha, s, init);
      StepTrack(sha, Run(sha, s, init), e, n, Less(k, OwnCalls(init, n)));
    }
  }

  /** From every reachable state and whoever else runs: a complete capture whose calls are all answered is done, with
      its row, after three calls of its own, if at the first of them its key is free or holds an object of its digest
      and length, for instance the one an interrupted delivery of the same message left; with any other object there it
      is refused after two. */
  lemma CapturesComplete(sha: Sha, past: seq<Event>, n: nat, future: seq<Event>)
    requires HexDigest(sha) && AllAnswered(future, n)
    ensures var s := Run(sha, Empty(), past);
            n in s.writers && s.writers[n].phase.PutObject? && Complete(s.writers[n].capture) ==>
              var w := s.writers[n];
              var end := Run(sha, Step(sha, s, WriterEvent(n, Fine, true)), future);
              n in end.writers
              && if w.key in s.state.objects && !SameBody(sha, s.state.objects[w.key], w.capture.body)
                 then OwnCalls(future, n) >= 1 ==> end.writers[n].phase == Done(false)
                 else OwnCalls(future, n) >= 2 ==>
                   end.writers[n].phase == Done(true) && end.writers[n].capture.row in end.state.rows
  {
    var s := Run(sha, Empty(), past);
    RunOk(sha, Empty(), past);
    if n in s.writers && s.writers[n].phase.PutObject? && Complete(s.writers[n].capture) {
      RunFits(sha, past);
      assert PREFIX[0] == 'm';
      CompleteFrom(sha, s, n, future);
    }
  }

  lemma CompleteFrom(sha: Sha, s: System, n: nat, future: seq<Event>)
    requires HexDigest(sha) && Inv(sha, s) && AllAnswered(future, n)
    requires n in s.writers && s.writers[n].phase.PutObject? && Complete(s.writers[n].capture) && s.writers[n].key != ""
    ensures var w := s.writers[n];
            var end := Run(sha, Step(sha, s, WriterEvent(n, Fine, true)), future);
            n in end.writers
            && if w.key in s.state.objects && !SameBody(sha, s.state.objects[w.key], w.capture.body)
               then OwnCalls(future, n) >= 1 ==> end.writers[n].phase == Done(false)
               else OwnCalls(future, n) >= 2 ==>
                 end.writers[n].phase == Done(true) && end.writers[n].capture.row in end.state.rows
  {
    var w := s.writers[n];
    var s1 := Step(sha, s, WriterEvent(n, Fine, true));
    FirstCall(sha, s.state, w);
    StepOk(sha, s, WriterEvent(n, Fine, true));
    RunTrack(sha, s1, future, n, 2);
    RunTrack(sha, s1, future, n, 1);
  }

  /** A refused capture creates no row, and neither does one that is incomplete. */
  lemma RefusedCreatesNothing(sha: Sha, s: State, w: Writer)
    requires HexDigest(sha) && ObjectsOk(sha, s.objects) && w.key != "" && w.phase.PutObject? && w.capture.Stores()
    requires !Complete(w.capture) || (w.key in s.objects && !SameBody(sha, s.objects[w.key], w.capture.body))
    ensures var (s1, w1) := WriterStep(sha, s, w, Fine, true);
            var (s2, w2) := WriterStep(sha, s1, w1, Fine, true);
            s2 == s && w2.phase == Done(false)
  {
    FirstCall(sha, s, w);
    var (s1, w1) := WriterStep(sha, s, w, Fine, true);
    if Complete(w.capture) {
      HeadCall(sha, s1, w1, 1);
    }
  }

  /** A new row has the capture's status, counts as read exactly if it is outbound, and has content exactly if it stores
      it. */
  lemma CreatedRow(sha: Sha, s: State, w: Writer, k: nat)
    requires w.phase.CreateRow? && OnTrack(sha, s, w, k) && w.capture.row !in s.rows
    requires w.phase.content.Some? ==> w.capture.Stores()
    ensures var row := WriterStep(sha, s, w, Fine, true).0.rows[w.capture.row];
            && row.status == w.capture.status && row.read == w.capture.outbound && row.hasContent == w.capture.Stores()
            && (w.capture.Stores() ==> row.content == w.phase.content.value)
  {
  }

  /** A capture that stores no content creates its row in its second call. */
  lemma BareCapture(sha: Sha, s: State, w: Writer)
    requires HexDigest(sha) && w.phase.PutObject? && w.key != "" && !w.capture.Stores()
    ensures var (s1, w1) := WriterStep(sha, s, w, Fine, true);
            var (s2, w2) := WriterStep(sha, s1, w1, Fine, true);
            s2.objects == s.objects && w2.phase == Done(true) && w.capture.row in s2.rows
  {
    FirstCall(sha, s, w);
    var (s1, w1) := WriterStep(sha, s, w, Fine, true);
    RowCall(sha, s1, w1, 1);
  }

  /** A store call without an answer ends the capture with an error, having done nothing if it failed and all of its
      work if only its reply was lost. */
  lemma UnansweredCallEnds(sha: Sha, s: State, w: Writer, reply: Reply, hasLength: bool)
    requires reply != Fine && !w.phase.Done? && (w.phase.PutObject? ==> w.capture.outbound || w.capture.storeContent)
    ensures var (s', w') := WriterStep(sha, s, w, reply, hasLength);
            && w'.phase == Done(false)
            && s' == if reply == Fails then s else WriterStep(sha, s, w, Fine, hasLength).0
  {
  }

  /** The put under a free key stores the capture's body with its digest and type, and the row will say the same. */
  lemma FirstPut(sha: Sha, s: State, w: Writer, hasLength: bool)
    requires Complete(w.capture) && w.phase.PutObject? && w.key !in s.objects
    ensures var (s', w') := WriterStep(sha, s, w, Fine, hasLength);
            var c := w.capture;
            && s' == s.(objects := s.objects[w.key := Object(c.body, sha(c.body), c.contentType)])
            && w'.phase == CreateRow(Some(Pointer(w.key, sha(c.body), |c.body|, c.contentType)))
  {
  }

  /** Outbound captures store content, inbound ones if they are told to; without content there is no put. */
  lemma StoringCaptures(sha: Sha, s: State, w: Writer, reply: Reply, hasLength: bool)
    requires w.phase.PutObject?
    ensures var (s', w') := WriterStep(sha, s, w, reply, hasLength);
            if w.capture.outbound || w.capture.storeContent then w'.phase != CreateRow(None)
            else s' == s && w'.phase == CreateRow(None)
  {
  }

  /** A change of state gives the row its new status and read flag and leaves everything else. */
  lemma ChangeTakesEffect(sha: Sha, s: System, k: RowKey, status: string, read: bool)
    requires HexDigest(sha)
    ensures var s' := Step(sha, s, ChangeState(k, status, read));
            && s'.state.objects == s.state.objects && s'.writers == s.writers && s'.state.rows.Keys == s.state.rows.Keys
            && (forall k' <- s.state.rows | k' != k :: s'.state.rows[k'] == s.state.rows[k'])
            && (k in s.state.rows ==>
                  && s'.state.rows[k].status == status && s'.state.rows[k].read == read
                  && SameContent(s.state.rows[k], s'.state.rows[k]))
  {
  }
}
