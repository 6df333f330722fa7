/** The main-thread side of the worker-to-main channel: `main_cb` empties the
    receiver in one non-blocking pass, attaches buffers as their messages come
    and hands every completion bundle it drained to `on_completions_arrival`
    in one call. Buffers and bundles are opaque here (type parameters `B` and
    `C`); the client records the calls it receives. */
module ThreadMain {
  import opened Wrappers

  /** Messages sent from the worker pool to the main thread. */
  datatype MainMessage<B, C> = AttachBuf(buf: B) | HandleCompletions(bundle: C)

  /** The calls `main_cb` makes on the client. */
  datatype ClientCall<B, C> = AttachCall(buf: B) | ArrivalCall(bundles: seq<C>)

  /** The error `main_cb` propagates with `?`. */
  datatype CbError<B> = AttachFailed(buf: B) | ArrivalFailed

  /** The receiving end of the unbounded channel. */
  class Receiver<B, C> {
    var queue: seq<MainMessage<B, C>>

    constructor (queue: seq<MainMessage<B, C>>)
      ensures this.queue == queue
    {
      this.queue := queue;
    }

    /** `try_recv`: the oldest message, or nothing when the queue is empty. */
    method TryRecv() returns (msg: Option<MainMessage<B, C>>)
      modifies this`queue
      ensures old(queue) == [] ==> msg == None && queue == []
      ensures old(queue) != [] ==> msg == Some(old(queue)[0]) && queue == old(queue)[1..]
    {
      if queue == [] {
        msg := None;
      } else {
        msg := Some(queue[0]);
        queue := queue[1..];
      }
    }
  }

  /** The completion client. Whether `attach_buffer` and
      `on_completions_arrival` succeed is decided by code that is not part of
      this model and is given as the functions `attachOk` and `arrivalOk`. */
  class Client<B, C> {
    const attachOk: B -> bool
    const arrivalOk: seq<C> -> bool
    var calls: seq<ClientCall<B, C>>

    constructor (attachOk: B -> bool, arrivalOk: seq<C> -> bool)
      ensures this.attachOk == attachOk && this.arrivalOk == arrivalOk && calls == []
    {
      this.attachOk := attachOk;
      this.arrivalOk := arrivalOk;
      calls := [];
    }

    method AttachBuffer(buf: B) returns (ok: bool)
      modifies this`calls
      ensures ok == attachOk(buf) && calls == old(calls) + [AttachCall(buf)]
    {
      ok := attachOk(buf);
      calls := calls + [AttachCall(buf)];
    }

    method OnCompletionsArrival(bundles: seq<C>) returns (ok: bool)
      modifies this`calls
      ensures ok == arrivalOk(bundles) && calls == old(calls) + [ArrivalCall(bundles)]
    {
      ok := arrivalOk(bundles);
      calls := calls + [ArrivalCall(bundles)];
    }
  }

  /** What one drain leaves behind: the messages still queued, the client
      calls made, and the result. */
  datatype Drained<B, C> = Drained(rest: seq<MainMessage<B, C>>, calls: seq<ClientCall<B, C>>, outcome: Outcome<CbError<B>>)

  /** The drain of `q` after the bundles `bundles` have been collected. */
  function DrainFrom<B, C>(q: seq<MainMessage<B, C>>, attachOk: B -> bool, arrivalOk: seq<C> -> bool,
                           bundles: seq<C>): Drained<B, C>
    decreases |q|
  {
    if q == [] then
      if bundles == [] then Drained([], [], Pass)
      else Drained([], [ArrivalCall(bundles)], if arrivalOk(bundles) then Pass else Fail(ArrivalFailed))
    else if q[0].AttachBuf? then
      if !attachOk(q[0].buf) then Drained(q[1..], [AttachCall(q[0].buf)], Fail(AttachFailed(q[0].buf)))
      else After([AttachCall(q[0].buf)], DrainFrom(q[1..], attachOk, arrivalOk, bundles))
    else
      DrainFrom(q[1..], attachOk, arrivalOk, bundles + [q[0].bundle])
  }

  /** One call of `main_cb` on the queue `q`. */
  function MainCbSpec<B, C>(q: seq<MainMessage<B, C>>, attachOk: B -> bool, arrivalOk: seq<C> -> bool): Drained<B, C>
  {
    DrainFrom(q, attachOk, arrivalOk, [])
  }

  // Independent reference definitions.

  /** The buffers named by the `AttachBuf` messages of `q`, in queue order. */
  function AttachTargets<B, C>(q: seq<MainMessage<B, C>>): seq<B>
  {
    if q == [] then []
    else (if q[0].AttachBuf? then [q[0].buf] else []) + AttachTargets(q[1..])
  }

  /** The bundles carried by the `HandleCompletions` messages of `q`, in queue order. */
  function Payloads<B, C>(q: seq<MainMessage<B, C>>): seq<C>
  {
    if q == [] then []
    else (if q[0].HandleCompletions? then [q[0].bundle] else []) + Payloads(q[1..])
  }

  function AttachCalls<B, C>(bufs: seq<B>): (calls: seq<ClientCall<B, C>>)
    ensures |calls| == |bufs|
    ensures forall i :: 0 <= i < |bufs| ==> calls[i] == AttachCall(bufs[i])
  {
    if bufs == [] then [] else [AttachCall(bufs[0])] + AttachCalls(bufs[1..])
  }

  /** The arrival call made for the collected bundles: none when there are none. */
  function ArrivalCalls<B, C>(bundles: seq<C>): seq<ClientCall<B, C>>
  {
    if bundles == [] then [] else [ArrivalCall(bundles)]
  }

  ghost predicate AttachesSucceed<B, C>(q: seq<MainMessage<B, C>>, attachOk: B -> bool)
  {
    forall i :: 0 <= i < |q| && q[i].AttachBuf? ==> attachOk(q[i].buf)
  }

  // Properties of the drain.

  /** Draining an empty queue calls nothing and succeeds. */
  lemma EmptyDrainIsNoOp<B, C>(attachOk: B -> bool, arrivalOk: seq<C> -> bool)
    ensures MainCbSpec([], attachOk, arrivalOk) == Drained([], [], Pass)
  {
  }

  lemma AttachCallsCons<B, C>(buf: B, bufs: seq<B>)
    ensures AttachCalls<B, C>([buf] + bufs) == [AttachCall(buf)] + AttachCalls(bufs)
  {
    assert ([buf] + bufs)[1..] == bufs;
  }

  lemma AttachesSucceedTail<B, C>(q: seq<MainMessage<B, C>>, attachOk: B -> bool)
    requires q != [] && AttachesSucceed(q, attachOk)
    ensures AttachesSucceed(q[1..], attachOk)
    ensures q[0].AttachBuf? ==> attachOk(q[0].buf)
  {
    forall i | 0 <= i < |q[1..]| && q[1..][i].AttachBuf? ensures attachOk(q[1..][i].buf) {
      assert q[1..][i] == q[i + 1];
    }
  }

  /** One step of the drain, for the message at the head of the queue. */
  lemma DrainStep<B, C>(q: seq<MainMessage<B, C>>, attachOk: B -> bool, arrivalOk: seq<C> -> bool, bundles: seq<C>)
    requires q != []
    ensures q[0].AttachBuf? && attachOk(q[0].buf) ==>
      DrainFrom(q, attachOk, arrivalOk, bundles) == After([AttachCall(q[0].buf)], DrainFrom(q[1..], attachOk, arrivalOk, bundles))
    ensures q[0].AttachBuf? && !attachOk(q[0].buf) ==>
      DrainFrom(q, attachOk, arrivalOk, bundles) == Drained(q[1..], [AttachCall(q[0].buf)], Fail(AttachFailed(q[0].buf)))
    ensures q[0].HandleCompletions? ==>
      DrainFrom(q, attachOk, arrivalOk, bundles) == DrainFrom(q[1..], attachOk, arrivalOk, bundles + [q[0].bundle])
  {
  }

  /** The shape of a drain from `q` after `bundles` were collected, when every
      attach in `q` succeeds. */
  ghost predicate DrainsCleanly<B, C>(q: seq<MainMessage<B, C>>, attachOk: B -> bool,
                                      arrivalOk: seq<C> -> bool, bundles: seq<C>)
  {
    var d := DrainFrom(q, attachOk, arrivalOk, bundles);
    var all := bundles + Payloads(q);
    d.rest == [] &&
    d.calls == AttachCalls(AttachTargets(q)) + ArrivalCalls(all) &&
    d.outcome == if all == [] || arrivalOk(all) then Pass else Fail(ArrivalFailed)
  }

  lemma DrainsCleanlyAttach<B, C>(q: seq<MainMessage<B, C>>, attachOk: B -> bool,
                                  arrivalOk: seq<C> -> bool, bundles: seq<C>)
    requires q != [] && q[0].AttachBuf? && attachOk(q[0].buf)
    requires DrainsCleanly(q[1..], attachOk, arrivalOk, bundles)
    ensures DrainsCleanly(q, attachOk, arrivalOk, bundles)
  {
    DrainStep(q, attachOk, arrivalOk, bundles);
    assert AttachTargets(q) == [q[0].buf] + AttachTargets(q[1..]);
    assert Payloads(q) == Payloads(q[1..]);
    AttachCallsCons<B, C>(q[0].buf, AttachTargets(q[1..]));
  }

  lemma DrainsCleanlyHandle<B, C>(q: seq<MainMessage<B, C>>, attachOk: B -> bool,
                                  arrivalOk: seq<C> -> bool, bundles: seq<C>)
    requires q != [] && q[0].HandleCompletions?
    requires DrainsCleanly(q[1..], attachOk, arrivalOk, bundles + [q[0].bundle])
    ensures DrainsCleanly(q, attachOk, arrivalOk, bundles)
  {
    DrainStep(q, attachOk, arrivalOk, bundles);
    assert AttachTargets(q) == AttachTargets(q[1..]);
    assert Payloads(q) == [q[0].bundle] + Payloads(q[1..]);
    assert bundles + [q[0].bundle] + Payloads(q[1..]) == bundles + Payloads(q);
  }

  lemma {:induction false} DrainFromAllAttached<B, C>(q: seq<MainMessage<B, C>>, attachOk: B -> bool,
                                                     arrivalOk: seq<C> -> bool, bundles: seq<C>)
    requires AttachesSucceed(q, attachOk)
    ensures DrainsCleanly(q, attachOk, arrivalOk, bundles)
    decreases |q|
  {
    if q == [] {
      assert bundles + Payloads(q) == bundles;
    } else {
      AttachesSucceedTail(q, attachOk);
      if q[0].AttachBuf? {
        DrainFromAllAttached(q[1..], attachOk, arrivalOk, bundles);
        DrainsCleanlyAttach(q, attachOk, arrivalOk, bundles);
      } else {
        DrainFromAllAttached(q[1..], attachOk, arrivalOk, bundles + [q[0].bundle]);
        DrainsCleanlyHandle(q, attachOk, arrivalOk, bundles);
      }
    }
  }

  /** When every attach succeeds, `main_cb` empties the queue, attaches the
      buffers in queue order, and forwards exactly the drained bundles, in
      arrival order, in one call made only if there is at least one bundle. */
  lemma DrainAllAttached<B, C>(q: seq<MainMessage<B, C>>, attachOk: B -> bool, arrivalOk: seq<C> -> bool)
    requires AttachesSucceed(q, attachOk)
    ensures var d := MainCbSpec(q, attachOk, arrivalOk);
            d.rest == [] &&
            d.calls == AttachCalls(AttachTargets(q)) + ArrivalCalls(Payloads(q)) &&
            d.outcome == if Payloads(q) == [] || arrivalOk(Payloads(q)) then Pass else Fail(ArrivalFailed)
  {
    DrainFromAllAttached(q, attachOk, arrivalOk, []);
    assert [] + Payloads(q) == Payloads(q);
  }

  lemma {:induction false} DrainFromAttachFailure<B, C>(p: seq<MainMessage<B, C>>, buf: B, s: seq<MainMessage<B, C>>,
                                                       attachOk: B -> bool, arrivalOk: seq<C> -> bool, bundles: seq<C>)
    requires AttachesSucceed(p, attachOk) && !attachOk(buf)
    ensures DrainFrom(p + [AttachBuf(buf)] + s, attachOk, arrivalOk, bundles)
            == Drained(s, AttachCalls(AttachTargets(p) + [buf]), Fail(AttachFailed(buf)))
    decreases |p|
  {
    var q := p + [AttachBuf(buf)] + s;
    if p == [] {
      assert q[0] == AttachBuf(buf) && q[1..] == s;
      assert AttachCalls<B, C>([buf]) == [AttachCall(buf)];
    } else {
      assert q[0] == p[0] && q[1..] == p[1..] + [AttachBuf(buf)] + s;
      assert AttachesSucceed(p[1..], attachOk) by {
        forall i | 0 <= i < |p[1..]| && p[1..][i].AttachBuf? ensures attachOk(p[1..][i].buf) {
          assert p[1..][i] == p[i + 1];
        }
      }
      match p[0]
      case AttachBuf(b) =>
        assert attachOk(p[0].buf);
        DrainFromAttachFailure(p[1..], buf, s, attachOk, arrivalOk, bundles);
        assert AttachTargets(p) + [buf] == [b] + (AttachTargets(p[1..]) + [buf]);
        assert AttachCalls<B, C>([b] + (AttachTargets(p[1..]) + [buf]))
               == [AttachCall(b)] + AttachCalls(AttachTargets(p[1..]) + [buf]);
      case HandleCompletions(bundle) =>
        DrainFromAttachFailure(p[1..], buf, s, attachOk, arrivalOk, bundles + [bundle]);
        assert AttachTargets(p) == AttachTargets(p[1..]);
    }
  }

  /** A failed attach ends the drain at once: the error is returned, the
      messages after it stay queued, the buffers before it were attached in
      order, and no bundle collected so far is forwarded. */
  lemma DrainAttachFailure<B, C>(p: seq<MainMessage<B, C>>, buf: B, s: seq<MainMessage<B, C>>,
                                 attachOk: B -> bool, arrivalOk: seq<C> -> bool)
    requires AttachesSucceed(p, attachOk) && !attachOk(buf)
    ensures MainCbSpec(p + [AttachBuf(buf)] + s, attachOk, arrivalOk)
            == Drained(s, AttachCalls(AttachTargets(p) + [buf]), Fail(AttachFailed(buf)))
  {
    DrainFromAttachFailure(p, buf, s, attachOk, arrivalOk, []);
  }

  /** A drain that returns `Ok` has consumed every message. */
  lemma {:induction false} OkDrainEmptiesQueue<B, C>(q: seq<MainMessage<B, C>>, attachOk: B -> bool,
                                                   arrivalOk: seq<C> -> bool, bundles: seq<C>)
    ensures DrainFrom(q, attachOk, arrivalOk, bundles).outcome == Pass ==>
            DrainFrom(q, attachOk, arrivalOk, bundles).rest == []
    decreases |q|
  {
    if q != [] {
      match q[0]
      case AttachBuf(buf) =>
        OkDrainEmptiesQueue(q[1..], attachOk, arrivalOk, bundles);
      case HandleCompletions(bundle) =>
        OkDrainEmptiesQueue(q[1..], attachOk, arrivalOk, bundles + [bundle]);
    }
  }

  /** `on_completions_arrival` is called at most once per drain, as the last
      call, and never with an empty list of bundles. */
  lemma {:induction false} ArrivalAtMostOnce<B, C>(q: seq<MainMessage<B, C>>, attachOk: B -> bool,
                                                 arrivalOk: seq<C> -> bool, bundles: seq<C>)
    ensures var calls := DrainFrom(q, attachOk, arrivalOk, bundles).calls;
            forall i :: 0 <= i < |calls| && calls[i].ArrivalCall? ==>
              i == |calls| - 1 && calls[i].bundles != []
    decreases |q|
  {
    if q != [] {
      match q[0]
      case AttachBuf(buf) =>
        ArrivalAtMostOnce(q[1..], attachOk, arrivalOk, bundles);
        DrainStep(q, attachOk, arrivalOk, bundles);
        var calls := DrainFrom(q, attachOk, arrivalOk, bundles).calls;
        var tail := DrainFrom(q[1..], attachOk, arrivalOk, bundles).calls;
        if attachOk(buf) {
          assert calls == [AttachCall(buf)] + tail;
          forall i | 0 <= i < |calls| && calls[i].ArrivalCall?
            ensures i == |calls| - 1 && calls[i].bundles != []
          {
            assert i > 0;
            assert calls[i] == tail[i - 1];
          }
        }
      case HandleCompletions(bundle) =>
        ArrivalAtMostOnce(q[1..], attachOk, arrivalOk, bundles + [bundle]);
        DrainStep(q, attachOk, arrivalOk, bundles);
    }
  }

  /** The drain prefixed by calls already made. */
  function After<B, C>(done: seq<ClientCall<B, C>>, d: Drained<B, C>): Drained<B, C>
  {
    d.(calls := done + d.calls)
  }

  lemma AfterAfter<B, C>(a: seq<ClientCall<B, C>>, b: seq<ClientCall<B, C>>, d: Drained<B, C>)
    ensures After(a, After(b, d)) == After(a + b, d)
  {
    assert a + (b + d.calls) == (a + b) + d.calls;
  }

  // One step of the loop of `main_cb`, each against the drain still to do.

  lemma StepAttached<B, C>(spec: Drained<B, C>, done: seq<ClientCall<B, C>>, q: seq<MainMessage<B, C>>,
                           attachOk: B -> bool, arrivalOk: seq<C> -> bool, bundles: seq<C>)
    requires q != [] && q[0].AttachBuf? && attachOk(q[0].buf)
    requires After(done, DrainFrom(q, attachOk, arrivalOk, bundles)) == spec
    ensures After(done + [AttachCall(q[0].buf)], DrainFrom(q[1..], attachOk, arrivalOk, bundles)) == spec
  {
    DrainStep(q, attachOk, arrivalOk, bundles);
    AfterAfter(done, [AttachCall(q[0].buf)], DrainFrom(q[1..], attachOk, arrivalOk, bundles));
  }

  lemma StepAttachFailed<B, C>(spec: Drained<B, C>, done: seq<ClientCall<B, C>>, q: seq<MainMessage<B, C>>,
                               attachOk: B -> bool, arrivalOk: seq<C> -> bool, bundles: seq<C>)
    requires q != [] && q[0].AttachBuf? && !attachOk(q[0].buf)
    requires After(done, DrainFrom(q, attachOk, arrivalOk, bundles)) == spec
    ensures spec == Drained(q[1..], done + [AttachCall(q[0].buf)], Fail(AttachFailed(q[0].buf)))
  {
    DrainStep(q, attachOk, arrivalOk, bundles);
  }

  lemma StepHandle<B, C>(spec: Drained<B, C>, done: seq<ClientCall<B, C>>, q: seq<MainMessage<B, C>>,
                         attachOk: B -> bool, arrivalOk: seq<C> -> bool, bundles: seq<C>)
    requires q != [] && q[0].HandleCompletions?
    requires After(done, DrainFrom(q, attachOk, arrivalOk, bundles)) == spec
    ensures After(done, DrainFrom(q[1..], attachOk, arrivalOk, bundles + [q[0].bundle])) == spec
  {
    DrainStep(q, attachOk, arrivalOk, bundles);
  }

  lemma StepEnd<B, C>(spec: Drained<B, C>, done: seq<ClientCall<B, C>>,
                      attachOk: B -> bool, arrivalOk: seq<C> -> bool, bundles: seq<C>)
    requires After(done, DrainFrom([], attachOk, arrivalOk, bundles)) == spec
    ensures spec.rest == []
    ensures bundles == [] ==> spec.calls == done && spec.outcome == Pass
    ensures bundles != [] ==> spec.calls == done + [ArrivalCall(bundles)] &&
                              spec.outcome == if arrivalOk(bundles) then Pass else Fail(ArrivalFailed)
  {
  }

  /** `main_cb`: drains the receiver and reports the first error. */
  method MainCb<B, C>(client: Client<B, C>, receiver: Receiver<B, C>) returns (r: Outcome<CbError<B>>)
    modifies client`calls, receiver`queue
    ensures var d := MainCbSpec(old(receiver.queue), client.attachOk, client.arrivalOk);
            receiver.queue == d.rest && client.calls == old(client.calls) + d.calls && r == d.outcome
  {
    ghost var spec := MainCbSpec(receiver.queue, client.attachOk, client.arrivalOk);
    var bundles: seq<C> := [];
    ghost var done: seq<ClientCall<B, C>> := [];
    while true
      invariant client.calls == old(client.calls) + done
      invariant After(done, DrainFrom(receiver.queue, client.attachOk, client.arrivalOk, bundles)) == spec
      decreases |receiver.queue|
    {
      ghost var pending := receiver.queue;
      var msg := receiver.TryRecv();
      if msg.None? {
        break;
      }
      var m := msg.value;
      if m.AttachBuf? {
        var ok := client.AttachBuffer(m.buf);
        if !ok {
          StepAttachFailed(spec, done, pending, client.attachOk, client.arrivalOk, bundles);
          return Fail(AttachFailed(m.buf));
        }
        StepAttached(spec, done, pending, client.attachOk, client.arrivalOk, bundles);
        done := done + [AttachCall(m.buf)];
      } else {
        StepHandle(spec, done, pending, client.attachOk, client.arrivalOk, bundles);
        bundles := bundles + [m.bundle];
      }
    }
    StepEnd(spec, done, client.attachOk, client.arrivalOk, bundles);
    if |bundles| > 0 {
      var ok := client.OnCompletionsArrival(bundles);
      if !ok {
        return Fail(ArrivalFailed);
      }
    }
    return Pass;
  }
}
