/** dumpSpyBufferChunk of srcs/DaphneSlowController.cpp as a step system: a producer thread that
    pushes chunk packets through a BoundedQueue and a consumer that pops and sends them. */
module ChunkTransfer {
  import opened Arithmetic
  import opened SpyBuffer
  import opened SpyDump
  import opened BoundedQueue
  import opened ChunkPlan

  datatype Response = Response(
    success: bool, chunkSeq: nat, isFinal: bool, start: nat, count: nat,
    total: nat, samples: nat, channels: seq<nat>, data: seq<Word>)

  /** Where the producer is: at the loop head, inside push, before close, gone. */
  datatype ProducerPc = Loop | Pushing(packet: ChunkPacket) | Closing | Ended

  /** Where the consumer is: inside pop, between pop and send, before join, returned. */
  datatype ConsumerPc = Popping | Sending(pack: ChunkPacket) | Joining | Returned

  /** iteration counts loop turns; wfStart is the producer's uint32. */
  datatype State = State(
    queue: Queue<ChunkPacket>, producer: ProducerPc, iteration: nat, wfStart: nat,
    consumer: ConsumerPc, hadError: bool, sent: seq<Response>)

  datatype Action = Produce | Throw | TryPush | CloseQueue | TryPop | Send | Join | Spurious(t: Thread)

  function Reply(req: Req, p: ChunkPacket, ok: bool): Response {
    Response(ok, p.seqNo, (p.start + p.count) % U32 >= req.N, p.start, p.count, req.N, req.L, req.channels, p.data)
  }

  function Init(capacity: nat): State {
    State(Queue(capacity, [], false, {}, {}), Loop, 0, 0, Popping, false, [])
  }

  ghost predicate Next(snap: Snapshots, req: Req, s: State, a: Action, s': State) {
    match a
    case Produce =>
      && s.producer.Loop?
      && s' == s.(producer := if s.wfStart < req.N then Pushing(MakePacket(snap, req, s.iteration, s.wfStart)) else Closing)
    case Throw =>
      && ((s.producer.Loop? && s.wfStart < req.N) || (s.producer.Pushing? && Producer !in s.queue.notFullWaiters))
      && s' == s.(producer := Closing, hadError := true)
    case TryPush =>
      && s.producer.Pushing? && Producer !in s.queue.notFullWaiters
      && PushStep(s.queue, Producer, s.producer.packet, s'.queue)
      && s' == if PushResult(s.queue).PushSleeps? then s.(queue := s'.queue)
               else s.(queue := s'.queue, producer := Loop, iteration := s.iteration + 1,
                       wfStart := (s.wfStart + req.chunk) % U32)
    case CloseQueue =>
      && s.producer.Closing?
      && s' == s.(queue := Closed(s.queue), producer := Ended)
    case TryPop =>
      && s.consumer.Popping? && Consumer !in s.queue.notEmptyWaiters
      && PopStep(s.queue, Consumer, s'.queue)
      && s' == s.(queue := s'.queue, consumer :=
                 match PopResult(s.queue)
                 case PopSleeps => Popping
                 case Drained => Joining
                 case Popped(p) => Sending(p))
    case Send =>
      && s.consumer.Sending?
      && s' == s.(sent := s.sent + [Reply(req, s.consumer.pack, !s.hadError)], consumer := Popping)
    case Join =>
      && s.consumer.Joining? && s.producer.Ended?
      && s' == s.(consumer := Returned)
    case Spurious(t) =>
      && t in Asleep(s.queue)
      && s' == s.(queue := Woken(s.queue, t))
  }

  /** A run: states linked by the actions, from the start. */
  ghost predicate Run(snap: Snapshots, req: Req, capacity: nat, states: seq<State>, actions: seq<Action>) {
    && |states| == |actions| + 1
    && states[0] == Init(capacity)
    && forall i :: 0 <= i < |actions| ==> Next(snap, req, states[i], actions[i], states[i + 1])
  }

  ghost predicate Reachable(snap: Snapshots, req: Req, capacity: nat, s: State) {
    exists states, actions :: Run(snap, req, capacity, states, actions) && states[|actions|] == s
  }

  // ---- What every state keeps ----

  function InHand(s: State): seq<ChunkPacket> {
    if s.consumer.Sending? then [s.consumer.pack] else []
  }

  /** Packets popped or still queued, oldest first: what push has accepted and send has not yet taken. */
  function InFlight(s: State): seq<ChunkPacket> {
    InHand(s) + s.queue.items
  }

  /** Nobody sleeps on a condition that holds: no wakeup is lost. */
  ghost predicate NoLostWakeup(s: State) {
    && s.queue.notFullWaiters <= {Producer}
    && s.queue.notEmptyWaiters <= {Consumer}
    && (Producer in s.queue.notFullWaiters ==>
          s.producer.Pushing? && |s.queue.items| >= s.queue.capacity && !s.queue.closed)
    && (Consumer in s.queue.notEmptyWaiters ==>
          s.consumer.Popping? && s.queue.items == [] && !s.queue.closed)
  }

  /** p is packet k of the plan. */
  ghost predicate IsPlanned(snap: Snapshots, req: Req, k: nat, p: ChunkPacket) {
    Start(req, k) < req.N && p == Planned(snap, req, k)
  }

  /** r announces packet k of the plan. */
  ghost predicate Announces(snap: Snapshots, req: Req, k: nat, r: Response) {
    Start(req, k) < req.N && r == Reply(req, Planned(snap, req, k), r.success)
  }

  /** ps are consecutive packets of the plan, from number n on. */
  ghost predicate PlannedFrom(snap: Snapshots, req: Req, n: nat, ps: seq<ChunkPacket>) {
    forall i :: 0 <= i < |ps| ==> IsPlanned(snap, req, n + i, ps[i])
  }

  /** What has been sent and what is in flight are packets 0, 1, 2, ... in order, none lost or doubled. */
  ghost predicate InOrder(snap: Snapshots, req: Req, s: State) {
    && |s.sent| + |InFlight(s)| == s.iteration
    && (forall i :: 0 <= i < |s.sent| ==> Announces(snap, req, i, s.sent[i]))
    && PlannedFrom(snap, req, |s.sent|, InFlight(s))
  }

  /** A response without success is only sent after the producer failed, and never followed by one with it. */
  ghost predicate Flags(s: State) {
    && (forall i :: 0 <= i < |s.sent| && !s.sent[i].success ==> s.hadError)
    && (forall i, j :: 0 <= i < j < |s.sent| && !s.sent[i].success ==> !s.sent[j].success)
  }

  ghost predicate Control(snap: Snapshots, req: Req, s: State) {
    && s.wfStart == Start(req, s.iteration)
    && (s.producer.Pushing? ==> s.wfStart < req.N && IsPlanned(snap, req, s.iteration, s.producer.packet))
    && (s.queue.closed <==> s.producer.Ended?)
    && (s.consumer.Joining? || s.consumer.Returned? ==> s.queue.closed && s.queue.items == [])
    && (s.hadError ==> (s.producer.Closing? || s.producer.Ended?) && s.wfStart < req.N)
    && (!s.hadError && (s.producer.Closing? || s.producer.Ended?) ==> s.wfStart >= req.N)
  }

  /** All of it holds of every request, even one whose loop wraps. */
  ghost predicate Inv(snap: Snapshots, req: Req, capacity: nat, s: State) {
    && s.queue.capacity == capacity
    && |s.queue.items| <= capacity
    && NoLostWakeup(s)
    && InOrder(snap, req, s)
    && Flags(s)
    && Control(snap, req, s)
  }

  lemma InvInit(snap: Snapshots, req: Req, capacity: nat)
    ensures Inv(snap, req, capacity, Init(capacity))
  {
  }

  /** Every action of either thread, a failure and a spurious wakeup keep the invariant. */
  lemma InvNext(snap: Snapshots, req: Req, capacity: nat, s: State, a: Action, s': State)
    requires Inv(snap, req, capacity, s) && Next(snap, req, s, a, s')
    ensures Inv(snap, req, capacity, s')
  {
    hide Next, NoLostWakeup, InOrder, Flags, Control;
    OrderNext(snap, req, capacity, s, a, s');
    FlagsNext(snap, req, capacity, s, a, s');
    ControlNext(snap, req, capacity, s, a, s');
    QueueNext(snap, req, capacity, s, a, s');
  }

  lemma ControlNext(snap: Snapshots, req: Req, capacity: nat, s: State, a: Action, s': State)
    requires Inv(snap, req, capacity, s) && Next(snap, req, s, a, s')
    ensures Control(snap, req, s')
  {
    hide InOrder, Flags, Reply, MakePacket;
  }

  lemma QueueNext(snap: Snapshots, req: Req, capacity: nat, s: State, a: Action, s': State)
    requires Inv(snap, req, capacity, s) && Next(snap, req, s, a, s')
    ensures s'.queue.capacity == capacity && |s'.queue.items| <= capacity && NoLostWakeup(s')
  {
    hide InOrder, Flags, Reply, MakePacket, Start;
  }

  lemma FlagsNext(snap: Snapshots, req: Req, capacity: nat, s: State, a: Action, s': State)
    requires Inv(snap, req, capacity, s) && Next(snap, req, s, a, s')
    ensures Flags(s')
    ensures a.Send? ==> (s'.sent[|s.sent|].success <==> !s.hadError)
  {
    hide Waves, Mapped, Min, InOrder, NoLostWakeup, Start, MakePacket;
    if a.Send? {
      assert s'.sent[..|s.sent|] == s.sent;
    }
  }

  lemma OrderNext(snap: Snapshots, req: Req, capacity: nat, s: State, a: Action, s': State)
    requires Inv(snap, req, capacity, s) && Next(snap, req, s, a, s')
    ensures InOrder(snap, req, s')
  {
    if a.Send? {
      OrderSend(snap, req, s, s');
    } else if a.TryPush? && PushResult(s.queue).Pushed? {
      OrderPush(snap, req, s, s'.queue, s'.wfStart, s.producer.packet);
    } else {
      hide Start, MakePacket, NoLostWakeup, Flags, Announces, PlannedFrom, Reply;
      assert InFlight(s') == InFlight(s);
    }
  }

  lemma OrderPush(snap: Snapshots, req: Req, s: State, q: Queue<ChunkPacket>, wfStart: nat, p: ChunkPacket)
    requires InOrder(snap, req, s) && IsPlanned(snap, req, s.iteration, p)
    requires q.items == s.queue.items + [p]
    ensures InOrder(snap, req, s.(queue := q, producer := Loop, iteration := s.iteration + 1, wfStart := wfStart))
  {
    hide IsPlanned, Announces;
    var s' := s.(queue := q, producer := Loop, iteration := s.iteration + 1, wfStart := wfStart);
    assert InFlight(s') == InFlight(s) + [p];
  }

  lemma OrderSend(snap: Snapshots, req: Req, s: State, s': State)
    requires InOrder(snap, req, s) && Next(snap, req, s, Send, s')
    ensures InOrder(snap, req, s')
  {
    hide IsPlanned, Announces, Reply;
    var p := s.consumer.pack;
    assert InFlight(s) == [p] + InFlight(s');
    assert IsPlanned(snap, req, |s.sent| + 0, InFlight(s)[0]);
    ReplyAnnounces(snap, req, |s.sent|, p, !s.hadError);
    forall i | 0 <= i < |InFlight(s')|
      ensures IsPlanned(snap, req, |s'.sent| + i, InFlight(s')[i])
    {
      assert IsPlanned(snap, req, |s.sent| + (i + 1), InFlight(s)[i + 1]);
    }
  }

  lemma ReplyAnnounces(snap: Snapshots, req: Req, k: nat, p: ChunkPacket, ok: bool)
    requires IsPlanned(snap, req, k, p)
    ensures Announces(snap, req, k, Reply(req, p, ok))
  {
  }

  lemma {:induction false} RunInv(snap: Snapshots, req: Req, capacity: nat, states: seq<State>, actions: seq<Action>, n: nat)
    requires Run(snap, req, capacity, states, actions) && n < |states|
    ensures Inv(snap, req, capacity, states[n])
  {
    hide Inv, Next;
    if n == 0 {
      InvInit(snap, req, capacity);
    } else {
      RunInv(snap, req, capacity, states, actions, n - 1);
      InvNext(snap, req, capacity, states[n - 1], actions[n - 1], states[n]);
    }
  }

  lemma ReachableInv(snap: Snapshots, req: Req, capacity: nat, s: State)
    requires Reachable(snap, req, capacity, s)
    ensures Inv(snap, req, capacity, s)
  {
    var states, actions :| Run(snap, req, capacity, states, actions) && states[|actions|] == s;
    RunInv(snap, req, capacity, states, actions, |actions|);
  }

  lemma PacketsArePlanned(snap: Snapshots, req: Req, s: State, n: nat)
    requires InOrder(snap, req, s) && n < s.iteration
    ensures Start(req, n) < req.N
  {
    hide Start, Reply, InFlight;
    if n < |s.sent| {
      assert Announces(snap, req, n, s.sent[n]);
    } else {
      assert IsPlanned(snap, req, |s.sent| + (n - |s.sent|), InFlight(s)[n - |s.sent|]);
    }
  }

  /** If the loop ends on time it makes no more packets than planned. */
  lemma IterationBounded(snap: Snapshots, req: Req, s: State)
    requires NoWrap(req) && InOrder(snap, req, s)
    ensures s.iteration <= Chunks(req)
  {
    PlanStart(req, Chunks(req));
    hide NoWrap, Chunks, Start, InOrder;
    if s.iteration > Chunks(req) {
      PacketsArePlanned(snap, req, s, Chunks(req));
    }
  }

  // ---- What may go wrong ----

  predicate Awake(s: State, t: Thread) { t !in s.queue.notFullWaiters && t !in s.queue.notEmptyWaiters }

  /** The world may interfere at any time: the producer may fail while it has packets to make or to push and is awake,
      and any sleeping thread may wake for no reason. */
  lemma AnythingCanHappen(snap: Snapshots, req: Req, capacity: nat, s: State)
    requires Reachable(snap, req, capacity, s)
    ensures (s.producer.Loop? && s.wfStart < req.N) || (s.producer.Pushing? && Producer !in s.queue.notFullWaiters) ==>
              Next(snap, req, s, Throw, s.(producer := Closing, hadError := true))
    ensures forall t :: t in s.queue.notFullWaiters || t in s.queue.notEmptyWaiters ==>
              exists s' :: Next(snap, req, s, Spurious(t), s') && Awake(s', t)
  {
    forall t | t in s.queue.notFullWaiters || t in s.queue.notEmptyWaiters
      ensures exists s' :: Next(snap, req, s, Spurious(t), s') && Awake(s', t)
    {
      assert Next(snap, req, s, Spurious(t), s.(queue := Woken(s.queue, t)));
    }
  }

  // ---- Safety over every run ----

  /** In every reachable state, whatever the interleaving: the queue holds at most capacity packets; a
      thread sleeps only while the condition it waits for is false; and pop has returned false only
      with the queue closed and drained. */
  lemma MonitorSafety(snap: Snapshots, req: Req, capacity: nat, s: State)
    requires Reachable(snap, req, capacity, s)
    ensures |s.queue.items| <= capacity
    ensures Producer in s.queue.notFullWaiters ==> |s.queue.items| == capacity && !s.queue.closed
    ensures Consumer in s.queue.notEmptyWaiters ==> s.queue.items == [] && !s.queue.closed
    ensures s.consumer.Joining? || s.consumer.Returned? ==> s.queue.closed && s.queue.items == []
  {
    ReachableInv(snap, req, capacity, s);
  }

  /** Responses are the planned packets 0, 1, 2, ... in order, whatever has happened so far; no more than
      planned if the loop ends on time. */
  lemma SentInOrder(snap: Snapshots, req: Req, capacity: nat, s: State, i: nat)
    requires Reachable(snap, req, capacity, s) && i < |s.sent|
    ensures Start(req, i) < req.N
    ensures s.sent[i] == Reply(req, Planned(snap, req, i), s.sent[i].success)
    ensures i < Chunks(req) ==> s.sent[i].chunkSeq == i && (s.sent[i].isFinal <==> i + 1 == Chunks(req))
    ensures NoWrap(req) ==> |s.sent| <= Chunks(req)
  {
    SentAnnounces(snap, req, capacity, s);
    assert Announces(snap, req, i, s.sent[i]);
    if i < Chunks(req) {
      AnnouncedFields(snap, req, i, s.sent[i]);
    }
    hide Reachable, NoWrap, Chunks, Start, Planned, Reply;
  }

  /** What a client reads in response i: the request it asked for, and where and what its waveforms are. */
  lemma SentFields(snap: Snapshots, req: Req, capacity: nat, s: State, i: nat)
    requires Reachable(snap, req, capacity, s) && i < |s.sent|
    ensures s.sent[i].total == req.N && s.sent[i].samples == req.L && s.sent[i].channels == req.channels
    ensures i < Chunks(req) ==>
              var r := s.sent[i];
              && r.chunkSeq == i && r.start == i * req.chunk < req.N
              && r.count == Min(req.chunk, req.N - i * req.chunk)
              && r.data == Waves(snap, Mapped(req.channels), req.L, r.start, r.start + r.count)
              && (r.isFinal <==> i + 1 == Chunks(req))
  {
    SentAnnounces(snap, req, capacity, s);
    hide Reachable, NoWrap, Chunks, Waves, Mapped, Min, Announces;
    EchoedFields(snap, req, i, s.sent[i]);
    if i < Chunks(req) {
      AnnouncedFields(snap, req, i, s.sent[i]);
    }
  }

  lemma EchoedFields(snap: Snapshots, req: Req, k: nat, r: Response)
    requires Announces(snap, req, k, r)
    ensures r.total == req.N && r.samples == req.L && r.channels == req.channels
  {
    hide Planned, Start;
  }

  lemma PlannedShape(snap: Snapshots, req: Req, k: nat)
    requires k < Chunks(req)
    ensures Start(req, k) == k * req.chunk < req.N
    ensures var p := Planned(snap, req, k);
      && p.start == k * req.chunk && p.count == Min(req.chunk, req.N - p.start)
      && p.data == Waves(snap, Mapped(req.channels), req.L, p.start, p.start + p.count)
  {
    StartIsProduct(req, k);
    hide Start, Waves, Mapped, Chunks;
  }

  lemma SentAnnounces(snap: Snapshots, req: Req, capacity: nat, s: State)
    requires Reachable(snap, req, capacity, s)
    ensures NoWrap(req) ==> |s.sent| <= Chunks(req)
    ensures forall i :: 0 <= i < |s.sent| ==> Announces(snap, req, i, s.sent[i])
  {
    ReachableInv(snap, req, capacity, s);
    if NoWrap(req) {
      IterationBounded(snap, req, s);
    }
    hide Reachable, NoWrap, Chunks, Announces, Flags, Control, NoLostWakeup, PlannedFrom;
  }

  /** The fields of the response to packet k. */
  lemma AnnouncedFields(snap: Snapshots, req: Req, k: nat, r: Response)
    requires k < Chunks(req) && Announces(snap, req, k, r)
    ensures Start(req, k) < req.N
    ensures r.chunkSeq == k && r.start == Planned(snap, req, k).start && r.count == Planned(snap, req, k).count
    ensures r.data == Planned(snap, req, k).data
    ensures r.start == k * req.chunk < req.N && r.count == Min(req.chunk, req.N - k * req.chunk)
    ensures r.data == Waves(snap, Mapped(req.channels), req.L, r.start, r.start + r.count)
    ensures r.isFinal <==> k + 1 == Chunks(req)
  {
    PlanTiles(snap, req, k);
    PlannedShape(snap, req, k);
    hide Chunks, Planned, Start, Waves, Mapped, Min;
  }

  /** A fault-free request that has returned sent every planned packet, and all it sent was successful. It sent
      no more than planned if the loop ended on time. */
  lemma FaultFreeSendsAll(snap: Snapshots, req: Req, capacity: nat, s: State)
    requires Reachable(snap, req, capacity, s) && s.consumer.Returned? && !s.hadError
    ensures |s.sent| >= Chunks(req)
    ensures NoWrap(req) ==> |s.sent| == Chunks(req)
    ensures forall i :: 0 <= i < |s.sent| ==> s.sent[i].success
  {
    ReachableInv(snap, req, capacity, s);
    LoopEndsOnTimeIff(req);
    if NoWrap(req) {
      IterationBounded(snap, req, s);
    }
    hide Reachable, Chunks, NoWrap, Start, Announces, PlannedFrom, IsPlanned, NoLostWakeup;
  }

  /** If the producer failed, a strict prefix goes out: some packet is missing and none is final, so
      the client is never told that the transfer is over. */
  lemma FaultSendsStrictPrefix(snap: Snapshots, req: Req, capacity: nat, s: State)
    requires NoWrap(req) && Reachable(snap, req, capacity, s) && s.hadError
    ensures |s.sent| < Chunks(req)
    ensures forall i :: 0 <= i < |s.sent| ==> !s.sent[i].isFinal
  {
    ReachableInv(snap, req, capacity, s);
    IterationBounded(snap, req, s);
    PlanStart(req, s.iteration);
    forall i | 0 <= i < |s.sent|
      ensures !s.sent[i].isFinal
    {
      SentInOrder(snap, req, capacity, s, i);
    }
  }

  /** Packets popped before the producer failed may still go out marked unsuccessful, although their
      data are right; from then on every response is. */
  lemma FailureFlagIsSticky(snap: Snapshots, req: Req, capacity: nat, s: State, i: nat, j: nat)
    requires Reachable(snap, req, capacity, s) && i < j < |s.sent| && !s.sent[i].success
    ensures s.hadError && !s.sent[j].success
  {
    ReachableInv(snap, req, capacity, s);
  }

  /** What a step does to the responses: all stay, and a new one reports success exactly if the producer has
      not failed by then. */
  lemma ResponsesNext(snap: Snapshots, req: Req, s: State, a: Action, s': State)
    requires Next(snap, req, s, a, s')
    ensures |s.sent| <= |s'.sent| && s'.sent[..|s.sent|] == s.sent
    ensures forall i :: |s.sent| <= i < |s'.sent| ==> (s'.sent[i].success <==> !s.hadError)
    ensures |s'.sent| == |s.sent| + if a.Send? then 1 else 0
    ensures s'.hadError <==> s.hadError || a.Throw?
  {
    hide MakePacket, PushStep, PopStep;
  }

  /** The producer fails once at most: after a fault it only closes the queue. */
  lemma FirstFault(snap: Snapshots, req: Req, capacity: nat, s: State, s': State)
    requires Inv(snap, req, capacity, s) && Next(snap, req, s, Throw, s')
    ensures !s.hadError && s'.sent == s.sent
    ensures forall i :: 0 <= i < |s.sent| ==> s.sent[i].success
  {
    hide NoLostWakeup, InOrder;
  }

  /** In any run the responses sent before the fault report success, and those sent after it do not. */
  lemma {:induction false} SuccessIffBeforeFault(snap: Snapshots, req: Req, capacity: nat,
      states: seq<State>, actions: seq<Action>, fault: nat, now: nat)
    requires Run(snap, req, capacity, states, actions) && fault < now <= |actions| && actions[fault].Throw?
    ensures states[now].hadError && |states[fault].sent| <= |states[now].sent|
    ensures states[now].sent[..|states[fault].sent|] == states[fault].sent
    ensures forall i :: 0 <= i < |states[now].sent| ==>
              (states[now].sent[i].success <==> i < |states[fault].sent|)
  {
    hide Next, Inv;
    var before := now - 1;
    RunStep(snap, req, capacity, states, actions, before);
    ResponsesNext(snap, req, states[before], actions[before], states[now]);
    if before == fault {
      RunInv(snap, req, capacity, states, actions, fault);
      FirstFault(snap, req, capacity, states[fault], states[now]);
    } else {
      SuccessIffBeforeFault(snap, req, capacity, states, actions, fault, before);
      var was, sent, n := states[before].sent, states[now].sent, |states[fault].sent|;
      assert sent[..n] == was[..n];
      forall i | 0 <= i < |sent|
        ensures sent[i].success <==> i < n
      {
        if i < |was| {
          assert sent[i] == sent[..|was|][i];
        }
      }
    }
  }

  /** The failure flag is up exactly if the producer has failed. */
  lemma {:induction false} FaultIsAThrow(snap: Snapshots, req: Req, capacity: nat,
      states: seq<State>, actions: seq<Action>, now: nat)
    requires Run(snap, req, capacity, states, actions) && now <= |actions|
    ensures states[now].hadError <==> exists fault :: 0 <= fault < now && actions[fault].Throw?
  {
    hide Next;
    if now > 0 {
      RunStep(snap, req, capacity, states, actions, now - 1);
      ResponsesNext(snap, req, states[now - 1], actions[now - 1], states[now]);
      FaultIsAThrow(snap, req, capacity, states, actions, now - 1);
    }
  }

  /** And it does happen: the producer fails while the first packet is on its way, and that packet goes out as a
      failure although its data are the planned ones. */
  lemma GoodDataSentAsFailure(snap: Snapshots, req: Req, capacity: nat) returns (s: State)
    requires capacity > 0 && Chunks(req) >= 2
    ensures Reachable(snap, req, capacity, s) && |s.sent| == 1 && !s.sent[0].success
    ensures s.sent[0].data == Waves(snap, Mapped(req.channels), req.L, 0, Min(req.chunk, req.N))
  {
    var s0 := Init(capacity);
    var p := MakePacket(snap, req, 0, 0);
    var s1 := s0.(producer := Pushing(p));
    var s2 := s1.(queue := s1.queue.(items := [p]), producer := Loop, iteration := 1, wfStart := (0 + req.chunk) % U32);
    var s3 := s2.(queue := s2.queue.(items := []), consumer := Sending(p));
    var s4 := s3.(producer := Closing, hadError := true);
    s := s4.(sent := [Reply(req, p, false)], consumer := Popping);
    SecondChunkBegins(req);
    assert p.data == Waves(snap, Mapped(req.channels), req.L, 0, Min(req.chunk, req.N));
    hide MakePacket, Waves, Mapped;
    assert Next(snap, req, s0, Produce, s1);
    assert Next(snap, req, s1, TryPush, s2);
    assert Next(snap, req, s2, TryPop, s3);
    assert Next(snap, req, s3, Throw, s4);
    assert [] + [Reply(req, p, false)] == [Reply(req, p, false)];
    assert Next(snap, req, s4, Send, s);
    var states, actions := [s0, s1, s2, s3, s4, s], [Produce, TryPush, TryPop, Throw, Send];
    hide Next;
    assert Run(snap, req, capacity, states, actions);
    assert states[|actions|] == s;
  }

  lemma SecondChunkBegins(req: Req)
    requires Chunks(req) >= 2
    ensures (0 + req.chunk) % U32 < req.N
  {
    StartIsProduct(req, 1);
    StartStep(req, 0);
    hide Chunks, Start;
  }

  // ---- Progress ----

  /** Some thread can move in every unfinished state, without waiting for a spurious wakeup. */
  lemma NeverStuck(snap: Snapshots, req: Req, capacity: nat, s: State) returns (a: Action, s': State)
    requires capacity > 0 && Reachable(snap, req, capacity, s) && !s.consumer.Returned?
    ensures !a.Spurious? && !a.Throw? && Next(snap, req, s, a, s')
  {
    ReachableInv(snap, req, capacity, s);
    hide Chunks, Waves, Mapped, Min;
    a, s' := Move(snap, req, s);
  }

  lemma Move(snap: Snapshots, req: Req, s: State) returns (a: Action, s': State)
    requires NoLostWakeup(s) && s.queue.capacity > 0 && !s.consumer.Returned?
    requires s.queue.closed <==> s.producer.Ended?
    requires s.consumer.Joining? ==> s.queue.closed
    ensures !a.Spurious? && !a.Throw? && Next(snap, req, s, a, s')
  {
    hide MakePacket;
    match s.producer
    case Loop =>
      a := Produce;
      s' := s.(producer := if s.wfStart < req.N then Pushing(MakePacket(snap, req, s.iteration, s.wfStart)) else Closing);
    case Closing =>
      a, s' := CloseQueue, s.(queue := Closed(s.queue), producer := Ended);
    case Pushing(packet) =>
      if Producer !in s.queue.notFullWaiters {
        a := TryPush;
        var q := AnyPush(s.queue, packet);
        s' := if PushResult(s.queue).PushSleeps? then s.(queue := q)
              else s.(queue := q, producer := Loop, iteration := s.iteration + 1, wfStart := (s.wfStart + req.chunk) % U32);
      } else {
        a, s' := MoveConsumer(snap, req, s);
      }
    case Ended =>
      a, s' := MoveConsumer(snap, req, s);
  }

  lemma MoveConsumer(snap: Snapshots, req: Req, s: State) returns (a: Action, s': State)
    requires Consumer !in s.queue.notEmptyWaiters && !s.consumer.Returned?
    requires s.consumer.Joining? ==> s.producer.Ended?
    ensures !a.Spurious? && !a.Throw? && Next(snap, req, s, a, s')
  {
    match s.consumer
    case Popping =>
      a := TryPop;
      var q := AnyPop(s.queue);
      s' := s.(queue := q, consumer :=
              match PopResult(s.queue)
              case PopSleeps => Popping
              case Drained => Joining
              case Popped(p) => Sending(p));
    case Sending(pack) =>
      a, s' := Send, s.(sent := s.sent + [Reply(req, pack, !s.hadError)], consumer := Popping);
    case Joining =>
      a, s' := Join, s.(consumer := Returned);
  }

  lemma AnyPush(q: Queue<ChunkPacket>, p: ChunkPacket) returns (q': Queue<ChunkPacket>)
    ensures PushStep(q, Producer, p, q')
  {
    SomeoneNotified(q.notEmptyWaiters);
    var rest :| NotifyOne(q.notEmptyWaiters, rest);
    q' := match PushResult(q)
          case PushSleeps => q.(notFullWaiters := q.notFullWaiters + {Producer})
          case Dropped => q
          case Pushed => q.(items := q.items + [p], notEmptyWaiters := rest);
  }

  lemma AnyPop(q: Queue<ChunkPacket>) returns (q': Queue<ChunkPacket>)
    ensures PopStep(q, Consumer, q')
  {
    SomeoneNotified(q.notFullWaiters);
    var rest :| NotifyOne(q.notFullWaiters, rest);
    q' := match PopResult(q)
          case PopSleeps => q.(notEmptyWaiters := q.notEmptyWaiters + {Consumer})
          case Drained => q
          case Popped(_) => q.(items := q.items[1..], notFullWaiters := rest);
  }

  /** How much work is left: every action but a spurious wakeup lowers it. */
  function Work(req: Req, s: State): int {
    6 * (Chunks(req) - s.iteration)
    + (match s.producer
       case Loop => 5
       case Pushing(_) => if Producer in s.queue.notFullWaiters then 3 else 4
       case Closing => 2
       case Ended => 0)
    + 3 * |s.queue.items|
    + (match s.consumer
       case Sending(_) => 4
       case Popping => if Consumer in s.queue.notEmptyWaiters then 2 else 3
       case Joining => 1
       case Returned => 0)
  }

  lemma WorkDecreases(snap: Snapshots, req: Req, capacity: nat, s: State, a: Action, s': State)
    requires NoWrap(req) && Inv(snap, req, capacity, s) && Next(snap, req, s, a, s')
    ensures 0 <= Work(req, s)
    ensures if a.Spurious? then Work(req, s') <= Work(req, s) + 1 else Work(req, s') < Work(req, s)
  {
    IterationBounded(snap, req, s);
    hide NoWrap, Chunks, Waves, Mapped, Min, MakePacket, Start, Reply, Flags;
    if a.TryPush? {
      assert !s.queue.closed;
    }
  }

  function SpuriousCount(actions: seq<Action>): nat {
    if actions == [] then 0
    else SpuriousCount(actions[..|actions| - 1]) + (if actions[|actions| - 1].Spurious? then 1 else 0)
  }

  /** Every run is short: apart from spurious wakeups, each of which costs at most one retry, a request
      of n chunks takes at most 6n + 8 steps. With NeverStuck: unless wakeups are spurious for ever,
      every run ends with the request returned. */
  lemma RunsAreBounded(snap: Snapshots, req: Req, capacity: nat, states: seq<State>, actions: seq<Action>)
    requires NoWrap(req) && Run(snap, req, capacity, states, actions)
    ensures |actions| <= 6 * Chunks(req) + 8 + 2 * SpuriousCount(actions)
  {
    WorkAlong(snap, req, capacity, states, actions, |actions|);
    assert actions[..|actions|] == actions;
    RunInv(snap, req, capacity, states, actions, |actions|);
    WorkNonNegative(snap, req, capacity, states[|actions|]);
  }

  lemma WorkNonNegative(snap: Snapshots, req: Req, capacity: nat, s: State)
    requires NoWrap(req) && Inv(snap, req, capacity, s)
    ensures 0 <= Work(req, s)
  {
    IterationBounded(snap, req, s);
    hide NoWrap, Chunks;
  }

  lemma {:induction false} WorkAlong(snap: Snapshots, req: Req, capacity: nat, states: seq<State>, actions: seq<Action>, n: nat)
    requires NoWrap(req) && Run(snap, req, capacity, states, actions) && n <= |actions|
    ensures n + Work(req, states[n]) <= 6 * Chunks(req) + 8 + 2 * SpuriousCount(actions[..n])
  {
    if n == 0 {
      hide NoWrap, Chunks;
    } else {
      hide *;
      WorkAlong(snap, req, capacity, states, actions, n - 1);
      RunInv(snap, req, capacity, states, actions, n - 1);
      assert Next(snap, req, states[n - 1], actions[n - 1], states[n]) by { RunStep(snap, req, capacity, states, actions, n - 1); }
      WorkDecreases(snap, req, capacity, states[n - 1], actions[n - 1], states[n]);
      SpuriousStep(actions, n - 1);
    }
  }

  lemma RunStep(snap: Snapshots, req: Req, capacity: nat, states: seq<State>, actions: seq<Action>, n: nat)
    requires Run(snap, req, capacity, states, actions) && n < |actions|
    ensures Next(snap, req, states[n], actions[n], states[n + 1])
  {
    hide Next;
  }

  lemma SpuriousStep(actions: seq<Action>, n: nat)
    requires n < |actions|
    ensures SpuriousCount(actions[..n + 1]) == SpuriousCount(actions[..n]) + if actions[n].Spurious? then 1 else 0
  {
    assert actions[..n + 1][..n] == actions[..n];
  }

  /** The capacity matters: with room for nothing, both threads go to sleep after three steps and
      only spurious wakeups, after which they sleep again, remain. */
  lemma ZeroCapacityDeadlocks(snap: Snapshots, req: Req) returns (s: State)
    ensures Reachable(snap, req, 0, s) && !s.consumer.Returned?
    ensures forall a, s' :: Next(snap, req, s, a, s') ==> a.Spurious?
  {
    var s0 := Init(0);
    var p := MakePacket(snap, req, 0, 0);
    var s1 := s0.(producer := Pushing(p));
    var s2 := s1.(queue := s1.queue.(notFullWaiters := {Producer}));
    s := s2.(queue := s2.queue.(notEmptyWaiters := {Consumer}));
    hide MakePacket;
    assert Next(snap, req, s0, Produce, s1);
    assert Next(snap, req, s1, TryPush, s2);
    assert Next(snap, req, s2, TryPop, s);
    var states, actions := [s0, s1, s2, s], [Produce, TryPush, TryPop];
    assert Run(snap, req, 0, states, actions);
    assert states[|actions|] == s;
  }
}
