/** The network thread and the elaboration thread as one transition system over the packet queue. A step is
    one critical section, one system call or one assignment of either thread. */
module Pipeline {
  import opened InternalData
  import opened PacketRing

  /** Where the network thread is; `slot` is the slot it was handed. */
  datatype Producer =
    | Polling                     // about to ask for a slot
    | Reserved(slot: nat)         // in recvfrom
    | Received(slot: nat)         // packet written, time not yet
    | Stamped(slot: nat)          // about to signal

  /** Where the elaboration thread is; `done` counts the assignments it has made. */
  datatype Consumer =
    | Away                        // not in pthread_cond_wait: signals are lost
    | Waiting
    | Woken
    | Admitted                    // past sem_wait
    | Reading(slot: nat, done: nat)
    | Crashed                     // was handed no slot

  /** History: slots handed out and filled, signals, wakeups, slots given back, refusals of a full queue,
      completed waits on the semaphore, the packets that arrived, the reception times read, and the slots filled
      from both, in order. PipelineHistory says what this is in terms of the steps of a run. */
  datatype Log = Log(
    reserved: nat, filled: nat, signalled: nat, woken: nat, disposed: nat, refused: nat, admitted: nat,
    arrived: seq<Packet>, stamped: seq<int>, received: seq<Slot>)

  datatype State = State(
    nodes: seq<Slot>, inPtr: nat, outPtr: nat, sem: nat, prod: Producer, cons: Consumer, data: IntData, log: Log)

  datatype Step =
    | TryReserve
    | Receive(packet: Packet)
    | Stamp(time: int)
    | Signal
    | Await
    | SemWait
    | Take
    | Assign
    | Dispose
    | WakeSpuriously

  ghost predicate Init(s: State) {
    && |s.nodes| > 0 && s.inPtr == 0 && s.outPtr == 0 && s.sem == 0
    && s.prod == Polling && s.cons == Away
    && Complete(s.data)
    && s.log == Log(0, 0, 0, 0, 0, 0, 0, [], [], [])
  }

  predicate Enabled(s: State, a: Step) {
    match a
    case TryReserve => s.prod.Polling? && s.inPtr < |s.nodes|
    case Receive(p) => s.prod.Reserved? && s.prod.slot < |s.nodes| && p.Valid()
    case Stamp(_) => s.prod.Received? && s.prod.slot < |s.nodes|
    case Signal => s.prod.Stamped?
    case Await => s.cons.Away?
    case SemWait => s.cons.Woken? && s.sem > 0
    case Take => s.cons.Admitted?
    case Assign =>
      && s.cons.Reading? && s.cons.slot < |s.nodes| && Complete(s.data)
      && s.cons.done < |Writes(s.nodes[s.cons.slot])|
      && Writes(s.nodes[s.cons.slot])[s.cons.done].field.Valid()
    case Dispose =>
      && s.cons.Reading? && s.cons.slot < |s.nodes|
      && s.cons.done == |Writes(s.nodes[s.cons.slot])|
    case WakeSpuriously => s.cons.Waiting?
  }

  function Apply(s: State, a: Step): State
    requires Enabled(s, a)
  {
    var n, log := |s.nodes|, s.log;
    match a
    case TryReserve =>
      if (s.inPtr + 1) % n == s.outPtr then
        s.(sem := s.sem + 1, log := log.(refused := log.refused + 1))
      else
        s.(sem := s.sem + 1, prod := Reserved(s.inPtr), inPtr := (s.inPtr + 1) % n,
           log := log.(reserved := log.reserved + 1))
    case Receive(p) =>
      s.(nodes := s.nodes[s.prod.slot := s.nodes[s.prod.slot].(packet := p)], prod := Received(s.prod.slot),
         log := log.(arrived := log.arrived + [p]))
    case Stamp(time) =>
      var node := s.nodes[s.prod.slot].(lastUpdate := time);
      s.(nodes := s.nodes[s.prod.slot := node], prod := Stamped(s.prod.slot),
         log := log.(filled := log.filled + 1, stamped := log.stamped + [time], received := log.received + [node]))
    case Signal =>
      var wakes := s.cons.Waiting?;
      s.(prod := Polling, cons := if wakes then Woken else s.cons,
         log := log.(signalled := log.signalled + 1, woken := if wakes then log.woken + 1 else log.woken))
    case Await => s.(cons := Waiting)
    case SemWait => s.(sem := s.sem - 1, cons := Admitted, log := log.(admitted := log.admitted + 1))
    case Take => s.(cons := if s.outPtr != s.inPtr then Reading(s.outPtr, 0) else Crashed)
    case Assign =>
      var w := Writes(s.nodes[s.cons.slot])[s.cons.done];
      s.(data := Put(s.data, w.field, w.value), cons := Reading(s.cons.slot, s.cons.done + 1))
    case Dispose =>
      s.(outPtr := if s.outPtr != s.inPtr then (s.outPtr + 1) % n else s.outPtr, cons := Away,
         log := log.(disposed := log.disposed + 1))
    case WakeSpuriously => s.(cons := Woken, log := log.(woken := log.woken + 1))
  }

  /** pthread_cond_wait may return without a signal. Such a wakeup is covered if there has been a signal for
      every packet consumed so far and one more; see SpuriousMisreadsIff for the others. */
  predicate Covered(s: State, a: Step) {
    a.WakeSpuriously? ==> s.log.disposed < s.log.signalled
  }

  /** A run from a state with data d in which every spurious wakeup is covered. */
  ghost predicate Run(states: seq<State>, steps: seq<Step>, d: IntData) {
    && |states| == |steps| + 1
    && Init(states[0]) && states[0].data == d
    && forall i :: 0 <= i < |steps| ==>
                     && Covered(states[i], steps[i]) && Enabled(states[i], steps[i])
                     && states[i + 1] == Apply(states[i], steps[i])
  }

  // ------------------------------------------------------------- the counters

  /** The pointers are the wrapped counters, and at most all slots but one are out. */
  ghost predicate RingInv(s: State) {
    var n, log := |s.nodes|, s.log;
    && n > 0
    && log.disposed <= log.reserved <= log.disposed + n - 1
    && s.inPtr == Wrap(log.reserved, n) && s.outPtr == Wrap(log.disposed, n)
  }

  /** What each thread's position says about the counters. */
  ghost predicate CountInv(s: State) {
    var n, log := |s.nodes|, s.log;
    && n > 0
    && |log.received| == log.filled
    && (match s.prod
        case Polling => log.signalled == log.filled == log.reserved
        case Reserved(i) => log.signalled == log.filled == log.reserved - 1 && i == Wrap(log.filled, n)
        case Received(i) => log.signalled == log.filled == log.reserved - 1 && i == Wrap(log.filled, n)
        case Stamped(i) => log.signalled + 1 == log.filled == log.reserved && i == Wrap(log.signalled, n))
    && log.woken <= log.signalled
    && log.woken == log.disposed + (if s.cons.Away? || s.cons.Waiting? then 0 else 1)
    && log.admitted == log.disposed + (if s.cons.Admitted? || s.cons.Reading? || s.cons.Crashed? then 1 else 0)
    && s.sem + log.admitted == log.reserved + log.refused
    && !s.cons.Crashed?
    && (s.cons.Reading? ==> s.cons.slot == Wrap(log.disposed, n))
  }

  /** The filled slots that have not been given back still hold what was received. */
  ghost predicate SlotInv(s: State) {
    var n, log := |s.nodes|, s.log;
    && n > 0 && |log.received| == log.filled && AllValid(log.received)
    && (forall i :: log.disposed <= i < log.filled ==> s.nodes[Wrap(i, n)] == log.received[i])
    && |log.arrived| == log.filled + (if s.prod.Received? then 1 else 0)
    && |log.stamped| == log.filled
    && (forall i :: 0 <= i < log.filled ==>
          log.received[i].packet == log.arrived[i] && log.received[i].lastUpdate == log.stamped[i])
    && (s.prod.Received? ==>
          && s.prod.slot < n && s.nodes[s.prod.slot].packet == log.arrived[log.filled]
          && s.nodes[s.prod.slot].packet.Valid())
  }

  /** The data is the fold over the slots given back, plus the assignments made from the one being read. */
  ghost predicate DataInv(s: State, d: IntData) {
    var log := s.log;
    && Complete(d) && AllValid(log.received)
    && log.disposed <= |log.received|
    && AllValid(log.received[..log.disposed])
    && (var k := Fold(d, log.received[..log.disposed]);
        if s.cons.Reading? then
          && log.disposed < |log.received|
          && s.cons.done <= |Writes(log.received[log.disposed])|
          && ValidWrites(Writes(log.received[log.disposed]))
          && s.data == PutFirst(k, Writes(log.received[log.disposed]), s.cons.done)
        else s.data == k)
  }

  ghost predicate Inv(s: State, d: IntData) {
    RingInv(s) && CountInv(s) && SlotInv(s) && DataInv(s, d)
  }

  lemma RingInvStep(s: State, a: Step)
    requires RingInv(s) && CountInv(s) && Enabled(s, a)
    ensures RingInv(Apply(s, a))
  {
    var n, log := |s.nodes|, s.log;
    PointerTests(log.reserved, log.disposed, n);
    NextPointer(log.reserved, n);
    NextPointer(log.disposed, n);
  }

  lemma CountInvStep(s: State, a: Step)
    requires RingInv(s) && CountInv(s) && Enabled(s, a) && Covered(s, a)
    ensures CountInv(Apply(s, a))
  {
    PointerTests(s.log.reserved, s.log.disposed, |s.nodes|);
  }

  /** The slot in the producer's hands is none of the filled ones that are not given back. */
  lemma ProducerApart(s: State, i: nat)
    requires RingInv(s) && CountInv(s) && (s.prod.Reserved? || s.prod.Received?)
    requires s.log.disposed <= i < s.log.filled
    ensures Wrap(i, |s.nodes|) != s.prod.slot
  {
    WrapDistance(i, s.log.filled - i, |s.nodes|);
  }

  /** Writing to the producer's slot leaves the filled slots alone. */
  lemma FilledKept(s: State, node: Slot)
    requires RingInv(s) && CountInv(s) && SlotInv(s) && (s.prod.Reserved? || s.prod.Received?)
    requires s.prod.slot < |s.nodes|
    ensures forall i :: s.log.disposed <= i < s.log.filled ==>
                          s.nodes[s.prod.slot := node][Wrap(i, |s.nodes|)] == s.log.received[i]
  {
    forall i | s.log.disposed <= i < s.log.filled
      ensures s.nodes[s.prod.slot := node][Wrap(i, |s.nodes|)] == s.log.received[i]
    {
      ProducerApart(s, i);
    }
  }

  lemma SlotInvReceive(s: State, p: Packet)
    requires RingInv(s) && CountInv(s) && SlotInv(s) && Enabled(s, Receive(p))
    ensures SlotInv(Apply(s, Receive(p)))
  {
    FilledKept(s, s.nodes[s.prod.slot].(packet := p));
  }

  /** The slot filled by a Stamp step is the packet received into it with the time of that step. */
  lemma StampFills(s: State, time: int)
    requires CountInv(s) && SlotInv(s) && Enabled(s, Stamp(time))
    ensures |s.log.arrived| > 0
    ensures Apply(s, Stamp(time)).log.received == s.log.received + [Slot(s.log.arrived[|s.log.arrived| - 1], time)]
  {
  }

  lemma SlotInvStamp(s: State, time: int)
    requires RingInv(s) && CountInv(s) && SlotInv(s) && Enabled(s, Stamp(time))
    ensures SlotInv(Apply(s, Stamp(time)))
  {
    FilledKept(s, s.nodes[s.prod.slot].(lastUpdate := time));
  }

  lemma SlotInvStep(s: State, a: Step)
    requires RingInv(s) && CountInv(s) && SlotInv(s) && Enabled(s, a)
    ensures SlotInv(Apply(s, a))
  {
    match a {
      case Receive(p) => SlotInvReceive(s, p);
      case Stamp(time) => SlotInvStamp(s, time);
      case _ =>
    }
  }

  lemma DataInvAssign(s: State, d: IntData)
    requires Inv(s, d) && Enabled(s, Assign)
    ensures DataInv(Apply(s, Assign), d)
  {
    var log := s.log;
    var slot := log.received[log.disposed];
    assert s.nodes[s.cons.slot] == slot;
    WritesDecode(Fold(d, log.received[..log.disposed]), slot);
  }

  lemma DataInvDispose(s: State, d: IntData)
    requires Inv(s, d) && Enabled(s, Dispose)
    ensures DataInv(Apply(s, Dispose), d)
  {
    var log := s.log;
    var k, slot := log.disposed, log.received[log.disposed];
    assert s.nodes[s.cons.slot] == slot;
    WritesDecode(Fold(d, log.received[..k]), slot);
    assert log.received[..k + 1][..k] == log.received[..k];
  }

  lemma DataInvStep(s: State, a: Step, d: IntData)
    requires Inv(s, d) && Enabled(s, a) && Covered(s, a)
    ensures DataInv(Apply(s, a), d)
  {
    match a {
      case Stamp(time) =>
        var r, r' := s.log.received, Apply(s, a).log.received;
        assert r'[..s.log.disposed] == r[..s.log.disposed];
      case Assign => DataInvAssign(s, d);
      case Dispose => DataInvDispose(s, d);
      case _ =>
    }
  }

  lemma InvStep(s: State, a: Step, d: IntData)
    requires Inv(s, d) && Enabled(s, a) && Covered(s, a)
    ensures Inv(Apply(s, a), d)
  {
    RingInvStep(s, a);
    CountInvStep(s, a);
    SlotInvStep(s, a);
    DataInvStep(s, a, d);
  }

  lemma {:induction false} RunKeeps(states: seq<State>, steps: seq<Step>, d: IntData, k: nat)
    requires Run(states, steps, d) && k < |states|
    ensures Inv(states[k], d)
  {
    if k > 0 {
      RunKeeps(states, steps, d, k - 1);
      InvStep(states[k - 1], steps[k - 1], d);
    }
  }

  // ------------------------------------------------------------------- safety

  /** In every interleaving, with covered spurious wakeups: the counters are in order, the semaphore is accounted
      for, and a woken consumer never blocks on it, is handed a completely filled slot, and advances when it
      gives it back. */
  lemma ConsumerSafety(states: seq<State>, steps: seq<Step>, d: IntData, k: nat)
    requires Run(states, steps, d) && k < |states|
    ensures var s, log := states[k], states[k].log;
            && log.disposed <= log.woken <= log.signalled <= log.filled <= log.reserved <= log.filled + 1
            && s.sem + log.admitted == log.reserved + log.refused
            && !s.cons.Crashed?
            && (s.cons.Woken? ==> Enabled(s, SemWait))
            && (s.cons.Admitted? ==>
                  && s.outPtr != s.inPtr && s.outPtr < |s.nodes| && log.disposed < |log.received|
                  && s.nodes[s.outPtr] == log.received[log.disposed])
            && (s.cons.Reading? ==> s.outPtr == s.cons.slot && s.outPtr != s.inPtr)
  {
    RunKeeps(states, steps, d, k);
    PointerTests(states[k].log.reserved, states[k].log.disposed, |states[k].nodes|);
  }

  /** In every interleaving, with covered spurious wakeups: between two packets the data is the fold of the decoder
      over the packets consumed so far, which are the first ones that arrived, in order of arrival, each with
      its reception time. */
  lemma DataIsFold(states: seq<State>, steps: seq<Step>, d: IntData, k: nat)
    requires Run(states, steps, d) && k < |states| && !states[k].cons.Reading?
    ensures var log := states[k].log;
            && log.disposed <= |log.received| == |log.stamped| <= |log.arrived|
            && (forall i :: 0 <= i < |log.received| ==> log.received[i] == Slot(log.arrived[i], log.stamped[i]))
            && Complete(d) && AllValid(log.received[..log.disposed])
            && states[k].data == Fold(d, log.received[..log.disposed])
  {
    RunKeeps(states, steps, d, k);
  }

  /** In every interleaving, with covered spurious wakeups, at every moment, also while a packet is being applied:
      what another thread reads from a field is its value after the packets consumed so far, or after one
      more. */
  lemma FieldNeverTorn(states: seq<State>, steps: seq<Step>, d: IntData, k: nat, f: Field)
    requires Run(states, steps, d) && k < |states| && f.Valid()
    ensures var s, log := states[k], states[k].log;
            && Complete(d) && Complete(s.data) && log.disposed <= |log.received| && AllValid(log.received)
            && (|| Get(s.data, f) == Get(Fold(d, log.received[..log.disposed]), f)
                || (&& log.disposed < |log.received|
                    && Get(s.data, f) == Get(Fold(d, log.received[..log.disposed + 1]), f)))
  {
    RunKeeps(states, steps, d, k);
    var s, r, n := states[k], states[k].log.received, states[k].log.disposed;
    if s.cons.Reading? {
      HalfApplied(Fold(d, r[..n]), r[n], s.cons.done, f);
      assert r[..n + 1][..n] == r[..n];
    }
  }

  /** In every interleaving, with covered spurious wakeups, between two packets: a field holds what the latest
      consumed packet that carries it said, so a query is answered with the freshest value there is. */
  lemma FieldIsLatest(states: seq<State>, steps: seq<Step>, d: IntData, k: nat, f: Field, m: nat, i: nat)
    requires Run(states, steps, d) && k < |states| && !states[k].cons.Reading? && f.Valid()
    requires m < |states[k].log.received| && m < states[k].log.disposed
    requires i < |Writes(states[k].log.received[m])| && Writes(states[k].log.received[m])[i].field == f
    requires forall l :: m < l < |states[k].log.received| && l < states[k].log.disposed ==>
                           !Carries(states[k].log.received[l], f)
    ensures Complete(states[k].data)
    ensures Get(states[k].data, f) == Writes(states[k].log.received[m])[i].value
  {
    DataIsFold(states, steps, d, k);
    LatestWins(d, states[k].log.received[..states[k].log.disposed], f, m, i);
  }

  /** In every interleaving, with covered spurious wakeups, the slot being read is not the one in the producer's
      hands. */
  lemma SlotExclusive(states: seq<State>, steps: seq<Step>, d: IntData, k: nat)
    requires Run(states, steps, d) && k < |states|
    requires states[k].cons.Reading? && !states[k].prod.Polling?
    ensures states[k].cons.slot != states[k].prod.slot
  {
    RunKeeps(states, steps, d, k);
    var s, log := states[k], states[k].log;
    WrapDistance(log.disposed, (if s.prod.Stamped? then log.signalled else log.filled) - log.disposed, |s.nodes|);
  }

  // --------------------------------------------------------------------- stall

  /** All slots but one are taken, the producer is turned away, and no wakeup is on its way. */
  predicate Stalled(s: State) {
    && s.prod.Polling? && s.log.reserved == s.log.disposed + |s.nodes| - 1
    && (s.cons.Away? || s.cons.Waiting?)
  }

  /** A continuation without spurious wakeups. */
  ghost predicate CanRun(s: State, steps: seq<Step>)
    decreases |steps|
  {
    steps == [] ||
    (!steps[0].WakeSpuriously? && Enabled(s, steps[0]) && CanRun(Apply(s, steps[0]), steps[1..]))
  }

  ghost function End(s: State, steps: seq<Step>): State
    requires CanRun(s, steps)
    decreases |steps|
  {
    if steps == [] then s else End(Apply(s, steps[0]), steps[1..])
  }

  /** Some continuation without spurious wakeups gives another packet to the data. */
  ghost predicate CanConsume(s: State) {
    exists steps :: CanRun(s, steps) && End(s, steps).log.disposed > s.log.disposed
  }

  lemma StalledStep(s: State, a: Step)
    requires RingInv(s) && Stalled(s) && Enabled(s, a) && !a.WakeSpuriously?
    ensures RingInv(Apply(s, a)) && Stalled(Apply(s, a))
    ensures Apply(s, a).log.disposed == s.log.disposed && Apply(s, a).data == s.data
  {
    PointerTests(s.log.reserved, s.log.disposed, |s.nodes|);
  }

  lemma {:induction false} StalledForever(s: State, steps: seq<Step>)
    requires RingInv(s) && Stalled(s) && CanRun(s, steps)
    ensures Stalled(End(s, steps)) && End(s, steps).log.disposed == s.log.disposed && End(s, steps).data == s.data
    decreases |steps|
  {
    if steps != [] {
      StalledStep(s, steps[0]);
      StalledForever(Apply(s, steps[0]), steps[1..]);
    }
  }

  /** How far the next disposal is. */
  function Distance(s: State): nat {
    match s.cons
    case Reading(i, done) =>
      if i < |s.nodes| && done <= |Writes(s.nodes[i])| then 1 + |Writes(s.nodes[i])| - done else 0
    case Admitted => 20
    case Woken => 21
    case _ =>
      (match s.prod case Stamped(_) => 22 case Received(_) => 23 case Reserved(_) => 24 case Polling => 25) +
      if s.cons.Away? then 10 else 0
  }

  const QUIET := Packet(0, Adiru(0, 0, 0, 0, 0, 0), EnginePayload(0, 0, 0, 0, 0, 0, 0, 0, 0, 0))

  /** A step towards the next disposal. */
  function Forward(s: State): Step {
    match s.cons
    case Reading(i, done) => if i < |s.nodes| && done < |Writes(s.nodes[i])| then Assign else Dispose
    case Admitted => Take
    case Woken => SemWait
    case Away => Await
    case _ =>
      match s.prod
      case Stamped(_) => Signal
      case Received(_) => Stamp(0)
      case Reserved(_) => Receive(QUIET)
      case Polling => TryReserve
  }

  lemma ForwardReading(s: State, d: IntData)
    requires Inv(s, d) && s.cons.Reading?
    ensures Enabled(s, Forward(s))
    ensures Forward(s).Assign? || Forward(s).Dispose?
    ensures Forward(s).Assign? ==> Apply(s, Forward(s)).cons.Reading? && Distance(Apply(s, Forward(s))) < Distance(s)
    ensures Apply(s, Forward(s)).log.disposed == s.log.disposed + if Forward(s).Dispose? then 1 else 0
  {
    var slot := s.log.received[s.log.disposed];
    assert s.nodes[s.cons.slot] == slot;
    WritesDecode(Fold(d, s.log.received[..s.log.disposed]), slot);
  }

  lemma ForwardTake(s: State, d: IntData)
    requires Inv(s, d) && s.cons.Admitted?
    ensures Enabled(s, Take) && Apply(s, Take).cons.Reading?
    ensures Distance(Apply(s, Take)) < Distance(s)
  {
    PointerTests(s.log.reserved, s.log.disposed, |s.nodes|);
  }

  lemma ForwardElse(s: State, d: IntData)
    requires Inv(s, d) && !Stalled(s) && !s.cons.Reading? && !s.cons.Admitted?
    ensures Enabled(s, Forward(s)) && !Forward(s).WakeSpuriously?
    ensures !Stalled(Apply(s, Forward(s)))
    ensures Distance(Apply(s, Forward(s))) < Distance(s)
    ensures Apply(s, Forward(s)).log.disposed == s.log.disposed
  {
    PointerTests(s.log.reserved, s.log.disposed, |s.nodes|);
  }

  lemma {:induction false} Progress(s: State, d: IntData) returns (steps: seq<Step>)
    requires Inv(s, d) && !Stalled(s)
    ensures CanRun(s, steps) && End(s, steps).log.disposed > s.log.disposed
    decreases Distance(s)
  {
    var a := Forward(s);
    if s.cons.Reading? {
      ForwardReading(s, d);
    } else if s.cons.Admitted? {
      ForwardTake(s, d);
    } else {
      ForwardElse(s, d);
    }
    var s' := Apply(s, a);
    if a.Dispose? {
      steps := [a];
      assert CanRun(s', []) && End(s', []) == s';
    } else {
      InvStep(s, a, d);
      var rest := Progress(s', d);
      steps := [a] + rest;
      assert steps[1..] == rest;
    }
  }

  /** From a state that a run reaches, another packet can still be consumed without the help of a spurious wakeup
      if and only if the pipeline is not stalled. So packets are applied in order, but not every one is applied
      in the end. */
  lemma CanConsumeIff(states: seq<State>, steps: seq<Step>, d: IntData, k: nat)
    requires Run(states, steps, d) && k < |states|
    ensures CanConsume(states[k]) <==> !Stalled(states[k])
  {
    RunKeeps(states, steps, d, k);
    if Stalled(states[k]) {
      forall more | CanRun(states[k], more)
        ensures End(states[k], more).log.disposed == states[k].log.disposed
      {
        StalledForever(states[k], more);
      }
    } else {
      var more := Progress(states[k], d);
    }
  }

  lemma FirstStep(s: State, a: Step, rest: seq<Step>)
    requires !a.WakeSpuriously? && Enabled(s, a) && CanRun(Apply(s, a), rest)
    ensures CanRun(s, [a] + rest) && End(s, [a] + rest) == End(Apply(s, a), rest)
  {
    assert ([a] + rest)[1..] == rest;
  }

  lemma AfterReserve(s: State, d: IntData)
    requires Inv(s, d) && s.prod.Polling? && s.log.reserved < s.log.disposed + |s.nodes| - 1
    ensures Enabled(s, TryReserve) && Inv(Apply(s, TryReserve), d)
    ensures Apply(s, TryReserve).prod.Reserved?
  {
    PointerTests(s.log.reserved, s.log.disposed, |s.nodes|);
    InvStep(s, TryReserve, d);
  }

  /** Fills the reserved slot while the consumer is away, so that the signal is lost. */
  lemma LoseSignal(s: State, d: IntData) returns (steps: seq<Step>)
    requires Inv(s, d) && s.cons.Away? && !s.prod.Polling?
    ensures CanRun(s, steps)
    ensures var s' := End(s, steps);
            && Inv(s', d) && s'.cons.Away? && s'.prod.Polling? && |s'.nodes| == |s.nodes|
            && s'.log.disposed == s.log.disposed && s'.log.reserved == s.log.reserved
    decreases match s.prod case Stamped(_) => 0 case Received(_) => 1 case Reserved(_) => 2 case Polling => 3
  {
    var a := match s.prod case Stamped(_) => Signal case Received(_) => Stamp(0) case _ => Receive(QUIET);
    InvStep(s, a, d);
    if a.Signal? {
      FirstStep(s, a, []);
      steps := [a] + [];
    } else {
      var rest := LoseSignal(Apply(s, a), d);
      FirstStep(s, a, rest);
      steps := [a] + rest;
    }
  }

  lemma {:induction false} RunOn(s: State, first: seq<Step>, second: seq<Step>)
    requires CanRun(s, first) && CanRun(End(s, first), second)
    ensures CanRun(s, first + second) && End(s, first + second) == End(End(s, first), second)
    decreases |first|
  {
    if first == [] {
      assert first + second == second;
    } else {
      RunOn(Apply(s, first[0]), first[1..], second);
      assert (first + second)[1..] == first[1..] + second;
    }
  }

  lemma {:induction false} FillUp(s: State, d: IntData) returns (steps: seq<Step>)
    requires Inv(s, d) && s.cons.Away? && s.prod.Polling?
    ensures CanRun(s, steps) && Stalled(End(s, steps))
    decreases s.log.disposed + |s.nodes| - s.log.reserved
  {
    if Stalled(s) {
      steps := [];
    } else {
      AfterReserve(s, d);
      var s1 := Apply(s, TryReserve);
      var fill := LoseSignal(s1, d);
      var rest := FillUp(End(s1, fill), d);
      RunOn(s1, fill, rest);
      FirstStep(s, TryReserve, fill + rest);
      steps := [TryReserve] + (fill + rest);
    }
  }

  /** For every size of the queue and whatever the slots and the data start with, some run stalls the
      pipeline. */
  lemma StallReachable(s: State) returns (steps: seq<Step>)
    requires Init(s)
    ensures CanRun(s, steps) && Stalled(End(s, steps)) && !CanConsume(End(s, steps))
  {
    assert s.log.received[..0] == [];
    assert Inv(s, s.data);
    steps := FillUp(s, s.data);
    EndKeeps(s, steps, s.data);
    var t := End(s, steps);
    forall more | CanRun(t, more)
      ensures End(t, more).log.disposed == t.log.disposed
    {
      StalledForever(t, more);
    }
  }

  lemma {:induction false} EndKeeps(s: State, steps: seq<Step>, d: IntData)
    requires Inv(s, d) && CanRun(s, steps)
    ensures Inv(End(s, steps), d)
    decreases |steps|
  {
    if steps != [] {
      InvStep(s, steps[0], d);
      EndKeeps(Apply(s, steps[0]), steps[1..], d);
    }
  }

  /** A spurious wakeup is the only thing that ends a stall (see StalledForever), and for any queue that can hold
      a packet one is enough: it is covered, and another packet is consumed. */
  lemma SpuriousEndsStall(states: seq<State>, steps: seq<Step>, d: IntData, k: nat)
    requires Run(states, steps, d) && k < |states| && Stalled(states[k])
    ensures states[k].cons.Away? ==> Enabled(states[k], Await)
    ensures var s := if states[k].cons.Away? then Apply(states[k], Await) else states[k];
            && Enabled(s, WakeSpuriously)
            && (Covered(s, WakeSpuriously) <==> |s.nodes| > 1)
            && (|s.nodes| > 1 ==> CanConsume(Apply(s, WakeSpuriously)))
  {
    RunKeeps(states, steps, d, k);
    var s := states[k];
    if s.cons.Away? {
      InvStep(s, Await, d);
      s := Apply(s, Await);
    }
    if |s.nodes| > 1 {
      InvStep(s, WakeSpuriously, d);
      var more := Progress(Apply(s, WakeSpuriously), d);
    }
  }

  // --------------------------------------------------------- spurious wakeups

  /** The consumer was handed no slot, or one that is not completely filled. */
  predicate Misread(s: State) {
    s.cons.Crashed? || (s.cons.Reading? && s.log.disposed >= s.log.filled)
  }

  ghost predicate CanMisread(s: State) {
    exists steps :: CanRun(s, steps) && Misread(End(s, steps))
  }

  lemma MisreadLater(s: State, a: Step)
    requires !a.WakeSpuriously? && Enabled(s, a) && CanMisread(Apply(s, a))
    ensures CanMisread(s)
  {
    var rest :| CanRun(Apply(s, a), rest) && Misread(End(Apply(s, a), rest));
    FirstStep(s, a, rest);
  }

  lemma MisreadNow(s: State)
    requires Misread(s)
    ensures CanMisread(s)
  {
    assert CanRun(s, []) && End(s, []) == s;
  }

  /** A woken consumer that the semaphore lets through finds no filled slot. */
  lemma MisreadAdmitted(s: State)
    requires s.cons.Woken? && s.sem > 0 && s.log.disposed >= s.log.filled
    ensures CanMisread(s)
  {
    var s1 := Apply(s, SemWait);
    MisreadNow(Apply(s1, Take));
    MisreadLater(s1, Take);
    MisreadLater(s, SemWait);
  }

  /** The producer's next attempt posts the semaphore, also when it is refused. */
  lemma MisreadPolling(s: State)
    requires s.prod.Polling? && s.inPtr < |s.nodes| && s.cons.Woken? && s.log.disposed >= s.log.filled
    ensures CanMisread(s)
  {
    MisreadAdmitted(Apply(s, TryReserve));
    MisreadLater(s, TryReserve);
  }

  /** The signal of a slot that is consumed already wakes the consumer for nothing. */
  lemma MisreadAfterConsumed(s: State)
    requires s.prod.Stamped? && s.inPtr < |s.nodes| && s.cons.Away? && s.log.disposed >= s.log.filled
    ensures CanMisread(s)
  {
    var s1 := Apply(s, Await);
    MisreadPolling(Apply(s1, Signal));
    MisreadLater(s1, Signal);
    MisreadLater(s, Await);
  }

  lemma {:induction false} MisreadWhileReading(s: State)
    requires s.prod.Stamped? && s.inPtr < |s.nodes| && s.log.disposed + 1 >= s.log.filled
    requires s.cons.Reading? && s.cons.slot < |s.nodes| && s.nodes[s.cons.slot].packet.Valid()
    requires Complete(s.data) && s.cons.done <= |Writes(s.nodes[s.cons.slot])|
    ensures CanMisread(s)
    decreases |Writes(s.nodes[s.cons.slot])| - s.cons.done
  {
    WritesDecode(s.data, s.nodes[s.cons.slot]);
    if s.cons.done < |Writes(s.nodes[s.cons.slot])| {
      MisreadWhileReading(Apply(s, Assign));
      MisreadLater(s, Assign);
    } else {
      MisreadAfterConsumed(Apply(s, Dispose));
      MisreadLater(s, Dispose);
    }
  }

  /** A wakeup between the filling of a slot and its signal: the slot is read early, and the signal comes late. */
  lemma MisreadStamped(s: State, d: IntData)
    requires Inv(s, d) && s.cons.Waiting? && s.prod.Stamped? && s.log.disposed == s.log.signalled
    ensures CanMisread(Apply(s, WakeSpuriously))
  {
    var s1 := Apply(s, WakeSpuriously);
    var s2 := Apply(s1, SemWait);
    PointerTests(s.log.reserved, s.log.disposed, |s.nodes|);
    var s3 := Apply(s2, Take);
    assert s.nodes[Wrap(s.log.disposed, |s.nodes|)] == s.log.received[s.log.disposed];
    MisreadWhileReading(s3);
    MisreadLater(s2, Take);
    MisreadLater(s1, SemWait);
  }

  /** For every reachable state in which the consumer waits: after a spurious wakeup it can come to read a slot
      that is not filled, or to be handed none, if and only if as many packets have been consumed as signals
      were sent. So the runs above are exactly those without a harmful wakeup. */
  lemma SpuriousMisreadsIff(states: seq<State>, steps: seq<Step>, d: IntData, k: nat)
    requires Run(states, steps, d) && k < |states| && states[k].cons.Waiting?
    ensures CanMisread(Apply(states[k], WakeSpuriously)) <==> !Covered(states[k], WakeSpuriously)
  {
    RunKeeps(states, steps, d, k);
    var s := states[k];
    if Covered(s, WakeSpuriously) {
      InvStep(s, WakeSpuriously, d);
      var s' := Apply(s, WakeSpuriously);
      forall more | CanRun(s', more)
        ensures !Misread(End(s', more))
      {
        EndKeeps(s', more, d);
      }
    } else if s.prod.Stamped? {
      MisreadStamped(s, d);
    } else if s.prod.Polling? {
      MisreadPolling(Apply(s, WakeSpuriously));
    } else {
      MisreadAdmitted(Apply(s, WakeSpuriously));
    }
  }

  /** The shortest run into a misread: the consumer is handed a slot that the producer has reserved and not
      filled. */
  lemma SpuriousWakeReadsUnfilled(s: State)
    requires Init(s) && |s.nodes| >= 2
    ensures var a := [TryReserve, Await, WakeSpuriously, SemWait, Take];
            && Enabled(s, a[0]) && var s1 := Apply(s, a[0]);
            && Enabled(s1, a[1]) && var s2 := Apply(s1, a[1]);
            && Enabled(s2, a[2]) && var s3 := Apply(s2, a[2]);
            && Enabled(s3, a[3]) && var s4 := Apply(s3, a[3]);
            && Enabled(s4, a[4]) && var s5 := Apply(s4, a[4]);
            && s5.cons.Reading? && s5.prod.Reserved? && s5.cons.slot == s5.prod.slot && s5.log.filled == 0
  {
    SmallMod(1, |s.nodes|);
  }
}
