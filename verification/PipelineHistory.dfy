/** The theorems on the packet pipeline in terms of the steps of a run alone: which packets came, when, and how many
    have been consumed is read off the steps, and so are the data and the answers to queries. */
module PipelineHistory {
  import opened RegistryTable
  import opened InternalData
  import opened Pipeline

  /** The packets that the steps receive, in order. */
  function Packets(steps: seq<Step>): seq<Packet> {
    if steps == [] then []
    else
      var n := |steps| - 1;
      Packets(steps[..n]) + if steps[n].Receive? then [steps[n].packet] else []
  }

  /** The reception times that the steps read, in order. */
  function Times(steps: seq<Step>): seq<int> {
    if steps == [] then []
    else
      var n := |steps| - 1;
      Times(steps[..n]) + if steps[n].Stamp? then [steps[n].time] else []
  }

  /** How often a waiting consumer is woken by the first k steps. */
  function Wakeups(states: seq<State>, steps: seq<Step>, k: nat): nat
    requires k <= |steps| <= |states|
  {
    if k == 0 then 0
    else
      var wakes := states[k - 1].cons.Waiting? && (steps[k - 1].Signal? || steps[k - 1].WakeSpuriously?);
      Wakeups(states, steps, k - 1) + if wakes then 1 else 0
  }

  lemma LogStep(s: State, a: Step)
    requires Enabled(s, a)
    ensures var log, log' := s.log, Apply(s, a).log;
            && log'.arrived == log.arrived + (if a.Receive? then [a.packet] else [])
            && log'.stamped == log.stamped + (if a.Stamp? then [a.time] else [])
            && log'.signalled == log.signalled + (if a == Signal then 1 else 0)
            && log'.disposed == log.disposed + (if a == Dispose then 1 else 0)
            && log'.admitted == log.admitted + (if a == SemWait then 1 else 0)
            && log'.reserved + log'.refused == log.reserved + log.refused + (if a == TryReserve then 1 else 0)
            && log'.woken == log.woken + (if s.cons.Waiting? && (a.Signal? || a.WakeSpuriously?) then 1 else 0)
  {
  }

  /** What the steps so far have done, step kind by step kind. */
  ghost predicate LogOf(log: Log, p: seq<Step>) {
    && log.arrived == Packets(p) && log.stamped == Times(p)
    && log.signalled == multiset(p)[Signal] && log.disposed == multiset(p)[Dispose]
    && log.admitted == multiset(p)[SemWait] && log.reserved + log.refused == multiset(p)[TryReserve]
  }

  lemma LogOfSnoc(s: State, p: seq<Step>, a: Step)
    requires LogOf(s.log, p) && Enabled(s, a)
    ensures LogOf(Apply(s, a).log, p + [a])
  {
    LogStep(s, a);
    assert (p + [a])[..|p|] == p;
  }

  lemma LogNext(states: seq<State>, steps: seq<Step>, k: nat)
    requires k < |steps| < |states| && LogOf(states[k].log, steps[..k])
    requires Enabled(states[k], steps[k]) && states[k + 1] == Apply(states[k], steps[k])
    requires states[k].log.woken == Wakeups(states, steps, k)
    ensures LogOf(states[k + 1].log, steps[..k + 1])
    ensures states[k + 1].log.woken == Wakeups(states, steps, k + 1)
  {
    LogOfSnoc(states[k], steps[..k], steps[k]);
    LogStep(states[k], steps[k]);
    assert steps[..k + 1] == steps[..k] + [steps[k]];
  }

  lemma {:induction false} LogIs(states: seq<State>, steps: seq<Step>, d: IntData, k: nat)
    requires Run(states, steps, d) && k < |states|
    ensures LogOf(states[k].log, steps[..k])
    ensures states[k].log.woken == Wakeups(states, steps, k)
  {
    if k == 0 {
      assert steps[..0] == [];
    } else {
      LogIs(states, steps, d, k - 1);
      LogNext(states, steps, k - 1);
    }
  }

  /** In every run: at most as many packets are consumed as the consumer is woken, signals are sent, slots are filled
      and packets have come; and the semaphore is the attempts to reserve a slot, refused ones included, minus the
      completed waits. */
  lemma CountsOfSteps(states: seq<State>, steps: seq<Step>, d: IntData, k: nat)
    requires Run(states, steps, d) && k < |states|
    ensures var p := steps[..k];
            && multiset(p)[Dispose] <= Wakeups(states, steps, k) <= multiset(p)[Signal]
            && multiset(p)[Signal] <= |Times(p)| <= |Packets(p)| <= multiset(p)[TryReserve]
            && states[k].sem + multiset(p)[SemWait] == multiset(p)[TryReserve]
  {
    LogIs(states, steps, d, k);
    RunKeeps(states, steps, d, k);
    ConsumerSafety(states, steps, d, k);
  }

  /** In every run both threads can go on: the network thread can always take its next step, whatever packet comes and
      whatever the clock shows, and so can the elaboration thread unless it waits. */
  lemma ThreadsProceed(states: seq<State>, steps: seq<Step>, d: IntData, k: nat, packet: Packet, time: int)
    requires Run(states, steps, d) && k < |states|
    requires packet.identifier == 2 ==>
               && packet.engine.engineId < 4 && packet.engine.flagStatus < 4 && packet.engine.flagReverse < 2
               && packet.engine.flagFire < 2 && packet.engine.flagMaintainance < 2
    ensures match states[k].prod
            case Polling => Enabled(states[k], TryReserve)
            case Reserved(_) => Enabled(states[k], Receive(packet))
            case Received(_) => Enabled(states[k], Stamp(time))
            case Stamped(_) => Enabled(states[k], Signal)
    ensures match states[k].cons
            case Away => Enabled(states[k], Await)
            case Waiting => states[k].prod.Stamped? ==> Apply(states[k], Signal).cons.Woken?
            case Woken => Enabled(states[k], SemWait)
            case Admitted => Enabled(states[k], Take)
            case Reading(_, _) => Enabled(states[k], Assign) || Enabled(states[k], Dispose)
            case Crashed => false
  {
    RunKeeps(states, steps, d, k);
    ConsumerSafety(states, steps, d, k);
    if states[k].cons.Reading? {
      ForwardReading(states[k], d);
    }
  }

  /** The packets consumed by the steps, each with the time read after it: the first ones that came, as many as there
      are disposals. */
  function Consumed(p: seq<Step>): seq<Slot>
    requires multiset(p)[Dispose] <= |Times(p)| <= |Packets(p)|
  {
    seq(multiset(p)[Dispose], i requires 0 <= i < multiset(p)[Dispose] => Slot(Packets(p)[i], Times(p)[i]))
  }

  lemma ConsumedIs(log: Log, p: seq<Step>)
    requires LogOf(log, p) && log.disposed <= |log.received| == |log.stamped| <= |log.arrived|
    requires forall i :: 0 <= i < |log.received| ==> log.received[i] == Slot(log.arrived[i], log.stamped[i])
    ensures Consumed(p) == log.received[..log.disposed]
  {
  }

  /** In every run, between two packets: the data is the fold of the decoder over the consumed packets. */
  lemma DataOfSteps(states: seq<State>, steps: seq<Step>, d: IntData, k: nat)
    requires Run(states, steps, d) && k < |states| && !states[k].cons.Reading?
    ensures multiset(steps[..k])[Dispose] <= |Times(steps[..k])| <= |Packets(steps[..k])|
    ensures Complete(d) && AllValid(Consumed(steps[..k]))
    ensures states[k].data == Fold(d, Consumed(steps[..k]))
  {
    LogIs(states, steps, d, k);
    DataIsFold(states, steps, d, k);
    ConsumedIs(states[k].log, steps[..k]);
  }

  /** From the network to the client, for ADIRU packets: in every run, between two packets, the records hold the latest
      consumed ADIRU packet and its reception time, and its values are what queries are answered with. */
  lemma AdiruOfSteps(states: seq<State>, steps: seq<Step>, d: IntData, k: nat, m: nat, r: nat, id: nat, j: Reply)
    requires Run(states, steps, d) && k < |states| && !states[k].cons.Reading?
    requires multiset(steps[..k])[Dispose] <= |Times(steps[..k])| <= |Packets(steps[..k])|
    requires m < |Consumed(steps[..k])| && Consumed(steps[..k])[m].packet.identifier == 1
    requires forall l :: m < l < |Consumed(steps[..k])| ==> Consumed(steps[..k])[l].packet.identifier != 1
    ensures var p, t := Consumed(steps[..k])[m].packet.adiru, Consumed(steps[..k])[m].lastUpdate;
            && states[k].data.attitude == Attitude(t, p.altitude, p.roll, p.pitch, p.yaw)
            && states[k].data.speeds == Speeds(t, p.aoa, p.airspeed)
    ensures Complete(states[k].data)
    ensures AdiruAnswered(states[k].data, Consumed(steps[..k])[m].packet.adiru, r, id, j)
  {
    DataOfSteps(states, steps, d, k);
    LatestAdiru(d, Consumed(steps[..k]), m);
    AdiruRecordsAnswer(states[k].data, Consumed(steps[..k])[m], r, id, j);
  }

  /** The same for engine packets. */
  lemma EngineOfSteps(states: seq<State>, steps: seq<Step>, d: IntData, k: nat, m: nat, r: nat, j: Reply)
    requires Run(states, steps, d) && k < |states| && !states[k].cons.Reading?
    requires multiset(steps[..k])[Dispose] <= |Times(steps[..k])| <= |Packets(steps[..k])|
    requires m < |Consumed(steps[..k])| && Consumed(steps[..k])[m].packet.identifier == 2
    requires var ss := Consumed(steps[..k]);
             forall l :: m < l < |ss| && ss[l].packet.identifier == 2 ==>
                           ss[l].packet.engine.engineId != ss[m].packet.engine.engineId
    ensures var e, t := Consumed(steps[..k])[m].packet.engine, Consumed(steps[..k])[m].lastUpdate;
            && Complete(states[k].data) && e.engineId < 4
            && states[k].data.engines[e.engineId] ==
               EngineData(t, e.throttle, e.realThrust, e.oilTemp, e.oilPress, e.fuelPress, e.flagStatus,
                          e.flagReverse + 2 * e.flagFire + 4 * e.flagMaintainance)
            && EngineAnswered(states[k].data, e, r, j)
  {
    DataOfSteps(states, steps, d, k);
    LatestEngine(d, Consumed(steps[..k]), m);
    EngineRecordAnswers(states[k].data, Consumed(steps[..k])[m], r, j);
  }
}
