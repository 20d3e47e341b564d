/** The aircraft data the daemon keeps: how a received packet updates it and how a query is answered from it. */
module InternalData {
  import opened Options
  import opened RegistryTable

  const NR_ENGINES := 4

  const PACKET_ADIRU := 1
  const PACKET_ENGINE := 2

  datatype Adiru = Adiru(airspeed: int, altitude: int, aoa: int, roll: int, pitch: int, yaw: int)

  datatype EnginePayload = EnginePayload(
    engineId: nat, throttle: int, realThrust: int, oilTemp: int, oilPress: int, fuelPress: int,
    flagStatus: nat, flagReverse: nat, flagFire: nat, flagMaintainance: nat)

  /** A packet; the identifier says which of the two views of the payload is meant, if any. */
  datatype Packet = Packet(identifier: nat, adiru: Adiru, engine: EnginePayload) {
    predicate Valid() {
      identifier == PACKET_ENGINE ==>
        && engine.engineId < NR_ENGINES && engine.flagStatus < 4
        && engine.flagReverse < 2 && engine.flagFire < 2 && engine.flagMaintainance < 2
    }
  }

  /** What a slot of the packet queue holds. */
  datatype Slot = Slot(packet: Packet, lastUpdate: int)

  datatype EngineData = EngineData(
    lastUpdate: int, throttle: int, realThrust: int, oilTemp: int, oilPress: int, fuelPress: int,
    status: int, engineFlags: int)

  datatype Attitude = Attitude(lastUpdate: int, altitude: int, roll: int, pitch: int, yaw: int)

  datatype Speeds = Speeds(lastUpdate: int, aoa: int, airspeed: int)

  datatype IntData = IntData(engines: seq<EngineData>, attitude: Attitude, speeds: Speeds)

  /** The engine flags as one number. */
  function Flags(e: EnginePayload): int {
    e.flagReverse * 1 + e.flagFire * 2 + e.flagMaintainance * 4
  }

  /** The three flags can be read back from the number. */
  lemma FlagsRoundTrip(p: Packet)
    requires p.Valid() && p.identifier == PACKET_ENGINE
    ensures 0 <= Flags(p.engine) < 8
    ensures p.engine.flagReverse == Flags(p.engine) % 2
    ensures p.engine.flagFire == Flags(p.engine) / 2 % 2
    ensures p.engine.flagMaintainance == Flags(p.engine) / 4
  {
  }

  // ------------------------------------------------------------ single fields

  datatype EngineField = EngineUpdate | Throttle | RealThrust | OilTemp | OilPress | FuelPress | Status | EngineFlags

  datatype Field =
    | Engine(id: nat, e: EngineField)
    | AttitudeUpdate | Altitude | Roll | Pitch | Yaw
    | SpeedsUpdate | Aoa | Airspeed
  {
    predicate Valid() {
      Engine? ==> id < NR_ENGINES
    }
  }

  function GetEngine(d: EngineData, e: EngineField): int {
    match e
    case EngineUpdate => d.lastUpdate
    case Throttle => d.throttle
    case RealThrust => d.realThrust
    case OilTemp => d.oilTemp
    case OilPress => d.oilPress
    case FuelPress => d.fuelPress
    case Status => d.status
    case EngineFlags => d.engineFlags
  }

  function PutEngine(d: EngineData, e: EngineField, v: int): EngineData {
    match e
    case EngineUpdate => d.(lastUpdate := v)
    case Throttle => d.(throttle := v)
    case RealThrust => d.(realThrust := v)
    case OilTemp => d.(oilTemp := v)
    case OilPress => d.(oilPress := v)
    case FuelPress => d.(fuelPress := v)
    case Status => d.(status := v)
    case EngineFlags => d.(engineFlags := v)
  }

  predicate Complete(d: IntData) {
    |d.engines| == NR_ENGINES
  }

  function Get(d: IntData, f: Field): int
    requires Complete(d) && f.Valid()
  {
    match f
    case Engine(id, e) => GetEngine(d.engines[id], e)
    case AttitudeUpdate => d.attitude.lastUpdate
    case Altitude => d.attitude.altitude
    case Roll => d.attitude.roll
    case Pitch => d.attitude.pitch
    case Yaw => d.attitude.yaw
    case SpeedsUpdate => d.speeds.lastUpdate
    case Aoa => d.speeds.aoa
    case Airspeed => d.speeds.airspeed
  }

  function Put(d: IntData, f: Field, v: int): (d': IntData)
    requires Complete(d) && f.Valid()
    ensures Complete(d')
  {
    match f
    case Engine(id, e) => d.(engines := d.engines[id := PutEngine(d.engines[id], e, v)])
    case AttitudeUpdate => d.(attitude := d.attitude.(lastUpdate := v))
    case Altitude => d.(attitude := d.attitude.(altitude := v))
    case Roll => d.(attitude := d.attitude.(roll := v))
    case Pitch => d.(attitude := d.attitude.(pitch := v))
    case Yaw => d.(attitude := d.attitude.(yaw := v))
    case SpeedsUpdate => d.(speeds := d.speeds.(lastUpdate := v))
    case Aoa => d.(speeds := d.speeds.(aoa := v))
    case Airspeed => d.(speeds := d.speeds.(airspeed := v))
  }

  lemma GetPut(d: IntData, f: Field, v: int, g: Field)
    requires Complete(d) && f.Valid() && g.Valid()
    ensures Get(Put(d, f, v), g) == if f == g then v else Get(d, g)
  {
  }

  datatype Write = Write(field: Field, value: int)

  /** The assignments that a slot makes the elaboration thread do, in program order. */
  function Writes(s: Slot): seq<Write> {
    var p, t := s.packet, s.lastUpdate;
    if p.identifier == PACKET_ADIRU then
      [Write(AttitudeUpdate, t), Write(Altitude, p.adiru.altitude), Write(Roll, p.adiru.roll),
       Write(Pitch, p.adiru.pitch), Write(Yaw, p.adiru.yaw),
       Write(SpeedsUpdate, t), Write(Aoa, p.adiru.aoa), Write(Airspeed, p.adiru.airspeed)]
    else if p.identifier == PACKET_ENGINE then
      var id, e := p.engine.engineId, p.engine;
      [Write(Engine(id, EngineUpdate), t), Write(Engine(id, Throttle), e.throttle),
       Write(Engine(id, RealThrust), e.realThrust), Write(Engine(id, OilTemp), e.oilTemp),
       Write(Engine(id, OilPress), e.oilPress), Write(Engine(id, FuelPress), e.fuelPress),
       Write(Engine(id, Status), e.flagStatus), Write(Engine(id, EngineFlags), Flags(e))]
    else []
  }

  predicate ValidWrites(ws: seq<Write>) {
    forall i :: 0 <= i < |ws| ==> ws[i].field.Valid()
  }

  /** The data after the first n assignments. */
  function PutFirst(d: IntData, ws: seq<Write>, n: nat): (d': IntData)
    requires Complete(d) && ValidWrites(ws) && n <= |ws|
    ensures Complete(d')
    decreases n
  {
    if n == 0 then d else Put(PutFirst(d, ws, n - 1), ws[n - 1].field, ws[n - 1].value)
  }

  // ---------------------------------------------------------------- decoding

  /** The data after a packet as a whole: the records it describes are replaced. */
  function Decode(d: IntData, s: Slot): (d': IntData)
    requires Complete(d) && s.packet.Valid()
    ensures Complete(d')
  {
    var p, t := s.packet, s.lastUpdate;
    if p.identifier == PACKET_ADIRU then
      IntData(d.engines,
              Attitude(t, p.adiru.altitude, p.adiru.roll, p.adiru.pitch, p.adiru.yaw),
              Speeds(t, p.adiru.aoa, p.adiru.airspeed))
    else if p.identifier == PACKET_ENGINE then
      var e := p.engine;
      d.(engines := d.engines[e.engineId := EngineData(t, e.throttle, e.realThrust, e.oilTemp, e.oilPress, e.fuelPress,
                                                       e.flagStatus, Flags(e))])
    else d
  }

  lemma PutNext(d: IntData, ws: seq<Write>, n: nat, d': IntData)
    requires Complete(d) && ValidWrites(ws) && n < |ws| && PutFirst(d, ws, n) == d'
    ensures PutFirst(d, ws, n + 1) == Put(d', ws[n].field, ws[n].value)
  {
  }

  lemma AdiruWrites(d: IntData, ws: seq<Write>, a: Attitude, p: Speeds)
    requires Complete(d) && ValidWrites(ws) && |ws| == 8
    requires ws[0] == Write(AttitudeUpdate, a.lastUpdate) && ws[1] == Write(Altitude, a.altitude)
    requires ws[2] == Write(Roll, a.roll) && ws[3] == Write(Pitch, a.pitch) && ws[4] == Write(Yaw, a.yaw)
    requires ws[5] == Write(SpeedsUpdate, p.lastUpdate) && ws[6] == Write(Aoa, p.aoa)
    requires ws[7] == Write(Airspeed, p.airspeed)
    ensures PutFirst(d, ws, 8) == IntData(d.engines, a, p)
  {
    PutNext(d, ws, 0, d);
    PutNext(d, ws, 1, d.(attitude := d.attitude.(lastUpdate := a.lastUpdate)));
    PutNext(d, ws, 2, d.(attitude := d.attitude.(lastUpdate := a.lastUpdate, altitude := a.altitude)));
    PutNext(d, ws, 3, d.(attitude := a.(pitch := d.attitude.pitch, yaw := d.attitude.yaw)));
    PutNext(d, ws, 4, d.(attitude := a.(yaw := d.attitude.yaw)));
    PutNext(d, ws, 5, d.(attitude := a));
    PutNext(d, ws, 6, d.(attitude := a, speeds := d.speeds.(lastUpdate := p.lastUpdate)));
    PutNext(d, ws, 7, d.(attitude := a, speeds := p.(airspeed := d.speeds.airspeed)));
  }

  lemma WritesDecodeAdiru(d: IntData, s: Slot)
    requires Complete(d) && s.packet.identifier == PACKET_ADIRU
    ensures ValidWrites(Writes(s)) && PutFirst(d, Writes(s), |Writes(s)|) == Decode(d, s)
  {
    AdiruWrites(d, Writes(s), Decode(d, s).attitude, Decode(d, s).speeds);
  }

  /** d with engine id replaced. */
  function WithEngine(d: IntData, id: nat, a: EngineData): IntData
    requires Complete(d) && id < NR_ENGINES
  {
    d.(engines := d.engines[id := a])
  }

  lemma PutWithEngine(d: IntData, id: nat, a: EngineData, e: EngineField, v: int)
    requires Complete(d) && id < NR_ENGINES
    ensures Put(WithEngine(d, id, a), Engine(id, e), v) == WithEngine(d, id, PutEngine(a, e, v))
  {
    var b := PutEngine(a, e, v);
    assert d.engines[id := a][id := b] == d.engines[id := b];
  }

  lemma EngineNext(d: IntData, id: nat, ws: seq<Write>, n: nat, a: EngineData, e: EngineField, v: int)
    requires Complete(d) && ValidWrites(ws) && n < |ws| && id < NR_ENGINES
    requires PutFirst(d, ws, n) == WithEngine(d, id, a) && ws[n] == Write(Engine(id, e), v)
    ensures PutFirst(d, ws, n + 1) == WithEngine(d, id, PutEngine(a, e, v))
  {
    PutWithEngine(d, id, a, e, v);
  }

  lemma EngineWrites(d: IntData, ws: seq<Write>, id: nat, v: EngineData)
    requires Complete(d) && ValidWrites(ws) && |ws| == 8 && id < NR_ENGINES
    requires ws[0] == Write(Engine(id, EngineUpdate), v.lastUpdate) && ws[1] == Write(Engine(id, Throttle), v.throttle)
    requires ws[2] == Write(Engine(id, RealThrust), v.realThrust) && ws[3] == Write(Engine(id, OilTemp), v.oilTemp)
    requires ws[4] == Write(Engine(id, OilPress), v.oilPress) && ws[5] == Write(Engine(id, FuelPress), v.fuelPress)
    requires ws[6] == Write(Engine(id, Status), v.status) && ws[7] == Write(Engine(id, EngineFlags), v.engineFlags)
    ensures PutFirst(d, ws, 8) == WithEngine(d, id, v)
  {
    var a := d.engines[id];
    assert d.engines[id := a] == d.engines;
    EngineNext(d, id, ws, 0, a, EngineUpdate, v.lastUpdate);
    EngineNext(d, id, ws, 1, a.(lastUpdate := v.lastUpdate), Throttle, v.throttle);
    EngineNext(d, id, ws, 2, a.(lastUpdate := v.lastUpdate, throttle := v.throttle), RealThrust, v.realThrust);
    var b := v.(oilPress := a.oilPress, fuelPress := a.fuelPress, status := a.status, engineFlags := a.engineFlags);
    EngineNext(d, id, ws, 3, b.(oilTemp := a.oilTemp), OilTemp, v.oilTemp);
    EngineNext(d, id, ws, 4, b, OilPress, v.oilPress);
    EngineNext(d, id, ws, 5, b.(oilPress := v.oilPress), FuelPress, v.fuelPress);
    EngineNext(d, id, ws, 6, v.(status := a.status, engineFlags := a.engineFlags), Status, v.status);
    EngineNext(d, id, ws, 7, v.(engineFlags := a.engineFlags), EngineFlags, v.engineFlags);
  }

  lemma WritesDecodeEngine(d: IntData, s: Slot)
    requires Complete(d) && s.packet.Valid() && s.packet.identifier == PACKET_ENGINE
    ensures ValidWrites(Writes(s)) && PutFirst(d, Writes(s), |Writes(s)|) == Decode(d, s)
  {
    var id := s.packet.engine.engineId;
    EngineWrites(d, Writes(s), id, Decode(d, s).engines[id]);
  }

  /** The assignments, one after the other, replace exactly the records the packet describes. */
  lemma WritesDecode(d: IntData, s: Slot)
    requires Complete(d) && s.packet.Valid()
    ensures ValidWrites(Writes(s))
    ensures PutFirst(d, Writes(s), |Writes(s)|) == Decode(d, s)
  {
    if s.packet.identifier == PACKET_ADIRU {
      WritesDecodeAdiru(d, s);
    } else if s.packet.identifier == PACKET_ENGINE {
      WritesDecodeEngine(d, s);
    }
  }

  predicate AllValid(ss: seq<Slot>) {
    forall i :: 0 <= i < |ss| ==> ss[i].packet.Valid()
  }

  /** The data after the given slots, oldest first. */
  function Fold(d: IntData, ss: seq<Slot>): (d': IntData)
    requires Complete(d) && AllValid(ss)
    ensures Complete(d')
    decreases |ss|
  {
    if ss == [] then d else Decode(Fold(d, ss[..|ss| - 1]), ss[|ss| - 1])
  }

  // ------------------------------------------------------- who wrote a field

  /** The slot gives the field a value. */
  predicate Carries(s: Slot, f: Field) {
    exists i :: 0 <= i < |Writes(s)| && Writes(s)[i].field == f
  }

  lemma {:induction false} PutFirstOther(d: IntData, ws: seq<Write>, n: nat, f: Field)
    requires Complete(d) && ValidWrites(ws) && f.Valid() && n <= |ws|
    requires forall i :: 0 <= i < n ==> ws[i].field != f
    ensures Get(PutFirst(d, ws, n), f) == Get(d, f)
  {
    if n > 0 {
      PutFirstOther(d, ws, n - 1, f);
      GetPut(PutFirst(d, ws, n - 1), ws[n - 1].field, ws[n - 1].value, f);
    }
  }

  lemma {:induction false} PutFirstOnce(d: IntData, ws: seq<Write>, n: nat, i: nat)
    requires Complete(d) && ValidWrites(ws) && i < n <= |ws|
    requires forall j :: 0 <= j < n && j != i ==> ws[j].field != ws[i].field
    ensures Get(PutFirst(d, ws, n), ws[i].field) == ws[i].value
  {
    GetPut(PutFirst(d, ws, n - 1), ws[n - 1].field, ws[n - 1].value, ws[i].field);
    if i < n - 1 {
      PutFirstOnce(d, ws, n - 1, i);
    }
  }

  /** No slot writes a field twice. */
  lemma WritesOnce(s: Slot, i: nat, j: nat)
    requires i < |Writes(s)| && j < |Writes(s)| && i != j
    ensures Writes(s)[i].field != Writes(s)[j].field
  {
  }

  /** After a packet a field has the value the packet carries, or else the one it had. */
  lemma DecodeField(d: IntData, s: Slot, f: Field)
    requires Complete(d) && s.packet.Valid() && f.Valid()
    ensures forall i :: 0 <= i < |Writes(s)| && Writes(s)[i].field == f ==> Get(Decode(d, s), f) == Writes(s)[i].value
    ensures !Carries(s, f) ==> Get(Decode(d, s), f) == Get(d, f)
  {
    var ws := Writes(s);
    WritesDecode(d, s);
    forall i | 0 <= i < |ws| && ws[i].field == f
      ensures Get(Decode(d, s), f) == ws[i].value
    {
      forall j | 0 <= j < |ws| && j != i
        ensures ws[j].field != ws[i].field
      {
        WritesOnce(s, i, j);
      }
      PutFirstOnce(d, ws, |ws|, i);
    }
    if !Carries(s, f) {
      PutFirstOther(d, ws, |ws|, f);
    }
  }

  /** Each field holds what the latest slot that carries it says, whatever other slots came since. */
  lemma {:induction false} LatestWins(d: IntData, ss: seq<Slot>, f: Field, k: nat, i: nat)
    requires Complete(d) && AllValid(ss) && f.Valid()
    requires k < |ss| && i < |Writes(ss[k])| && Writes(ss[k])[i].field == f
    requires forall m :: k < m < |ss| ==> !Carries(ss[m], f)
    ensures Get(Fold(d, ss), f) == Writes(ss[k])[i].value
    decreases |ss|
  {
    var last := |ss| - 1;
    DecodeField(Fold(d, ss[..last]), ss[last], f);
    if k < last {
      LatestWins(d, ss[..last], f, k, i);
    }
  }

  lemma {:induction false} NeverCarried(d: IntData, ss: seq<Slot>, f: Field)
    requires Complete(d) && AllValid(ss) && f.Valid()
    requires forall m :: 0 <= m < |ss| ==> !Carries(ss[m], f)
    ensures Get(Fold(d, ss), f) == Get(d, f)
    decreases |ss|
  {
    if ss != [] {
      var last := |ss| - 1;
      DecodeField(Fold(d, ss[..last]), ss[last], f);
      NeverCarried(d, ss[..last], f);
    }
  }

  /** A reader that looks while a packet is being applied sees, in each field, the value before or after it. */
  lemma HalfApplied(d: IntData, s: Slot, n: nat, f: Field)
    requires Complete(d) && s.packet.Valid() && f.Valid() && n <= |Writes(s)|
    ensures ValidWrites(Writes(s))
    ensures Get(PutFirst(d, Writes(s), n), f) == Get(d, f) || Get(PutFirst(d, Writes(s), n), f) == Get(Decode(d, s), f)
  {
    WritesDecode(d, s);
    var ws := Writes(s);
    if i :| 0 <= i < n && ws[i].field == f {
      forall k | 0 <= k < n && k != i
        ensures ws[k].field != ws[i].field
      {
        WritesOnce(s, i, k);
      }
      PutFirstOnce(d, ws, n, i);
      DecodeField(d, s, f);
    } else {
      PutFirstOther(d, ws, n, f);
    }
  }

  /** The records of an ADIRU packet (identifier 1) hold what the latest one says, its reception time included. */
  lemma {:induction false} LatestAdiru(d: IntData, ss: seq<Slot>, m: nat)
    requires Complete(d) && AllValid(ss) && m < |ss| && ss[m].packet.identifier == 1
    requires forall l :: m < l < |ss| ==> ss[l].packet.identifier != 1
    ensures var p, t := ss[m].packet.adiru, ss[m].lastUpdate;
            && Fold(d, ss).attitude == Attitude(t, p.altitude, p.roll, p.pitch, p.yaw)
            && Fold(d, ss).speeds == Speeds(t, p.aoa, p.airspeed)
    decreases |ss|
  {
    if m < |ss| - 1 {
      LatestAdiru(d, ss[..|ss| - 1], m);
    }
  }

  /** The record of an engine holds what the latest engine packet (identifier 2) of that engine says, its reception
      time included. */
  lemma {:induction false} LatestEngine(d: IntData, ss: seq<Slot>, m: nat)
    requires Complete(d) && AllValid(ss) && m < |ss| && ss[m].packet.identifier == 2
    requires forall l :: m < l < |ss| && ss[l].packet.identifier == 2 ==>
                           ss[l].packet.engine.engineId != ss[m].packet.engine.engineId
    ensures var e, t := ss[m].packet.engine, ss[m].lastUpdate;
            && e.engineId < |Fold(d, ss).engines| == 4
            && Fold(d, ss).engines[e.engineId] ==
               EngineData(t, e.throttle, e.realThrust, e.oilTemp, e.oilPress, e.fuelPress, e.flagStatus,
                          e.flagReverse + 2 * e.flagFire + 4 * e.flagMaintainance)
    decreases |ss|
  {
    if m < |ss| - 1 {
      LatestEngine(d, ss[..|ss| - 1], m);
    }
  }

  /** Records of which no packet speaks stay as they were. */
  lemma {:induction false} NoneSpeaks(d: IntData, ss: seq<Slot>, id: nat)
    requires Complete(d) && AllValid(ss) && id < 4
    ensures (forall l :: 0 <= l < |ss| ==> ss[l].packet.identifier != 1) ==>
              Fold(d, ss).attitude == d.attitude && Fold(d, ss).speeds == d.speeds
    ensures (forall l :: 0 <= l < |ss| ==> ss[l].packet.identifier != 2 || ss[l].packet.engine.engineId != id) ==>
              Fold(d, ss).engines[id] == d.engines[id]
    decreases |ss|
  {
    if ss != [] {
      NoneSpeaks(d, ss[..|ss| - 1], id);
    }
  }

  // ---------------------------------------------------------------- queries

  /** The member of the reply in which a value travels. */
  datatype Member = U8 | I16 | I32

  datatype Reply = Reply(reqId: nat, u8: int, i16: int, i32: int)

  function GetMember(r: Reply, m: Member): int {
    match m
    case U8 => r.u8
    case I16 => r.i16
    case I32 => r.i32
  }

  function PutMember(r: Reply, m: Member, v: int): Reply {
    match m
    case U8 => r.(u8 := v)
    case I16 => r.(i16 := v)
    case I32 => r.(i32 := v)
  }

  /** The field a data id asks for, and where its value goes. */
  function Asked(q: Query): Option<(Field, Member)> {
    if q.dataId == 0 then Some((Engine(q.engineId, Throttle), U8))
    else if q.dataId == 1 then Some((Engine(q.engineId, RealThrust), U8))
    else if q.dataId == 2 then Some((Engine(q.engineId, OilTemp), I16))
    else if q.dataId == 3 then Some((Engine(q.engineId, OilPress), I16))
    else if q.dataId == 4 then Some((Engine(q.engineId, FuelPress), I16))
    else if q.dataId == 5 then Some((Engine(q.engineId, Status), U8))
    else if q.dataId == 6 then Some((Engine(q.engineId, EngineFlags), U8))
    else if q.dataId == 7 then Some((Altitude, I32))
    else if q.dataId == 8 then Some((Roll, I16))
    else if q.dataId == 9 then Some((Pitch, I16))
    else if q.dataId == 10 then Some((Yaw, I16))
    else if q.dataId == 11 then Some((Aoa, I16))
    else if q.dataId == 12 then Some((Airspeed, I16))
    else None
  }

  /** The engine of an engine query exists. */
  predicate ValidQuery(q: Query) {
    Asked(q).Some? ==> Asked(q).value.0.Valid()
  }

  /** The answer to a query from the data; `junk` is what the reply record holds before it is filled. */
  function Answer(d: IntData, q: Query, junk: Reply): Reply
    requires Complete(d) && ValidQuery(q)
  {
    var r := junk.(reqId := q.reqId);
    match Asked(q)
    case None => r
    case Some((f, m)) => PutMember(r, m, Get(d, f))
  }

  /** The seven engine queries are answered with the values of an engine packet, each in the member of its width; the
      rest of the reply is as it was. */
  ghost predicate EngineAnswered(d: IntData, e: EnginePayload, r: nat, j: Reply)
    requires Complete(d) && e.engineId < 4
  {
    && Answer(d, Query(r, e.engineId, 0), j) == j.(reqId := r, u8 := e.throttle)
    && Answer(d, Query(r, e.engineId, 1), j) == j.(reqId := r, u8 := e.realThrust)
    && Answer(d, Query(r, e.engineId, 2), j) == j.(reqId := r, i16 := e.oilTemp)
    && Answer(d, Query(r, e.engineId, 3), j) == j.(reqId := r, i16 := e.oilPress)
    && Answer(d, Query(r, e.engineId, 4), j) == j.(reqId := r, i16 := e.fuelPress)
    && Answer(d, Query(r, e.engineId, 5), j) == j.(reqId := r, u8 := e.flagStatus)
    && Answer(d, Query(r, e.engineId, 6), j) ==
       j.(reqId := r, u8 := e.flagReverse + 2 * e.flagFire + 4 * e.flagMaintainance)
  }

  /** The same for an ADIRU packet and its six queries; the engine number of the query does not matter. */
  ghost predicate AdiruAnswered(d: IntData, p: Adiru, r: nat, id: nat, j: Reply)
    requires Complete(d)
  {
    && Answer(d, Query(r, id, 7), j) == j.(reqId := r, i32 := p.altitude)
    && Answer(d, Query(r, id, 8), j) == j.(reqId := r, i16 := p.roll)
    && Answer(d, Query(r, id, 9), j) == j.(reqId := r, i16 := p.pitch)
    && Answer(d, Query(r, id, 10), j) == j.(reqId := r, i16 := p.yaw)
    && Answer(d, Query(r, id, 11), j) == j.(reqId := r, i16 := p.aoa)
    && Answer(d, Query(r, id, 12), j) == j.(reqId := r, i16 := p.airspeed)
  }

  lemma EngineRecordAnswers(d: IntData, s: Slot, r: nat, j: Reply)
    requires Complete(d) && s.packet.engine.engineId < 4
    requires var e := s.packet.engine;
             d.engines[e.engineId] ==
             EngineData(s.lastUpdate, e.throttle, e.realThrust, e.oilTemp, e.oilPress, e.fuelPress, e.flagStatus,
                        e.flagReverse + 2 * e.flagFire + 4 * e.flagMaintainance)
    ensures EngineAnswered(d, s.packet.engine, r, j)
  {
  }

  lemma AdiruRecordsAnswer(d: IntData, s: Slot, r: nat, id: nat, j: Reply)
    requires var p, t := s.packet.adiru, s.lastUpdate;
             && Complete(d) && d.attitude == Attitude(t, p.altitude, p.roll, p.pitch, p.yaw)
             && d.speeds == Speeds(t, p.aoa, p.airspeed)
    ensures AdiruAnswered(d, s.packet.adiru, r, id, j)
  {
  }

  /** From packet to reply, for engine packets. */
  lemma EngineReplies(d: IntData, s: Slot, r: nat, j: Reply)
    requires |d.engines| == 4 && s.packet.identifier == 2 && s.packet.engine.engineId < 4
    requires s.packet.engine.flagStatus < 4 && s.packet.engine.flagReverse < 2
    requires s.packet.engine.flagFire < 2 && s.packet.engine.flagMaintainance < 2
    ensures EngineAnswered(Decode(d, s), s.packet.engine, r, j)
  {
    EngineRecordAnswers(Decode(d, s), s, r, j);
  }

  /** From packet to reply, for ADIRU packets. */
  lemma AdiruReplies(d: IntData, s: Slot, r: nat, id: nat, j: Reply)
    requires |d.engines| == 4 && s.packet.identifier == 1
    ensures AdiruAnswered(Decode(d, s), s.packet.adiru, r, id, j)
  {
    AdiruRecordsAnswer(Decode(d, s), s, r, id, j);
  }

  /** The daemon's data in place. */
  class Store {
    var engines: array<EngineData>
    var attitude: Attitude
    var speeds: Speeds

    ghost predicate Valid()
      reads this
    {
      engines.Length == NR_ENGINES
    }

    ghost function Value(): IntData
      reads this, engines
    {
      IntData(engines[..], attitude, speeds)
    }

    /** The body of the elaboration thread on one slot. */
    method Elaborate(node: Slot)
      requires Valid() && node.packet.Valid()
      modifies this`attitude, this`speeds, engines
      ensures Valid() && Value() == Decode(old(Value()), node)
      ensures node.packet.identifier == 1 ==>
                var p, t := node.packet.adiru, node.lastUpdate;
                && attitude == Attitude(t, p.altitude, p.roll, p.pitch, p.yaw)
                && speeds == Speeds(t, p.aoa, p.airspeed) && engines[..] == old(engines[..])
      ensures node.packet.identifier == 2 ==>
                var e, t := node.packet.engine, node.lastUpdate;
                && attitude == old(attitude) && speeds == old(speeds) && e.engineId < engines.Length
                && engines[..] == old(engines[..])[e.engineId :=
                     EngineData(t, e.throttle, e.realThrust, e.oilTemp, e.oilPress, e.fuelPress, e.flagStatus,
                                e.flagReverse + 2 * e.flagFire + 4 * e.flagMaintainance)]
      ensures node.packet.identifier != 1 && node.packet.identifier != 2 ==> Value() == old(Value())
    {
      var idPacket := node.packet.identifier;
      if idPacket == PACKET_ADIRU {
        attitude := attitude.(lastUpdate := node.lastUpdate);
        attitude := attitude.(altitude := node.packet.adiru.altitude);
        attitude := attitude.(roll := node.packet.adiru.roll);
        attitude := attitude.(pitch := node.packet.adiru.pitch);
        attitude := attitude.(yaw := node.packet.adiru.yaw);
        speeds := speeds.(lastUpdate := node.lastUpdate);
        speeds := speeds.(aoa := node.packet.adiru.aoa);
        speeds := speeds.(airspeed := node.packet.adiru.airspeed);
      } else if idPacket == PACKET_ENGINE {
        var id, e := node.packet.engine.engineId, node.packet.engine;
        engines[id] := engines[id].(lastUpdate := node.lastUpdate);
        engines[id] := engines[id].(throttle := e.throttle);
        engines[id] := engines[id].(realThrust := e.realThrust);
        engines[id] := engines[id].(oilTemp := e.oilTemp);
        engines[id] := engines[id].(oilPress := e.oilPress);
        engines[id] := engines[id].(fuelPress := e.fuelPress);
        engines[id] := engines[id].(status := e.flagStatus);
        engines[id] := engines[id].(engineFlags := e.flagReverse * 1 + e.flagFire * 2 + e.flagMaintainance * 4);
      }
    }

    /** serve_query, up to the sending of the reply. */
    method Serve(query: Query, junk: Reply) returns (reply: Reply)
      requires Valid() && ValidQuery(query)
      ensures reply == Answer(Value(), query, junk) && reply.reqId == query.reqId
      ensures match Asked(query)
              case None => reply == junk.(reqId := query.reqId)
              case Some((f, m)) =>
                && GetMember(reply, m) == Get(Value(), f)
                && forall m' :: m' != m ==> GetMember(reply, m') == GetMember(junk, m')
      ensures query.dataId <= 6 ==> query.engineId < engines.Length
      ensures query.dataId == 0 ==> reply.u8 == engines[query.engineId].throttle
      ensures query.dataId == 1 ==> reply.u8 == engines[query.engineId].realThrust
      ensures query.dataId == 2 ==> reply.i16 == engines[query.engineId].oilTemp
      ensures query.dataId == 3 ==> reply.i16 == engines[query.engineId].oilPress
      ensures query.dataId == 4 ==> reply.i16 == engines[query.engineId].fuelPress
      ensures query.dataId == 5 ==> reply.u8 == engines[query.engineId].status
      ensures query.dataId == 6 ==> reply.u8 == engines[query.engineId].engineFlags
      ensures query.dataId == 7 ==> reply.i32 == attitude.altitude
      ensures query.dataId == 8 ==> reply.i16 == attitude.roll
      ensures query.dataId == 9 ==> reply.i16 == attitude.pitch
      ensures query.dataId == 10 ==> reply.i16 == attitude.yaw
      ensures query.dataId == 11 ==> reply.i16 == speeds.aoa
      ensures query.dataId == 12 ==> reply.i16 == speeds.airspeed
      ensures query.dataId > 12 ==> reply == junk.(reqId := query.reqId)
    {
      reply := junk.(reqId := query.reqId);
      var id := query.engineId;
      match query.dataId {
        case 0 => reply := reply.(u8 := engines[id].throttle);
        case 1 => reply := reply.(u8 := engines[id].realThrust);
        case 2 => reply := reply.(i16 := engines[id].oilTemp);
        case 3 => reply := reply.(i16 := engines[id].oilPress);
        case 4 => reply := reply.(i16 := engines[id].fuelPress);
        case 5 => reply := reply.(u8 := engines[id].status);
        case 6 => reply := reply.(u8 := engines[id].engineFlags);
        case 7 => reply := reply.(i32 := attitude.altitude);
        case 8 => reply := reply.(i16 := attitude.roll);
        case 9 => reply := reply.(i16 := attitude.pitch);
        case 10 => reply := reply.(i16 := attitude.yaw);
        case 11 => reply := reply.(i16 := speeds.aoa);
        case 12 => reply := reply.(i16 := speeds.airspeed);
        case _ =>
      }
    }
  }
}
