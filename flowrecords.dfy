/**
 * FlowRecord: one VPC flow log entry normalised into typed attributes
 * (addresses, ports, times, counters and the optional nested descriptors).
 */
module FlowRecords {
  import opened Wrappers
  import opened Text
  import opened DateTimes
  import opened Payloads

  // ---------------------------------------------------------------- descriptors

  /** The three namedtuple types a record nests. */
  datatype DetailsKind = InstanceDetails | VpcDetails | GeographicDetails

  /** Each namedtuple's fields in declared order. */
  function FieldNames(kind: DetailsKind): (names: seq<string>)
    ensures forall i, j :: 0 <= i < j < |names| ==> names[i] != names[j]
  {
    match kind
    case InstanceDetails => ["project_id", "vm_name", "region", "zone"]
    case VpcDetails => ["project_id", "vpc_name", "subnetwork_name"]
    case GeographicDetails => ["continent", "country", "region", "city"]
  }

  function FieldSet(kind: DetailsKind): set<string>
  {
    set n | n in FieldNames(kind)
  }

  /** A namedtuple instance: its type and its values in field order. */
  datatype Details = Details(kind: DetailsKind, values: seq<Json>)
  {
    predicate Valid()
    {
      |values| == |FieldNames(kind)|
    }
  }

  /**
   * cls(**v): the whole tuple when v is a mapping whose keys are exactly the
   * fields; None where Python raises TypeError (not a mapping, a missing or an
   * unexpected keyword).
   */
  function MakeDetails(kind: DetailsKind, v: Json): (r: Option<Details>)
    ensures r.Some? <==> v.JObj? && v.fields.Keys == FieldSet(kind)
    ensures r.Some? ==> r.value.Valid() && r.value.kind == kind
  {
    if v.JObj? && v.fields.Keys == FieldSet(kind) then
      var names := FieldNames(kind);
      Some(Details(kind, seq(|names|, i requires 0 <= i < |names| => v.fields[names[i]])))
    else None
  }

  /** dict(zip(names, values)); a later name overrides an earlier one. */
  function Zip(names: seq<string>, values: seq<Json>): map<string, Json>
    requires |names| == |values|
  {
    if names == [] then map[]
    else Zip(names[..|names| - 1], values[..|values| - 1])[names[|names| - 1] := values[|values| - 1]]
  }

  /** namedtuple._asdict(), i.e. dict(zip(fields, values)); zip stops at the shorter sequence. */
  function AsDict(d: Details): map<string, Json>
  {
    var n := if |FieldNames(d.kind)| <= |d.values| then |FieldNames(d.kind)| else |d.values|;
    Zip(FieldNames(d.kind)[..n], d.values[..n])
  }

  lemma {:induction false} ZipKeys(names: seq<string>, values: seq<Json>)
    requires |names| == |values|
    ensures Zip(names, values).Keys == set n | n in names
  {
    if names != [] {
      var k := |names| - 1;
      ZipKeys(names[..k], values[..k]);
      assert names == names[..k] + [names[k]];
      assert (set n | n in names) == (set n | n in names[..k]) + {names[k]};
    }
  }

  lemma {:induction false} ZipLookup(names: seq<string>, values: seq<Json>, i: int)
    requires |names| == |values| && 0 <= i < |names|
    requires forall j :: 0 <= j < |names| && j != i ==> names[j] != names[i]
    ensures names[i] in Zip(names, values) && Zip(names, values)[names[i]] == values[i]
  {
    var k := |names| - 1;
    if i < k {
      assert names[k] != names[i];
      ZipLookup(names[..k], values[..k], i);
      assert names[..k][i] == names[i] && values[..k][i] == values[i];
    }
  }

  /** Zipping distinct names with a mapping's values at those names rebuilds the mapping. */
  lemma ZipOfLookups(names: seq<string>, values: seq<Json>, m: map<string, Json>)
    requires |names| == |values| && (set n | n in names) == m.Keys
    requires forall i, j :: 0 <= i < j < |names| ==> names[i] != names[j]
    requires forall i :: 0 <= i < |names| ==> values[i] == m[names[i]]
    ensures Zip(names, values) == m
  {
    ZipKeys(names, values);
    forall n | n in m.Keys
      ensures Zip(names, values)[n] == m[n]
    {
      var i :| 0 <= i < |names| && names[i] == n;
      ZipLookup(names, values, i);
    }
  }

  /** Building a descriptor and turning it back into a dict gives the payload's mapping. */
  lemma AsDictMakeDetails(kind: DetailsKind, v: Json)
    requires MakeDetails(kind, v).Some?
    ensures AsDict(MakeDetails(kind, v).value) == v.fields
  {
    var d := MakeDetails(kind, v).value;
    var names := FieldNames(kind);
    assert names[..|names|] == names && d.values[..|names|] == d.values;
    ZipOfLookups(names, d.values, v.fields);
  }

  /** A descriptor's dict builds the same descriptor again. */
  lemma MakeDetailsAsDict(d: Details)
    requires d.Valid()
    ensures MakeDetails(d.kind, JObj(AsDict(d))) == Some(d)
  {
    var names := FieldNames(d.kind);
    assert names[..|names|] == names && d.values[..|names|] == d.values;
    ZipKeys(names, d.values);
    forall i | 0 <= i < |names|
      ensures AsDict(d)[names[i]] == d.values[i]
    {
      ZipLookup(names, d.values, i);
    }
    var r := MakeDetails(d.kind, JObj(AsDict(d)));
    assert r.value.values == d.values;
  }

  // ---------------------------------------------------------------- slots

  /** The attributes of a FlowRecord (its __slots__). */
  datatype Slot =
    | SrcIp | SrcPort | DestIp | DestPort | Protocol | StartTime | EndTime
    | BytesSent | PacketsSent | RttMsec | Reporter
    | SrcInstance | DestInstance | SrcVpc | DestVpc | SrcLocation | DestLocation

  /** __slots__, in declared order. */
  const SLOTS: seq<Slot> := [
    SrcIp, SrcPort, DestIp, DestPort, Protocol, StartTime, EndTime,
    BytesSent, PacketsSent, RttMsec, Reporter,
    SrcInstance, DestInstance, SrcVpc, DestVpc, SrcLocation, DestLocation]

  function SlotName(s: Slot): string
  {
    match s
    case SrcIp => "src_ip"
    case SrcPort => "src_port"
    case DestIp => "dest_ip"
    case DestPort => "dest_port"
    case Protocol => "protocol"
    case StartTime => "start_time"
    case EndTime => "end_time"
    case BytesSent => "bytes_sent"
    case PacketsSent => "packets_sent"
    case RttMsec => "rtt_msec"
    case Reporter => "reporter"
    case SrcInstance => "src_instance"
    case DestInstance => "dest_instance"
    case SrcVpc => "src_vpc"
    case DestVpc => "dest_vpc"
    case SrcLocation => "src_location"
    case DestLocation => "dest_location"
  }

  /** getattr by name: the slot a name denotes, if any. */
  function SlotNamed(name: string): Option<Slot>
  {
    match name
    case "src_ip" => Some(SrcIp)
    case "src_port" => Some(SrcPort)
    case "dest_ip" => Some(DestIp)
    case "dest_port" => Some(DestPort)
    case "protocol" => Some(Protocol)
    case "start_time" => Some(StartTime)
    case "end_time" => Some(EndTime)
    case "bytes_sent" => Some(BytesSent)
    case "packets_sent" => Some(PacketsSent)
    case "rtt_msec" => Some(RttMsec)
    case "reporter" => Some(Reporter)
    case "src_instance" => Some(SrcInstance)
    case "dest_instance" => Some(DestInstance)
    case "src_vpc" => Some(SrcVpc)
    case "dest_vpc" => Some(DestVpc)
    case "src_location" => Some(SrcLocation)
    case "dest_location" => Some(DestLocation)
    case _ => None
  }

  /** Looking up a slot's own name gives the slot back. */
  lemma SlotNameRoundTrip(s: Slot)
    ensures SlotNamed(SlotName(s)) == Some(s)
  {
  }

  /** A name that is found is the found slot's name. */
  lemma SlotNamedSound(name: string)
    ensures SlotNamed(name).Some? ==> SlotName(SlotNamed(name).value) == name
  {
  }

  /** Names and slots correspond one to one. */
  lemma SlotNamedInverse(s: Slot, name: string)
    ensures SlotNamed(SlotName(s)) == Some(s)
    ensures SlotNamed(name) == Some(s) <==> SlotName(s) == name
  {
    SlotNameRoundTrip(s);
    SlotNamedSound(name);
  }

  /** Every slot is listed in __slots__. */
  lemma SlotListed(s: Slot)
    ensures s in SLOTS
  {
  }

  // ---------------------------------------------------------------- the record

  datatype FlowRecord = FlowRecord(
    srcIp: IPAddress, srcPort: int, destIp: IPAddress, destPort: int, protocol: int,
    startTime: DateTime, endTime: DateTime, bytesSent: int, packetsSent: int,
    rttMsec: Option<int>, reporter: Json,
    srcInstance: Option<Details>, destInstance: Option<Details>,
    srcVpc: Option<Details>, destVpc: Option<Details>,
    srcLocation: Option<Details>, destLocation: Option<Details>)

  /** An attribute value as Python sees it; VDict is what _asdict() returns. */
  datatype Value =
    | VIp(ip: IPAddress)
    | VInt(i: int)
    | VTime(t: DateTime)
    | VJson(j: Json)
    | VDetails(d: Details)
    | VDict(fields: map<string, Json>)
    | VNone

  function OptionalInt(o: Option<int>): Value
  {
    match o
    case Some(i) => VInt(i)
    case None => VNone
  }

  function OptionalDetails(o: Option<Details>): Value
  {
    match o
    case Some(d) => VDetails(d)
    case None => VNone
  }

  /** getattr(record, slot) */
  function Attr(r: FlowRecord, s: Slot): Value
  {
    match s
    case SrcIp => VIp(r.srcIp)
    case SrcPort => VInt(r.srcPort)
    case DestIp => VIp(r.destIp)
    case DestPort => VInt(r.destPort)
    case Protocol => VInt(r.protocol)
    case StartTime => VTime(r.startTime)
    case EndTime => VTime(r.endTime)
    case BytesSent => VInt(r.bytesSent)
    case PacketsSent => VInt(r.packetsSent)
    case RttMsec => OptionalInt(r.rttMsec)
    case Reporter => VJson(r.reporter)
    case SrcInstance => OptionalDetails(r.srcInstance)
    case DestInstance => OptionalDetails(r.destInstance)
    case SrcVpc => OptionalDetails(r.srcVpc)
    case DestVpc => OptionalDetails(r.destVpc)
    case SrcLocation => OptionalDetails(r.srcLocation)
    case DestLocation => OptionalDetails(r.destLocation)
  }

  /** Two records with the same attribute in every slot are the same record. */
  lemma AttrDetermines(a: FlowRecord, b: FlowRecord)
    requires forall s: Slot :: Attr(a, s) == Attr(b, s)
    ensures a == b
  {
    assert a.srcIp == b.srcIp by { assert Attr(a, SrcIp) == Attr(b, SrcIp); }
    assert a.srcPort == b.srcPort by { assert Attr(a, SrcPort) == Attr(b, SrcPort); }
    assert a.destIp == b.destIp by { assert Attr(a, DestIp) == Attr(b, DestIp); }
    assert a.destPort == b.destPort by { assert Attr(a, DestPort) == Attr(b, DestPort); }
    assert a.protocol == b.protocol by { assert Attr(a, Protocol) == Attr(b, Protocol); }
    assert a.startTime == b.startTime by { assert Attr(a, StartTime) == Attr(b, StartTime); }
    assert a.endTime == b.endTime by { assert Attr(a, EndTime) == Attr(b, EndTime); }
    assert a.bytesSent == b.bytesSent by { assert Attr(a, BytesSent) == Attr(b, BytesSent); }
    assert a.packetsSent == b.packetsSent by { assert Attr(a, PacketsSent) == Attr(b, PacketsSent); }
    assert a.rttMsec == b.rttMsec by { assert Attr(a, RttMsec) == Attr(b, RttMsec); }
    assert a.reporter == b.reporter by { assert Attr(a, Reporter) == Attr(b, Reporter); }
    assert a.srcInstance == b.srcInstance by { assert Attr(a, SrcInstance) == Attr(b, SrcInstance); }
    assert a.destInstance == b.destInstance by { assert Attr(a, DestInstance) == Attr(b, DestInstance); }
    assert a.srcVpc == b.srcVpc by { assert Attr(a, SrcVpc) == Attr(b, SrcVpc); }
    assert a.destVpc == b.destVpc by { assert Attr(a, DestVpc) == Attr(b, DestVpc); }
    assert a.srcLocation == b.srcLocation by { assert Attr(a, SrcLocation) == Attr(b, SrcLocation); }
    assert a.destLocation == b.destLocation by { assert Attr(a, DestLocation) == Attr(b, DestLocation); }
  }

  // ---------------------------------------------------------------- normalising an entry

  /** A log entry as the logging client hands it over: a structured payload and the log's name. */
  datatype Entry = Entry(payload: Option<map<string, Json>>, logName: Option<string>)

  /** `entry.payload or entry.log_name`: the payload unless it is missing or empty. */
  function FlowPayload(e: Entry): (p: Json)
    ensures p.JObj? <==> e.payload.Some? && e.payload.value != map[]
  {
    if e.payload.Some? && e.payload.value != map[] then JObj(e.payload.value)
    else if e.logName.Some? then JStr(e.logName.value)
    else JNull
  }

  /** _get_dt: strptime of the first 19 characters; ValueError on a bad text, TypeError on a non-string. */
  function GetDt(v: Json): (r: Result<DateTime, PyError>)
    ensures !v.JStr? ==> r == Failure(TypeError)
    ensures r.Success? ==> r.value.microsecond == 0
  {
    match v
    case JStr(s) =>
      (match Strptime(if |s| <= 19 then s else s[..19])
       case Some(dt) => Success(dt)
       case None => Failure(ValueError))
    case _ => Failure(TypeError)
  }

  /** `flow_payload.get('rtt_msec')`, converted with int() unless absent or null. */
  function GetRtt(fields: map<string, Json>): (r: Result<Option<int>, PyError>)
    ensures r == Success(None) <==> "rtt_msec" !in fields || fields["rtt_msec"] == JNull
  {
    if "rtt_msec" !in fields || fields["rtt_msec"] == JNull then Success(None)
    else
      match PyInt(fields["rtt_msec"])
      case Success(i) => Success(Some(i))
      case Failure(e) => Failure(e)
  }

  /** The six descriptor attributes and the namedtuple each holds, in the order they are set. */
  const DESCRIPTORS: seq<(Slot, DetailsKind)> := [
    (SrcInstance, InstanceDetails), (DestInstance, InstanceDetails),
    (SrcVpc, VpcDetails), (DestVpc, VpcDetails),
    (SrcLocation, GeographicDetails), (DestLocation, GeographicDetails)]

  /** One descriptor: cls(**flow_payload[attr]), with KeyError and TypeError turned into None. */
  function Descriptor(p: Json, slot: Slot, kind: DetailsKind): (r: Option<Details>)
    ensures r.Some? <==> p.JObj? && SlotName(slot) in p.fields && MakeDetails(kind, p.fields[SlotName(slot)]).Some?
  {
    match Get(p, SlotName(slot))
    case Success(v) => MakeDetails(kind, v)
    case Failure(_) => None
  }

  /** The six descriptors, in DESCRIPTORS order. */
  function Descriptors(p: Json): seq<Option<Details>>
  {
    seq(|DESCRIPTORS|, i requires 0 <= i < |DESCRIPTORS| => Descriptor(p, DESCRIPTORS[i].0, DESCRIPTORS[i].1))
  }

  /** The record's fields once the required ones are known and the descriptors found. */
  function Assemble(c: (IPAddress, int, IPAddress, int, int), startTime: DateTime, endTime: DateTime,
                    bytesSent: int, packetsSent: int, rtt: Option<int>, reporter: Json,
                    ds: seq<Option<Details>>): FlowRecord
    requires |ds| == 6
  {
    FlowRecord(c.0, c.1, c.2, c.3, c.4, startTime, endTime, bytesSent, packetsSent, rtt, reporter,
               ds[0], ds[1], ds[2], ds[3], ds[4], ds[5])
  }

  /** The connection 5-tuple, converted in source order. */
  function Connection(p: Json, lib: IpLibrary): Result<(IPAddress, int, IPAddress, int, int), PyError>
  {
    var connection :- Get(p, "connection");
    var srcIpValue :- Get(connection, "src_ip");
    var srcIp :- IpFromJson(srcIpValue, lib);
    var srcPortValue :- Get(connection, "src_port");
    var srcPort :- PyInt(srcPortValue);
    var destIpValue :- Get(connection, "dest_ip");
    var destIp :- IpFromJson(destIpValue, lib);
    var destPortValue :- Get(connection, "dest_port");
    var destPort :- PyInt(destPortValue);
    var protocolValue :- Get(connection, "protocol");
    var protocol :- PyInt(protocolValue);
    Success((srcIp, srcPort, destIp, destPort, protocol))
  }

  /** The scalar fields after the connection: times, counters, rtt and reporter, in source order. */
  function Scalars(p: Json): Result<(DateTime, DateTime, int, int, Option<int>, Json), PyError>
    requires p.JObj?
  {
    var startValue :- Get(p, "start_time");
    var startTime :- GetDt(startValue);
    var endValue :- Get(p, "end_time");
    var endTime :- GetDt(endValue);
    var bytesValue :- Get(p, "bytes_sent");
    var bytesSent :- PyInt(bytesValue);
    var packetsValue :- Get(p, "packets_sent");
    var packetsSent :- PyInt(packetsValue);
    var rtt :- GetRtt(p.fields);
    var reporter :- Get(p, "reporter");
    Success((startTime, endTime, bytesSent, packetsSent, rtt, reporter))
  }

  /** FlowRecord(entry): the record, or the exception its constructor raises. */
  function Normalize(e: Entry, lib: IpLibrary): Result<FlowRecord, PyError>
  {
    var p := FlowPayload(e);
    var c :- Connection(p, lib);
    var s :- Scalars(p);
    Success(Assemble(c, s.0, s.1, s.2, s.3, s.4, s.5, Descriptors(p)))
  }

  /**
   * FlowRecord.__init__: the required fields one after another, then the
   * descriptors set in a loop, each to the tuple or to None.
   */
  method NewFlowRecord(e: Entry, lib: IpLibrary) returns (r: Result<FlowRecord, PyError>)
    ensures r == Normalize(e, lib)
  {
    var p := FlowPayload(e);
    var c :- Connection(p, lib);
    var s :- Scalars(p);
    var ds: seq<Option<Details>> := [];
    for i := 0 to |DESCRIPTORS|
      invariant ds == Descriptors(p)[..i]
    {
      var (slot, kind) := DESCRIPTORS[i];
      var value := Get(p, SlotName(slot));
      assert Descriptors(p)[..i + 1] == ds + [Descriptor(p, slot, kind)];
      if value.Failure? {
        ds := ds + [None];
      } else {
        ds := ds + [MakeDetails(kind, value.value)];
      }
    }
    assert ds == Descriptors(p);
    r := Success(Assemble(c, s.0, s.1, s.2, s.3, s.4, s.5, ds));
  }

  /** Only the first 19 characters are read: whatever follows a second-precision timestamp is ignored. */
  lemma GetDtIgnoresSuffix(dt: DateTime, suffix: string)
    requires dt.microsecond == 0
    ensures GetDt(JStr(Strftime(dt) + suffix)) == Success(dt)
  {
    StrftimeLayout(dt);
    var s := Strftime(dt) + suffix;
    assert (if |s| <= 19 then s else s[..19]) == Strftime(dt);
    StrptimeStrftime(dt);
  }

  /** Helper for the examples below: the year of the sample timestamp, four digits. */
  lemma YearExample()
    ensures Digits(2018, 4) == "2018"
  {
    assert Digits(2, 1) == "2";
    assert Digits(20, 2) == "20";
    assert Digits(201, 3) == "201";
  }

  /** Helper for `StrftimeExample`: the date half of the sample timestamp. */
  lemma DatePartExample()
    ensures Digits(2018, 4) + "-" + Digits(4, 2) + "-" + Digits(3, 2) + "T" == "2018-04-03T"
  {
    YearExample();
    assert Digits(4, 2) == "04" && Digits(3, 2) == "03";
  }

  /** Helper for `TimePartExample`: the time fields joined, kept apart so the literal comparison stays small. */
  lemma TimeFields(h: string, m: string, s: string)
    requires h == "13" && m == "47" && s == "37"
    ensures h + ":" + m + ":" + s == "13:47:37"
  {
  }

  /** Helper for `StrftimeExample`: the time half of the sample timestamp. */
  lemma TimePartExample(prefix: string)
    ensures prefix + Digits(13, 2) + ":" + Digits(47, 2) + ":" + Digits(37, 2) == prefix + "13:47:37"
  {
    var h, m, s := Digits(13, 2), Digits(47, 2), Digits(37, 2);
    assert h == "13";
    assert m == "47";
    assert s == "37";
    TimeFields(h, m, s);
    assert prefix + h + ":" + m + ":" + s == prefix + (h + ":" + m + ":" + s);
  }

  /** Helper for `GetDtExample`: the sample datetime printed by strftime. */
  lemma StrftimeExample()
    ensures Strftime(Civil(2018, 4, 3, 13, 47, 37, 0)) == "2018-04-03T13:47:37"
  {
    DatePartExample();
    TimePartExample("2018-04-03T");
  }

  /** The payload's nanosecond timestamp with a zone letter is read as its whole second. */
  lemma GetDtExample()
    ensures GetDt(JStr("2018-04-03T13:47:37.301723960Z")) == Success(Civil(2018, 4, 3, 13, 47, 37, 0))
  {
    var dt: DateTime := Civil(2018, 4, 3, 13, 47, 37, 0);
    var suffix := ".301723960Z";
    calc {
      "2018-04-03T13:47:37.301723960Z";
      "2018-04-03T13:47:37" + suffix;
      { StrftimeExample(); }
      Strftime(dt) + suffix;
    }
    GetDtIgnoresSuffix(dt, suffix);
  }

  /** The connection 5-tuple is read exactly when each of its values is present and convertible. */
  lemma ConnectionSpec(p: Json, lib: IpLibrary)
    ensures Connection(p, lib).Success? <==>
      && p.JObj? && "connection" in p.fields && p.fields["connection"].JObj?
      && var c := p.fields["connection"].fields;
      && "src_ip" in c && IpFromJson(c["src_ip"], lib).Success?
      && "src_port" in c && PyInt(c["src_port"]).Success?
      && "dest_ip" in c && IpFromJson(c["dest_ip"], lib).Success?
      && "dest_port" in c && PyInt(c["dest_port"]).Success?
      && "protocol" in c && PyInt(c["protocol"]).Success?
    ensures Connection(p, lib).Success? ==>
      var c, t := p.fields["connection"].fields, Connection(p, lib).value;
      && IpFromJson(c["src_ip"], lib) == Success(t.0) && PyInt(c["src_port"]) == Success(t.1)
      && IpFromJson(c["dest_ip"], lib) == Success(t.2) && PyInt(c["dest_port"]) == Success(t.3)
      && PyInt(c["protocol"]) == Success(t.4)
  {
  }

  /** The times, counters, rtt_msec and reporter are read exactly when each required one is present and convertible. */
  lemma ScalarsSpec(p: Json)
    requires p.JObj?
    ensures Scalars(p).Success? <==>
      && "start_time" in p.fields && GetDt(p.fields["start_time"]).Success?
      && "end_time" in p.fields && GetDt(p.fields["end_time"]).Success?
      && "bytes_sent" in p.fields && PyInt(p.fields["bytes_sent"]).Success?
      && "packets_sent" in p.fields && PyInt(p.fields["packets_sent"]).Success?
      && GetRtt(p.fields).Success?
      && "reporter" in p.fields
    ensures Scalars(p).Success? ==>
      var t := Scalars(p).value;
      && GetDt(p.fields["start_time"]) == Success(t.0) && GetDt(p.fields["end_time"]) == Success(t.1)
      && PyInt(p.fields["bytes_sent"]) == Success(t.2) && PyInt(p.fields["packets_sent"]) == Success(t.3)
      && GetRtt(p.fields) == Success(t.4) && t.5 == p.fields["reporter"]
  {
  }

  /**
   * A record is built exactly when the payload is a non-empty mapping holding
   * the connection 5-tuple and the required top-level keys, each convertible;
   * the descriptors never make construction fail.
   */
  lemma NormalizeSucceeds(e: Entry, lib: IpLibrary)
    ensures Normalize(e, lib).Success? <==>
      && e.payload.Some? && e.payload.value != map[]
      && Connection(FlowPayload(e), lib).Success?
      && Scalars(FlowPayload(e)).Success?
  {
  }

  /** The required attributes are the converted payload values; rtt_msec is None exactly when absent or null. */
  lemma NormalizeFields(e: Entry, lib: IpLibrary)
    requires Normalize(e, lib).Success?
    ensures var r, p := Normalize(e, lib).value, FlowPayload(e);
      && p.JObj? && "connection" in p.fields && p.fields["connection"].JObj?
      && var c := p.fields["connection"].fields;
      && "src_ip" in c && IpFromJson(c["src_ip"], lib) == Success(r.srcIp)
      && "dest_ip" in c && IpFromJson(c["dest_ip"], lib) == Success(r.destIp)
      && "src_port" in c && PyInt(c["src_port"]) == Success(r.srcPort)
      && "dest_port" in c && PyInt(c["dest_port"]) == Success(r.destPort)
      && "protocol" in c && PyInt(c["protocol"]) == Success(r.protocol)
      && "start_time" in p.fields && GetDt(p.fields["start_time"]) == Success(r.startTime)
      && "end_time" in p.fields && GetDt(p.fields["end_time"]) == Success(r.endTime)
      && "bytes_sent" in p.fields && PyInt(p.fields["bytes_sent"]) == Success(r.bytesSent)
      && "packets_sent" in p.fields && PyInt(p.fields["packets_sent"]) == Success(r.packetsSent)
      && (r.rttMsec.None? <==> "rtt_msec" !in p.fields || p.fields["rtt_msec"] == JNull)
      && (r.rttMsec.Some? ==> PyInt(p.fields["rtt_msec"]) == Success(r.rttMsec.value))
      && "reporter" in p.fields && r.reporter == p.fields["reporter"]
  {
    var p := FlowPayload(e);
    ConnectionSpec(p, lib);
    ScalarsSpec(p);
    var r := Normalize(e, lib).value;
    var c := Connection(p, lib).value;
    var s := Scalars(p).value;
    assert r == Assemble(c, s.0, s.1, s.2, s.3, s.4, s.5, Descriptors(p));
  }

  /**
   * Each descriptor attribute is all or nothing: the full tuple of its type,
   * whose dict is the payload's mapping, exactly when the payload holds a
   * mapping with exactly that tuple's fields; None otherwise.
   */
  lemma NormalizeDescriptor(e: Entry, lib: IpLibrary, i: nat)
    requires Normalize(e, lib).Success? && i < |DESCRIPTORS|
    ensures var r, p, slot, kind := Normalize(e, lib).value, FlowPayload(e), DESCRIPTORS[i].0, DESCRIPTORS[i].1;
      && p.JObj?
      && (Attr(r, slot).VNone? || Attr(r, slot).VDetails?)
      && (Attr(r, slot).VDetails? <==>
            SlotName(slot) in p.fields && p.fields[SlotName(slot)].JObj?
            && p.fields[SlotName(slot)].fields.Keys == FieldSet(kind))
      && (Attr(r, slot).VDetails? ==>
            && Attr(r, slot).d.Valid() && Attr(r, slot).d.kind == kind
            && AsDict(Attr(r, slot).d) == p.fields[SlotName(slot)].fields)
  {
    var p := FlowPayload(e);
    var r := Normalize(e, lib).value;
    var slot, kind := DESCRIPTORS[i].0, DESCRIPTORS[i].1;
    var ds := Descriptors(p);
    assert r == Assemble(Connection(p, lib).value, Scalars(p).value.0, Scalars(p).value.1, Scalars(p).value.2,
                         Scalars(p).value.3, Scalars(p).value.4, Scalars(p).value.5, ds);
    DescriptorSlot(r, ds, i);
    if ds[i].Some? {
      AsDictMakeDetails(kind, p.fields[SlotName(slot)]);
    }
  }

  lemma DescriptorSlot(r: FlowRecord, ds: seq<Option<Details>>, i: nat)
    requires |ds| == |DESCRIPTORS| && i < |DESCRIPTORS|
    requires r.srcInstance == ds[0] && r.destInstance == ds[1] && r.srcVpc == ds[2]
    requires r.destVpc == ds[3] && r.srcLocation == ds[4] && r.destLocation == ds[5]
    ensures Attr(r, DESCRIPTORS[i].0) == OptionalDetails(ds[i])
  {
  }

  // ---------------------------------------------------------------- equality and hashing

  /** What a record is compared with: another record, or any other object with whichever slot attributes it has. */
  datatype PyObject = RecordObject(r: FlowRecord) | OtherObject(attrs: map<Slot, Value>)

  /** getattr(other, slot), None where Python raises AttributeError. */
  function AttrOf(o: PyObject, s: Slot): Option<Value>
  {
    match o
    case RecordObject(r) => Some(Attr(r, s))
    case OtherObject(attrs) => if s in attrs then Some(attrs[s]) else None
  }

  /** record == other: every slot compares equal; an AttributeError makes it False. */
  predicate Equals(a: FlowRecord, other: PyObject)
  {
    forall i :: 0 <= i < |SLOTS| ==> AttrOf(other, SLOTS[i]) == Some(Attr(a, SLOTS[i]))
  }

  /** hash(record) hashes this tuple of all slot values. */
  function HashKey(r: FlowRecord): seq<Value>
  {
    seq(|SLOTS|, i requires 0 <= i < |SLOTS| => Attr(r, SLOTS[i]))
  }

  /** A JSON value Python can hash: anything but a list or a dict. */
  predicate HashableJson(j: Json)
  {
    !j.JArr? && !j.JObj?
  }

  /** A slot value Python can hash; a namedtuple hashes its fields. */
  predicate Hashable(v: Value)
  {
    match v
    case VJson(j) => HashableJson(j)
    case VDetails(d) => forall i :: 0 <= i < |d.values| ==> HashableJson(d.values[i])
    case VDict(_) => false
    case _ => true
  }

  /** hash(record): the hash of the slot tuple, or TypeError when one of its values is unhashable. */
  function Hash(r: FlowRecord): (h: Result<seq<Value>, PyError>)
    ensures h.Success? ==> h.value == HashKey(r)
    ensures h.Failure? ==> h.error == TypeError
  {
    if forall i :: 0 <= i < |SLOTS| ==> Hashable(Attr(r, SLOTS[i])) then Success(HashKey(r))
    else Failure(TypeError)
  }

  predicate DetailsHashable(o: Option<Details>)
  {
    o.None? || forall i :: 0 <= i < |o.value.values| ==> HashableJson(o.value.values[i])
  }

  /** hash(record) succeeds exactly when every slot value is hashable. */
  lemma HashEverySlot(r: FlowRecord)
    ensures Hash(r).Success? <==> forall s: Slot :: Hashable(Attr(r, s))
  {
    if Hash(r).Success? {
      forall s: Slot
        ensures Hashable(Attr(r, s))
      {
        SlotListed(s);
        var i :| 0 <= i < |SLOTS| && SLOTS[i] == s;
      }
    }
  }

  /** hash(record) raises exactly when the reporter, or a field of a detail namedtuple, is a list or a dict. */
  lemma HashRaises(r: FlowRecord)
    ensures Hash(r).Success? <==>
      HashableJson(r.reporter) &&
      DetailsHashable(r.srcInstance) && DetailsHashable(r.destInstance) &&
      DetailsHashable(r.srcVpc) && DetailsHashable(r.destVpc) &&
      DetailsHashable(r.srcLocation) && DetailsHashable(r.destLocation)
  {
    HashEverySlot(r);
    if Hash(r).Success? {
      assert Hashable(Attr(r, Reporter));
      assert Hashable(Attr(r, SrcInstance)) && Hashable(Attr(r, DestInstance));
      assert Hashable(Attr(r, SrcVpc)) && Hashable(Attr(r, DestVpc));
      assert Hashable(Attr(r, SrcLocation)) && Hashable(Attr(r, DestLocation));
    } else if HashableJson(r.reporter) &&
      DetailsHashable(r.srcInstance) && DetailsHashable(r.destInstance) &&
      DetailsHashable(r.srcVpc) && DetailsHashable(r.destVpc) &&
      DetailsHashable(r.srcLocation) && DetailsHashable(r.destLocation)
    {
      forall s: Slot
        ensures Hashable(Attr(r, s))
      {
        HashableSlot(r, s);
      }
    }
  }

  lemma HashableSlot(r: FlowRecord, s: Slot)
    requires HashableJson(r.reporter)
    requires DetailsHashable(r.srcInstance) && DetailsHashable(r.destInstance)
    requires DetailsHashable(r.srcVpc) && DetailsHashable(r.destVpc)
    requires DetailsHashable(r.srcLocation) && DetailsHashable(r.destLocation)
    ensures Hashable(Attr(r, s))
  {
  }

  lemma EqualsEverySlot(a: FlowRecord, other: PyObject)
    ensures Equals(a, other) <==> forall s: Slot :: AttrOf(other, s) == Some(Attr(a, s))
  {
    if Equals(a, other) {
      forall s: Slot
        ensures AttrOf(other, s) == Some(Attr(a, s))
      {
        SlotListed(s);
        var i :| 0 <= i < |SLOTS| && SLOTS[i] == s;
      }
    }
  }

  /** Two records are equal exactly when they are the same value. */
  lemma EqualsRecord(a: FlowRecord, b: FlowRecord)
    ensures Equals(a, RecordObject(b)) <==> a == b
  {
    EqualsEverySlot(a, RecordObject(b));
    if Equals(a, RecordObject(b)) {
      AttrDetermines(a, b);
    }
  }

  /** An object lacking one of the slot attributes never compares equal. */
  lemma EqualsLacking(a: FlowRecord, attrs: map<Slot, Value>, s: Slot)
    requires s !in attrs
    ensures !Equals(a, OtherObject(attrs))
  {
    EqualsEverySlot(a, OtherObject(attrs));
    assert AttrOf(OtherObject(attrs), s).None?;
  }

  /**
   * Equal records hash alike (or both raise), and records whose hashes
   * succeed on the same tuple are equal.
   */
  lemma HashConsistent(a: FlowRecord, b: FlowRecord)
    ensures Equals(a, RecordObject(b)) ==> Hash(a) == Hash(b)
    ensures Hash(a).Success? && Hash(a) == Hash(b) ==> Equals(a, RecordObject(b))
  {
    if HashKey(a) == HashKey(b) {
      forall i | 0 <= i < |SLOTS|
        ensures AttrOf(RecordObject(b), SLOTS[i]) == Some(Attr(a, SLOTS[i]))
      {
        assert HashKey(a)[i] == HashKey(b)[i];
      }
    }
    EqualsRecord(a, b);
  }

  // ---------------------------------------------------------------- text forms

  /** repr(record): the connection 5-tuple, the protocol shown on both ends. */
  function Repr(r: FlowRecord, lib: IpLibrary): string
  {
    "<FlowRecord " + lib.show(r.srcIp) + ":" + IntToString(r.srcPort) + "/" + IntToString(r.protocol) +
    "->" + lib.show(r.destIp) + ":" + IntToString(r.destPort) + "/" + IntToString(r.protocol) + ">"
  }

  /** One `name: value` item of str(record). */
  function Labelled(slot: Slot, text: string): (r: string)
    ensures |r| == |SlotName(slot)| + 2 + |text|
    ensures r[..|SlotName(slot)| + 2] == SlotName(slot) + ": "
    ensures r[|SlotName(slot)| + 2..] == text
  {
    SlotName(slot) + ": " + text
  }

  /** str() of an attribute; only the kinds held by the first nine slots are needed. */
  function StrOf(v: Value, lib: IpLibrary): string
  {
    match v
    case VIp(ip) => lib.show(ip)
    case VInt(i) => IntToString(i)
    case VTime(t) => IsoString(t)
    case _ => ""
  }

  /** The items str(record) joins: `name: value` for each of the first nine slots. */
  function StrItems(r: FlowRecord, lib: IpLibrary): seq<string>
  {
    seq(9, i requires 0 <= i < 9 => Labelled(SLOTS[i], StrOf(Attr(r, SLOTS[i]), lib)))
  }

  /** str(record) */
  function Str(r: FlowRecord, lib: IpLibrary): string
  {
    Join(StrItems(r, lib), ", ")
  }

  /**
   * str() names exactly the first nine slots, in slot order, and shows for
   * each the value to_dict() holds under that name.
   */
  lemma StrNamesFirstNineSlots(r: FlowRecord, lib: IpLibrary)
    ensures |StrItems(r, lib)| == 9
    ensures forall i :: 0 <= i < 9 ==> StrItems(r, lib)[i][..|SlotName(SLOTS[i])| + 2] == SlotName(SLOTS[i]) + ": "
    ensures forall i :: 0 <= i < 9 ==>
      (SlotName(SLOTS[i]) in SlotDict(r, SLOTS) &&
       StrItems(r, lib)[i][|SlotName(SLOTS[i])| + 2..] == StrOf(SlotDict(r, SLOTS)[SlotName(SLOTS[i])], lib))
  {
    SlotDictComplete(r);
    forall i | 0 <= i < 9
      ensures SlotName(SLOTS[i]) in SlotDict(r, SLOTS) &&
        StrItems(r, lib)[i][|SlotName(SLOTS[i])| + 2..] == StrOf(SlotDict(r, SLOTS)[SlotName(SLOTS[i])], lib)
    {
      assert !Attr(r, SLOTS[i]).VDetails?;
    }
  }

  lemma NumberExamples()
    ensures IntToString(6) == "6" && IntToString(4) == "4"
    ensures IntToString(491) == "491" && IntToString(3389) == "3389" && IntToString(49444) == "49444"
  {
    assert NatToString(49) == "49" && NatToString(494) == "494" && NatToString(4944) == "4944";
    assert NatToString(33) == "33" && NatToString(338) == "338";
    assert NatToString(49) == "49";
  }

  /** The record of the sample flow between 198.51.100.75 and 192.0.2.2, as repr() shows it. */
  lemma ReprExample(r: FlowRecord, lib: IpLibrary)
    requires lib.show(r.srcIp) == "198.51.100.75" && lib.show(r.destIp) == "192.0.2.2"
    requires r.srcPort == 49444 && r.destPort == 3389 && r.protocol == 6
    ensures Repr(r, lib) == "<FlowRecord 198.51.100.75:49444/6->192.0.2.2:3389/6>"
  {
    NumberExamples();
    var s0 := "<FlowRecord " + lib.show(r.srcIp);
    assert s0 == "<FlowRecord 198.51.100.75";
    var s1 := s0 + ":" + IntToString(r.srcPort);
    assert s1 == "<FlowRecord 198.51.100.75:49444";
    var s2 := s1 + "/" + IntToString(r.protocol) + "->";
    assert s2 == "<FlowRecord 198.51.100.75:49444/6->";
    var s3 := s2 + lib.show(r.destIp) + ":";
    assert s3 == "<FlowRecord 198.51.100.75:49444/6->192.0.2.2:";
    var s4 := s3 + IntToString(r.destPort) + "/" + IntToString(r.protocol) + ">";
    assert s4 == "<FlowRecord 198.51.100.75:49444/6->192.0.2.2:3389/6>";
  }

  // ---------------------------------------------------------------- to_dict

  /** A value as to_dict() stores it: descriptors become plain dicts. */
  function DictValue(v: Value): Value
  {
    if v.VDetails? then VDict(AsDict(v.d)) else v
  }

  /** The dict to_dict() has built after the given slots, in order. */
  function SlotDict(r: FlowRecord, slots: seq<Slot>): map<string, Value>
  {
    if slots == [] then map[]
    else
      var last := slots[|slots| - 1];
      SlotDict(r, slots[..|slots| - 1])[SlotName(last) := DictValue(Attr(r, last))]
  }

  /** One more slot adds its own entry. */
  lemma SlotDictStep(r: FlowRecord, slots: seq<Slot>, i: nat)
    requires i < |slots|
    ensures SlotDict(r, slots[..i + 1]) == SlotDict(r, slots[..i])[SlotName(slots[i]) := DictValue(Attr(r, slots[i]))]
  {
    assert slots[..i + 1][..i] == slots[..i];
  }

  /** The dict holds exactly the names of the given slots, each mapped to its slot's value. */
  lemma {:induction false} SlotDictSpec(r: FlowRecord, slots: seq<Slot>)
    ensures forall k :: k in SlotDict(r, slots) <==> SlotNamed(k).Some? && SlotNamed(k).value in slots
    ensures forall k :: k in SlotDict(r, slots) ==> SlotDict(r, slots)[k] == DictValue(Attr(r, SlotNamed(k).value))
  {
    if slots != [] {
      var n := |slots| - 1;
      var last := slots[n];
      assert slots == slots[..n] + [last];
      SlotDictSpec(r, slots[..n]);
      SlotNameRoundTrip(last);
      forall k
        ensures k in SlotDict(r, slots) <==> SlotNamed(k).Some? && SlotNamed(k).value in slots
        ensures k in SlotDict(r, slots) ==> SlotDict(r, slots)[k] == DictValue(Attr(r, SlotNamed(k).value))
      {
        SlotNamedSound(k);
      }
    }
  }

  /** The whole dict: one key per slot name, each mapped to its attribute. */
  lemma SlotDictComplete(r: FlowRecord)
    ensures forall k :: k in SlotDict(r, SLOTS) <==> SlotNamed(k).Some?
    ensures forall s: Slot :: SlotName(s) in SlotDict(r, SLOTS) && SlotDict(r, SLOTS)[SlotName(s)] == DictValue(Attr(r, s))
  {
    SlotDictSpec(r, SLOTS);
    forall k | SlotNamed(k).Some?
      ensures k in SlotDict(r, SLOTS)
    {
      SlotListed(SlotNamed(k).value);
    }
    forall s: Slot
      ensures SlotName(s) in SlotDict(r, SLOTS) && SlotDict(r, SLOTS)[SlotName(s)] == DictValue(Attr(r, s))
    {
      SlotNameRoundTrip(s);
      SlotListed(s);
    }
  }

  /**
   * to_dict(): one entry per slot, inserted in slot order (`keys` is the
   * dict's iteration order); descriptor tuples are stored as their dicts.
   */
  method ToDict(r: FlowRecord) returns (keys: seq<string>, d: map<string, Value>)
    ensures keys == seq(|SLOTS|, i requires 0 <= i < |SLOTS| => SlotName(SLOTS[i]))
    ensures d == SlotDict(r, SLOTS)
    ensures forall k :: k in d <==> SlotNamed(k).Some?
    ensures forall s: Slot :: SlotName(s) in d && d[SlotName(s)] == DictValue(Attr(r, s))
  {
    keys, d := [], map[];
    for i := 0 to |SLOTS|
      invariant keys == seq(i, j requires 0 <= j < i => SlotName(SLOTS[j]))
      invariant d == SlotDict(r, SLOTS[..i])
    {
      var slot := SLOTS[i];
      var key := SlotName(slot);
      var value := Attr(r, slot);
      if value.VDetails? {
        value := VDict(AsDict(value.d));
      }
      SlotDictStep(r, SLOTS, i);
      keys := keys + [key];
      d := d[key := value];
    }
    assert SLOTS[..|SLOTS|] == SLOTS;
    SlotDictComplete(r);
  }

  /**
   * In to_dict() of a record built from a payload, a present descriptor is
   * exactly the payload's mapping for that key.
   */
  lemma ToDictDescriptor(e: Entry, lib: IpLibrary, i: nat)
    requires Normalize(e, lib).Success? && i < |DESCRIPTORS|
    requires Attr(Normalize(e, lib).value, DESCRIPTORS[i].0).VDetails?
    ensures var p, name := FlowPayload(e), SlotName(DESCRIPTORS[i].0);
      p.JObj? && name in p.fields && p.fields[name].JObj? && DictValue(Attr(Normalize(e, lib).value, DESCRIPTORS[i].0)) == VDict(p.fields[name].fields)
  {
    NormalizeDescriptor(e, lib, i);
  }
}
