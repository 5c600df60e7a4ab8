/**
 * The command-line actions: each consumes what the reader yields (its records,
 * then possibly the exception that ended it) and produces lines of output.
 */
module Cli {
  import opened Wrappers
  import opened Text
  import opened DateTimes
  import opened Payloads
  import opened FlowRecords
  import opened Readers
  import opened Aggregation

  // ---------------------------------------------------------------- lines

  const TAB := '\t'

  /** The columns of every listing, as print_header writes them. */
  const HEADER_FIELDS: seq<string> := ["src_ip", "dest_ip", "src_port", "dest_port", "protocol",
                                       "start_time", "end_time", "bytes_sent", "packets_sent"]

  /** The attributes print_record reads, in column order. */
  const LINE_SLOTS: seq<Slot> := [SrcIp, DestIp, SrcPort, DestPort, Protocol,
                                  StartTime, EndTime, BytesSent, PacketsSent]

  /** The header names exactly the attributes the record lines show. */
  lemma HeaderNamesLineSlots()
    ensures |HEADER_FIELDS| == |LINE_SLOTS| == 9
    ensures forall i :: 0 <= i < 9 ==> HEADER_FIELDS[i] == SlotName(LINE_SLOTS[i])
  {
  }

  /** print(*HEADER_FIELDS, sep='\t') */
  function HeaderLine(): string
  {
    Join(HEADER_FIELDS, [TAB])
  }

  /** The nine attributes print_record reads, whatever kind of record carries them. */
  datatype LineFields = LineFields(srcIp: IPAddress, destIp: IPAddress, srcPort: int, destPort: int,
                                   protocol: int, startTime: DateTime, endTime: DateTime,
                                   bytesSent: int, packetsSent: int)

  /** The printed cells: str() of each attribute, the times with strftime. */
  function Cells(f: LineFields, lib: IpLibrary): (cells: seq<string>)
    ensures |cells| == |HEADER_FIELDS|
  {
    [lib.show(f.srcIp), lib.show(f.destIp), IntToString(f.srcPort), IntToString(f.destPort),
     IntToString(f.protocol), Strftime(f.startTime), Strftime(f.endTime),
     IntToString(f.bytesSent), IntToString(f.packetsSent)]
  }

  /** print_record: the cells separated by tabs. */
  function RecordLine(f: LineFields, lib: IpLibrary): string
  {
    Join(Cells(f, lib), [TAB])
  }

  /** The attributes of a flow record that a line shows. */
  function FromRecord(r: FlowRecord): LineFields
  {
    LineFields(r.srcIp, r.destIp, r.srcPort, r.destPort, r.protocol, r.startTime, r.endTime,
               r.bytesSent, r.packetsSent)
  }

  /** The i-th shown attribute as a value. */
  function LineValue(f: LineFields, i: nat): Value
    requires i < 9
  {
    [VIp(f.srcIp), VIp(f.destIp), VInt(f.srcPort), VInt(f.destPort), VInt(f.protocol),
     VTime(f.startTime), VTime(f.endTime), VInt(f.bytesSent), VInt(f.packetsSent)][i]
  }

  /** Column i of a record's line shows the record's attribute named in the header's column i. */
  lemma FromRecordAttrs(r: FlowRecord)
    ensures forall i :: 0 <= i < 9 ==> LineValue(FromRecord(r), i) == Attr(r, LINE_SLOTS[i])
  {
  }

  predicate TabFree(s: string)
  {
    forall j :: 0 <= j < |s| ==> s[j] != TAB
  }

  lemma StrftimeTabFree(dt: DateTime)
    ensures TabFree(Strftime(dt))
  {
    StrftimeLayout(dt);
    var s := Strftime(dt);
    forall j | 0 <= j < |s|
      ensures s[j] != TAB
    {
      if j < 4 {
        assert s[j] == s[..4][j];
      } else if 5 <= j < 8 {
        assert s[j] == s[5..8][j - 5];
      } else if 8 <= j < 11 {
        assert s[j] == s[8..11][j - 8];
      } else if 11 <= j < 14 {
        assert s[j] == s[11..14][j - 11];
      } else if 14 <= j < 17 {
        assert s[j] == s[14..17][j - 14];
      } else if 17 <= j {
        assert s[j] == s[17..][j - 17];
      }
    }
  }

  /**
   * A record line splits back into its nine cells, provided the address
   * library never prints a tab (numbers and times never contain one).
   */
  lemma RecordLineCells(f: LineFields, lib: IpLibrary)
    requires TabFree(lib.show(f.srcIp)) && TabFree(lib.show(f.destIp))
    ensures Split(RecordLine(f, lib), [TAB]) == Cells(f, lib)
  {
    var cells := Cells(f, lib);
    IntToStringChars(f.srcPort, TAB);
    IntToStringChars(f.destPort, TAB);
    IntToStringChars(f.protocol, TAB);
    IntToStringChars(f.bytesSent, TAB);
    IntToStringChars(f.packetsSent, TAB);
    StrftimeTabFree(f.startTime);
    StrftimeTabFree(f.endTime);
    forall k, j | 0 <= k < |cells| && 0 <= j < |cells[k]|
      ensures cells[k][j] != TAB
    {
    }
    SplitJoin(cells, TAB);
  }

  /** The header splits back into the nine column names. */
  lemma HeaderLineCells()
    ensures Split(HeaderLine(), [TAB]) == HEADER_FIELDS
  {
    SplitJoin(HEADER_FIELDS, TAB);
  }

  // ---------------------------------------------------------------- runs

  /** What one print() call receives: the header, one record's attributes, or one address. */
  datatype Printed = HeaderRow | RecordRow(f: LineFields) | AddressRow(ip: IPAddress)

  /** The text of one printed line. */
  function Render(p: Printed, lib: IpLibrary): string
  {
    match p
    case HeaderRow => HeaderLine()
    case RecordRow(f) => RecordLine(f, lib)
    case AddressRow(ip) => lib.show(ip)
  }

  /** The exceptions an action can end with. */
  datatype CliError =
    | RuntimeError              // action_print given two or more arguments
    | NotAnInteger              // ValueError from int() of the limit
    | MixedVersions             // TypeError from sorted() over addresses of both versions
    | ReadFailed(e: ReadError)  // the exception that ended the reader

  /** What an action printed, and the exception it ended with, if any. */
  datatype Run = Run(lines: seq<Printed>, error: Option<CliError>)

  /** The exception, if any, that the reader raises after its last record. */
  function Raised(s: Stream): (e: Option<CliError>)
    ensures e.Some? <==> s.failure.Some?
    ensures e.Some? ==> e.value == ReadFailed(s.failure.value)
  {
    match s.failure
    case None => None
    case Some(f) => Some(ReadFailed(f))
  }

  /** One print_record call per record, in order. */
  function RecordRows(rs: seq<FlowRecord>): (rows: seq<Printed>)
    ensures |rows| == |rs|
    ensures forall i :: 0 <= i < |rs| ==> rows[i] == RecordRow(FromRecord(rs[i]))
  {
    seq(|rs|, i requires 0 <= i < |rs| => RecordRow(FromRecord(rs[i])))
  }

  /** Printing one more record adds its row at the end. */
  lemma RecordRowsAppend(rs: seq<FlowRecord>, i: nat)
    requires i < |rs|
    ensures RecordRows(rs[..i + 1]) == RecordRows(rs[..i]) + [RecordRow(FromRecord(rs[i]))]
  {
  }

  // ---------------------------------------------------------------- print

  /** The stop_after argument: none means 0, one is parsed by int(), more is an error. */
  function StopAfter(args: seq<string>): (r: Result<int, CliError>)
    ensures |args| == 0 ==> r == Success(0)
    ensures |args| == 1 ==> (r.Success? <==> ParseInt(args[0]).Some?)
    ensures |args| == 1 && r.Success? ==> r.value == ParseInt(args[0]).value
    ensures |args| == 1 && r.Failure? ==> r.error == NotAnInteger
    ensures |args| >= 2 ==> r == Failure(RuntimeError)
  {
    if |args| == 0 then Success(0)
    else if |args| == 1 then
      match ParseInt(args[0])
      case Some(n) => Success(n)
      case None => Failure(NotAnInteger)
    else Failure(RuntimeError)
  }

  /** Whether the enumerate counter reaches stop_after among count records. */
  predicate Stops(count: nat, stopAfter: int)
  {
    1 <= stopAfter <= count
  }

  /** action_print, consumed as far as it goes. */
  function PrintRun(s: Stream, args: seq<string>): Run
  {
    match StopAfter(args)
    case Failure(e) => Run([], Some(e))
    case Success(n) =>
      if Stops(|s.records|, n) then Run([HeaderRow] + RecordRows(s.records[..n]), None)
      else Run([HeaderRow] + RecordRows(s.records), Raised(s))
  }

  /**
   * action_print: with no argument, or a limit of 0 (or one never reached),
   * the header and every record, then whatever ended the reader; with a limit
   * n reached, the header and the first n records, and nothing read after
   * them can fail the run; two or more arguments, or a limit int() refuses,
   * fail before any output.
   */
  lemma PrintRunSpec(s: Stream, args: seq<string>)
    ensures |args| >= 2 ==> PrintRun(s, args) == Run([], Some(RuntimeError))
    ensures |args| == 1 && ParseInt(args[0]).None? ==> PrintRun(s, args) == Run([], Some(NotAnInteger))
    ensures |args| == 0 || (|args| == 1 && ParseInt(args[0]) == Some(0)) ==>
      PrintRun(s, args) == Run([HeaderRow] + RecordRows(s.records), Raised(s))
    ensures |args| == 1 && ParseInt(args[0]).Some? && Stops(|s.records|, ParseInt(args[0]).value) ==>
      var n := ParseInt(args[0]).value;
      PrintRun(s, args) == Run([HeaderRow] + RecordRows(s.records[..n]), None)
    ensures |args| == 1 && ParseInt(args[0]).Some? && !Stops(|s.records|, ParseInt(args[0]).value) ==>
      PrintRun(s, args) == Run([HeaderRow] + RecordRows(s.records), Raised(s))
  {
  }

  /** action_print: an enumerate loop that breaks once the counter equals stop_after. */
  method ActionPrint(s: Stream, args: seq<string>) returns (out: Run)
    ensures out == PrintRun(s, args)
  {
    var limit := StopAfter(args);
    if limit.Failure? {
      return Run([], Some(limit.error));
    }
    var stopAfter := limit.value;
    var lines := [HeaderRow];
    var i := 0;
    while i < |s.records|
      invariant 0 <= i <= |s.records|
      invariant !Stops(i, stopAfter)
      invariant lines == [HeaderRow] + RecordRows(s.records[..i])
    {
      RecordRowsAppend(s.records, i);
      lines := lines + [RecordRow(FromRecord(s.records[i]))];
      i := i + 1;
      if i == stopAfter {
        return Run(lines, None);
      }
    }
    assert s.records[..i] == s.records;
    out := Run(lines, Raised(s));
  }

  // ---------------------------------------------------------------- ipset

  /** Every address seen as a source or a destination. */
  function AddressesOf(rs: seq<FlowRecord>): set<IPAddress>
  {
    (set r | r in rs :: r.srcIp) + (set r | r in rs :: r.destIp)
  }

  /** A record's two addresses are among those collected. */
  lemma AddressesOfRecord(rs: seq<FlowRecord>, r: FlowRecord)
    requires r in rs
    ensures r.srcIp in AddressesOf(rs) && r.destIp in AddressesOf(rs)
  {
    assert r.srcIp in (set q | q in rs :: q.srcIp);
    assert r.destIp in (set q | q in rs :: q.destIp);
  }

  /** Taking one more record adds its two addresses. */
  lemma AddressesStep(rs: seq<FlowRecord>, i: nat)
    requires i < |rs|
    ensures AddressesOf(rs[..i + 1]) == AddressesOf(rs[..i]) + {rs[i].srcIp} + {rs[i].destIp}
  {
    assert rs[..i + 1] == rs[..i] + [rs[i]];
  }

  /** A set that sorted() cannot order: it holds an IPv4 and an IPv6 address. */
  predicate BothVersions(ips: set<IPAddress>)
  {
    exists a, b :: a in ips && b in ips && a.IPv4? && b.IPv6?
  }

  /** Strictly ascending in the ipaddress order, which only compares addresses of one version. */
  predicate Ascending(ips: seq<IPAddress>)
  {
    forall i, j :: 0 <= i < j < |ips| ==> ips[i].IPv4? == ips[j].IPv4? && ips[i].bits < ips[j].bits
  }

  /** m comes first among ips. */
  predicate Least(m: IPAddress, ips: set<IPAddress>)
  {
    m in ips && forall y :: y in ips ==> m.bits <= y.bits
  }

  lemma {:induction false} HasLeast(ips: set<IPAddress>)
    requires ips != {}
    ensures exists m :: Least(m, ips)
    decreases |ips|
  {
    var x :| x in ips;
    if ips == {x} {
      assert Least(x, ips);
    } else {
      HasLeast(ips - {x});
      var m :| Least(m, ips - {x});
      if x.bits < m.bits {
        assert Least(x, ips);
      } else {
        assert Least(m, ips);
      }
    }
  }

  /** Among addresses of one version the first is unique. */
  lemma LeastUnique(m1: IPAddress, m2: IPAddress, ips: set<IPAddress>)
    requires !BothVersions(ips) && Least(m1, ips) && Least(m2, ips)
    ensures m1 == m2
  {
    assert m1.IPv4? == m2.IPv4?;
  }

  /** sorted(ips), for addresses of one version: the least address, then the rest sorted. */
  ghost function SortedAddresses(ips: set<IPAddress>): seq<IPAddress>
    requires !BothVersions(ips)
    decreases |ips|
  {
    if ips == {} then []
    else
      HasLeast(ips);
      var m :| Least(m, ips);
      OneVersionSubset(ips - {m}, ips);
      [m] + SortedAddresses(ips - {m})
  }

  /** sorted() puts every address of the set, and nothing else, in strictly ascending order. */
  lemma {:induction false} SortedAddressesSpec(ips: set<IPAddress>)
    requires !BothVersions(ips)
    ensures Ascending(SortedAddresses(ips))
    ensures forall ip :: ip in SortedAddresses(ips) <==> ip in ips
    decreases |ips|
  {
    if ips != {} {
      var r := SortedAddresses(ips);
      var m := r[0];
      var rest := ips - {m};
      OneVersionSubset(rest, ips);
      assert r == [m] + SortedAddresses(rest);
      SortedAddressesSpec(rest);
      forall y | y in rest
        ensures y.IPv4? == m.IPv4? && m.bits < y.bits
      {
        if y.IPv4? != m.IPv4? {
          if y.IPv4? {
            assert BothVersions(ips);
          } else {
            assert BothVersions(ips);
          }
        }
      }
    }
  }

  /** One print() per address. */
  function AddressRows(ips: seq<IPAddress>): (rows: seq<Printed>)
    ensures |rows| == |ips|
    ensures forall i :: 0 <= i < |ips| ==> rows[i] == AddressRow(ips[i])
  {
    seq(|ips|, i requires 0 <= i < |ips| => AddressRow(ips[i]))
  }

  /**
   * action_ipset: nothing is printed until the reader is exhausted; then
   * every address once, ascending, unless both versions occur, where
   * sorted() raises TypeError.
   */
  ghost function IpsetRun(s: Stream): Run
  {
    if s.failure.Some? then Run([], Raised(s))
    else if BothVersions(AddressesOf(s.records)) then Run([], Some(MixedVersions))
    else Run(AddressRows(SortedAddresses(AddressesOf(s.records))), None)
  }

  /** Each address seen is printed exactly once, in ascending order, and no other. */
  lemma IpsetRunSpec(s: Stream)
    requires IpsetRun(s).error.None?
    ensures exists ips :: (Ascending(ips) && (forall ip :: ip in ips <==> ip in AddressesOf(s.records)) &&
      IpsetRun(s).lines == AddressRows(ips))
    ensures forall r :: r in s.records ==>
      AddressRow(r.srcIp) in IpsetRun(s).lines && AddressRow(r.destIp) in IpsetRun(s).lines
  {
    var ips := SortedAddresses(AddressesOf(s.records));
    var lines := IpsetRun(s).lines;
    assert lines == AddressRows(ips);
    SortedAddressesSpec(AddressesOf(s.records));
    forall r | r in s.records
      ensures AddressRow(r.srcIp) in lines && AddressRow(r.destIp) in lines
    {
      AddressesOfRecord(s.records, r);
      var i :| 0 <= i < |ips| && ips[i] == r.srcIp;
      var j :| 0 <= j < |ips| && ips[j] == r.destIp;
      assert lines[i] == AddressRow(r.srcIp);
      assert lines[j] == AddressRow(r.destIp);
    }
  }

  /** Whichever address comes first, the sorted list starts with it. */
  lemma SortedAddressesUnfold(ips: set<IPAddress>, m: IPAddress)
    requires !BothVersions(ips) && Least(m, ips)
    ensures SortedAddresses(ips) == [m] + SortedAddresses(ips - {m})
  {
    var r := SortedAddresses(ips);
    SortedAddressesSpec(ips);
    forall y | y in ips
      ensures r[0].bits <= y.bits
    {
      var k :| 0 <= k < |r| && r[k] == y;
      if k > 0 {
        assert r[0].bits < r[k].bits;
      }
    }
    assert Least(r[0], ips);
    LeastUnique(m, r[0], ips);
  }

  /** The set of addresses the loop over the reader builds. */
  method CollectAddresses(rs: seq<FlowRecord>) returns (ips: set<IPAddress>)
    ensures ips == AddressesOf(rs)
  {
    ips := {};
    for i := 0 to |rs|
      invariant ips == AddressesOf(rs[..i])
    {
      AddressesStep(rs, i);
      ips := ips + {rs[i].srcIp};
      ips := ips + {rs[i].destIp};
    }
    assert rs[..|rs|] == rs;
  }

  /** A part of a set of one version is of one version. */
  lemma OneVersionSubset(part: set<IPAddress>, ips: set<IPAddress>)
    requires part <= ips && !BothVersions(ips)
    ensures !BothVersions(part)
  {
  }

  /** Printing the least remaining address keeps the printed lines a prefix of the sorted ones. */
  lemma AddressRowsStep(ips: set<IPAddress>, rest: set<IPAddress>, lines: seq<Printed>, m: IPAddress)
    requires !BothVersions(ips) && !BothVersions(rest) && Least(m, rest)
    requires lines + AddressRows(SortedAddresses(rest)) == AddressRows(SortedAddresses(ips))
    ensures !BothVersions(rest - {m})
    ensures (lines + [AddressRow(m)]) + AddressRows(SortedAddresses(rest - {m})) == AddressRows(SortedAddresses(ips))
  {
    SortedAddressesUnfold(rest, m);
    OneVersionSubset(rest - {m}, rest);
    assert AddressRows(SortedAddresses(rest)) == [AddressRow(m)] + AddressRows(SortedAddresses(rest - {m}));
  }

  /** for ip in sorted(ip_set): print(ip), taking the least remaining address each time. */
  method PrintSorted(ips: set<IPAddress>) returns (lines: seq<Printed>)
    requires !BothVersions(ips)
    ensures lines == AddressRows(SortedAddresses(ips))
  {
    lines := [];
    var rest := ips;
    while rest != {}
      invariant !BothVersions(rest)
      invariant lines + AddressRows(SortedAddresses(rest)) == AddressRows(SortedAddresses(ips))
      decreases |rest|
    {
      HasLeast(rest);
      var m :| Least(m, rest);
      AddressRowsStep(ips, rest, lines, m);
      lines := lines + [AddressRow(m)];
      rest := rest - {m};
    }
    assert SortedAddresses(rest) == [];
    assert lines + AddressRows([]) == lines;
  }

  /** action_ipset: a set filled by add() in a loop, then printed in sorted order. */
  method ActionIpset(s: Stream) returns (out: Run)
    ensures out == IpsetRun(s)
  {
    var ips := CollectAddresses(s.records);
    if s.failure.Some? {
      return Run([], Raised(s));
    }
    if exists a, b :: a in ips && b in ips && a.IPv4? && b.IPv6? {
      return Run([], Some(MixedVersions));
    }
    var lines := PrintSorted(ips);
    out := Run(lines, None);
  }

  // ---------------------------------------------------------------- findip

  /** The record's source or destination address, as str() prints it, is one of the targets. */
  predicate Involves(r: FlowRecord, targets: set<string>, lib: IpLibrary)
  {
    lib.show(r.srcIp) in targets || lib.show(r.destIp) in targets
  }

  /** The records involving a target, in input order. */
  function Matching(rs: seq<FlowRecord>, targets: set<string>, lib: IpLibrary): seq<FlowRecord>
  {
    if rs == [] then []
    else
      var prev := Matching(rs[..|rs| - 1], targets, lib);
      if Involves(rs[|rs| - 1], targets, lib) then prev + [rs[|rs| - 1]] else prev
  }

  /** Exactly the records involving a target are kept, and none is kept twice over. */
  lemma {:induction false} MatchingSpec(rs: seq<FlowRecord>, targets: set<string>, lib: IpLibrary)
    ensures forall r :: r in Matching(rs, targets, lib) <==> r in rs && Involves(r, targets, lib)
    ensures |Matching(rs, targets, lib)| <= |rs|
    ensures (forall r :: r in rs ==> Involves(r, targets, lib)) ==> Matching(rs, targets, lib) == rs
    decreases |rs|
  {
    if rs != [] {
      var n := |rs| - 1;
      MatchingSpec(rs[..n], targets, lib);
      assert rs == rs[..n] + [rs[n]];
      if forall r :: r in rs ==> Involves(r, targets, lib) {
        assert forall r :: r in rs[..n] ==> r in rs;
      }
    }
  }

  /** action_findip: the header, then the records involving one of the arguments, then whatever ended the reader. */
  function FindIpRun(s: Stream, args: seq<string>, lib: IpLibrary): Run
  {
    Run([HeaderRow] + RecordRows(Matching(s.records, (set a | a in args), lib)), Raised(s))
  }

  /** Printing one more record adds its row at the end. */
  lemma RecordRowsSnoc(rs: seq<FlowRecord>, r: FlowRecord)
    ensures RecordRows(rs + [r]) == RecordRows(rs) + [RecordRow(FromRecord(r))]
  {
  }

  /** action_findip: a loop printing each record that involves a target. */
  method ActionFindIp(s: Stream, args: seq<string>, lib: IpLibrary) returns (out: Run)
    ensures out == FindIpRun(s, args, lib)
  {
    var targets := set a | a in args;
    var lines := [HeaderRow];
    for i := 0 to |s.records|
      invariant lines == [HeaderRow] + RecordRows(Matching(s.records[..i], targets, lib))
    {
      var r := s.records[i];
      assert s.records[..i + 1][..i] == s.records[..i];
      if lib.show(r.srcIp) in targets || lib.show(r.destIp) in targets {
        RecordRowsSnoc(Matching(s.records[..i], targets, lib), r);
        lines := lines + [RecordRow(FromRecord(r))];
      }
    }
    assert s.records[..|s.records|] == s.records;
    out := Run(lines, Raised(s));
  }

  // ---------------------------------------------------------------- aggregate

  /** Where print_record finds each header column in a default StatRecord row. */
  const ROW_COLUMNS: seq<nat> := [0, 1, 2, 3, 4, 7, 8, 6, 5]

  /** Looking the header's names up among StatRecord's fields gives ROW_COLUMNS. */
  lemma RowColumnsByName()
    ensures |StatFieldNames(KEY_FIELDS)| == 9
    ensures forall i :: 0 <= i < 9 ==> ROW_COLUMNS[i] < 9 && StatFieldNames(KEY_FIELDS)[ROW_COLUMNS[i]] == HEADER_FIELDS[i]
  {
    assert StatFieldNames(KEY_FIELDS) == ["src_ip", "dest_ip", "src_port", "dest_port", "protocol",
                                          "packets_sent", "bytes_sent", "start_time", "end_time"];
  }

  /** The default key fields and VALUE_FIELDS are distinct, so namedtuple() accepts them. */
  lemma KeyFieldsAccepted()
    ensures !HasDuplicates(StatFieldNames(KEY_FIELDS))
  {
    var names := StatFieldNames(KEY_FIELDS);
    assert names == ["src_ip", "dest_ip", "src_port", "dest_port", "protocol",
                     "packets_sent", "bytes_sent", "start_time", "end_time"];
  }

  /** The attributes print_record reads from a default StatRecord row, when they have the right kinds. */
  function FromRow(row: seq<Value>): (f: Option<LineFields>)
    ensures f.Some? ==> |row| == 9 && forall i :: 0 <= i < 9 ==> LineValue(f.value, i) == row[ROW_COLUMNS[i]]
  {
    if |row| == 9 && row[0].VIp? && row[1].VIp? && row[2].VInt? && row[3].VInt? && row[4].VInt? &&
       row[5].VInt? && row[6].VInt? && row[7].VTime? && row[8].VTime?
    then Some(LineFields(row[0].ip, row[1].ip, row[2].i, row[3].i, row[4].i, row[7].t, row[8].t, row[6].i, row[5].i))
    else None
  }

  /** A row keyed by a record's own 5-tuple has the kinds print_record needs. */
  lemma DefaultRowPrintable(r: FlowRecord, st: Stats)
    ensures FromRow(MakeRow(KeyOf(r, KEY_FIELDS), st)).Some?
  {
    var key := KeyOf(r, KEY_FIELDS);
    assert key[0].VIp? && key[1].VIp? && key[2].VInt? && key[3].VInt? && key[4].VInt?;
  }

  /** Every row aggregated over the default key fields can be printed. */
  lemma AggregateRowsPrintable(rs: seq<FlowRecord>)
    ensures Aggregate(rs, KEY_FIELDS).Success?
    ensures forall row :: row in Aggregate(rs, KEY_FIELDS).value ==> FromRow(row).Some?
  {
    KeyFieldsAccepted();
    var rows := Aggregate(rs, KEY_FIELDS).value;
    var keys := FirstKeys(rs, KEY_FIELDS);
    FirstKeysSpec(rs, KEY_FIELDS);
    forall row | row in rows
      ensures FromRow(row).Some?
    {
      var i :| 0 <= i < |rows| && rows[i] == row;
      assert keys[i] in keys;
      var w :| 0 <= w < |rs| && KeyOf(rs[w], KEY_FIELDS) == keys[i];
      assert row == MakeRow(KeyOf(rs[w], KEY_FIELDS), Fold(Members(rs, KEY_FIELDS, keys[i])));
      DefaultRowPrintable(rs[w], Fold(Members(rs, KEY_FIELDS, keys[i])));
    }
  }

  /** One print_record call per aggregated row. */
  function StatRows(rows: seq<seq<Value>>): (printed: seq<Printed>)
    requires forall row :: row in rows ==> FromRow(row).Some?
    ensures |printed| == |rows|
  {
    seq(|rows|, i requires 0 <= i < |rows| => RecordRow(FromRow(rows[i]).value))
  }

  /**
   * action_aggregate: the header, then (the reader being consumed in full
   * before the first row) either the exception that ended the reader or one
   * line per 5-tuple.
   */
  function AggregateRun(s: Stream): Run
  {
    if s.failure.Some? then Run([HeaderRow], Raised(s))
    else
      AggregateRowsPrintable(s.records);
      Run([HeaderRow] + StatRows(Aggregate(s.records, KEY_FIELDS).value), None)
  }

  /** The line printed for the i-th distinct 5-tuple. */
  lemma AggregateLine(s: Stream, i: nat)
    requires s.failure.None? && i < |FirstKeys(s.records, KEY_FIELDS)|
    ensures |AggregateRun(s).lines| == |FirstKeys(s.records, KEY_FIELDS)| + 1
    ensures var key := FirstKeys(s.records, KEY_FIELDS)[i];
      var members := Members(s.records, KEY_FIELDS, key);
      var line := AggregateRun(s).lines[i + 1];
      && line.RecordRow?
      && key == [VIp(line.f.srcIp), VIp(line.f.destIp), VInt(line.f.srcPort), VInt(line.f.destPort), VInt(line.f.protocol)]
      && line.f.packetsSent == PacketTotal(members)
      && line.f.bytesSent == ByteTotal(members)
      && line.f.startTime == Fold(members).startTime
      && line.f.endTime == Fold(members).endTime
  {
    AggregateRowsPrintable(s.records);
    var keys := FirstKeys(s.records, KEY_FIELDS);
    var rows := Aggregate(s.records, KEY_FIELDS).value;
    RowKeys(s.records, KEY_FIELDS);
    assert rows[i] in rows;
    var members := Members(s.records, KEY_FIELDS, keys[i]);
    assert rows[i] == MakeRow(keys[i], Fold(members));
    assert AggregateRun(s).lines[i + 1] == RecordRow(FromRow(rows[i]).value);
    FoldSpec(members);
  }

  /** One more printed row extends the printed lines by that row's line. */
  lemma StatRowsStep(rows: seq<seq<Value>>, i: nat)
    requires forall row :: row in rows ==> FromRow(row).Some?
    requires i < |rows|
    ensures forall row :: row in rows[..i] ==> FromRow(row).Some?
    ensures forall row :: row in rows[..i + 1] ==> FromRow(row).Some?
    ensures StatRows(rows[..i + 1]) == StatRows(rows[..i]) + [RecordRow(FromRow(rows[i]).value)]
  {
    assert forall row :: row in rows[..i + 1] ==> row in rows;
    assert forall row :: row in rows[..i] ==> row in rows;
  }

  /** action_aggregate: the header, then a loop printing each aggregated row. */
  method ActionAggregate(s: Stream) returns (out: Run)
    ensures out == AggregateRun(s)
  {
    var lines := [HeaderRow];
    if s.failure.Some? {
      return Run(lines, Raised(s));
    }
    AggregateRowsPrintable(s.records);
    var result := AggregatedRecords(s.records, KEY_FIELDS);
    var rows := result.value;
    for i := 0 to |rows|
      invariant lines == [HeaderRow] + StatRows(rows[..i])
    {
      assert rows[i] in rows;
      StatRowsStep(rows, i);
      lines := lines + [RecordRow(FromRow(rows[i]).value)];
    }
    assert rows[..|rows|] == rows;
    out := Run(lines, None);
  }

  // ---------------------------------------------------------------- the command line

  /** The separator the --filters option is split on, the same one the reader joins clauses with. */
  const AND := " AND "

  /** get_reader: a non-empty --filters string becomes the user filters; otherwise the reader's default applies. */
  function UserFilters(filters: Option<string>): (r: Option<seq<string>>)
    ensures r.Some? <==> filters.Some? && filters.value != ""
  {
    if filters.Some? && filters.value != "" then Some(Split(filters.value, AND)) else None
  }

  /** Splitting the option and joining the pieces again gives the option back, and no piece holds the separator. */
  lemma UserFiltersRoundTrip(text: string)
    requires text != ""
    ensures UserFilters(Some(text)).Some? && |UserFilters(Some(text)).value| >= 1
    ensures Join(UserFilters(Some(text)).value, AND) == text
    ensures forall k :: 0 <= k < |UserFilters(Some(text)).value| ==> !Contains(UserFilters(Some(text)).value[k], AND)
  {
    JoinSplit(text, AND);
    SplitPiecesFree(text, AND);
  }

  /** The reader's expression starts with the --filters text itself, followed by AND and the fixed clauses. */
  lemma UserFiltersExpression(text: string, logs: seq<string>, startTime: DateTime, endTime: DateTime)
    requires text != ""
    requires Expression(UserFilters(Some(text)).value, logs, startTime, endTime).Success?
    ensures AddSeconds(startTime, -60).Some? && AddSeconds(endTime, 60).Some?
    ensures Expression(UserFilters(Some(text)).value, logs, startTime, endTime).value ==
      text + AND + Join(FixedClauses(logs, AddSeconds(startTime, -60).value, AddSeconds(endTime, 60).value, startTime, endTime), AND)
  {
    UserFiltersRoundTrip(text);
    ExpressionLayout(UserFilters(Some(text)).value, logs, startTime, endTime);
  }

  /** The actions, in the order they are registered. */
  const ACTIONS: seq<string> := ["print", "ipset", "findip", "aggregate"]

  /** The positional words after argparse: an empty list becomes the default ['print']. */
  function Command(words: seq<string>): (c: seq<string>)
    ensures |c| >= 1
    ensures words != [] ==> c == words
  {
    if words == [] then ["print"] else words
  }

  /** What main does: run the named action, or report an unknown one without building a reader. */
  datatype Outcome = UnknownAction(messages: seq<string>) | Ran(run: Run)

  /** The second stderr line for an unknown action. */
  function KnownActions(): string
  {
    "known actions: " + Join(ACTIONS, ", ")
  }

  lemma JoinLastTwo()
    ensures Join(ACTIONS[2..], ", ") == "findip, aggregate"
  {
    assert ACTIONS[2..][1..] == ["aggregate"];
  }

  lemma JoinLastThree()
    ensures Join(ACTIONS[1..], ", ") == "ipset, findip, aggregate"
  {
    assert ACTIONS[1..][1..] == ACTIONS[2..];
    JoinLastTwo();
  }

  lemma JoinActions()
    ensures Join(ACTIONS, ", ") == "print, ipset, findip, aggregate"
  {
    JoinLastThree();
    assert Join(ACTIONS, ", ") == "print" + ", " + Join(ACTIONS[1..], ", ");
  }

  /** The two halves of the known-actions message, joined. */
  lemma KnownActionsLiteral(head: string, list: string)
    requires head == "known actions: " && list == "print, ipset, findip, aggregate"
    ensures head + list == "known actions: print, ipset, findip, aggregate"
  {
  }

  lemma KnownActionsText()
    ensures KnownActions() == "known actions: print, ipset, findip, aggregate"
  {
    JoinActions();
    KnownActionsLiteral("known actions: ", "print, ipset, findip, aggregate");
  }

  /**
   * main, from the parsed positional words on: dispatch on the first word;
   * the remaining words are the action's arguments, and s is what the
   * reader get_reader builds will yield.
   */
  method Dispatch(words: seq<string>, s: Stream, lib: IpLibrary) returns (o: Outcome)
    ensures o.UnknownAction? <==> Command(words)[0] !in ACTIONS
    ensures o.UnknownAction? ==>
      o.messages == ["unknown action: " + Command(words)[0], "known actions: print, ipset, findip, aggregate"]
    ensures Command(words)[0] == "print" ==> o == Ran(PrintRun(s, Command(words)[1..]))
    ensures Command(words)[0] == "ipset" ==> o == Ran(IpsetRun(s))
    ensures Command(words)[0] == "findip" ==> o == Ran(FindIpRun(s, Command(words)[1..], lib))
    ensures Command(words)[0] == "aggregate" ==> o == Ran(AggregateRun(s))
  {
    var command := Command(words);
    var action := command[0];
    var args := command[1..];
    var run: Run;
    if action == "print" {
      run := ActionPrint(s, args);
    } else if action == "ipset" {
      run := ActionIpset(s);
    } else if action == "findip" {
      run := ActionFindIp(s, args, lib);
    } else if action == "aggregate" {
      run := ActionAggregate(s);
    } else {
      KnownActionsText();
      return UnknownAction(["unknown action: " + action, KnownActions()]);
    }
    o := Ran(run);
  }
}
