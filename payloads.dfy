/**
 * The JSON-like payload of a log entry, Python's conversions applied to its
 * values (`int(...)`, `ip_address(...)`, subscripting), and the exceptions
 * those conversions raise.
 */
module Payloads {
  import opened Wrappers
  import opened Text

  /** A decoded JSON value; numbers are integral (floats are not modelled). */
  datatype Json =
    | JNull
    | JBool(b: bool)
    | JNum(n: int)
    | JStr(s: string)
    | JArr(items: seq<Json>)
    | JObj(fields: map<string, Json>)

  /** The Python exceptions the normaliser can raise. */
  datatype PyError = KeyError(key: string) | TypeError | ValueError

  /** v[key]: KeyError on a mapping without the key, TypeError on anything that is not a mapping. */
  function Get(v: Json, key: string): (r: Result<Json, PyError>)
    ensures r.Success? <==> v.JObj? && key in v.fields
    ensures r.Success? ==> r.value == v.fields[key]
    ensures r.Failure? && v.JObj? ==> r.error == KeyError(key)
    ensures r.Failure? && !v.JObj? ==> r.error == TypeError
  {
    match v
    case JObj(fields) => if key in fields then Success(fields[key]) else Failure(KeyError(key))
    case _ => Failure(TypeError)
  }

  /** int(v): integers as they are, booleans as 0/1, decimal strings parsed; TypeError for null, lists and mappings. */
  function PyInt(v: Json): (r: Result<int, PyError>)
    ensures v.JNum? ==> r == Success(v.n)
    ensures v.JBool? ==> r == Success(if v.b then 1 else 0)
    ensures v.JStr? ==> (r.Success? <==> ParseInt(v.s).Some?)
    ensures v.JStr? && r.Success? ==> r.value == ParseInt(v.s).value
    ensures v.JStr? && r.Failure? ==> r.error == ValueError
    ensures (v.JNull? || v.JArr? || v.JObj?) ==> r == Failure(TypeError)
  {
    match v
    case JNum(n) => Success(n)
    case JBool(b) => Success(if b then 1 else 0)
    case JStr(s) =>
      (match ParseInt(s)
       case Some(i) => Success(i)
       case None => Failure(ValueError))
    case _ => Failure(TypeError)
  }

  /** int() of a decimal string recovers the integer that was written. */
  lemma PyIntOfString(i: int)
    ensures PyInt(JStr(IntToString(i))) == Success(i)
  {
    ParseIntToString(i);
  }

  /** ipaddress.IPv4Address / IPv6Address: the version and the address as an integer. */
  datatype IPAddress = IPv4(bits: nat) | IPv6(bits: nat)
  {
    predicate Valid()
    {
      match this
      case IPv4(b) => b < 0x1_0000_0000
      case IPv6(b) => b < 0x1_0000_0000_0000_0000_0000_0000_0000_0000
    }
  }

  /**
   * The textual side of the ipaddress library, which this model does not
   * re-implement: parsing an address literal and printing an address.
   */
  datatype IpLibrary = IpLibrary(parse: string -> Option<IPAddress>, show: IPAddress -> string)

  /** ip_address(n) for an integer: IPv4 below 2**32, IPv6 below 2**128, ValueError otherwise. */
  function IpFromInt(n: int): (r: Result<IPAddress, PyError>)
    ensures r.Success? <==> 0 <= n < 0x1_0000_0000_0000_0000_0000_0000_0000_0000
    ensures r.Success? ==> r.value.Valid() && r.value.bits == n
    ensures r.Success? ==> (r.value.IPv4? <==> n < 0x1_0000_0000)
    ensures r.Failure? ==> r.error == ValueError
  {
    if 0 <= n < 0x1_0000_0000 then Success(IPv4(n))
    else if 0 <= n < 0x1_0000_0000_0000_0000_0000_0000_0000_0000 then Success(IPv6(n))
    else Failure(ValueError)
  }

  /** ip_address(v) for a payload value: a string goes to the library's parser, an integer (or bool) to IpFromInt. */
  function IpFromJson(v: Json, lib: IpLibrary): (r: Result<IPAddress, PyError>)
    ensures v.JStr? ==> (r.Success? <==> lib.parse(v.s).Some?)
    ensures v.JStr? && r.Success? ==> r.value == lib.parse(v.s).value
    ensures v.JNum? ==> r == IpFromInt(v.n)
    ensures v.JBool? ==> r == IpFromInt(if v.b then 1 else 0)
    ensures (v.JNull? || v.JArr? || v.JObj?) ==> r == Failure(ValueError)
  {
    match v
    case JStr(s) =>
      (match lib.parse(s)
       case Some(ip) => Success(ip)
       case None => Failure(ValueError))
    case JNum(n) => IpFromInt(n)
    case JBool(b) => IpFromInt(if b then 1 else 0)
    case _ => Failure(ValueError)
  }
}
