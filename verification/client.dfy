/**
 * The KaRadio32 device client (custom_components/karadio32/karadio32.py).
 *
 * The radio speaks plain text over HTTP GET: every call carries exactly one
 * query parameter and the answer is a body of text. The HTTP session, its
 * timeout and the device behind it are one total function `respond` from the
 * query to an optional body (None when the request failed), and every query
 * the client sends is appended to the ghost `log`.
 */
module Karadio32Client {
  import opened Wrappers
  import opened Builtins

  /** The request the client sends: each is one GET with a single query parameter. */
  datatype Query =
    | VersionQuery
    | InfosQuery
    | ListQuery(index: int)
    | StartQuery
    | StopQuery
    | PlayQuery(stationId: int)
    | VolumeQuery(level: int)

  /** The query parameter a request carries on the wire, as name and value. */
  function Param(q: Query): (string, string)
  {
    match q
    case VersionQuery => ("version", "")
    case InfosQuery => ("infos", "")
    case ListQuery(i) => ("list", IntToString(i))
    case StartQuery => ("start", "")
    case StopQuery => ("stop", "")
    case PlayQuery(n) => ("play", IntToString(n))
    case VolumeQuery(n) => ("volume", IntToString(n))
  }

  /** Session plus device: the body returned for a query, or None when the request failed. */
  type Transport = Query -> Option<string>

  /** The exceptions the client lets escape. */
  datatype Error =
    | Unreachable              // setup_check re-raises the transport's failure
    | NoResponse               // .strip() called on the None a failed request returned
    | MalformedLine(line: string)  // an infos line without ':' cannot be unpacked into key and value

  /** source_list asks for at most this many stations: range(254). */
  const StationLimit: nat := 254

  // ---------------------------------------------------------------------------
  // set_volume: clamping and scaling

  function Abs(x: real): real
  {
    if x < 0.0 then -x else x
  }

  function Distance(x: real, y: real): real
  {
    Abs(x - y)
  }

  /** max(0, min(volume, 1)): the point of [0, 1] nearest to volume. */
  function Clamp(volume: real): (level: real)
    ensures 0.0 <= level <= 1.0
    ensures 0.0 <= volume <= 1.0 ==> level == volume
    ensures forall x: real | 0.0 <= x <= 1.0 :: Distance(level, volume) <= Distance(x, volume)
  {
    if volume > 1.0 then 1.0 else if volume < 0.0 then 0.0 else volume
  }

  /** The integer "{:.0f}" prints for x: the nearest one, an exact half going to the even neighbour. */
  function RoundHalfEven(x: real): (n: int)
    ensures Abs(n as real - x) <= 0.5
    ensures Abs(n as real - x) == 0.5 ==> n % 2 == 0
  {
    var f := x.Floor;
    var fraction := x - f as real;
    if fraction < 0.5 then f
    else if fraction > 0.5 then f + 1
    else if f % 2 == 0 then f
    else f + 1
  }

  /** The device's native volume that set_volume sends for a requested level. */
  function VolumeLevel(volume: real): (n: int)
    ensures 0 <= n <= 255
    ensures Abs(n as real - 255.0 * Clamp(volume)) <= 0.5
  {
    RoundHalfEven(255.0 * Clamp(volume))
  }

  // ---------------------------------------------------------------------------
  // info: parsing the infos answer

  /** The lines of an infos answer: newlines stripped from both ends, then split on '\n'. */
  function Lines(response: string): seq<string>
  {
    Split(Strip(response, {'\n'}), '\n')
  }

  /** line.split(":", 1) followed by strip() of both halves; None when the line has no ':'. */
  function LineEntry(line: string): Option<(string, string)>
  {
    match SplitOnce(line, ':')
    case None => None
    case Some((k, v)) => Some((Strip(k, Whitespace), Strip(v, Whitespace)))
  }

  /** Adds the entries of lines, in order, to acc; fails at the first line without ':'. */
  function ParseLines(lines: seq<string>, acc: map<string, string>): Result<map<string, string>, Error>
    decreases |lines|
  {
    if lines == [] then Success(acc)
    else match LineEntry(lines[0])
      case None => Failure(MalformedLine(lines[0]))
      case Some((k, v)) => ParseLines(lines[1..], acc[k := v])
  }

  /** One step of ParseLines at line i. */
  lemma ParseLinesStep(lines: seq<string>, i: nat, acc: map<string, string>)
    requires i < |lines|
    ensures LineEntry(lines[i]).None? ==> ParseLines(lines[i..], acc) == Failure(MalformedLine(lines[i]))
    ensures LineEntry(lines[i]).Some? ==>
      ParseLines(lines[i..], acc) == ParseLines(lines[i + 1..], acc[LineEntry(lines[i]).value.0 := LineEntry(lines[i]).value.1])
  {
    assert lines[i..][0] == lines[i] && lines[i..][1..] == lines[i + 1..];
  }

  /** The for loop of info(): fills a dictionary line by line, raising at the first line without ':'. */
  method CollectEntries(lines: seq<string>) returns (r: Result<map<string, string>, Error>)
    ensures r == ParseLines(lines, map[])
  {
    var result: map<string, string> := map[];
    for i := 0 to |lines|
      invariant ParseLines(lines, map[]) == ParseLines(lines[i..], result)
    {
      ParseLinesStep(lines, i, result);
      var parts := SplitOnce(lines[i], ':');
      if parts.None? {
        return Failure(MalformedLine(lines[i]));
      }
      var (k, v) := parts.value;
      result := result[Strip(k, Whitespace) := Strip(v, Whitespace)];
    }
    return Success(result);
  }

  /** The dictionary info() builds from an infos answer. */
  function ParseInfo(response: string): Result<map<string, string>, Error>
  {
    ParseLines(Lines(response), map[])
  }

  /** What info() returns for the transport's answer to the infos query. */
  function InfoResult(response: Option<string>): Result<map<string, string>, Error>
  {
    match response
    case None => Failure(NoResponse)
    case Some(text) => ParseInfo(text)
  }

  // ---------------------------------------------------------------------------
  // source_list: the station scan

  /** Station i answered the list query with a non-blank name. */
  predicate Named(respond: Transport, i: int)
  {
    respond(ListQuery(i)).Some? && Strip(respond(ListQuery(i)).value, Whitespace) != ""
  }

  /** The scan from index i on, with the names found so far in acc. */
  function Scan(respond: Transport, i: nat, acc: seq<string>): Result<seq<string>, Error>
    requires i <= StationLimit
    decreases StationLimit - i
  {
    if i == StationLimit then Success(acc)
    else match respond(ListQuery(i))
      case None => Failure(NoResponse)
      case Some(text) =>
        var name := Strip(text, Whitespace);
        if name == "" then Success(acc) else Scan(respond, i + 1, acc + [name])
  }

  /** The list queries the scan sends from index i on. */
  function ScanQueries(respond: Transport, i: nat): seq<Query>
    requires i <= StationLimit
    decreases StationLimit - i
  {
    if i == StationLimit then []
    else [ListQuery(i)] + if Named(respond, i) then ScanQueries(respond, i + 1) else []
  }

  /** One step of the scan at index i. */
  lemma ScanStep(respond: Transport, i: nat, acc: seq<string>)
    requires i < StationLimit
    ensures respond(ListQuery(i)).None? ==> Scan(respond, i, acc) == Failure(NoResponse)
    ensures respond(ListQuery(i)).Some? && !Named(respond, i) ==> Scan(respond, i, acc) == Success(acc)
    ensures Named(respond, i) ==>
      Scan(respond, i, acc) == Scan(respond, i + 1, acc + [Strip(respond(ListQuery(i)).value, Whitespace)])
  {
  }

  /** The queries from index i on: list=i, then the rest only when station i had a name. */
  lemma ScanQueriesStep(respond: Transport, i: nat, sent: seq<Query>)
    requires i < StationLimit
    ensures Named(respond, i) ==> sent + ScanQueries(respond, i) == (sent + [ListQuery(i)]) + ScanQueries(respond, i + 1)
    ensures !Named(respond, i) ==> sent + ScanQueries(respond, i) == sent + [ListQuery(i)]
  {
  }

  /** What source_list() returns. */
  function SourceListing(respond: Transport): Result<seq<string>, Error>
  {
    Scan(respond, 0, [])
  }

  // ---------------------------------------------------------------------------
  // The client

  /** Karadio32Api: the device's base URL and the transport that reaches it. */
  class Api {
    const host: string
    const respond: Transport
    /** Every query sent so far, oldest first. */
    ghost var log: seq<Query>

    /** __init__: the URL is kept without its trailing slashes. */
    constructor (host: string, session: Transport)
      ensures this.host == RStrip(host, {'/'})
      ensures respond == session
      ensures log == []
    {
      this.host := RStrip(host, {'/'});
      respond := session;
      log := [];
    }

    /** _request: one GET carrying q; None when it failed. */
    method Request(q: Query) returns (response: Option<string>)
      modifies this
      ensures response == respond(q)
      ensures log == old(log) + [q]
    {
      response := respond(q);
      log := log + [q];
    }

    /** setup_check: the version query, with the transport's failure raised to the caller. */
    method SetupCheck() returns (r: Outcome<Error>)
      modifies this
      ensures log == old(log) + [VersionQuery]
      ensures r == if respond(VersionQuery).None? then Fail(Unreachable) else Pass
    {
      var response := Request(VersionQuery);
      if response.None? {
        return Fail(Unreachable);
      }
      return Pass;
    }

    /** info: the infos answer as a dictionary of stripped keys and values. */
    method Info() returns (r: Result<map<string, string>, Error>)
      modifies this
      ensures log == old(log) + [InfosQuery]
      ensures r == InfoResult(respond(InfosQuery))
    {
      var response := Request(InfosQuery);
      if response.None? {
        return Failure(NoResponse);
      }
      r := CollectEntries(Lines(response.value));
    }

    /** _list: the name of station i. */
    method List(i: int) returns (response: Option<string>)
      modifies this
      ensures response == respond(ListQuery(i))
      ensures log == old(log) + [ListQuery(i)]
    {
      response := Request(ListQuery(i));
    }

    /** source_list: station names for i = 0, 1, ... up to the first blank answer, at most 254. */
    method SourceList() returns (r: Result<seq<string>, Error>)
      modifies this
      ensures r == SourceListing(respond)
      ensures log == old(log) + ScanQueries(respond, 0)
    {
      var result: seq<string> := [];
      for i := 0 to StationLimit
        invariant Scan(respond, 0, []) == Scan(respond, i, result)
        invariant old(log) + ScanQueries(respond, 0) == log + ScanQueries(respond, i)
      {
        ScanStep(respond, i, result);
        ScanQueriesStep(respond, i, log);
        var response := List(i);
        if response.None? {
          return Failure(NoResponse);
        }
        var c := Strip(response.value, Whitespace);
        if c != "" {
          result := result + [c];
        } else {
          break;
        }
      }
      return Success(result);
    }

    /** version: the stripped version answer. */
    method Version() returns (r: Result<string, Error>)
      modifies this
      ensures log == old(log) + [VersionQuery]
      ensures r == match respond(VersionQuery)
                   case None => Failure(NoResponse)
                   case Some(text) => Success(Strip(text, Whitespace))
    {
      var response := Request(VersionQuery);
      if response.None? {
        return Failure(NoResponse);
      }
      return Success(Strip(response.value, Whitespace));
    }

    /** start: fire and forget; a failed request is swallowed. */
    method Start()
      modifies this
      ensures log == old(log) + [StartQuery]
    {
      var _ := Request(StartQuery);
    }

    /** stop: fire and forget. */
    method Stop()
      modifies this
      ensures log == old(log) + [StopQuery]
    {
      var _ := Request(StopQuery);
    }

    /** play: fire and forget; the station id is not checked. */
    method Play(stationId: int)
      modifies this
      ensures log == old(log) + [PlayQuery(stationId)]
    {
      var _ := Request(PlayQuery(stationId));
    }

    /** set_volume: clamps to [0, 1], scales to 0..255 and sends the rounded level. */
    method SetVolume(volume: real)
      modifies this
      ensures log == old(log) + [VolumeQuery(VolumeLevel(volume))]
    {
      var level := Clamp(volume);
      var _ := Request(VolumeQuery(RoundHalfEven(255.0 * level)));
    }
  }
}
