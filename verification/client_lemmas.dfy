/**
 * What the client promises, proved about the specification functions of
 * Karadio32Client: the normalised host, the infos parser (failure, values,
 * round trip), the station scan, and the values the commands send.
 */
module Karadio32ClientProofs {
  import opened Wrappers
  import opened Builtins
  import opened Karadio32Client

  // ---------------------------------------------------------------------------
  // __init__: host normalisation

  /** The stored host is the URL up to its trailing slashes, and normalising it again changes nothing. */
  lemma HostNormalisation(url: string)
    ensures var host := RStrip(url, {'/'});
      && |host| <= |url| && host == url[..|host|]
      && (host == [] || host[|host| - 1] != '/')
      && (forall i | |host| <= i < |url| :: url[i] == '/')
      && RStrip(host, {'/'}) == host
  {
    RStripSpec(url, {'/'});
  }

  /** Trailing slashes do not matter: a URL with one more slash gives the same host. */
  lemma HostIgnoresTrailingSlash(url: string)
    ensures RStrip(url + "/", {'/'}) == RStrip(url, {'/'})
  {
    assert (url + "/")[..|url|] == url;
  }

  /** Any prefix of the URL that does not end in '/' and is followed only by '/' is the stored host. */
  lemma HostUnique(url: string, prefix: string)
    requires |prefix| <= |url| && prefix == url[..|prefix|]
    requires prefix == [] || prefix[|prefix| - 1] != '/'
    requires forall i | |prefix| <= i < |url| :: url[i] == '/'
    ensures RStrip(url, {'/'}) == prefix
  {
    RStripSpec(url, {'/'});
  }

  // ---------------------------------------------------------------------------
  // info: the dictionary as a sequence of assignments

  /** acc updated with every (key, value) of es, in order: a later key overwrites an earlier one. */
  function Assign(acc: map<string, string>, es: seq<(string, string)>): map<string, string>
    decreases |es|
  {
    if es == [] then acc else Assign(acc[es[0].0 := es[0].1], es[1..])
  }

  /** Every line has a ':'. */
  predicate WellFormed(lines: seq<string>)
  {
    forall i | 0 <= i < |lines| :: ':' in lines[i]
  }

  lemma WellFormedCons(lines: seq<string>)
    requires lines != []
    ensures WellFormed(lines) <==> ':' in lines[0] && WellFormed(lines[1..])
  {
    if ':' in lines[0] && WellFormed(lines[1..]) {
      forall i | 0 < i < |lines| ensures ':' in lines[i] {
        assert lines[i] == lines[1..][i - 1];
      }
    }
  }

  /** The stripped (key, value) of every line, in order. */
  function Entries(lines: seq<string>): (es: seq<(string, string)>)
    requires WellFormed(lines)
    ensures |es| == |lines|
    decreases |lines|
  {
    if lines == [] then []
    else
      WellFormedCons(lines);
      [LineEntry(lines[0]).value] + Entries(lines[1..])
  }

  /** Entry i is what line i reads as. */
  lemma {:induction false} EntryAt(lines: seq<string>, i: nat)
    requires WellFormed(lines) && i < |lines|
    ensures LineEntry(lines[i]) == Some(Entries(lines)[i])
    decreases i
  {
    WellFormedCons(lines);
    if i > 0 {
      EntryAt(lines[1..], i - 1);
      assert lines[1..][i - 1] == lines[i];
    }
  }

  /** The last assignment to a key decides its value. */
  lemma {:induction false} AssignLatest(acc: map<string, string>, es: seq<(string, string)>, i: nat)
    requires i < |es|
    requires forall j | i < j < |es| :: es[j].0 != es[i].0
    ensures es[i].0 in Assign(acc, es) && Assign(acc, es)[es[i].0] == es[i].1
    decreases |es|
  {
    if i == 0 {
      AssignUntouched(acc[es[0].0 := es[0].1], es[1..], es[0].0);
    } else {
      AssignLatest(acc[es[0].0 := es[0].1], es[1..], i - 1);
    }
  }

  /** A key no entry mentions keeps its place in acc. */
  lemma {:induction false} AssignUntouched(acc: map<string, string>, es: seq<(string, string)>, k: string)
    requires forall j | 0 <= j < |es| :: es[j].0 != k
    ensures k in Assign(acc, es) <==> k in acc
    ensures k in acc ==> Assign(acc, es)[k] == acc[k]
    decreases |es|
  {
    if es != [] {
      AssignUntouched(acc[es[0].0 := es[0].1], es[1..], k);
    }
  }

  /** The keys after the assignments: those of acc and those of the entries. */
  lemma {:induction false} AssignKeys(acc: map<string, string>, es: seq<(string, string)>)
    ensures Assign(acc, es).Keys == acc.Keys + set j | 0 <= j < |es| :: es[j].0
    decreases |es|
  {
    if es != [] {
      AssignKeys(acc[es[0].0 := es[0].1], es[1..]);
      var tail := set j | 0 <= j < |es[1..]| :: es[1..][j].0;
      var all := set j | 0 <= j < |es| :: es[j].0;
      assert all == {es[0].0} + tail by {
        forall k | k in all ensures k in {es[0].0} + tail {
          var j :| 0 <= j < |es| && es[j].0 == k;
          if j > 0 { assert es[1..][j - 1].0 == k; }
        }
        forall k | k in tail ensures k in all {
          var j :| 0 <= j < |es[1..]| && es[1..][j].0 == k;
          assert es[j + 1].0 == k;
        }
      }
    }
  }

  /** On well-formed lines the parser performs exactly the assignments of their entries. */
  lemma {:induction false} ParseLinesAssigns(lines: seq<string>, acc: map<string, string>)
    requires WellFormed(lines)
    ensures ParseLines(lines, acc) == Success(Assign(acc, Entries(lines)))
    decreases |lines|
  {
    if lines != [] {
      WellFormedCons(lines);
      var e := LineEntry(lines[0]).value;
      assert Entries(lines) == [e] + Entries(lines[1..]);
      assert Entries(lines)[1..] == Entries(lines[1..]);
      ParseLinesAssigns(lines[1..], acc[e.0 := e.1]);
    }
  }

  /** The parser fails exactly when some line has no ':', and then names the first such line. */
  lemma {:induction false} ParseLinesFailure(lines: seq<string>, acc: map<string, string>)
    ensures ParseLines(lines, acc).Success? <==> WellFormed(lines)
    ensures forall i | 0 <= i < |lines| && ':' !in lines[i] && WellFormed(lines[..i]) ::
      ParseLines(lines, acc) == Failure(MalformedLine(lines[i]))
    decreases |lines|
  {
    if lines != [] {
      WellFormedCons(lines);
      if ':' in lines[0] {
        var (k, v) := LineEntry(lines[0]).value;
        ParseLinesFailure(lines[1..], acc[k := v]);
        forall i | 0 <= i < |lines| && ':' !in lines[i] && WellFormed(lines[..i])
          ensures ParseLines(lines, acc) == Failure(MalformedLine(lines[i]))
        {
          WellFormedCons(lines[..i]);
          assert lines[..i][1..] == lines[1..][..i - 1];
          assert lines[1..][i - 1] == lines[i];
        }
      }
    }
  }

  /** info() fails with the first line that has no ':' when there is one, and succeeds otherwise. */
  lemma InfoFailure(response: string)
    ensures ParseInfo(response).Success? <==> WellFormed(Lines(response))
    ensures forall i | 0 <= i < |Lines(response)| && ':' !in Lines(response)[i] && WellFormed(Lines(response)[..i]) ::
      ParseInfo(response) == Failure(MalformedLine(Lines(response)[i]))
  {
    ParseLinesFailure(Lines(response), map[]);
  }

  /** An answer made only of newlines (the empty answer among them) gives the single line "", which fails. */
  lemma InfoOfBlankFails(response: string)
    requires forall i | 0 <= i < |response| :: response[i] == '\n'
    ensures Lines(response) == [""]
    ensures ParseInfo(response) == Failure(MalformedLine(""))
  {
    var l := LStrip(response, {'\n'});
    LStripSpec(response, {'\n'});
    assert l == [];
  }

  /** The keys of the dictionary are the stripped keys of the lines, and only those. */
  lemma InfoKeys(response: string)
    requires ParseInfo(response).Success?
    ensures WellFormed(Lines(response))
    ensures var es := Entries(Lines(response));
      ParseInfo(response).value.Keys == set j | 0 <= j < |es| :: es[j].0
  {
    var lines := Lines(response);
    ParseLinesFailure(lines, map[]);
    ParseLinesAssigns(lines, map[]);
    AssignKeys(map[], Entries(lines));
  }

  /** A key's value is the stripped value of the last line carrying that key. */
  lemma InfoValueOfLastLine(response: string, i: nat)
    requires ParseInfo(response).Success?
    requires i < |Lines(response)|
    ensures WellFormed(Lines(response))
    ensures var es := Entries(Lines(response));
      (forall j | i < j < |es| :: es[j].0 != es[i].0) ==>
        es[i].0 in ParseInfo(response).value && ParseInfo(response).value[es[i].0] == es[i].1
  {
    var lines := Lines(response);
    ParseLinesFailure(lines, map[]);
    ParseLinesAssigns(lines, map[]);
    var es := Entries(lines);
    if forall j | i < j < |es| :: es[j].0 != es[i].0 {
      AssignLatest(map[], es, i);
    }
  }

  /** A line is cut at its first ':' (so a value may contain ':') and both halves are stripped of whitespace. */
  lemma LineEntryCut(line: string)
    ensures IndexOf(line, ':').None? ==> LineEntry(line).None?
    ensures IndexOf(line, ':').Some? ==> var c := IndexOf(line, ':').value;
      LineEntry(line) == Some((Strip(line[..c], Whitespace), Strip(line[c + 1..], Whitespace)))
  {
    if ':' in line {
      var (k, v) := SplitOnce(line, ':').value;
      var c := IndexOf(line, ':').value;
      assert line[..|k|] == k && line[|k|] == ':' && line[|k| + 1..] == v;
      assert c == |k|;
    }
  }

  // ---------------------------------------------------------------------------
  // info: round trip

  /** A key the device may send: trimmed, without ':' or newline. */
  predicate KeyOk(k: string)
  {
    Strip(k, Whitespace) == k && ':' !in k && '\n' !in k
  }

  /** A value the device may send: trimmed, without newline. */
  predicate ValueOk(v: string)
  {
    Strip(v, Whitespace) == v && '\n' !in v
  }

  function FormatLine(e: (string, string)): string
  {
    e.0 + ": " + e.1
  }

  /** One "key: value" line per entry. */
  function FormatLines(es: seq<(string, string)>): (lines: seq<string>)
    ensures |lines| == |es|
    ensures forall i | 0 <= i < |es| :: lines[i] == FormatLine(es[i])
    decreases |es|
  {
    if es == [] then [] else [FormatLine(es[0])] + FormatLines(es[1..])
  }

  /** The entries as the device prints them: the lines joined by newlines. */
  function FormatInfo(es: seq<(string, string)>): string
    requires |es| >= 1
  {
    Join(FormatLines(es), '\n')
  }

  /** Splitting on sep undoes joining with sep when no part contains it. */
  lemma {:induction false} SplitJoin(parts: seq<string>, sep: char)
    requires |parts| >= 1
    requires forall i | 0 <= i < |parts| :: sep !in parts[i]
    ensures Split(Join(parts, sep), sep) == parts
    decreases |parts|
  {
    if |parts| == 1 {
      SplitWithout(parts[0], sep);
    } else {
      SplitJoin(parts[1..], sep);
      SplitAfter(parts[0], Join(parts[1..], sep), sep);
      assert [parts[0]] + parts[1..] == parts;
    }
  }

  /** A string without sep splits into itself. */
  lemma {:induction false} SplitWithout(s: string, sep: char)
    requires sep !in s
    ensures Split(s, sep) == [s]
    decreases |s|
  {
    if s != [] {
      SplitWithout(s[1..], sep);
      assert [s[0]] + s[1..] == s;
    }
  }

  /** Splitting p + sep + t, where p has no sep, gives p and then the pieces of t. */
  lemma {:induction false} SplitAfter(p: string, t: string, sep: char)
    requires sep !in p
    ensures Split(p + [sep] + t, sep) == [p] + Split(t, sep)
    decreases |p|
  {
    var s := p + [sep] + t;
    if p == [] {
      assert s[1..] == t;
    } else {
      assert s[1..] == p[1..] + [sep] + t;
      SplitAfter(p[1..], t, sep);
      assert [p[0]] + p[1..] == p;
    }
  }

  /** The first sep of a + sep + b is the one after a when a has none. */
  lemma {:induction false} SplitOnceAt(a: string, b: string, sep: char)
    requires sep !in a
    ensures SplitOnce(a + [sep] + b, sep) == Some((a, b))
    decreases |a|
  {
    var s := a + [sep] + b;
    if a == [] {
      assert s[1..] == b;
    } else {
      assert s[1..] == a[1..] + [sep] + b;
      SplitOnceAt(a[1..], b, sep);
      assert [a[0]] + a[1..] == a;
    }
  }

  /** strip() ignores a leading whitespace character. */
  lemma StripAfterSpace(v: string)
    ensures Strip(" " + v, Whitespace) == Strip(v, Whitespace)
  {
    assert (" " + v)[1..] == v;
  }

  /** A formatted line reads back as its entry. */
  lemma LineEntryOfFormat(e: (string, string))
    requires KeyOk(e.0) && ValueOk(e.1)
    ensures ':' in FormatLine(e) && '\n' !in FormatLine(e)
    ensures LineEntry(FormatLine(e)) == Some(e)
  {
    assert FormatLine(e) == e.0 + [':'] + (" " + e.1);
    assert FormatLine(e)[|e.0|] == ':';
    SplitOnceAt(e.0, " " + e.1, ':');
    StripAfterSpace(e.1);
  }

  /** A join starts with the first character of its first part. */
  lemma JoinFirst(parts: seq<string>, sep: char)
    requires |parts| >= 1 && parts[0] != []
    ensures Join(parts, sep) != []
    ensures Join(parts, sep)[0] == parts[0][0]
  {
  }

  /** A join ends with the last character of its last part. */
  lemma {:induction false} JoinLast(parts: seq<string>, sep: char)
    requires |parts| >= 1 && parts[|parts| - 1] != []
    ensures Join(parts, sep) != []
    ensures Join(parts, sep)[|Join(parts, sep)| - 1] == parts[|parts| - 1][|parts[|parts| - 1]| - 1]
    decreases |parts|
  {
    if |parts| > 1 {
      assert parts[1..][|parts| - 2] == parts[|parts| - 1];
      JoinLast(parts[1..], sep);
    }
  }

  /** Formatted text starts and ends with something other than a newline. */
  lemma FormatInfoUnstripped(es: seq<(string, string)>)
    requires |es| >= 1
    requires forall i | 0 <= i < |es| :: KeyOk(es[i].0) && ValueOk(es[i].1)
    ensures Strip(FormatInfo(es), {'\n'}) == FormatInfo(es)
  {
    var lines := FormatLines(es);
    var first := lines[0];
    var last := lines[|lines| - 1];
    LineEntryOfFormat(es[0]);
    LineEntryOfFormat(es[|es| - 1]);
    JoinFirst(lines, '\n');
    JoinLast(lines, '\n');
    assert first[0] in first;
    assert last[|last| - 1] in last;
    StripSpec(FormatInfo(es), {'\n'});
  }

  /** Parsing formatted lines performs their entries in order. */
  lemma {:induction false} ParseFormattedLines(es: seq<(string, string)>, acc: map<string, string>)
    requires forall i | 0 <= i < |es| :: KeyOk(es[i].0) && ValueOk(es[i].1)
    ensures ParseLines(FormatLines(es), acc) == Success(Assign(acc, es))
    decreases |es|
  {
    if es != [] {
      var lines := FormatLines(es);
      LineEntryOfFormat(es[0]);
      assert lines[1..] == FormatLines(es[1..]);
      ParseFormattedLines(es[1..], acc[es[0].0 := es[0].1]);
    }
  }

  /** Round trip: "key: value" lines parse back to the same assignments, a later key overwriting an earlier one. */
  lemma InfoRoundTrip(es: seq<(string, string)>)
    requires |es| >= 1
    requires forall i | 0 <= i < |es| :: KeyOk(es[i].0) && ValueOk(es[i].1)
    ensures ParseInfo(FormatInfo(es)) == Success(Assign(map[], es))
  {
    var lines := FormatLines(es);
    forall i | 0 <= i < |lines| ensures '\n' !in lines[i] {
      LineEntryOfFormat(es[i]);
    }
    FormatInfoUnstripped(es);
    SplitJoin(lines, '\n');
    assert Lines(FormatInfo(es)) == lines;
    ParseFormattedLines(es, map[]);
  }

  /** Assigning each entry of m once, in any order, to the empty dictionary rebuilds m. */
  lemma AssignEntries(m: map<string, string>, es: seq<(string, string)>)
    requires forall i | 0 <= i < |es| :: es[i].0 in m && es[i].1 == m[es[i].0]
    requires forall k | k in m :: exists i | 0 <= i < |es| :: es[i].0 == k
    requires forall i, j | 0 <= i < j < |es| :: es[i].0 != es[j].0
    ensures Assign(map[], es) == m
  {
    var r := Assign(map[], es);
    assert r.Keys == m.Keys by {
      AssignKeys(map[], es);
      forall k | k in m ensures k in r {
        var i :| 0 <= i < |es| && es[i].0 == k;
      }
    }
    forall k | k in m ensures r[k] == m[k] {
      var i :| 0 <= i < |es| && es[i].0 == k;
      AssignLatest(map[], es, i);
    }
  }

  /** Round trip for a dictionary: printing each of its entries once, in any order, parses back to it. */
  lemma InfoMapRoundTrip(m: map<string, string>, es: seq<(string, string)>)
    requires |es| >= 1
    requires forall i | 0 <= i < |es| :: es[i].0 in m && es[i].1 == m[es[i].0]
    requires forall k | k in m :: exists i | 0 <= i < |es| :: es[i].0 == k
    requires forall i, j | 0 <= i < j < |es| :: es[i].0 != es[j].0
    requires forall k | k in m :: KeyOk(k) && ValueOk(m[k])
    ensures ParseInfo(FormatInfo(es)) == Success(m)
  {
    InfoRoundTrip(es);
    AssignEntries(m, es);
  }

  // ---------------------------------------------------------------------------
  // source_list

  /** The name station k reported: its stripped answer, "" when the request failed. */
  function StationName(respond: Transport, k: int): string
  {
    match respond(ListQuery(k))
    case Some(text) => Strip(text, Whitespace)
    case None => ""
  }

  /** How many stations from index i on, before the limit, answer one after another with a name. */
  function NamedRun(respond: Transport, i: nat): (n: nat)
    requires i <= StationLimit
    ensures i + n <= StationLimit
    ensures forall k | i <= k < i + n :: Named(respond, k)
    ensures i + n < StationLimit ==> !Named(respond, i + n)
    decreases StationLimit - i
  {
    if i == StationLimit || !Named(respond, i) then 0 else 1 + NamedRun(respond, i + 1)
  }

  /** The names of count stations from index from on. */
  function StationNames(respond: Transport, from: int, count: nat): (names: seq<string>)
    ensures |names| == count
    ensures forall j | 0 <= j < count :: names[j] == StationName(respond, from + j)
    decreases count
  {
    if count == 0 then [] else [StationName(respond, from)] + StationNames(respond, from + 1, count - 1)
  }

  /** The queries list=from, list=from+1, ..., count of them. */
  function ListQueries(from: int, count: nat): (qs: seq<Query>)
    ensures |qs| == count
    ensures forall j | 0 <= j < count :: qs[j] == ListQuery(from + j)
    decreases count
  {
    if count == 0 then [] else [ListQuery(from)] + ListQueries(from + 1, count - 1)
  }

  /** What the scan from i should give: the names of the run, unless the request after the run failed. */
  function RunResult(respond: Transport, i: nat, acc: seq<string>): Result<seq<string>, Error>
    requires i <= StationLimit
  {
    var n := NamedRun(respond, i);
    if i + n < StationLimit && respond(ListQuery(i + n)).None? then Failure(NoResponse)
    else Success(acc + StationNames(respond, i, n))
  }

  /** How many list queries the scan from i should send: the run and the station that ended it. */
  function RunQueryCount(respond: Transport, i: nat): nat
    requires i <= StationLimit
  {
    var n := NamedRun(respond, i);
    if i + n < StationLimit then n + 1 else n
  }

  /** At a named station the scan and RunResult both move on to the next station. */
  lemma ScanRunStep(respond: Transport, i: nat, acc: seq<string>)
    requires i < StationLimit && Named(respond, i)
    requires Scan(respond, i + 1, acc + [StationName(respond, i)]) == RunResult(respond, i + 1, acc + [StationName(respond, i)])
    ensures Scan(respond, i, acc) == RunResult(respond, i, acc)
  {
    var n := NamedRun(respond, i + 1);
    assert acc + [StationName(respond, i)] + StationNames(respond, i + 1, n) == acc + StationNames(respond, i, n + 1);
  }

  /** The scan from i gives RunResult. */
  lemma {:induction false} ScanRun(respond: Transport, i: nat, acc: seq<string>)
    requires i <= StationLimit
    ensures Scan(respond, i, acc) == RunResult(respond, i, acc)
    decreases StationLimit - i
  {
    if i < StationLimit && Named(respond, i) {
      ScanRun(respond, i + 1, acc + [StationName(respond, i)]);
      ScanRunStep(respond, i, acc);
    } else {
      assert acc + StationNames(respond, i, 0) == acc;
    }
  }

  /** At a named station the queries are list=i followed by those from i + 1. */
  lemma ScanQueriesRunStep(respond: Transport, i: nat)
    requires i < StationLimit && Named(respond, i)
    requires ScanQueries(respond, i + 1) == ListQueries(i + 1, RunQueryCount(respond, i + 1))
    ensures ScanQueries(respond, i) == ListQueries(i, RunQueryCount(respond, i))
  {
    assert RunQueryCount(respond, i) == RunQueryCount(respond, i + 1) + 1;
  }

  /** Where the run ends at once, the scan sends list=i alone, or nothing at the limit. */
  lemma ScanQueriesRunEnd(respond: Transport, i: nat)
    requires i <= StationLimit
    requires i == StationLimit || !Named(respond, i)
    ensures ScanQueries(respond, i) == ListQueries(i, RunQueryCount(respond, i))
  {
    assert NamedRun(respond, i) == 0;
    if i < StationLimit {
      assert ListQueries(i, 1) == [ListQuery(i)];
    }
  }

  /** The scan from i sends list=i, list=i+1, ...: the run of named stations and the station that ended it. */
  lemma {:induction false} ScanQueriesRun(respond: Transport, i: nat)
    requires i <= StationLimit
    ensures ScanQueries(respond, i) == ListQueries(i, RunQueryCount(respond, i))
    decreases StationLimit - i
  {
    if i < StationLimit && Named(respond, i) {
      ScanQueriesRun(respond, i + 1);
      ScanQueriesRunStep(respond, i);
    } else {
      ScanQueriesRunEnd(respond, i);
    }
  }

  /**
   * source_list returns the names of stations 0, 1, ... up to the first one without a name (at most
   * 254 of them), and raises instead when the request for that first station failed.
   */
  lemma SourceListNames(respond: Transport)
    ensures var n := NamedRun(respond, 0);
      SourceListing(respond) ==
        if n < StationLimit && respond(ListQuery(n)).None? then Failure(NoResponse)
        else Success(StationNames(respond, 0, n))
  {
    ScanRun(respond, 0, []);
    assert [] + StationNames(respond, 0, NamedRun(respond, 0)) == StationNames(respond, 0, NamedRun(respond, 0));
  }

  /** source_list sends list=0, list=1, ... in order: one more than the names found, 254 at most. */
  lemma SourceListQueries(respond: Transport)
    ensures var n := NamedRun(respond, 0);
      ScanQueries(respond, 0) == ListQueries(0, if n < StationLimit then n + 1 else n)
    ensures 1 <= |ScanQueries(respond, 0)| <= StationLimit
  {
    ScanQueriesRun(respond, 0);
  }

  /** Every name source_list returns is the stripped, non-empty answer of its own index; there are at most 254. */
  lemma SourceListEntries(respond: Transport)
    requires SourceListing(respond).Success?
    ensures var names := SourceListing(respond).value;
      && |names| <= StationLimit
      && forall j | 0 <= j < |names| ::
           names[j] != "" && respond(ListQuery(j)).Some? && names[j] == Strip(respond(ListQuery(j)).value, Whitespace)
  {
    SourceListNames(respond);
    var n := NamedRun(respond, 0);
    var names := SourceListing(respond).value;
    assert names == StationNames(respond, 0, n);
    forall j | 0 <= j < |names|
      ensures names[j] != "" && respond(ListQuery(j)).Some? && names[j] == Strip(respond(ListQuery(j)).value, Whitespace)
    {
      assert Named(respond, 0 + j);
      assert names[j] == StationName(respond, 0 + j);
    }
  }

  // ---------------------------------------------------------------------------
  // commands on the wire

  /**
   * A reader of query parameters, standing for the radio's side of the exchange.
   * The client has no such function; it serves here only to show that no two
   * requests send the same parameter.
   */
  function ReadParam(p: (string, string)): Option<Query>
  {
    match p.0
    case "version" => if p.1 == "" then Some(VersionQuery) else None
    case "infos" => if p.1 == "" then Some(InfosQuery) else None
    case "start" => if p.1 == "" then Some(StartQuery) else None
    case "stop" => if p.1 == "" then Some(StopQuery) else None
    case "list" => (match ParseInt(p.1) case Some(i) => Some(ListQuery(i)) case None => None)
    case "play" => (match ParseInt(p.1) case Some(n) => Some(PlayQuery(n)) case None => None)
    case "volume" => (match ParseInt(p.1) case Some(n) => Some(VolumeQuery(n)) case None => None)
    case _ => None
  }

  lemma ReadListParam(i: int)
    ensures ReadParam(("list", IntToString(i))) == Some(ListQuery(i))
  {
    ParseIntOfString(i);
  }

  lemma ReadPlayParam(n: int)
    ensures ReadParam(("play", IntToString(n))) == Some(PlayQuery(n))
  {
    ParseIntOfString(n);
  }

  lemma ReadVolumeParam(n: int)
    ensures ReadParam(("volume", IntToString(n))) == Some(VolumeQuery(n))
  {
    ParseIntOfString(n);
  }

  /** Every request's parameter reads back as that request, so distinct requests never look alike. */
  lemma ParamRoundTrip(q: Query)
    ensures ReadParam(Param(q)) == Some(q)
  {
    match q
    case ListQuery(i) => ReadListParam(i);
    case PlayQuery(n) => ReadPlayParam(n);
    case VolumeQuery(n) => ReadVolumeParam(n);
    case _ =>
  }

  /** Distinct requests send distinct parameters. */
  lemma ParamInjective(q1: Query, q2: Query)
    ensures Param(q1) == Param(q2) ==> q1 == q2
  {
    ParamRoundTrip(q1);
    ParamRoundTrip(q2);
  }

  /** set_volume's parameter is "volume" with an integer in 0..255 within 1/2 of 255 times the clamped level. */
  lemma VolumeParamSent(volume: real)
    ensures Param(VolumeQuery(VolumeLevel(volume))).0 == "volume"
    ensures var sent := ParseInt(Param(VolumeQuery(VolumeLevel(volume))).1);
      && sent.Some?
      && 0 <= sent.value <= 255
      && Abs(sent.value as real - 255.0 * Clamp(volume)) <= 0.5
  {
    ParseIntOfString(VolumeLevel(volume));
  }
}
