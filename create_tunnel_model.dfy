/**
 * The tunnel-creation dialog's state: the launcher's nodes that accept new
 * tunnels, and the list of local listening sockets built from the lines that
 * `netstat -ano` prints, with a per-reload cache of process names by PID.
 */
module CreateTunnel {
  import opened Wrappers
  import opened Proto
  import opened Launcher

  /** Process name recorded for a PID whose process cannot be looked up. */
  const AccessDenied := "[拒绝访问]"

  // ---- Splitting a line on whitespace, dropping empty entries ----

  /** The characters .NET treats as whitespace when a string is split with no separators. */
  predicate IsWhiteSpace(c: char) {
    || ('\t' <= c <= '\r') || c == ' ' || c == '\U{85}' || c == '\U{A0}' || c == '\U{1680}'
    || ('\U{2000}' <= c <= '\U{200A}') || c == '\U{2028}' || c == '\U{2029}'
    || c == '\U{202F}' || c == '\U{205F}' || c == '\U{3000}'
  }

  /** A token: non-empty and free of whitespace. */
  predicate Solid(t: string) {
    t != [] && forall i :: 0 <= i < |t| ==> !IsWhiteSpace(t[i])
  }

  /** Length of the run of non-whitespace characters at the start of `s`. */
  function WordLength(s: string): (n: nat)
    requires s != [] && !IsWhiteSpace(s[0])
    ensures 1 <= n <= |s|
    ensures forall i :: 0 <= i < n ==> !IsWhiteSpace(s[i])
    ensures n < |s| ==> IsWhiteSpace(s[n])
    decreases |s|
  {
    if |s| == 1 || IsWhiteSpace(s[1]) then 1 else 1 + WordLength(s[1..])
  }

  /** The whitespace-separated tokens of `s`, with empty entries removed. */
  function Tokens(s: string): (r: seq<string>)
    ensures forall k :: 0 <= k < |r| ==> Solid(r[k])
    decreases |s|
  {
    if s == [] then []
    else if IsWhiteSpace(s[0]) then Tokens(s[1..])
    else
      var n := WordLength(s);
      [s[..n]] + Tokens(s[n..])
  }

  function Concat(ts: seq<string>): string {
    if ts == [] then [] else ts[0] + Concat(ts[1..])
  }

  /** `s` with every whitespace character removed. */
  function NonWhite(s: string): string {
    if s == [] then [] else (if IsWhiteSpace(s[0]) then [] else [s[0]]) + NonWhite(s[1..])
  }

  lemma {:induction false} NonWhitePrefix(s: string, n: nat)
    requires n <= |s|
    requires forall i :: 0 <= i < n ==> !IsWhiteSpace(s[i])
    ensures NonWhite(s) == s[..n] + NonWhite(s[n..])
  {
    if n > 0 {
      NonWhitePrefix(s[1..], n - 1);
      assert s[1..][..n - 1] == s[1..n];
      assert s[1..][n - 1..] == s[n..];
      assert s[..n] == [s[0]] + s[1..n];
    }
  }

  /** Tokenising loses no visible character: the tokens spell out the line without its whitespace. */
  lemma {:induction false} TokensKeepVisibleText(s: string)
    ensures Concat(Tokens(s)) == NonWhite(s)
    decreases |s|
  {
    if s == [] {
    } else if IsWhiteSpace(s[0]) {
      TokensKeepVisibleText(s[1..]);
    } else {
      var n := WordLength(s);
      TokensKeepVisibleText(s[n..]);
      NonWhitePrefix(s, n);
      assert Tokens(s) == [s[..n]] + Tokens(s[n..]);
      assert ([s[..n]] + Tokens(s[n..]))[1..] == Tokens(s[n..]);
    }
  }

  /** A whitespace-free word is one token: tokens are never cut short. */
  lemma SolidIsOneToken(t: string)
    requires Solid(t)
    ensures Tokens(t) == [t]
  {
    var n := WordLength(t);
    assert n == |t|;
    assert t[..n] == t && t[n..] == [];
  }

  /** The length of the first word is determined by its characters and the separator after it. */
  lemma WordLengthIsTheWord(s: string, m: nat)
    requires s != [] && !IsWhiteSpace(s[0])
    requires m <= |s| && forall i :: 0 <= i < m ==> !IsWhiteSpace(s[i])
    requires 0 < m && (m < |s| ==> IsWhiteSpace(s[m]))
    ensures WordLength(s) == m
  {
  }

  /** A whitespace character separates the tokens on its two sides. */
  lemma {:induction false} TokensSeparate(a: string, c: char, b: string)
    requires IsWhiteSpace(c)
    ensures Tokens(a + [c] + b) == Tokens(a) + Tokens(b)
    decreases |a|
  {
    var s := a + [c] + b;
    if a == [] {
      assert s[1..] == b;
    } else if IsWhiteSpace(a[0]) {
      assert s[1..] == a[1..] + [c] + b;
      TokensSeparate(a[1..], c, b);
    } else {
      var m := WordLength(a);
      assert m < |s| ==> IsWhiteSpace(s[m]) by {
        if m < |a| { assert s[m] == a[m]; } else { assert s[m] == c; }
      }
      WordLengthIsTheWord(s, m);
      assert s[..m] == a[..m];
      assert s[m..] == a[m..] + [c] + b;
      TokensSeparate(a[m..], c, b);
    }
  }

  // ---- Splitting a local address on ':' ----

  /** The ':'-separated segments of `s`, empty segments included, as `string.Split(':')` returns them. */
  function SplitOn(s: string, sep: char): (r: seq<string>)
    ensures |r| >= 1
    ensures forall k :: 0 <= k < |r| ==> sep !in r[k]
    decreases |s|
  {
    if s == [] then [[]]
    else
      var rest := SplitOn(s[1..], sep);
      if s[0] == sep then [[]] + rest
      else [[s[0]] + rest[0]] + rest[1..]
  }

  function JoinWith(parts: seq<string>, sep: char): string
    requires |parts| >= 1
  {
    if |parts| == 1 then parts[0] else parts[0] + [sep] + JoinWith(parts[1..], sep)
  }

  /** Joining the segments with the separator gives back the string. */
  lemma {:induction false} SplitThenJoin(s: string, sep: char)
    ensures JoinWith(SplitOn(s, sep), sep) == s
    decreases |s|
  {
    if s != [] {
      var rest := SplitOn(s[1..], sep);
      SplitThenJoin(s[1..], sep);
      if s[0] != sep && |rest| > 1 {
        assert ([[s[0]] + rest[0]] + rest[1..])[1..] == rest[1..];
      }
    }
  }

  /** Prepending a separator-free segment and a separator prepends that segment. */
  lemma {:induction false} SplitAfterSegment(p: string, sep: char, x: string)
    requires sep !in p
    ensures SplitOn(p + [sep] + x, sep) == [p] + SplitOn(x, sep)
    decreases |p|
  {
    var s := p + [sep] + x;
    if p == [] {
      assert s[1..] == x;
    } else {
      assert s[1..] == p[1..] + [sep] + x;
      SplitAfterSegment(p[1..], sep, x);
      assert [p[0]] + p[1..] == p;
    }
  }

  lemma {:induction false} SplitSegment(p: string, sep: char)
    requires sep !in p
    ensures SplitOn(p, sep) == [p]
    decreases |p|
  {
    if p != [] {
      SplitSegment(p[1..], sep);
      assert [p[0]] + p[1..] == p;
    }
  }

  /** Splitting a join of separator-free segments gives back the segments. */
  lemma {:induction false} JoinThenSplit(parts: seq<string>, sep: char)
    requires |parts| >= 1
    requires forall k :: 0 <= k < |parts| ==> sep !in parts[k]
    ensures SplitOn(JoinWith(parts, sep), sep) == parts
    decreases |parts|
  {
    if |parts| == 1 {
      SplitSegment(parts[0], sep);
    } else {
      JoinThenSplit(parts[1..], sep);
      SplitAfterSegment(parts[0], sep, JoinWith(parts[1..], sep));
    }
  }

  /** There is a second segment exactly when the string holds the separator. */
  lemma SecondSegmentIffSeparator(s: string, sep: char)
    ensures |SplitOn(s, sep)| >= 2 <==> sep in s
  {
    var r := SplitOn(s, sep);
    SplitThenJoin(s, sep);
    if |r| >= 2 {
      assert s == r[0] + [sep] + JoinWith(r[1..], sep);
      assert s[|r[0]|] == sep;
    }
  }

  datatype Endpoint = Endpoint(address: string, port: string)

  /**
   * Address and port of a local address token: its first and second
   * ':'-segments. None stands for the index-out-of-range failure when the
   * token has no ':'.
   */
  function ParseEndpoint(local: string): (r: Option<Endpoint>)
    ensures r.Some? <==> ':' in local
    ensures r.Some? ==> ':' !in r.value.address && ':' !in r.value.port
    ensures r.Some? ==>
              var n := |r.value.address| + 1 + |r.value.port|;
              n <= |local| && local[..n] == r.value.address + [':'] + r.value.port
              && (n == |local| || local[n] == ':')
  {
    var parts := SplitOn(local, ':');
    SecondSegmentIffSeparator(local, ':');
    if |parts| < 2 then None
    else
      SplitThenJoin(local, ':');
      var n := |parts[0]| + 1 + |parts[1]|;
      assert |parts| > 2 ==> local == parts[0] + [':'] + parts[1] + [':'] + JoinWith(parts[2..], ':');
      assert local[..n] == parts[0] + [':'] + parts[1];
      Some(Endpoint(parts[0], parts[1]))
  }

  // ---- Classifying one netstat line ----

  /** A listening socket recognised on a netstat line. */
  datatype Socket = Socket(protocol: string, local: string, pid: string)

  /**
   * Keeps listening TCP sockets and wildcard UDP sockets on IPv4 addresses;
   * rejects short lines, other protocols and bracketed (IPv6) addresses.
   */
  function Classify(tokens: seq<string>): (r: Option<Socket>)
    requires forall k :: 0 <= k < |tokens| ==> tokens[k] != []
    ensures r.Some? <==>
              && |tokens| >= 3 && tokens[1][0] != '['
              && ((tokens[0] == "UDP" && |tokens| >= 4 && tokens[2] == "*:*")
                  || (tokens[0] == "TCP" && |tokens| >= 5 && tokens[3] == "LISTENING"))
    ensures r.Some? ==> r.value.protocol == tokens[0] && r.value.local == tokens[1]
    ensures r.Some? && tokens[0] == "UDP" ==> r.value.pid == tokens[3]
    ensures r.Some? && tokens[0] == "TCP" ==> r.value.pid == tokens[4]
  {
    if |tokens| < 3 || (tokens[0] != "TCP" && tokens[0] != "UDP") || tokens[1][0] == '[' then None
    else if tokens[0] == "UDP" then
      if |tokens| < 4 || tokens[2] != "*:*" then None else Some(Socket(tokens[0], tokens[1], tokens[3]))
    else
      if |tokens| < 5 || tokens[3] != "LISTENING" then None else Some(Socket(tokens[0], tokens[1], tokens[4]))
  }

  function ClassifyLine(line: string): Option<Socket> {
    Classify(Tokens(line))
  }

  /** One row of the listening-socket list. */
  datatype LocalProcess = LocalProcess(protocol: string, address: string, port: string, pid: string, processName: string)

  /**
   * The process-name cache after a line names `pid`: an unknown PID is looked
   * up once (AccessDenied when the lookup fails); a known PID is not looked up
   * and no existing entry changes.
   */
  function Remember(names: map<string, string>, pid: string, lookup: string -> Option<string>): (r: map<string, string>)
    ensures r.Keys == names.Keys + {pid}
    ensures forall k :: k in names ==> r[k] == names[k]
    ensures pid in names ==> r == names
    ensures pid !in names ==> r[pid] == lookup(pid).GetOr(AccessDenied)
  {
    if pid in names then names else names[pid := lookup(pid).GetOr(AccessDenied)]
  }

  // ---- The node filter ----

  /** The nodes that accept new tunnels, in their original order. */
  function AcceptingNodes(nodes: seq<Node>): (r: seq<Node>)
    ensures |r| <= |nodes|
    ensures forall n :: n in r <==> n in nodes && n.acceptNew
  {
    if nodes == [] then []
    else (if nodes[0].acceptNew then [nodes[0]] else []) + AcceptingNodes(nodes[1..])
  }

  /** Filtering commutes with concatenation, so the order of the nodes is kept. */
  lemma {:induction false} AcceptingNodesOfConcat(a: seq<Node>, b: seq<Node>)
    ensures AcceptingNodes(a + b) == AcceptingNodes(a) + AcceptingNodes(b)
    decreases |a|
  {
    if a != [] {
      assert (a + b)[1..] == a[1..] + b;
      AcceptingNodesOfConcat(a[1..], b);
    } else {
      assert a + b == b;
    }
  }

  /** When every node accepts new tunnels, the filter keeps all of them. */
  lemma {:induction false} AcceptingNodesKeepsAll(nodes: seq<Node>)
    requires forall k :: 0 <= k < |nodes| ==> nodes[k].acceptNew
    ensures AcceptingNodes(nodes) == nodes
    decreases |nodes|
  {
    if nodes != [] {
      AcceptingNodesKeepsAll(nodes[1..]);
    }
  }

  /** Outcome of one line of netstat output. */
  datatype LineOutcome = Skipped | Listed | PortMissing

  class CreateTunnelModel {
    const launcher: LauncherModel
    var nodes: seq<Node>
    var loading: bool
    var listening: seq<LocalProcess>
    var processNames: map<string, string>

    constructor (launcher: LauncherModel)
      ensures this.launcher == launcher && nodes == AcceptingNodes(launcher.nodes)
      ensures !loading && listening == [] && processNames == map[]
    {
      this.launcher := launcher;
      nodes := AcceptingNodes(launcher.nodes);
      loading := false;
      listening := [];
      processNames := map[];
    }

    /** Re-filters the launcher's nodes whenever that collection changes. */
    method LauncherNodesChanged()
      modifies this`nodes
      ensures nodes == AcceptingNodes(launcher.nodes)
    {
      nodes := AcceptingNodes(launcher.nodes);
    }

    /**
     * Starts a reload unless one is already running: raises Loading, empties
     * the list and starts a fresh process-name cache. Running netstat is not
     * modelled; its lines arrive through OnOutputData.
     */
    method ReloadListening() returns (started: bool)
      modifies this`loading, this`listening, this`processNames
      ensures started == !old(loading) && loading
      ensures started ==> listening == [] && processNames == map[]
      ensures !started ==> listening == old(listening) && processNames == old(processNames)
    {
      if loading {
        return false;
      }
      loading := true;
      listening := [];
      processNames := map[];
      started := true;
    }

    /**
     * Handles one line of netstat output (None at end of output). `lookup`
     * stands for parsing the PID and asking the system for the process name.
     */
    method OnOutputData(data: Option<string>, lookup: string -> Option<string>) returns (outcome: LineOutcome)
      modifies this`listening, this`processNames
      ensures data.None? || ClassifyLine(data.value).None? ==>
                outcome == Skipped && listening == old(listening) && processNames == old(processNames)
      ensures data.Some? && ClassifyLine(data.value).Some? ==>
                var s := ClassifyLine(data.value).value;
                && processNames == Remember(old(processNames), s.pid, lookup)
                && match ParseEndpoint(s.local)
                   case None => outcome == PortMissing && listening == old(listening)
                   case Some(e) =>
                     outcome == Listed
                     && listening == old(listening) + [LocalProcess(s.protocol, e.address, e.port, s.pid, processNames[s.pid])]
    {
      if data.None? {
        return Skipped;
      }
      var socket := ClassifyLine(data.value);
      if socket.None? {
        return Skipped;
      }
      var pid := socket.value.pid;
      if pid !in processNames {
        processNames := processNames[pid := AccessDenied];
        var name := lookup(pid);
        if name.Some? {
          processNames := processNames[pid := name.value];
        }
      }
      var endpoint := ParseEndpoint(socket.value.local);
      if endpoint.None? {
        return PortMissing;
      }
      listening := listening + [LocalProcess(socket.value.protocol, endpoint.value.address, endpoint.value.port, pid, processNames[pid])];
      outcome := Listed;
    }

    /** netstat has exited or been killed: Loading drops. */
    method OnNetstatFinished()
      modifies this`loading
      ensures !loading
    {
      loading := false;
    }
  }
}
