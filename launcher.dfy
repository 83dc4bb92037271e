/** Model of the start-up decisions in main.go: the flag defaults, the
    peer list built from the `-peers` flag, and the choice between running
    the server, running the client, and reporting an invalid mode. */
module Launcher {

  /** The values flag.Parse yields for the four flags (main.go:14-17). */
  datatype Flags = Flags(mode: string, port: string, peers: string, server: string)

  /** The defaults declared in main.go:14-17. */
  const DefaultFlags: Flags := Flags("start", "8080", "", "ws://localhost:8080/ws")

  /** What main does once the flags are parsed (main.go:21-33). */
  datatype Plan =
    | RunServer(port: string, peerList: seq<string>)
    | RunClient(serverUrl: string)
    | ReportInvalidMode

  function CommaCount(s: string): nat
  {
    if s == [] then 0 else (if s[0] == ',' then 1 else 0) + CommaCount(s[1..])
  }

  /** Go's strings.Split(s, ","): the pieces between commas, empty pieces
      included; a string without commas is one piece. */
  function Split(s: string): (r: seq<string>)
    ensures |r| == CommaCount(s) + 1
    ensures forall i | 0 <= i < |r| :: ',' !in r[i]
  {
    if s == [] then [""]
    else
      var rest := Split(s[1..]);
      if s[0] == ',' then [""] + rest
      else [[s[0]] + rest[0]] + rest[1..]
  }

  /** strings.Join(parts, ","). */
  function Join(parts: seq<string>): string
    requires |parts| >= 1
  {
    if |parts| == 1 then parts[0] else parts[0] + "," + Join(parts[1..])
  }

  /** Joining the pieces with "," rebuilds the input exactly. */
  lemma {:induction false} JoinSplit(s: string)
    ensures Join(Split(s)) == s
  {
    if s != [] {
      JoinSplit(s[1..]);
      var rest := Split(s[1..]);
      if s[0] == ',' {
        assert Join(Split(s)) == "" + "," + Join(rest);
      } else if |rest| == 1 {
        assert Join(Split(s)) == [s[0]] + rest[0];
      } else {
        assert Join(rest) == rest[0] + "," + Join(rest[1..]);
        assert Join(Split(s)) == ([s[0]] + rest[0]) + "," + Join(rest[1..]);
      }
    }
  }

  /** Splitting a comma-free prefix followed by `tail` glues the prefix to
      the first piece of the tail. */
  lemma {:induction false} SplitCommaFreePrefix(p: string, tail: string)
    requires ',' !in p
    ensures Split(p + tail) == [p + Split(tail)[0]] + Split(tail)[1..]
  {
    if p != [] {
      SplitCommaFreePrefix(p[1..], tail);
      assert (p + tail)[1..] == p[1..] + tail;
      assert [p[0]] + (p[1..] + Split(tail)[0]) == p + Split(tail)[0];
    } else {
      var r := Split(tail);
      assert p + tail == tail;
      assert p + r[0] == r[0];
      assert [r[0]] + r[1..] == r;
    }
  }

  /** The converse: comma-free pieces joined with "," split back into
      exactly those pieces. */
  lemma {:induction false} SplitJoin(parts: seq<string>)
    requires |parts| >= 1
    requires forall i | 0 <= i < |parts| :: ',' !in parts[i]
    ensures Split(Join(parts)) == parts
  {
    if |parts| == 1 {
      SplitCommaFreePrefix(parts[0], "");
      assert parts[0] + "" == parts[0];
    } else {
      SplitJoin(parts[1..]);
      var tail := "," + Join(parts[1..]);
      assert tail[0] == ',' && tail[1..] == Join(parts[1..]);
      SplitCommaFreePrefix(parts[0], tail);
      assert Split(tail) == [""] + parts[1..];
      assert parts[0] + tail == Join(parts);
      var r := Split(tail);
      assert r[0] == "" && r[1..] == parts[1..];
      assert parts[0] + r[0] == parts[0];
      assert [parts[0]] + parts[1..] == parts;
    }
  }

  /** The peer list of main.go:24-27: empty when the flag is empty,
      otherwise the comma split of the flag. */
  function PeerList(peers: string): (r: seq<string>)
    ensures peers == "" <==> r == []
    ensures peers != "" ==> Join(r) == peers && |r| == CommaCount(peers) + 1
    ensures forall i | 0 <= i < |r| :: ',' !in r[i]
  {
    if peers == "" then []
    else
      JoinSplit(peers);
      Split(peers)
  }

  /** The mode switch of main.go:21-33. */
  function SelectPlan(flags: Flags): (p: Plan)
    ensures p.RunServer? <==> flags.mode == "start"
    ensures p.RunClient? <==> flags.mode == "connect"
    ensures p.ReportInvalidMode? <==> flags.mode != "start" && flags.mode != "connect"
    ensures p.RunServer? ==> p.port == flags.port && p.peerList == PeerList(flags.peers)
    ensures p.RunClient? ==> p.serverUrl == flags.server
  {
    if flags.mode == "start" then RunServer(flags.port, PeerList(flags.peers))
    else if flags.mode == "connect" then RunClient(flags.server)
    else ReportInvalidMode
  }

  /** With no flags given, the server starts on port 8080 with no peers. */
  lemma DefaultsStartLonelyServer()
    ensures DefaultFlags.server == "ws://localhost:8080/ws"
    ensures SelectPlan(DefaultFlags) == RunServer("8080", [])
  {
  }

  /** Empty pieces are kept, not filtered: "a,,b" names three peers, the
      middle one empty, and "," names two empty ones. */
  lemma EmptyPiecesKept()
    ensures PeerList("a,,b") == ["a", "", "b"]
    ensures PeerList(",") == ["", ""]
  {
    assert Split("") == [""];
    assert ","[1..] == "" && Split(",") == ["", ""];
    assert "b"[1..] == "" && ['b'] + "" == "b" && Split("b") == ["b"];
    assert ",b"[1..] == "b" && Split(",b") == ["", "b"];
    assert ",,b"[1..] == ",b" && Split(",,b") == ["", "", "b"];
    assert "a,,b"[1..] == ",,b" && ['a'] + "" == "a";
  }
}
