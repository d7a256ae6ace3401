/**
 From an actor's address to the system that hosts it, as the distributed system and the websocket
 distributor compute it.
 */
module Routing {
  /** The first index of `c`, or -1. */
  function IndexOf(s: string, c: char): (i: int)
    ensures -1 <= i < |s|
    ensures i >= 0 ==> s[i] == c && forall j :: 0 <= j < i ==> s[j] != c
    ensures i < 0 ==> c !in s
  {
    if s == "" then -1
    else if s[0] == c then 0
    else
      var rest := IndexOf(s[1..], c);
      assert s == [s[0]] + s[1..];
      if rest < 0 then -1 else rest + 1
  }

  /** The first occurrence of `pattern` is taken out, wherever it is. */
  function RemoveFirst(s: string, pattern: string): string {
    if pattern <= s then s[|pattern|..]
    else if s == "" then s
    else [s[0]] + RemoveFirst(s[1..], pattern)
  }

  function ReplaceAll(s: string, c: char, with: char): (r: string)
    ensures |r| == |s| && forall i :: 0 <= i < |s| ==> r[i] == if s[i] == c then with else s[i]
  {
    seq(|s|, i requires 0 <= i < |s| => if s[i] == c then with else s[i])
  }

  predicate PlainName(system: string) {
    '/' !in system && '.' !in system
  }

  const SCHEME := "actors://"

  function Address(system: string, path: string): string {
    SCHEME + system + "/" + path
  }

  function Channel(address: string): string {
    ReplaceAll(RemoveFirst(address, SCHEME), '/', '.')
  }

  /** `substring(0, -1)` is the empty string. */
  function TargetOf(channel: string): string {
    var end := IndexOf(channel, '.');
    if end < 0 then "" else channel[..end]
  }

  predicate IsLocal(system: string, address: string) {
    SCHEME + system + "/" <= address
  }

  datatype Route = Local | AskRemote(target: string) | SendRemote(target: string)

  /** What the system `me` does with a message in its inbox. */
  function RouteOf(me: string, to: string, asks: bool): Route {
    if IsLocal(me, to) then Local
    else if asks then AskRemote(TargetOf(Channel(to)))
    else SendRemote(TargetOf(Channel(to)))
  }

  /** The first `c` is at the end of `head` exactly if `head` has none; else it is earlier. */
  lemma IndexAfter(head: string, c: char, tail: string)
    ensures 0 <= IndexOf(head + [c] + tail, c) <= |head|
    ensures IndexOf(head + [c] + tail, c) == |head| <==> c !in head
  {
    var s := head + [c] + tail;
    assert s[|head|] == c;
    assert forall j :: 0 <= j < |head| ==> s[j] == head[j];
  }

  lemma ReplacedSegments(system: string, path: string)
    ensures ReplaceAll(system + "/" + path, '/', '.') == ReplaceAll(system, '/', '.') + "." + ReplaceAll(path, '/', '.')
  {
  }

  lemma ReplacedHas(s: string)
    ensures '.' in ReplaceAll(s, '/', '.') <==> '.' in s || '/' in s
    ensures '/' !in s ==> ReplaceAll(s, '/', '.') == s
  {
    var r := ReplaceAll(s, '/', '.');
    if '.' in r {
      var i :| 0 <= i < |r| && r[i] == '.';
      assert s[i] in s;
    }
    if '.' in s || '/' in s {
      var i :| 0 <= i < |s| && (s[i] == '.' || s[i] == '/');
      assert r[i] == '.';
    }
  }

  /** The target computed from a qualified address is the hosting system exactly if its name has no '/' and no '.'. */
  lemma RoutingRoundTrip(system: string, path: string)
    ensures TargetOf(Channel(Address(system, path))) == system <==> PlainName(system)
  {
    hide IndexOf;
    assert Address(system, path)[|SCHEME|..] == system + "/" + path;
    var name := ReplaceAll(system, '/', '.');
    ReplacedSegments(system, path);
    ReplacedHas(system);
    var tail := ReplaceAll(path, '/', '.');
    IndexAfter(name, '.', tail);
    assert (name + "." + tail)[..|name|] == name;
  }

  /**
   For any name, plain or not, the computed target is what comes before its first '/' or '.': a message for
   a system of another name goes astray in this one way.
   */
  lemma TargetIsFirstPart(system: string, path: string)
    ensures var target := TargetOf(Channel(Address(system, path)));
      && PlainName(target) && target <= system
      && (target == system || system[|target|] == '/' || system[|target|] == '.')
  {
    hide IndexOf;
    assert Address(system, path)[|SCHEME|..] == system + "/" + path;
    var name, tail := ReplaceAll(system, '/', '.'), ReplaceAll(path, '/', '.');
    ReplacedSegments(system, path);
    IndexAfter(name, '.', tail);
    var end := IndexOf(name + "." + tail, '.');
    var target := (name + "." + tail)[..end];
    assert forall i :: 0 <= i < end ==> (name + "." + tail)[i] != '.' && (name + "." + tail)[i] == name[i] == system[i];
    assert target == system[..end];
  }

  lemma {:induction false} SameFirstSegment(a: string, b: string, rest: string)
    requires '/' !in a && '/' !in b
    ensures a + "/" <= b + "/" + rest <==> a == b
  {
    if a == b {
      assert (b + "/" + rest)[..|a| + 1] == a + "/";
    } else if a == "" {
      assert (b + "/" + rest)[0] == b[0];
    } else if b == "" {
      assert (a + "/")[0] == a[0];
    } else {
      SameFirstSegment(a[1..], b[1..], rest);
      assert a == [a[0]] + a[1..] && b == [b[0]] + b[1..];
      assert (a + "/")[1..] == a[1..] + "/" && (b + "/" + rest)[1..] == b[1..] + "/" + rest;
      SamePrefix(a + "/", b + "/" + rest);
    }
  }

  lemma SamePrefix(a: string, b: string)
    requires a != "" && b != ""
    ensures a <= b <==> a[0] == b[0] && a[1..] <= b[1..]
  {
    assert a == [a[0]] + a[1..] && b == [b[0]] + b[1..];
  }

  lemma SameScheme(a: string, b: string)
    ensures SCHEME + a <= SCHEME + b <==> a <= b
  {
    assert (SCHEME + a)[|SCHEME|..] == a && (SCHEME + b)[|SCHEME|..] == b;
  }

  /** The name up to its first slash. */
  function FirstSegment(name: string): string {
    if IndexOf(name, '/') < 0 then name else name[..IndexOf(name, '/')]
  }

  lemma FirstSegmentMatches(me: string, system: string, path: string)
    requires '/' !in me
    ensures me + "/" <= system + "/" + path <==> me == FirstSegment(system)
  {
    var i, first := IndexOf(system, '/'), FirstSegment(system);
    assert '/' !in first;
    if i < 0 {
      SameFirstSegment(me, first, path);
    } else {
      var rest := system[i + 1..] + "/" + path;
      assert system == first + "/" + system[i + 1..];
      assert system + "/" + path == first + "/" + rest;
      SameFirstSegment(me, first, rest);
    }
  }

  /**
   A system whose name has no '/' takes the local branch exactly for the addresses that have its name up
   to their first slash; any system takes it for its own addresses.
   */
  lemma LocalIffOwn(me: string, system: string, path: string)
    ensures IsLocal(me, Address(system, path)) <==> me + "/" <= system + "/" + path
    ensures '/' !in me ==> (IsLocal(me, Address(system, path)) <==> me == FirstSegment(system))
    ensures me == system ==> IsLocal(me, Address(system, path))
  {
    assert SCHEME + me + "/" == SCHEME + (me + "/");
    assert Address(system, path) == SCHEME + (system + "/" + path);
    SameScheme(me + "/", system + "/" + path);
    if '/' !in me {
      FirstSegmentMatches(me, system, path);
    }
    if me == system {
      assert (system + "/" + path)[..|me| + 1] == me + "/";
    }
  }

  /** A message crosses the bus once when it is for another system, and not at all otherwise. */
  lemma SingleHop(me: string, system: string, path: string, asks: bool)
    requires PlainName(me) && PlainName(system)
    ensures me == system ==> RouteOf(me, Address(system, path), asks) == Local
    ensures me != system ==>
      RouteOf(me, Address(system, path), asks) == if asks then AskRemote(system) else SendRemote(system)
    ensures forall again :: RouteOf(system, Address(system, path), again) == Local
  {
    LocalIffOwn(me, system, path);
    LocalIffOwn(system, system, path);
    RoutingRoundTrip(system, path);
  }
}
