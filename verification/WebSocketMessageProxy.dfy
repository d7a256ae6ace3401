/** The routing proxy: which socket a client id stands for, as clients connect, reconnect and go. */
module MessageProxy {
  import opened ActorTree
  import opened SocketClient

  /** A websocket connection of some client; each connect makes a new one. */
  datatype Socket = Socket(owner: ClientId, serial: nat)

  function Forwarded(sockets: map<ClientId, Socket>, p: Packet): Option<Socket> {
    if p.target in sockets then Some(sockets[p.target]) else None
  }

  datatype Event = Announced(id: ClientId, socket: Socket) | Closed(socket: Socket)

  /** One event; a close removes one entry that holds the socket, if there is any. */
  ghost predicate Changes(before: map<ClientId, Socket>, e: Event, after: map<ClientId, Socket>) {
    match e
    case Announced(id, socket) => after == before[id := socket]
    case Closed(socket) =>
      if exists id :: id in before && before[id] == socket
      then exists id :: id in before && before[id] == socket && after == before - {id}
      else after == before
  }

  ghost predicate Runs(es: seq<Event>, maps: seq<map<ClientId, Socket>>) {
    && |maps| == |es| + 1 && maps[0] == map[]
    && forall k :: 0 <= k < |es| ==> Changes(maps[k], es[k], maps[k + 1])
  }

  ghost predicate OneIdPerSocket(es: seq<Event>) {
    forall i, j :: 0 <= i < |es| && 0 <= j < |es| && es[i].Announced? && es[j].Announced? &&
      es[i].socket == es[j].socket
      ==> es[i].id == es[j].id
  }

  /** The index of the last announcement of `id`, or -1. */
  function LastAnnouncement(es: seq<Event>, id: ClientId): (n: int)
    ensures -1 <= n < |es|
    ensures n >= 0 ==> es[n].Announced? && es[n].id == id
    ensures forall m :: n < m < |es| ==> !(es[m].Announced? && es[m].id == id)
  {
    if es == [] then -1
    else
      var last := |es| - 1;
      if es[last].Announced? && es[last].id == id then last else LastAnnouncement(es[..last], id)
  }

  /** `id` was announced, and the socket that did so last has not been closed since. */
  ghost predicate Connected(es: seq<Event>, id: ClientId) {
    var n := LastAnnouncement(es, id);
    n >= 0 && forall m :: n < m < |es| ==> es[m] != Closed(es[n].socket)
  }

  /** What the map holds for `id` is what the history says. */
  ghost predicate EntryIs(es: seq<Event>, sockets: map<ClientId, Socket>, id: ClientId) {
    && (id in sockets <==> Connected(es, id))
    && (id in sockets ==> sockets[id] == es[LastAnnouncement(es, id)].socket)
  }

  lemma LastPush(es: seq<Event>, e: Event, id: ClientId)
    ensures LastAnnouncement(es + [e], id) == if e.Announced? && e.id == id then |es| else LastAnnouncement(es, id)
  {
    assert (es + [e])[..|es|] == es;
  }

  lemma ConnectedPush(es: seq<Event>, e: Event, id: ClientId)
    ensures Connected(es + [e], id) <==>
      || (e.Announced? && e.id == id)
      || (Connected(es, id) && e != Closed(es[LastAnnouncement(es, id)].socket))
  {
    LastPush(es, e, id);
    var n := LastAnnouncement(es + [e], id);
    assert forall m :: 0 <= m < |es| ==> (es + [e])[m] == es[m];
    if n >= 0 && n < |es| {
      assert (es + [e])[|es|] == e;
    }
  }

  ghost predicate Injective(sockets: map<ClientId, Socket>) {
    forall a, b :: a in sockets && b in sockets && sockets[a] == sockets[b] ==> a == b
  }

  lemma EntryStep(es: seq<Event>, sockets: map<ClientId, Socket>, e: Event, after: map<ClientId, Socket>, id: ClientId)
    requires EntryIs(es, sockets, id) && Changes(sockets, e, after) && Injective(sockets)
    ensures EntryIs(es + [e], after, id)
  {
    hide Connected, LastAnnouncement;
    LastPush(es, e, id);
    ConnectedPush(es, e, id);
  }

  /** Two ids never share a socket. */
  lemma SocketsDiffer(es: seq<Event>, sockets: map<ClientId, Socket>)
    requires OneIdPerSocket(es) && forall id :: EntryIs(es, sockets, id)
    ensures Injective(sockets)
  {
    forall a, b | a in sockets && b in sockets && sockets[a] == sockets[b] ensures a == b {
      assert EntryIs(es, sockets, a) && EntryIs(es, sockets, b);
    }
  }

  /** While each socket announces one id, the map holds what the history says. */
  ghost predicate HistoryOk(es: seq<Event>, sockets: map<ClientId, Socket>) {
    OneIdPerSocket(es) ==> forall id :: EntryIs(es, sockets, id)
  }

  lemma HistoryStep(es: seq<Event>, sockets: map<ClientId, Socket>, e: Event, after: map<ClientId, Socket>)
    requires HistoryOk(es, sockets) && Changes(sockets, e, after)
    ensures HistoryOk(es + [e], after)
  {
    if OneIdPerSocket(es + [e]) {
      assert forall i :: 0 <= i < |es| ==> (es + [e])[i] == es[i];
      SocketsDiffer(es, sockets);
      forall id ensures EntryIs(es + [e], after, id) {
        EntryStep(es, sockets, e, after, id);
      }
    }
  }

  /** The map is a function of the history: the last socket that announced an id, until that one closes. */
  lemma {:induction false} SocketsAreHistory(es: seq<Event>, maps: seq<map<ClientId, Socket>>, k: nat)
    requires Runs(es, maps) && k <= |es|
    ensures HistoryOk(es[..k], maps[k])
  {
    if k > 0 {
      SocketsAreHistory(es, maps, k - 1);
      assert es[..k] == es[..k - 1] + [es[k - 1]];
      HistoryStep(es[..k - 1], maps[k - 1], es[k - 1], maps[k]);
    }
  }

  function Gone(before: map<ClientId, Socket>, after: map<ClientId, Socket>): set<ClientId> {
    set id | id in before && id !in after
  }

  lemma OneGone(before: map<ClientId, Socket>, id: ClientId)
    requires id in before
    ensures Gone(before, before - {id}) == {id}
  {
  }

  /** However many ids a socket has announced, its close unregisters one of them, if there is any, and no other. */
  lemma CloseForgetsOne(before: map<ClientId, Socket>, socket: Socket, after: map<ClientId, Socket>)
    requires Changes(before, Closed(socket), after)
    ensures forall id :: id in after ==> id in before && after[id] == before[id]
    ensures forall id :: id in Gone(before, after) ==> before[id] == socket
    ensures |Gone(before, after)| == if exists id :: id in before && before[id] == socket then 1 else 0
  {
    if exists id :: id in before && before[id] == socket {
      var id :| id in before && before[id] == socket && after == before - {id};
      OneGone(before, id);
    } else {
      assert Gone(before, after) == {};
    }
  }

  /** A late close of a socket that has been superseded unregisters nobody. */
  lemma LateCloseIsHarmless(es: seq<Event>, maps: seq<map<ClientId, Socket>>, i: nat, j: nat, k: nat)
    requires Runs(es, maps) && OneIdPerSocket(es) && i < j < k < |es|
    requires es[i].Announced? && es[j].Announced? && es[i].id == es[j].id && es[k] == Closed(es[i].socket)
    requires LastAnnouncement(es[..k], es[i].id) == j && es[j].socket != es[i].socket
    ensures maps[k + 1] == maps[k]
  {
    SocketsAreHistory(es, maps, k);
    assert forall n :: 0 <= n < k ==> es[..k][n] == es[n];
    forall id | id in maps[k] ensures maps[k][id] != es[i].socket {
      assert EntryIs(es[..k], maps[k], id);
      var n := LastAnnouncement(es[..k], id);
      assert es[..k][n] == es[n];
    }
    assert Changes(maps[k], es[k], maps[k + 1]);
  }

  class WebsocketMessageProxy {
    var sockets: map<ClientId, Socket>
    /** The announcements and closes so far. */
    ghost var history: seq<Event>

    ghost predicate Valid()
      reads this
    {
      HistoryOk(history, sockets)
    }

    constructor ()
      ensures Valid() && history == [] && sockets == map[]
    {
      sockets := map[];
      history := [];
    }

    /** A client announces its id. */
    method OnClient(id: ClientId, socket: Socket)
      requires Valid()
      modifies this
      ensures Valid() && history == old(history) + [Announced(id, socket)]
      ensures sockets == old(sockets)[id := socket]
    {
      HistoryStep(history, sockets, Announced(id, socket), sockets[id := socket]);
      sockets := sockets[id := socket];
      history := history + [Announced(id, socket)];
    }

    /**
     Any other message is forwarded to the socket that announced its target last, if that one has not
     been closed since; otherwise its target is unknown.
    */
    method OnMessage(p: Packet) returns (to: Option<Socket>)
      requires Valid()
      ensures to == Forwarded(sockets, p)
      ensures OneIdPerSocket(history) ==>
        to == if Connected(history, p.target) then Some(history[LastAnnouncement(history, p.target)].socket) else None
    {
      to := if p.target in sockets then Some(sockets[p.target]) else None;
      assert OneIdPerSocket(history) ==> EntryIs(history, sockets, p.target);
    }

    method OnClose(socket: Socket)
      requires Valid()
      modifies this
      ensures Valid() && history == old(history) + [Closed(socket)]
      ensures Changes(old(sockets), Closed(socket), sockets)
    {
      ghost var before := sockets;
      if exists id :: id in sockets && sockets[id] == socket {
        var id :| id in sockets && sockets[id] == socket;
        sockets := sockets - {id};
      }
      HistoryStep(history, before, Closed(socket), sockets);
      history := history + [Closed(socket)];
    }
  }
}
