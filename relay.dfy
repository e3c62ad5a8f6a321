/**
 * The relay server (server.js): the module-level `birdbox` slot and
 * `clients` list, the WebSocket `message` handler (handshakes and commands),
 * the `close` handler, `sendBirdboxMessage`, and `findVideo` over the video
 * catalog loaded at start-up.
 *
 * Sockets are opaque handles; a message is the decoded JSON object. What a
 * handler logs or sends becomes a `Reply` value.
 */
module Relay {
  import opened Common

  /** A WebSocket connection, compared by identity. */
  type Socket = nat

  /** The `readyState` of a WebSocket. */
  datatype ReadyState = Connecting | Open | Closing | Closed

  /** A decoded message: its `type`, `clientType` and `action` fields. */
  datatype Message = Message(kind: string, clientType: string, action: string)

  /** The server's connection state: at most one player socket, and the browser sockets in arrival order. */
  datatype Registry = Registry(birdbox: Option<Socket>, clients: seq<Socket>)

  /** What the `message` handler did besides updating the registry. */
  datatype Reply =
    | BirdboxConnected
    | DuplicateRejected               // the new socket is closed
    | ClientConnected(count: nat)     // the new number of browser sockets
    | InvalidConnection
    | NotifyStart(visited: seq<Socket>)
    | NotifyStop
    | InvalidBirdboxMessage
    | Ignored

  datatype Handled = Handled(registry: Registry, reply: Reply)

  /** The registry when the server starts. */
  const Empty := Registry(None, [])

  predicate IsHandshake(msg: Message, clientType: string) {
    msg.kind == "connection" && msg.clientType == clientType
  }

  predicate IsBirdboxCommand(msg: Message, action: string) {
    msg.kind == "command" && msg.clientType == "birdbox" && msg.action == action
  }

  // ---------------------------------------------------------------------
  // Removing a socket from the list
  // ---------------------------------------------------------------------

  /** `clients.filter((c) => c !== ws)`. */
  function Without(clients: seq<Socket>, ws: Socket): (r: seq<Socket>)
    ensures forall c :: c in r <==> c in clients && c != ws
    ensures multiset(r) == multiset(clients)[ws := 0]
    decreases |clients|
  {
    if clients == [] then []
    else
      var last := clients[|clients| - 1];
      var init := clients[..|clients| - 1];
      assert clients == init + [last];
      Without(init, ws) + (if last == ws then [] else [last])
  }

  /** Filtering distributes over concatenation, so the sockets kept keep their relative order. */
  lemma {:induction false} WithoutAppend(a: seq<Socket>, b: seq<Socket>, ws: Socket)
    ensures Without(a + b, ws) == Without(a, ws) + Without(b, ws)
    decreases |b|
  {
    if b == [] {
      assert a + b == a;
    } else {
      var init, last := b[..|b| - 1], b[|b| - 1];
      var kept := if last == ws then [] else [last];
      assert (a + b)[..|a + b| - 1] == a + init && (a + b)[|a + b| - 1] == last;
      assert Without(a + b, ws) == Without(a + init, ws) + kept;
      WithoutAppend(a, init, ws);
      assert Without(b, ws) == Without(init, ws) + kept;
      AppendAssoc(Without(a, ws), Without(init, ws), kept);
    }
  }


  /** Removing a socket that is not in the list leaves the list as it is. */
  lemma {:induction false} WithoutAbsent(clients: seq<Socket>, ws: Socket)
    requires ws !in clients
    ensures Without(clients, ws) == clients
    decreases |clients|
  {
    if clients != [] {
      var init, last := clients[..|clients| - 1], clients[|clients| - 1];
      assert clients == init + [last];
      assert ws !in init && last != ws;
      WithoutAbsent(init, ws);
      assert Without(clients, ws) == init + [last];
    }
  }

  /** The `forEach` of the `notify-start` branch: visit every browser socket other than the sender, in order. */
  method NotifyOthers(clients: seq<Socket>, ws: Socket) returns (visited: seq<Socket>)
    ensures visited == Without(clients, ws)
  {
    visited := [];
    for i := 0 to |clients|
      invariant visited == Without(clients[..i], ws)
    {
      assert clients[..i + 1][..i] == clients[..i];
      if clients[i] != ws {
        visited := visited + [clients[i]];
      }
    }
    assert clients[..|clients|] == clients;
  }

  // ---------------------------------------------------------------------
  // The handlers on values
  // ---------------------------------------------------------------------

  /** The `message` handler of socket `ws`. */
  function Receive(reg: Registry, ws: Socket, msg: Message): (r: Handled)
    // The player slot, once filled, is kept: first registered wins.
    ensures reg.birdbox.Some? ==> r.registry.birdbox == reg.birdbox
    // It is filled only by a player handshake on an empty slot, and then with the sender.
    ensures r.registry.birdbox != reg.birdbox <==> IsHandshake(msg, "birdbox") && reg.birdbox.None?
    ensures r.registry.birdbox != reg.birdbox ==> r.registry.birdbox == Some(ws)
    ensures r.reply == DuplicateRejected <==> IsHandshake(msg, "birdbox") && reg.birdbox.Some?
    // A browser handshake appends the sender, even when it is already listed; nothing else touches the list.
    ensures r.registry.clients == reg.clients + (if IsHandshake(msg, "browser") then [ws] else [])
    ensures IsHandshake(msg, "browser") ==> r.reply == ClientConnected(|reg.clients| + 1)
    // `notify-start` visits the other browser sockets.
    ensures r.reply.NotifyStart? <==> IsBirdboxCommand(msg, "notify-start")
    ensures r.reply.NotifyStart? ==> r.reply.visited == Without(reg.clients, ws) && ws !in r.reply.visited
  {
    if msg.kind == "connection" then
      if msg.clientType == "birdbox" then
        if reg.birdbox.Some? then Handled(reg, DuplicateRejected)
        else Handled(reg.(birdbox := Some(ws)), BirdboxConnected)
      else if msg.clientType == "browser" then
        var clients := reg.clients + [ws];
        Handled(reg.(clients := clients), ClientConnected(|clients|))
      else Handled(reg, InvalidConnection)
    else if msg.kind == "command" && msg.clientType == "birdbox" then
      if msg.action == "notify-start" then Handled(reg, NotifyStart(Without(reg.clients, ws)))
      else if msg.action == "notify-stop" then Handled(reg, NotifyStop)
      else Handled(reg, InvalidBirdboxMessage)
    else Handled(reg, Ignored)
  }

  /** Commands change nothing: every message other than a handshake leaves the registry as it is. */
  lemma CommandsKeepRegistry(reg: Registry, ws: Socket, msg: Message)
    requires msg.kind != "connection"
    ensures Receive(reg, ws, msg).registry == reg
  {
  }

  /** The `close` handler of socket `ws`. */
  function Disconnect(reg: Registry, ws: Socket): (r: Registry)
    // The player socket empties its slot and leaves the list alone, even if it is also listed.
    ensures reg.birdbox == Some(ws) ==> r == Registry(None, reg.clients)
    // Any other socket leaves the slot alone and is removed from the list wherever it occurs.
    ensures reg.birdbox != Some(ws) ==> r.birdbox == reg.birdbox && ws !in r.clients
    ensures reg.birdbox != Some(ws) ==> multiset(r.clients) == multiset(reg.clients)[ws := 0]
  {
    if reg.birdbox == Some(ws) then reg.(birdbox := None)
    else reg.(clients := Without(reg.clients, ws))
  }

  /** A player handshake sent again by the registered player is rejected by closing that very socket, which empties the slot. */
  lemma RepeatedHandshakeUnregisters(reg: Registry, b: Socket, msg: Message)
    requires reg.birdbox == Some(b) && IsHandshake(msg, "birdbox")
    ensures Receive(reg, b, msg).reply == DuplicateRejected
    ensures Disconnect(Receive(reg, b, msg).registry, b).birdbox == None
  {
  }

  // ---------------------------------------------------------------------
  // Runs of the server
  // ---------------------------------------------------------------------

  datatype Event = Received(ws: Socket, msg: Message) | SocketClosed(ws: Socket)

  function Apply(reg: Registry, e: Event): Registry {
    match e
    case Received(ws, msg) => Receive(reg, ws, msg).registry
    case SocketClosed(ws) => Disconnect(reg, ws)
  }

  function Run(reg: Registry, events: seq<Event>): Registry
    decreases |events|
  {
    if events == [] then reg else Run(Apply(reg, events[0]), events[1..])
  }

  /** The registered player stays registered until its own socket closes. */
  lemma {:induction false} PlayerKeptUntilClosed(reg: Registry, events: seq<Event>, b: Socket)
    requires reg.birdbox == Some(b)
    requires forall i :: 0 <= i < |events| ==> events[i] != SocketClosed(b)
    ensures Run(reg, events).birdbox == Some(b)
    decreases |events|
  {
    if events != [] {
      assert events[0] != SocketClosed(b);
      PlayerKeptUntilClosed(Apply(reg, events[0]), events[1..], b);
    }
  }

  /** A socket ends up in the player slot only by sending a player handshake. */
  lemma {:induction false} PlayerOnlyByHandshake(reg: Registry, events: seq<Event>, b: Socket)
    requires reg.birdbox != Some(b) && Run(reg, events).birdbox == Some(b)
    ensures exists i :: 0 <= i < |events| && events[i].Received? && events[i].ws == b
                     && IsHandshake(events[i].msg, "birdbox")
    decreases |events|
  {
    var next := Apply(reg, events[0]);
    if next.birdbox == Some(b) {
      assert events[0].Received? && IsHandshake(events[0].msg, "birdbox");
    } else {
      PlayerOnlyByHandshake(next, events[1..], b);
      var i :| 0 <= i < |events[1..]| && events[1..][i].Received? && events[1..][i].ws == b
             && IsHandshake(events[1..][i].msg, "birdbox");
      assert events[i + 1] == events[1..][i];
    }
  }

  /** Without close events the browser list only grows at its end. */
  lemma {:induction false} ClientsOnlyGrow(reg: Registry, events: seq<Event>)
    requires forall i :: 0 <= i < |events| ==> events[i].Received?
    ensures reg.clients <= Run(reg, events).clients
    decreases |events|
  {
    if events != [] {
      ClientsOnlyGrow(Apply(reg, events[0]), events[1..]);
    }
  }

  // ---------------------------------------------------------------------
  // The video catalog
  // ---------------------------------------------------------------------

  /** An entry of the video catalog. */
  class Video {
    var id: string

    constructor (id: string)
      ensures this.id == id
    {
      this.id := id;
    }
  }

  /** The ids of a list of catalog entries. */
  ghost function IdsOf(videos: seq<Video>): (ids: seq<string>)
    reads set v | v in videos
    ensures |ids| == |videos| && forall i :: 0 <= i < |videos| ==> ids[i] == videos[i].id
    decreases |videos|
  {
    if videos == [] then [] else IdsOf(videos[..|videos| - 1]) + [videos[|videos| - 1].id]
  }

  /** The ids of the catalog after a lookup, and the positions of the entries the lookup returns. */
  datatype Lookup = Lookup(ids: seq<string>, kept: seq<nat>)

  /**
   * `videoState.filter((v) => (v.id = id))` on the catalog's ids: each
   * callback overwrites the entry's id with `id` and keeps the entry when
   * `id` is truthy, that is not empty.
   */
  function FindAsWritten(ids: seq<string>, id: string): (r: Lookup)
    ensures |r.ids| == |ids| && forall i :: 0 <= i < |ids| ==> r.ids[i] == id
    ensures |r.kept| == (if id != "" then |ids| else 0)
    ensures forall k :: 0 <= k < |r.kept| ==> r.kept[k] == k
    decreases |ids|
  {
    if ids == [] then Lookup([], [])
    else
      var prior := FindAsWritten(ids[..|ids| - 1], id);
      Lookup(prior.ids + [id], prior.kept + (if id != "" then [|ids| - 1] else []))
  }

  /** The lookup the comment at server.js:151 describes: the entries whose id equals `id`, in catalog order, ids untouched. */
  function FindIntended(ids: seq<string>, id: string): (r: Lookup)
    ensures r.ids == ids
    ensures forall k :: 0 <= k < |r.kept| ==> r.kept[k] < |ids| && ids[r.kept[k]] == id
    ensures forall k, l :: 0 <= k < l < |r.kept| ==> r.kept[k] < r.kept[l]
    ensures forall i :: 0 <= i < |ids| && ids[i] == id ==> i in r.kept
    decreases |ids|
  {
    if ids == [] then Lookup([], [])
    else
      var prior := FindIntended(ids[..|ids| - 1], id);
      Lookup(ids, prior.kept + (if ids[|ids| - 1] == id then [|ids| - 1] else []))
  }

  /** Looking up the first of two videos returns both and renames the second. */
  lemma FindVideoCounterexample()
    ensures FindAsWritten(["a", "b"], "a") == Lookup(["a", "a"], [0, 1])
    ensures FindIntended(["a", "b"], "a") == Lookup(["a", "b"], [0])
  {
    assert ["a", "b"][..1] == ["a"];
    assert ["a"][..0] == [];
  }

  /** The entries at the given positions. */
  function Pick(videos: seq<Video>, kept: seq<nat>): (r: seq<Video>)
    requires forall k :: 0 <= k < |kept| ==> kept[k] < |videos|
    ensures |r| == |kept| && forall k :: 0 <= k < |kept| ==> r[k] == videos[kept[k]]
  {
    seq(|kept|, k requires 0 <= k < |kept| => videos[kept[k]])
  }

  // ---------------------------------------------------------------------
  // The server as the source holds it
  // ---------------------------------------------------------------------

  /** The module-level state of server.js. */
  class Server {
    var birdbox: Option<Socket>
    var clients: seq<Socket>
    const videoState: seq<Video>

    ghost function View(): Registry
      reads this
    {
      Registry(birdbox, clients)
    }

    /** Start-up: no sockets yet, and the catalog read from `data/videos.json`. */
    constructor (catalog: seq<Video>)
      ensures View() == Empty && videoState == catalog
    {
      birdbox := None;
      clients := [];
      videoState := catalog;
    }

    /** The `message` handler of socket `ws`. */
    method OnMessage(ws: Socket, msg: Message) returns (reply: Reply)
      modifies this
      ensures Handled(View(), reply) == Receive(old(View()), ws, msg)
    {
      reply := Ignored;
      if msg.kind == "connection" {
        if msg.clientType == "birdbox" {
          if birdbox.Some? {
            reply := DuplicateRejected;
            return;
          }
          birdbox := Some(ws);
          reply := BirdboxConnected;
        } else if msg.clientType == "browser" {
          clients := clients + [ws];
          reply := ClientConnected(|clients|);
        } else {
          reply := InvalidConnection;
        }
      }
      if msg.kind == "command" && msg.clientType == "birdbox" {
        if msg.action == "notify-start" {
          var visited := NotifyOthers(clients, ws);
          reply := NotifyStart(visited);
        } else if msg.action == "notify-stop" {
          reply := NotifyStop;
        } else {
          reply := InvalidBirdboxMessage;
        }
      }
    }

    /** The `close` handler of socket `ws`. */
    method OnClose(ws: Socket)
      modifies this
      ensures View() == Disconnect(old(View()), ws)
    {
      if birdbox == Some(ws) {
        birdbox := None;
      } else {
        clients := Without(clients, ws);
      }
    }

    /**
     * `sendBirdboxMessage`: `readyState` is the player socket's state, and
     * `sendThrows` says whether its `send` throws (the error is caught).
     */
    method SendBirdboxMessage(msg: Message, readyState: ReadyState, sendThrows: bool) returns (outcome: SendOutcome)
      ensures outcome == NotConnected <==> birdbox.None? || readyState != Open
      ensures outcome.Sent? <==> birdbox.Some? && readyState == Open && !sendThrows
      ensures outcome.Sent? ==> outcome == Sent(birdbox.value, msg)
      ensures outcome.SendFailed? ==> outcome == SendFailed(birdbox.value)
    {
      if birdbox.None? || readyState != Open {
        return NotConnected;
      }
      if sendThrows {
        return SendFailed(birdbox.value);
      }
      return Sent(birdbox.value, msg);
    }

    /** `findVideo` as written: every entry's id becomes `id`, and the whole catalog is returned when `id` is not empty. */
    method FindVideoAsWritten(id: string) returns (result: seq<Video>)
      modifies set v | v in videoState
      ensures IdsOf(videoState) == FindAsWritten(old(IdsOf(videoState)), id).ids
      ensures result == Pick(videoState, FindAsWritten(old(IdsOf(videoState)), id).kept)
      ensures result == (if id != "" then videoState else [])
    {
      result := [];
      for i := 0 to |videoState|
        invariant forall j :: 0 <= j < i ==> videoState[j].id == id
        invariant result == (if id != "" then videoState[..i] else [])
      {
        videoState[i].id := id;
        if id != "" {
          result := result + [videoState[i]];
        }
      }
      assert videoState[..|videoState|] == videoState;
    }

    /** `findVideo` with the comparison the comment asks for: the entries whose id is `id`, in catalog order. */
    method FindVideo(id: string) returns (result: seq<Video>)
      ensures result == Pick(videoState, FindIntended(IdsOf(videoState), id).kept)
    {
      ghost var ids := IdsOf(videoState);
      result := [];
      for i := 0 to |videoState|
        invariant result == Pick(videoState, FindIntended(ids[..i], id).kept)
      {
        assert ids[..i + 1][..i] == ids[..i];
        if videoState[i].id == id {
          result := result + [videoState[i]];
        }
      }
      assert ids[..|videoState|] == ids;
    }
  }

  /** What `sendBirdboxMessage` did. */
  datatype SendOutcome = NotConnected | Sent(to: Socket, msg: Message) | SendFailed(to: Socket)
}
