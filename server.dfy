/** The process-wide state of server.js: the admission counter
    `connectedClients` and the single-slot matchmaking queue `waitingPlayer`,
    with the `connection`, `playerReady` and `disconnect` handlers. */
module Server {
  import opened Game

  /** Events the server itself emits to a socket, and the forced close. */
  datatype ServerEvent =
    | ConnectionRejected(reason: string)
    | Message(text: string)
    | Closed

  /** One server emit, addressed to a socket. */
  datatype Sent = Sent(to: Socket, event: ServerEvent)

  /** The number of clients admitted at once. */
  const Capacity := 2

  class RpsServer {
    /** `waitingPlayer`: `null` or the one socket waiting for an opponent. */
    var waitingPlayer: Socket?
    /** `connectedClients`. */
    var connectedClients: int
    /** Everything the server emitted itself, in order. */
    var outbox: seq<Sent>
    /** The admitted sockets that have not disconnected yet. */
    ghost var live: set<Socket>

    /** The counter counts the admitted, still connected sockets and never
        passes the capacity. */
    ghost predicate Valid()
      reads this
    {
      connectedClients == |live| && connectedClients <= Capacity
    }

    /** Module start-up: nobody waiting, nobody connected. */
    constructor ()
      ensures Valid() && waitingPlayer == null && connectedClients == 0 && live == {} && outbox == []
    {
      waitingPlayer := null;
      connectedClients := 0;
      outbox := [];
      live := {};
    }

    /** The `connection` handler: at capacity the socket is told the server is
        full and closed, and the counter stays; otherwise it is admitted and
        the counter rises by one. */
    method Connection(sock: Socket) returns (accepted: bool)
      requires Valid() && sock !in live
      modifies this
      ensures Valid() && waitingPlayer == old(waitingPlayer)
      ensures accepted <==> old(connectedClients) < Capacity
      ensures connectedClients == if accepted then old(connectedClients) + 1 else old(connectedClients)
      ensures live == if accepted then old(live) + {sock} else old(live)
      ensures outbox == old(outbox) +
        if accepted then [] else [Sent(sock, ConnectionRejected("El servidor esta lleno")), Sent(sock, Closed)]
    {
      if connectedClients >= Capacity {
        outbox := outbox + [Sent(sock, ConnectionRejected("El servidor esta lleno")), Sent(sock, Closed)];
        return false;
      }
      connectedClients := connectedClients + 1;
      live := live + {sock};
      accepted := true;
    }

    /** The `playerReady` handler: store the name on the socket; with nobody
        waiting, park the socket and tell it to wait; otherwise start a game
        with the waiting socket in seat 0 and this one in seat 1, and empty
        the queue. A socket that is already waiting is paired with itself. */
    method PlayerReady(sock: Socket, playerName: string) returns (game: RpsGame?)
      requires Valid()
      modifies this, sock, waitingPlayer
      ensures Valid() && connectedClients == old(connectedClients) && live == old(live)
      ensures sock.playerName == playerName
      ensures old(waitingPlayer) == null ==>
        game == null && waitingPlayer == sock && StatsOf(sock) == old(StatsOf(sock)) &&
        sock.id == old(sock.id) && outbox == old(outbox) + [Sent(sock, Message("Waiting for an opponent"))]
      ensures old(waitingPlayer) != null ==>
        game != null && fresh(game) && game.players == [old(waitingPlayer), sock] && game.Opening() &&
        waitingPlayer == null && outbox == old(outbox)
      ensures old(waitingPlayer) != null && old(waitingPlayer) != sock ==>
        old(waitingPlayer).playerName == old(waitingPlayer.playerName)
    {
      sock.playerName := playerName;
      if waitingPlayer != null {
        game := new RpsGame(waitingPlayer, sock);
        waitingPlayer := null;
      } else {
        game := null;
        waitingPlayer := sock;
        outbox := outbox + [Sent(waitingPlayer, Message("Waiting for an opponent"))];
      }
    }

    /** The `disconnect` handler of an admitted socket: the counter drops by
        one; the queue (even if it holds this socket) and any game are left
        as they are. */
    method Disconnect(sock: Socket)
      requires Valid() && sock in live
      modifies this
      ensures Valid() && waitingPlayer == old(waitingPlayer) && outbox == old(outbox)
      ensures connectedClients == old(connectedClients) - 1 && live == old(live) - {sock}
    {
      connectedClients := connectedClients - 1;
      live := live - {sock};
    }
  }
}
