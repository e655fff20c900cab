/** The client: one connector towards the server and at most one current
    connection. `connect`/`disconnect`/`stop` set whether the client wants to
    be connected; a new socket from the connector becomes the current
    connection; when that connection closes the client drops it and, if it
    retries and still wants to be connected, restarts the connector. The
    peer address text, the socket and the `connect` errno of a (re)start
    are parameters. */
module Clients {
  import Connectors
  import Connections
  import Servers

  /** What the client asks of its loop. */
  datatype Effect =
    | QueueDestroy(conn: Connections.TcpConnection)      // `queueInLoop(connectDestroyed)`
    | RerouteCloseToLoop(conn: Connections.TcpConnection) // the destructor's `setCloseCb` on the loop
    | ScheduleRemoveConnector                            // the destructor's `runAfter(1, removeConnector)`

  class TcpClient {
    const name: string
    const connector: Connectors.Connector
    var retry: bool
    var connectFlag: bool
    var nextConnId: nat
    var connection: Connections.TcpConnection?
    /** The name of the connection made last. */
    var connName: string
    var effects: seq<Effect>

    ghost predicate Valid()
      reads this, connector, connector.channel
      reads if connection == null then {} else {connection, connection.channel, connection.inputBuffer, connection.outputBuffer}
    {
      connector.Valid()
      && nextConnId >= 1
      && (connection != null ==> connection.Valid())
    }

    /** A new client does not retry, wants to connect, counts from 1 and has
        no connection. */
    constructor (name: string)
      ensures Valid() && fresh(connector)
      ensures this.name == name
      ensures !retry && connectFlag && nextConnId == 1 && connection == null && effects == []
      ensures connector.state == Connectors.Disconnected && connector.channel == null
    {
      this.name := name;
      connector := new Connectors.Connector();
      retry := false;
      connectFlag := true;
      nextConnId := 1;
      connection := null;
      connName := "";
      effects := [];
    }

    /** `enableRetry()`. */
    method EnableRetry()
      requires Valid()
      modifies this
      ensures Valid() && retry
      ensures connectFlag == old(connectFlag) && connection == old(connection) && nextConnId == old(nextConnId)
      ensures effects == old(effects)
    {
      retry := true;
    }

    /** `connect()`: wants to be connected and starts the connector. */
    method Connect(inLoopThread: bool, fd: int, errno: int)
      requires Valid()
      requires inLoopThread ==> connector.state == Connectors.Disconnected && connector.channel == null
      modifies this, connector
      ensures Valid() && connectFlag && connector.connectFlag
      ensures inLoopThread ==> (connector.state == Connectors.Connecting <==> Connectors.Classify(errno) == Connectors.InProgress)
      ensures inLoopThread && Connectors.Classify(errno) != Connectors.InProgress ==>
                connector.state == Connectors.Disconnected && connector.channel == null
      ensures !inLoopThread ==> connector.effects == old(connector.effects) + [Connectors.RunStartInLoop]
      ensures retry == old(retry) && connection == old(connection) && nextConnId == old(nextConnId)
      ensures effects == old(effects)
    {
      connectFlag := true;
      connector.Start(inLoopThread, fd, errno);
    }

    /** `disconnect()`: no longer wants to be connected and shuts the current
        connection down, if there is one. */
    method Disconnect(inLoopThread: bool)
      requires Valid()
      modifies this, connection
      ensures Valid() && !connectFlag
      ensures connection == old(connection) && retry == old(retry) && nextConnId == old(nextConnId)
      ensures connection != null && old(connection.state) == Connections.Connected ==>
                connection.state == Connections.Disconnecting
      ensures connection != null && old(connection.state) != Connections.Connected ==>
                connection.state == old(connection.state) && connection.effects == old(connection.effects)
      ensures effects == old(effects)
    {
      connectFlag := false;
      if connection != null {
        connection.Shutdown(inLoopThread);
      }
    }

    /** `stop()`: no longer wants to be connected and stops the connector. */
    method Stop()
      requires Valid()
      modifies this, connector
      ensures Valid() && !connectFlag && !connector.connectFlag
      ensures connector.effects == old(connector.effects) + [Connectors.QueueStopInLoop]
      ensures connector.state == old(connector.state) && connector.channel == old(connector.channel)
      ensures retry == old(retry) && connection == old(connection) && nextConnId == old(nextConnId)
      ensures effects == old(effects)
    {
      connectFlag := false;
      connector.Stop();
    }

    /** `newConnection(sockfd)`: the socket the connector hands over becomes
        a connection named after the client, the peer and the current id;
        the id advances, the connection becomes the current one, and only
        then is it established. */
    method NewConnection(sockfd: int, peer: string) returns (conn: Connections.TcpConnection)
      requires Valid()
      modifies this
      ensures Valid() && fresh(conn) && connection == conn
      ensures connName == Servers.ConnName(name, peer, old(nextConnId)) && nextConnId == old(nextConnId) + 1
      ensures conn.state == Connections.Connected && conn.channel.fd == sockfd
      ensures conn.channel.IsReading() && !conn.channel.IsWriting() && conn.channel.tied
      ensures conn.effects == [Connections.ConnectionCallback(true)] && conn.Stream() == []
      ensures retry == old(retry) && connectFlag == old(connectFlag) && effects == old(effects)
    {
      var id := nextConnId;
      connName := Servers.ConnName(name, peer, id);
      nextConnId := nextConnId + 1;
      conn := new Connections.TcpConnection(sockfd);
      connection := conn;
      conn.ConnectEstablished();
    }

    /** `removeConnection(conn)`: the closing connection must be the current
        one; it is dropped and destroyed via the loop, and the connector
        restarts exactly when the client retries and still wants to be
        connected. */
    method RemoveConnection(conn: Connections.TcpConnection, fd: int, errno: int)
      requires Valid() && connection == conn
      requires retry && connectFlag ==> connector.channel == null
      modifies this, connector
      ensures Valid() && connection == null
      ensures effects == old(effects) + [QueueDestroy(conn)]
      ensures retry && connectFlag ==> (connector.connectFlag
        && (connector.state == Connectors.Connecting <==> Connectors.Classify(errno) == Connectors.InProgress))
      ensures retry && connectFlag ==>
                connector.state == (if Connectors.Classify(errno) == Connectors.InProgress then Connectors.Connecting else Connectors.Disconnected)
                && connector.retryDelayMs == (if Connectors.Classify(errno) == Connectors.Retryable
                                              then Connectors.NextDelay(Connectors.InitRetryDelayMs) else Connectors.InitRetryDelayMs)
                && connector.effects == old(connector.effects)
                   + (match Connectors.Classify(errno)
                      case InProgress => []
                      case Retryable => [Connectors.CloseSocket(fd), Connectors.ScheduleStartInLoop(Connectors.InitRetryDelayMs)]
                      case Fatal => [Connectors.CloseSocket(fd)])
      ensures !(retry && connectFlag) ==> (connector.state == old(connector.state)
        && connector.effects == old(connector.effects) && connector.channel == old(connector.channel))
      ensures retry == old(retry) && connectFlag == old(connectFlag) && nextConnId == old(nextConnId)
    {
      connection := null;
      effects := effects + [QueueDestroy(conn)];
      if retry && connectFlag {
        connector.Restart(fd, errno);
      }
    }

    /** The destructor: with a current connection, its close is rerouted to
        a plain destroy on the loop; without one, the connector is stopped
        and its removal scheduled. */
    method Destroy()
      requires Valid()
      modifies this, connector
      ensures Valid() && connection == old(connection)
      ensures old(connection) != null ==> (effects == old(effects) + [RerouteCloseToLoop(old(connection))]
        && connector.effects == old(connector.effects))
      ensures old(connection) == null ==> (effects == old(effects) + [ScheduleRemoveConnector]
        && connector.effects == old(connector.effects) + [Connectors.QueueStopInLoop]
        && !connector.connectFlag)
    {
      if connection != null {
        effects := effects + [RerouteCloseToLoop(connection)];
      } else {
        connector.Stop();
        effects := effects + [ScheduleRemoveConnector];
      }
    }
  }
}
