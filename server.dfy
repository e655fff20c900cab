/** The server's connection registry: accepted sockets are named after the
    server, its listening address and a connection counter, recorded in a
    map from name to connection, handed to a loop of the pool round-robin,
    and torn down when the server goes away. `TcpServer`
    (cobra/tcp_server.cpp) and its twin `Server` (cobra/server.cpp) share
    this one model. Loop work is recorded as effects rather than run. */
module Servers {
  import Bytes
  import Pools

  /** The `char buf[32]` the name suffix is formatted into; `snprintf` keeps
      at most one character fewer than this, for the terminating NUL. */
  const NameBufSize := 32

  /** What the loop thread is asked to do. */
  datatype Effect =
    | Listen
    | EstablishInLoop(conn: string, loop: Pools.LoopId)
    | DestroyInLoop(conn: string, loop: Pools.LoopId)
    | QueueDestroy(conn: string, loop: Pools.LoopId)
    | QueueRemoveInLoop(conn: string)

  /** A registered connection: its socket and the loop that owns it. */
  datatype Conn = Conn(fd: int, loop: Pools.LoopId)

  /** The text `":%s#%d"` renders for the listening address and the id. */
  function Suffix(hostport: string, id: nat): string
  {
    ":" + hostport + "#" + Bytes.Decimal(id)
  }

  /** What `snprintf` leaves in a buffer of `n + 1` characters. */
  function Truncate(s: string, n: nat): (t: string)
    ensures |t| <= n && t <= s
    ensures |s| <= n ==> t == s
  {
    if |s| <= n then s else s[..n]
  }

  /** The connection name: the server name followed by the truncated suffix. */
  function ConnName(name: string, hostport: string, id: nat): string
  {
    name + Truncate(Suffix(hostport, id), NameBufSize - 1)
  }

  /** The suffix for `id` survives `snprintf` whole. */
  predicate SuffixFits(hostport: string, id: nat)
  {
    |Suffix(hostport, id)| < NameBufSize
  }

  /** Larger numbers never print shorter. */
  lemma {:induction false} DecimalLengthMonotone(a: nat, b: nat)
    requires a <= b
    ensures |Bytes.Decimal(a)| <= |Bytes.Decimal(b)|
  {
    if a >= 10 {
      DecimalLengthMonotone(a / 10, b / 10);
    }
  }

  /** While the suffixes fit, two ids give the same name only if they are
      the same id. */
  lemma NamesUnique(name: string, hostport: string, a: nat, b: nat)
    requires SuffixFits(hostport, a) && SuffixFits(hostport, b)
    ensures ConnName(name, hostport, a) == ConnName(name, hostport, b) <==> a == b
  {
    var sa, sb := Suffix(hostport, a), Suffix(hostport, b);
    assert ConnName(name, hostport, a) == name + sa;
    assert ConnName(name, hostport, b) == name + sb;
    if name + sa == name + sb {
      assert sa == (name + sa)[|name|..];
      assert sb == (name + sb)[|name|..];
      assert Bytes.Decimal(a) == sa[|hostport| + 2..];
      assert Bytes.Decimal(b) == sb[|hostport| + 2..];
      Bytes.DecimalInjective(a, b);
    }
  }

  /** When the earlier id fits, so does every smaller one. */
  lemma FitsBelow(hostport: string, a: nat, b: nat)
    requires a <= b && SuffixFits(hostport, b)
    ensures SuffixFits(hostport, a)
  {
    DecimalLengthMonotone(a, b);
  }

  /** Once the suffix is cut off, names repeat: with the longest IPv4
      address and port, connection 100000000 gets the name of connection
      10000000. */
  lemma NamesCollideWhenTruncated(name: string)
    ensures ConnName(name, "255.255.255.255:65535", 100000000)
         == ConnName(name, "255.255.255.255:65535", 10000000)
  {
    var hp := "255.255.255.255:65535";
    assert Bytes.Decimal(1) == "1";
    assert Bytes.Decimal(10) == "10";
    assert Bytes.Decimal(100) == "100";
    assert Bytes.Decimal(1000) == "1000";
    assert Bytes.Decimal(10000) == "10000";
    assert Bytes.Decimal(100000) == "100000";
    assert Bytes.Decimal(1000000) == "1000000";
    assert Bytes.Decimal(10000000) == "10000000";
    assert Bytes.Decimal(100000000) == "100000000";
    assert Suffix(hp, 100000000)[..31] == Suffix(hp, 10000000);
  }

  /** `connectDestroyed` requests for the names in `order`, in that order. */
  function Teardown(order: seq<string>, m: map<string, Conn>): (r: seq<Effect>)
    requires forall i :: 0 <= i < |order| ==> order[i] in m
    ensures |r| == |order|
  {
    if order == [] then []
    else Teardown(order[..|order| - 1], m) + [DestroyInLoop(order[|order| - 1], m[order[|order| - 1]].loop)]
  }

  /** The `i`-th request is for the `i`-th name, on that connection's loop. */
  lemma {:induction false} TeardownRequests(order: seq<string>, m: map<string, Conn>, i: nat)
    requires forall j :: 0 <= j < |order| ==> order[j] in m
    requires i < |order|
    ensures Teardown(order, m)[i] == DestroyInLoop(order[i], m[order[i]].loop)
  {
    if i < |order| - 1 {
      TeardownRequests(order[..|order| - 1], m, i);
    }
  }

  /** `order` lists every key exactly once. */
  predicate Enumerates(order: seq<string>, keys: set<string>)
  {
    |order| == |keys|
    && (forall i :: 0 <= i < |order| ==> order[i] in keys)
    && (forall k :: k in keys ==> k in order)
    && (forall i, j :: 0 <= i < j < |order| ==> order[i] != order[j])
  }

  /** Walks a set of names, listing each one once (the destructor's
      iteration over the registry). */
  method EnumerateKeys(keys: set<string>) returns (order: seq<string>)
    ensures Enumerates(order, keys)
  {
    var todo := keys;
    order := [];
    while todo != {}
      invariant todo <= keys
      invariant |order| + |todo| == |keys|
      invariant forall i :: 0 <= i < |order| ==> order[i] in keys && order[i] !in todo
      invariant forall k :: k in keys ==> k in order || k in todo
      invariant forall i, j :: 0 <= i < j < |order| ==> order[i] != order[j]
      decreases |todo|
    {
      var k :| k in todo;
      order := order + [k];
      todo := todo - {k};
    }
  }

  class TcpServer {
    const name: string
    const hostport: string
    const pool: Pools.WorkerThreadPool
    var started: bool
    var nextConnId: nat
    var connections: map<string, Conn>
    /** The id each registered name was made from. */
    ghost var idOf: map<string, nat>
    var effects: seq<Effect>

    /** Every registered name was built from an id the counter has passed. */
    ghost predicate Valid()
      reads this, pool
    {
      pool.Valid()
      && started == pool.started
      && nextConnId >= 1
      && (forall k :: k in connections ==>
            k in idOf && 1 <= idOf[k] < nextConnId && k == ConnName(name, hostport, idOf[k]))
    }

    /** A new server owns a fresh pool over its base loop, has no
        connections and starts counting at 1. */
    constructor (baseLoop: Pools.LoopId, name: string, hostport: string)
      ensures Valid() && fresh(pool) && pool.baseLoop == baseLoop
      ensures this.name == name && this.hostport == hostport
      ensures !started && nextConnId == 1 && connections == map[] && effects == []
      ensures pool.numThreads == 0 && pool.loops == []
    {
      this.name := name;
      this.hostport := hostport;
      pool := new Pools.WorkerThreadPool(baseLoop);
      started := false;
      nextConnId := 1;
      connections := map[];
      idOf := map[];
      effects := [];
    }

    /** `setThreadNum`: a non-negative count, passed to the pool. */
    method SetThreadNum(n: int)
      requires Valid() && 0 <= n
      modifies pool
      ensures Valid() && pool.numThreads == n
      ensures pool.loops == old(pool.loops)
    {
      pool.SetThreadNum(n);
    }

    /** `start`: the first call starts the pool and asks the loop to listen;
        later calls change nothing. */
    method Start(hasInitCb: bool, threadLoops: seq<Pools.LoopId>)
      requires Valid()
      requires !started ==> |threadLoops| == (if pool.numThreads > 0 then pool.numThreads else 0)
      modifies this, pool
      ensures Valid() && started
      ensures old(started) ==> effects == old(effects) && pool.loops == old(pool.loops)
      ensures !old(started) ==> effects == old(effects) + [Listen] && pool.loops == threadLoops
      ensures connections == old(connections) && nextConnId == old(nextConnId)
    {
      if !started {
        started := true;
        pool.Start(hasInitCb, threadLoops);
        effects := effects + [Listen];
      }
    }

    /** `newConnection`: picks the next loop, names the connection after the
        current id and advances the id, registers the connection under that
        name and asks its loop to establish it. While the suffix fits the
        name is new, so the registry grows by exactly one. */
    method NewConnection(sockfd: int) returns (connName: string, loop: Pools.LoopId)
      requires Valid()
      modifies this, pool
      ensures Valid()
      ensures connName == ConnName(name, hostport, old(nextConnId)) && nextConnId == old(nextConnId) + 1
      ensures old(pool.loops) == [] ==> loop == pool.baseLoop
      ensures old(pool.loops) != [] ==> loop == old(pool.loops)[old(pool.picks) % |old(pool.loops)|]
      ensures connections == old(connections)[connName := Conn(sockfd, loop)]
      ensures SuffixFits(hostport, old(nextConnId)) ==>
                connName !in old(connections) && |connections| == |old(connections)| + 1
      ensures effects == old(effects) + [EstablishInLoop(connName, loop)]
      ensures started == old(started) && pool.loops == old(pool.loops)
    {
      loop := pool.GetNextLoop();
      var id := nextConnId;
      connName := ConnName(name, hostport, id);
      nextConnId := nextConnId + 1;
      if SuffixFits(hostport, id) {
        forall k | k in connections
          ensures k != connName
        {
          FitsBelow(hostport, idOf[k], id);
          NamesUnique(name, hostport, idOf[k], id);
        }
      }
      connections := connections[connName := Conn(sockfd, loop)];
      idOf := idOf[connName := id];
      effects := effects + [EstablishInLoop(connName, loop)];
    }

    /** `removeConnection`: runs the removal at once on the loop thread,
        otherwise queues it there. */
    method RemoveConnection(connName: string, inLoopThread: bool)
      requires Valid()
      requires inLoopThread ==> connName in connections
      modifies this
      ensures Valid()
      ensures inLoopThread ==> (connections == old(connections) - {connName}
        && effects == old(effects) + [QueueDestroy(connName, old(connections)[connName].loop)])
      ensures !inLoopThread ==> (connections == old(connections)
        && effects == old(effects) + [QueueRemoveInLoop(connName)])
      ensures started == old(started) && nextConnId == old(nextConnId)
    {
      if inLoopThread {
        RemoveConnectionInLoop(connName);
      } else {
        effects := effects + [QueueRemoveInLoop(connName)];
      }
    }

    /** `removeConnectionInLoop`: erases exactly the entry under the
        connection's name (the source asserts there is one) and queues
        `connectDestroyed` on the connection's own loop. */
    method RemoveConnectionInLoop(connName: string)
      requires Valid() && connName in connections
      modifies this
      ensures Valid()
      ensures connections == old(connections) - {connName}
      ensures |connections| == |old(connections)| - 1
      ensures effects == old(effects) + [QueueDestroy(connName, old(connections)[connName].loop)]
      ensures started == old(started) && nextConnId == old(nextConnId)
    {
      var loop := connections[connName].loop;
      connections := connections - {connName};
      effects := effects + [QueueDestroy(connName, loop)];
    }

    /** The destructor: asks every registered connection's loop to run
        `connectDestroyed`, once per connection. */
    method Destroy()
      modifies this
      ensures connections == old(connections) && started == old(started)
      ensures exists order :: Enumerates(order, connections.Keys)
                && effects == old(effects) + Teardown(order, connections)
    {
      var order := EnumerateKeys(connections.Keys);
      effects := effects + Teardown(order, connections);
    }
  }
}
