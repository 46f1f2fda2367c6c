/** TcpServerSingle.cpp: the set of live connections, over all the connections the server ever made. */
module TcpServers {
  import opened TcpProtocol
  import P = TcpProtocol
  import opened TcpConnections

  /** `made` has every connection ever made, `connections` those in the server's set. */
  datatype Server = Server(made: map<nat, Conn>, connections: set<nat>, eraseFailed: bool)

  datatype ServerEvent = Accept(id: nat, config: Config) | On(id: nat, e: Event)

  const EMPTY := Server(map[], {}, false)

  function Accepting(s: Server, id: nat, config: Config): Server {
    s.(made := s.made[id := Establish(NewConn(config))], connections := s.connections + {id})
  }

  /** A step of one connection; its close callback erases it from the set. */
  function Stepping(s: Server, id: nat, e: Event): Server
    requires id in s.made && Enabled(s.made[id], e)
  {
    var d := P.Next(s.made[id], e);
    var closed := d.closes > s.made[id].closes;
    Server(s.made[id := d],
           if closed then s.connections - {id} else s.connections,
           s.eraseFailed || (closed && id !in s.connections))
  }

  predicate ServerEnabled(s: Server, e: ServerEvent) {
    match e
    case Accept(id, _) => id !in s.made
    case On(id, ev) => id in s.made && Enabled(s.made[id], ev) && Ruled(s.made[id], ev)
  }

  function ServerNext(s: Server, e: ServerEvent): Server
    requires ServerEnabled(s, e)
  {
    match e
    case Accept(id, config) => Accepting(s, id, config)
    case On(id, ev) => Stepping(s, id, ev)
  }

  predicate ServerLegal(s: Server, evs: seq<ServerEvent>)
    decreases evs
  {
    evs == [] || (ServerEnabled(s, evs[0]) && ServerLegal(ServerNext(s, evs[0]), evs[1..]))
  }

  function ServerRun(s: Server, evs: seq<ServerEvent>): Server
    requires ServerLegal(s, evs)
    decreases evs
  {
    if evs == [] then s else ServerRun(ServerNext(s, evs[0]), evs[1..])
  }

  ghost predicate ServerInv(s: Server) {
    && !s.eraseFailed
    && (forall id :: id in s.made ==> Inv(s.made[id]) && !s.made[id].state.Connecting?)
    && (forall id :: id in s.connections <==> id in s.made && Open(s.made[id]))
  }

  lemma ConnectionStep(c: Conn, e: Event)
    requires Inv(c) && !c.state.Connecting? && Enabled(c, e) && Ruled(c, e)
    ensures var d := P.Next(c, e);
            && Inv(d) && !d.state.Connecting?
            && (d.closes > c.closes <==> Open(c) && !Open(d))
            && (Open(d) ==> Open(c))
  {
    P.StepInv(c, e);
    assert Rank(c.state) <= Rank(P.Next(c, e).state) by {
      assert P.Next(c, e) == Run(c, [e]) by { assert Run(P.Next(c, e), []) == P.Next(c, e); }
      StateOnlyMovesForward(c, [e]);
    }
  }

  lemma ServerStep(s: Server, e: ServerEvent)
    requires ServerInv(s) && ServerEnabled(s, e)
    ensures ServerInv(ServerNext(s, e))
  {
    match e
    case Accept(id, config) =>
      P.StepInv(NewConn(config), EvEstablish);
    case On(id, ev) =>
      ConnectionStep(s.made[id], ev);
  }

  lemma {:induction false} ServerRunInv(s: Server, evs: seq<ServerEvent>)
    requires ServerInv(s) && ServerLegal(s, evs)
    ensures ServerInv(ServerRun(s, evs))
    decreases evs
  {
    if evs != [] {
      ServerStep(s, evs[0]);
      ServerRunInv(ServerNext(s, evs[0]), evs[1..]);
    }
  }

  /** In every run, over all connections and their interleavings, the set is exactly the established
      connections that are not yet disconnected, and every erase finds its connection there. */
  lemma SetIsExactlyTheLiveConnections(evs: seq<ServerEvent>)
    requires ServerLegal(EMPTY, evs)
    ensures var s := ServerRun(EMPTY, evs);
            && !s.eraseFailed
            && (forall id :: id in s.connections <==> id in s.made && Open(s.made[id]))
            && (forall id :: id in s.made ==> s.made[id].closes == if id in s.connections then 0 else 1)
  {
    ServerRunInv(EMPTY, evs);
  }

  /** The objects of `made` stand for the connections of the step system, and the two sets agree. */
  ghost predicate Matches(made: map<nat, TcpConnection>, connections: set<TcpConnection>, s: Server) {
    && made.Keys == s.made.Keys
    && (forall id :: id in made ==> (made[id] in connections <==> id in s.connections))
    && (forall conn :: conn in connections ==> conn in made.Values)
    && (forall i, j :: i in made && j in made && made[i] == made[j] ==> i == j)
  }

  lemma MatchesAccepting(made: map<nat, TcpConnection>, connections: set<TcpConnection>, s: Server,
                         id: nat, conn: TcpConnection, config: Config)
    requires Matches(made, connections, s) && id !in s.made && id !in s.connections
    requires conn !in connections && conn !in made.Values
    ensures Matches(made[id := conn], connections + {conn}, Accepting(s, id, config))
  {
    var after := made[id := conn];
    assert forall i :: i in after ==> i == id || (i in made && after[i] == made[i] && made[i] != conn);
    assert after[id] == conn;
    forall c | c in connections + {conn} ensures c in after.Values {
      if c != conn {
        var i :| i in made && made[i] == c;
        assert after[i] == c;
      }
    }
  }

  /** The server object. `made` numbers the connections it ever made, as the step system does. */
  class TcpServerSingle {
    const config: Config
    var connections: set<TcpConnection>
    ghost var made: map<nat, TcpConnection>

    ghost predicate Abstracts(s: Server)
      reads this
    {
      Matches(made, connections, s)
    }

    constructor (config: Config)
      ensures Abstracts(EMPTY) && connections == {}
    {
      this.config := config;
      connections, made := {}, map[];
    }

    method NewConnection(ghost s: Server, ghost id: nat) returns (conn: TcpConnection)
      requires Abstracts(s) && ServerInv(s) && ServerEnabled(s, Accept(id, config))
      modifies this
      ensures Abstracts(ServerNext(s, Accept(id, config)))
      ensures fresh(conn.Footprint()) && conn.outputBuffer.Valid()
      ensures conn.InputApart() && fresh(conn.inputBuffer) && fresh(conn.inputBuffer.storage)
      ensures made == old(made)[id := conn] && conn.View() == ServerNext(s, Accept(id, config)).made[id]
      ensures connections == old(connections) + {conn}
    {
      conn := new TcpConnection(config);
      MatchesAccepting(made, connections, s, id, conn, config);
      connections := connections + {conn};
      made := made[id := conn];
      conn.ConnectEstablished();
    }

    /** Called back by the step `e` of connection `id` that closes it. `erased` is what unordered_set::erase
        returns. */
    method CloseConnection(conn: TcpConnection, ghost s: Server, ghost id: nat, ghost e: Event)
      returns (erased: nat)
      requires Abstracts(s) && ServerInv(s) && id in made && conn == made[id]
      requires ServerEnabled(s, On(id, e)) && P.Next(s.made[id], e).closes > s.made[id].closes
      modifies `connections
      ensures Abstracts(ServerNext(s, On(id, e)))
      ensures connections == old(connections) - {conn} && erased == 1
    {
      ConnectionStep(s.made[id], e);
      assert conn in connections;
      var before := |connections|;
      connections := connections - {conn};
      erased := before - |connections|;
      assert erased == 1;
    }
  }
}
