/**
 * The MCP connection manager: one client per configured server, connected
 * at start-up, dropped and re-made on demand, and asked for its tool
 * catalog with one reconnect-and-retry per server when that fails.
 *
 * Connecting (transport plus `initialize`) and listing a server's tools are
 * oracles: `initialize(name, url, attempt)` says whether the attempt-th
 * connection attempt succeeds, and `fetch(client)` what listing that
 * client's tools gives (a timeout is one of its errors). Every attempt makes
 * a new client, so a retry after a reconnect asks a different client.
 */
module Connections {
  import opened Base
  import opened Records
  import opened Assoc

  const Unavailable: string := "所有 MCP Server 均不可用"

  /** A connected client: the server URL and the attempt that made it. */
  datatype Client = Client(url: string, attempt: nat)

  /** The manager's state: the live clients by server name, and how many connection attempts were made. */
  datatype Pool = Pool(clients: map<string, Client>, attempts: nat)

  /** The names of some configured servers. */
  function Names(servers: Entries<string>): set<string> {
    set i | 0 <= i < |servers| :: servers[i].0
  }

  lemma NamesSnoc(servers: Entries<string>, n: nat)
    requires 0 < n <= |servers|
    ensures Names(servers[..n]) == Names(servers[..n - 1]) + {servers[n - 1].0}
  {
    assert servers[..n][n - 1] == servers[n - 1];
    forall k | k in Names(servers[..n])
      ensures k in Names(servers[..n - 1]) + {servers[n - 1].0}
    {
      var j :| 0 <= j < n && servers[..n][j].0 == k;
      if j < n - 1 {
        assert servers[..n - 1][j] == servers[..n][j];
      }
    }
    forall k | k in Names(servers[..n - 1])
      ensures k in Names(servers[..n])
    {
      var j :| 0 <= j < n - 1 && servers[..n - 1][j].0 == k;
      assert servers[..n][j] == servers[..n - 1][j];
    }
  }

  /** Two maps that agree outside `names` and a third that agrees with the second outside `x`. */
  lemma MinusGrow<V>(r: map<string, V>, q: map<string, V>, p: map<string, V>, names: set<string>, x: string)
    requires r - {x} == q - {x}
    requires q - names == p - names
    ensures r - (names + {x}) == p - (names + {x})
  {
    forall k | k !in names && k != x
      ensures (k in r <==> k in p) && (k in r ==> r[k] == p[k])
    {
      assert (k in r <==> k in r - {x}) && (k in q <==> k in q - {x});
      assert (k in q <==> k in q - names) && (k in p <==> k in p - names);
      if k in r {
        assert r[k] == (r - {x})[k] == (q - {x})[k] == q[k];
        assert q[k] == (q - names)[k] == (p - names)[k] == p[k];
      }
    }
  }

  // ------------------------------------------------------------------ connect and disconnect

  /** `doConnect`: one more attempt; the client is stored only when it initializes. */
  function Connect(p: Pool, name: string, url: string, initialize: (string, string, nat) -> bool): (r: Pool)
    ensures r.attempts == p.attempts + 1
    ensures name in r.clients <==> initialize(name, url, p.attempts) || name in p.clients
    ensures initialize(name, url, p.attempts) ==> r.clients[name] == Client(url, p.attempts)
    ensures r.clients - {name} == p.clients - {name}
  {
    var clients := if initialize(name, url, p.attempts) then p.clients[name := Client(url, p.attempts)] else p.clients;
    Pool(clients, p.attempts + 1)
  }

  /** `doDisconnect`: the name's client, if any, is gone; a failing close changes nothing more. */
  function Disconnect(p: Pool, name: string): (r: Pool)
    ensures name !in r.clients
    ensures r.clients - {name} == p.clients - {name}
    ensures r.attempts == p.attempts
    ensures name !in p.clients ==> r == p
  {
    Pool(p.clients - {name}, p.attempts)
  }

  /**
   * `reconnect`: an unknown name changes nothing and fails; a configured one
   * is disconnected and connected again, and succeeds iff it is connected
   * afterwards.
   */
  function Reconnected(p: Pool, servers: Entries<string>, name: string, initialize: (string, string, nat) -> bool): (r: (Pool, bool))
    ensures !HasKey(servers, name) ==> r == (p, false)
    ensures HasKey(servers, name) ==>
              r.1 == (name in r.0.clients) && r.1 == initialize(name, Get(servers, name).value, p.attempts)
              && r.0.attempts == p.attempts + 1
    ensures r.0.clients - {name} == p.clients - {name}
  {
    match Get(servers, name)
    case None => (p, false)
    case Some(url) =>
      var q := Connect(Disconnect(p, name), name, url, initialize);
      (q, name in q.clients)
  }

  /** `init`: every configured server connected in turn. */
  function ConnectEach(p: Pool, servers: Entries<string>, n: nat, initialize: (string, string, nat) -> bool): (r: Pool)
    requires n <= |servers|
    ensures r.attempts == p.attempts + n
  {
    if n == 0 then p
    else Connect(ConnectEach(p, servers, n - 1, initialize), servers[n - 1].0, servers[n - 1].1, initialize)
  }

  /** `reconnectAll`: every configured server reconnected in turn. */
  function ReconnectEach(p: Pool, servers: Entries<string>, n: nat, initialize: (string, string, nat) -> bool): (r: Pool)
    requires n <= |servers|
  {
    if n == 0 then p
    else Reconnected(ReconnectEach(p, servers, n - 1, initialize), servers, servers[n - 1].0, initialize).0
  }

  /**
   * After start-up each configured server is connected iff its own attempt
   * (the i-th) initialized, with a client of that attempt, and no other name
   * is connected.
   */
  lemma {:induction false} ConnectEachOutcome(servers: Entries<string>, n: nat, initialize: (string, string, nat) -> bool)
    requires KeysDistinct(servers) && n <= |servers|
    ensures var r := ConnectEach(Pool(map[], 0), servers, n, initialize);
      (forall i :: 0 <= i < n ==>
         (servers[i].0 in r.clients <==> initialize(servers[i].0, servers[i].1, i))
         && (servers[i].0 in r.clients ==> r.clients[servers[i].0] == Client(servers[i].1, i)))
      && r.clients.Keys <= Names(servers[..n])
  {
    if n > 0 {
      ConnectEachOutcome(servers, n - 1, initialize);
      var q := ConnectEach(Pool(map[], 0), servers, n - 1, initialize);
      var r := ConnectEach(Pool(map[], 0), servers, n, initialize);
      assert r == Connect(q, servers[n - 1].0, servers[n - 1].1, initialize);
      forall i | 0 <= i < n - 1
        ensures servers[i].0 != servers[n - 1].0
      {
      }
      var front := servers[..n - 1];
      assert servers[n - 1].0 !in Names(front) by {
        forall j | 0 <= j < n - 1
          ensures front[j].0 != servers[n - 1].0
        {
          assert front[j] == servers[j];
        }
      }
      forall k | k in r.clients.Keys
        ensures k in Names(servers[..n])
      {
        if k != servers[n - 1].0 {
          assert k in q.clients;
          var j :| 0 <= j < n - 1 && servers[..n - 1][j].0 == k;
          assert servers[..n][j] == servers[..n - 1][j];
        } else {
          assert servers[..n][n - 1] == servers[n - 1];
        }
      }
    }
  }

  /**
   * `reconnectAll` reconnects each configured server once: each is connected
   * afterwards iff its own attempt initialized, and a name that is not
   * configured keeps whatever it had.
   */
  lemma {:induction false} ReconnectEachOutcome(p: Pool, servers: Entries<string>, n: nat, initialize: (string, string, nat) -> bool)
    requires KeysDistinct(servers) && n <= |servers|
    ensures var r := ReconnectEach(p, servers, n, initialize);
      r.attempts == p.attempts + n
      && (forall i :: 0 <= i < n ==>
            (servers[i].0 in r.clients <==> initialize(servers[i].0, servers[i].1, p.attempts + i)))
      && r.clients - Names(servers[..n]) == p.clients - Names(servers[..n])
  {
    if n > 0 {
      ReconnectEachOutcome(p, servers, n - 1, initialize);
      var q := ReconnectEach(p, servers, n - 1, initialize);
      var r := ReconnectEach(p, servers, n, initialize);
      var name := servers[n - 1].0;
      assert r == Reconnected(q, servers, name, initialize).0;
      ReconnectStep(q, servers, n, initialize);
      NamesSnoc(servers, n);
      MinusGrow(r.clients, q.clients, p.clients, Names(servers[..n - 1]), name);
    }
  }

  /** Reconnecting the n-th configured server: one attempt, its own outcome, the earlier ones untouched. */
  lemma ReconnectStep(q: Pool, servers: Entries<string>, n: nat, initialize: (string, string, nat) -> bool)
    requires KeysDistinct(servers) && 0 < n <= |servers|
    ensures var r := Reconnected(q, servers, servers[n - 1].0, initialize).0;
      r.attempts == q.attempts + 1
      && (servers[n - 1].0 in r.clients <==> initialize(servers[n - 1].0, servers[n - 1].1, q.attempts))
      && (forall i :: 0 <= i < n - 1 ==> (servers[i].0 in r.clients <==> servers[i].0 in q.clients))
      && r.clients - {servers[n - 1].0} == q.clients - {servers[n - 1].0}
  {
    var name := servers[n - 1].0;
    GetEntry(servers, n - 1);
    var r := Reconnected(q, servers, name, initialize).0;
    forall i | 0 <= i < n - 1
      ensures servers[i].0 in r.clients <==> servers[i].0 in q.clients
    {
      var k := servers[i].0;
      assert k != name;
      assert (k in r.clients <==> k in r.clients - {name}) && (k in q.clients <==> k in q.clients - {name});
    }
  }

  // ------------------------------------------------------------------ the tool catalog

  /** What asking a server for its tools gives: no client (null), the tools, or an error or timeout. */
  datatype Fetch = Missing | Listed(tools: seq<Tool>) | Failed(message: string)

  /** `getToolCallbacksFromServer`. */
  function FetchOf(p: Pool, name: string, fetch: Client -> Result<seq<Tool>>): (r: Fetch)
    ensures r.Missing? <==> name !in p.clients
  {
    if name !in p.clients then Missing
    else
      match fetch(p.clients[name])
      case Ok(tools) => Listed(tools)
      case Err(m) => Failed(m)
  }

  /**
   * One server's turn in `getToolCallbacks`: a listing, even an empty one,
   * is used as it is; otherwise the server is reconnected once and, if that
   * succeeds, asked once more. A server that still fails adds nothing.
   */
  function ServerTools(p: Pool, servers: Entries<string>, name: string,
                       initialize: (string, string, nat) -> bool, fetch: Client -> Result<seq<Tool>>): (r: (Pool, seq<Tool>))
    ensures FetchOf(p, name, fetch).Listed? ==> r == (p, FetchOf(p, name, fetch).tools)
    ensures !FetchOf(p, name, fetch).Listed? ==>
              r.0 == Reconnected(p, servers, name, initialize).0
              && (FetchOf(r.0, name, fetch).Listed? ==> r.1 == FetchOf(r.0, name, fetch).tools)
              && (!FetchOf(r.0, name, fetch).Listed? ==> r.1 == [])
  {
    var first := FetchOf(p, name, fetch);
    if first.Listed? then (p, first.tools)
    else
      var (q, ok) := Reconnected(p, servers, name, initialize);
      if ok then
        var second := FetchOf(q, name, fetch);
        (q, if second.Listed? then second.tools else [])
      else (q, [])
  }

  /** The first `n` servers' turns, in iteration order: the state they leave and the tools they add. */
  function Gather(p: Pool, servers: Entries<string>, n: nat,
                  initialize: (string, string, nat) -> bool, fetch: Client -> Result<seq<Tool>>): (r: (Pool, seq<Tool>))
    requires n <= |servers|
    ensures p.attempts <= r.0.attempts <= p.attempts + n
  {
    if n == 0 then (p, [])
    else
      var (q, tools) := Gather(p, servers, n - 1, initialize, fetch);
      var (q2, more) := ServerTools(q, servers, servers[n - 1].0, initialize, fetch);
      (q2, tools + more)
  }

  /** Tools gathered from earlier servers come first and are kept. */
  lemma {:induction false} GatherKeepsEarlier(p: Pool, servers: Entries<string>, m: nat, n: nat,
                                              initialize: (string, string, nat) -> bool, fetch: Client -> Result<seq<Tool>>)
    requires m <= n <= |servers|
    ensures var early := Gather(p, servers, m, initialize, fetch).1;
      var all := Gather(p, servers, n, initialize, fetch).1;
      |early| <= |all| && all[..|early|] == early
    decreases n
  {
    if m < n {
      GatherKeepsEarlier(p, servers, m, n - 1, initialize, fetch);
      var mid := Gather(p, servers, n - 1, initialize, fetch);
      var more := ServerTools(mid.0, servers, servers[n - 1].0, initialize, fetch).1;
      var early := Gather(p, servers, m, initialize, fetch).1;
      assert Gather(p, servers, n, initialize, fetch).1 == mid.1 + more;
      assert (mid.1 + more)[..|early|] == mid.1[..|early|];
    }
  }

  /** When every server answers its first request, nothing is reconnected and each server's tools are used. */
  lemma {:induction false} GatherHealthy(p: Pool, servers: Entries<string>, n: nat,
                                         initialize: (string, string, nat) -> bool, fetch: Client -> Result<seq<Tool>>)
    requires n <= |servers|
    requires forall i :: 0 <= i < n ==> FetchOf(p, servers[i].0, fetch).Listed?
    ensures Gather(p, servers, n, initialize, fetch).0 == p
    ensures n > 0 ==> Gather(p, servers, n, initialize, fetch).1 ==
                      Gather(p, servers, n - 1, initialize, fetch).1 + FetchOf(p, servers[n - 1].0, fetch).tools
  {
    if n > 0 {
      GatherHealthy(p, servers, n - 1, initialize, fetch);
    }
  }

  // ------------------------------------------------------------------ the manager

  class ConnectionManager {
    /** The configured servers, name to URL, in iteration order. */
    const servers: Entries<string>
    const initialize: (string, string, nat) -> bool
    const fetch: Client -> Result<seq<Tool>>
    var clients: map<string, Client>
    var attempts: nat

    constructor(servers: Entries<string>, initialize: (string, string, nat) -> bool, fetch: Client -> Result<seq<Tool>>)
      ensures this.servers == servers && this.initialize == initialize && this.fetch == fetch
      ensures clients == map[] && attempts == 0
    {
      this.servers := servers;
      this.initialize := initialize;
      this.fetch := fetch;
      clients := map[];
      attempts := 0;
    }

    method DoConnect(name: string, url: string)
      modifies this
      ensures Pool(clients, attempts) == Connect(old(Pool(clients, attempts)), name, url, initialize)
    {
      if initialize(name, url, attempts) {
        clients := clients[name := Client(url, attempts)];
      }
      attempts := attempts + 1;
    }

    method DoDisconnect(name: string)
      modifies this
      ensures Pool(clients, attempts) == Disconnect(old(Pool(clients, attempts)), name)
    {
      if name in clients {
        clients := clients - {name};
      }
    }

    /** `init`: connects every configured server in iteration order. */
    method Init()
      modifies this
      ensures Pool(clients, attempts) == ConnectEach(old(Pool(clients, attempts)), servers, |servers|, initialize)
    {
      ghost var p := Pool(clients, attempts);
      for k := 0 to |servers|
        invariant Pool(clients, attempts) == ConnectEach(p, servers, k, initialize)
      {
        DoConnect(servers[k].0, servers[k].1);
      }
    }

    /** `destroy`: disconnects every connected server. */
    method Destroy()
      modifies this
      ensures clients == map[] && attempts == old(attempts)
    {
      while clients != map[]
        invariant attempts == old(attempts)
        decreases |clients.Keys|
      {
        var name :| name in clients;
        DoDisconnect(name);
      }
    }

    method Reconnect(name: string) returns (ok: bool)
      modifies this
      ensures (Pool(clients, attempts), ok) == Reconnected(old(Pool(clients, attempts)), servers, name, initialize)
      ensures ok <==> HasKey(servers, name) && name in clients
    {
      var url := Get(servers, name);
      if url.None? {
        return false;
      }
      DoDisconnect(name);
      DoConnect(name, url.value);
      ok := name in clients;
    }

    /** `reconnectAll`: reconnects every configured server in iteration order. */
    method ReconnectAll()
      modifies this
      ensures Pool(clients, attempts) == ReconnectEach(old(Pool(clients, attempts)), servers, |servers|, initialize)
    {
      ghost var p := Pool(clients, attempts);
      for k := 0 to |servers|
        invariant Pool(clients, attempts) == ReconnectEach(p, servers, k, initialize)
      {
        var _ := Reconnect(servers[k].0);
      }
    }

    method FetchFrom(name: string) returns (f: Fetch)
      ensures f == FetchOf(Pool(clients, attempts), name, fetch)
    {
      if name !in clients {
        return Missing;
      }
      match fetch(clients[name])
      case Ok(tools) => f := Listed(tools);
      case Err(m) => f := Failed(m);
    }

    /** One server's turn: first request, then at most one reconnect and one retry. */
    method ServerTurn(name: string) returns (tools: seq<Tool>)
      modifies this
      ensures (Pool(clients, attempts), tools) == ServerTools(old(Pool(clients, attempts)), servers, name, initialize, fetch)
    {
      var first := FetchFrom(name);
      if first.Listed? {
        return first.tools;
      }
      tools := [];
      var ok := Reconnect(name);
      if ok {
        var second := FetchFrom(name);
        if second.Listed? {
          tools := second.tools;
        }
      }
    }

    /**
     * `getToolCallbacks`: every server's tools in iteration order, failing
     * only when there are none at all.
     */
    method GetToolCallbacks() returns (result: Result<seq<Tool>>)
      modifies this
      ensures var g := Gather(old(Pool(clients, attempts)), servers, |servers|, initialize, fetch);
        Pool(clients, attempts) == g.0
        && (g.1 == [] ==> result == Err(Unavailable))
        && (g.1 != [] ==> result == Ok(g.1))
    {
      ghost var p := Pool(clients, attempts);
      var all: seq<Tool> := [];
      for k := 0 to |servers|
        invariant (Pool(clients, attempts), all) == Gather(p, servers, k, initialize, fetch)
      {
        var more := ServerTurn(servers[k].0);
        all := all + more;
      }
      if all == [] {
        return Err(Unavailable);
      }
      return Ok(all);
    }
  }
}
