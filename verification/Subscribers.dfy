// log::Server and its subscribers: back-pointers one way, a set of raw
// pointers the other, and the fan-out of every message (src/log/server.cpp,
// inc/lesf/log/server.h).
module Subscribers {

  class Server {
    var subscribers: set<Subscriber>

    constructor ()
      ensures subscribers == {}
    {
      subscribers := {};
    }
  }

  // `received` is what M_notifyMessageReceived was called with, and
  // `orphaned` counts the calls of M_notifyServerDeleted.
  class Subscriber {
    var server: Server?
    var received: seq<string>
    var orphaned: nat

    // The Subscriber constructor.
    constructor (s: Server)
      modifies s
      ensures server == s && received == [] && orphaned == 0
      ensures s.subscribers == old(s.subscribers) + {this}
    {
      server, received, orphaned := s, [], 0;
      new;
      s.subscribers := s.subscribers + {this};
    }
  }

  // The live objects: a live subscriber points to a live server exactly when
  // it is in that server's set, and no set holds a dead subscriber.
  ghost predicate Consistent(servers: set<Server>, subs: set<Subscriber>)
    reads servers, subs
  {
    && (forall sv :: sv in servers ==> sv.subscribers <= subs)
    && (forall sub :: sub in subs ==> sub.server == null || sub.server in servers)
    && (forall sv, sub :: sv in servers && sub in subs ==> (sub.server == sv <==> sub in sv.subscribers))
  }

  method CreateServer(ghost servers: set<Server>, ghost subs: set<Subscriber>) returns (sv: Server)
    requires Consistent(servers, subs)
    ensures fresh(sv) && sv.subscribers == {}
    ensures Consistent(servers + {sv}, subs)
  {
    sv := new Server();
  }

  method Subscribe(ghost servers: set<Server>, ghost subs: set<Subscriber>, sv: Server)
    returns (sub: Subscriber)
    requires Consistent(servers, subs) && sv in servers
    modifies sv
    ensures fresh(sub) && sub.server == sv && sub.received == [] && sub.orphaned == 0
    ensures sv.subscribers == old(sv.subscribers) + {sub}
    ensures Consistent(servers, subs + {sub})
  {
    sub := new Subscriber(sv);
  }

  // ~Subscriber: only a live server is touched.
  method DestroySubscriber(ghost servers: set<Server>, ghost subs: set<Subscriber>, sub: Subscriber)
    requires Consistent(servers, subs) && sub in subs
    modifies servers
    ensures Consistent(servers, subs - {sub})
    ensures forall sv :: sv in servers ==> sv.subscribers == old(sv.subscribers) - {sub}
  {
    if sub.server != null {
      assert sub.server in servers;
      sub.server.subscribers := sub.server.subscribers - {sub};
    }
  }

  // ~Server: every subscriber it has is told once and forgets it; the others
  // are left alone.
  method DestroyServer(ghost servers: set<Server>, ghost subs: set<Subscriber>, sv: Server)
    requires Consistent(servers, subs) && sv in servers
    modifies sv.subscribers
    ensures Consistent(servers - {sv}, subs)
    ensures forall sub :: sub in subs ==>
      && sub.server == (if sub in old(sv.subscribers) then null else old(sub.server))
      && sub.orphaned == old(sub.orphaned) + (if sub in old(sv.subscribers) then 1 else 0)
      && sub.received == old(sub.received)
  {
    var todo := sv.subscribers;
    while todo != {}
      invariant todo <= sv.subscribers == old(sv.subscribers)
      invariant forall sub :: sub in subs ==>
        var told := sub in sv.subscribers && sub !in todo;
        && sub.server == (if told then null else old(sub.server))
        && sub.orphaned == old(sub.orphaned) + (if told then 1 else 0)
        && sub.received == old(sub.received)
      decreases |todo|
    {
      var it :| it in todo;
      it.server := null;
      it.orphaned := it.orphaned + 1;
      todo := todo - {it};
    }
  }

  // M_notifyMessageReceived: the subscribers registered at that moment get
  // the message once each, and nobody else does.
  method Notify(ghost servers: set<Server>, ghost subs: set<Subscriber>, sv: Server, msg: string)
    requires Consistent(servers, subs) && sv in servers
    modifies sv.subscribers
    ensures Consistent(servers, subs)
    ensures forall sub :: sub in subs ==>
      && sub.received == old(sub.received) + (if sub.server == sv then [msg] else [])
      && sub.server == old(sub.server) && sub.orphaned == old(sub.orphaned)
  {
    var todo := sv.subscribers;
    while todo != {}
      invariant todo <= sv.subscribers == old(sv.subscribers)
      invariant forall sub :: sub in subs ==>
        var told := sub in sv.subscribers && sub !in todo;
        && sub.received == old(sub.received) + (if told then [msg] else [])
        && sub.server == old(sub.server) && sub.orphaned == old(sub.orphaned)
      decreases |todo|
    {
      var it :| it in todo;
      it.received := it.received + [msg];
      todo := todo - {it};
    }
  }
}
