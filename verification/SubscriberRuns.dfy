// Any interleaving of creating and destroying servers and subscribers and of
// messages: who is told what follows from the order of events alone
// (src/log/server.cpp).
module SubscriberRuns {
  import opened Wrappers
  import opened Subscribers

  // Servers and subscribers are numbered in the order of their creation.
  datatype Event = NewServer | NewSubscriber(sv: nat) | DropSubscriber(sub: nat)
                 | DropServer(sv: nat) | Message(sv: nat, text: string)

  function ServersMade(es: seq<Event>): nat {
    if es == [] then 0 else ServersMade(es[..|es| - 1]) + if es[|es| - 1].NewServer? then 1 else 0
  }

  function SubscribersMade(es: seq<Event>): nat {
    if es == [] then 0 else SubscribersMade(es[..|es| - 1]) + if es[|es| - 1].NewSubscriber? then 1 else 0
  }

  predicate ServerLive(es: seq<Event>, k: nat) {
    k < ServersMade(es) && DropServer(k) !in es
  }

  predicate SubscriberLive(es: seq<Event>, j: nat) {
    j < SubscribersMade(es) && DropSubscriber(j) !in es
  }

  // Callers use live objects only.
  predicate Allowed(es: seq<Event>, e: Event) {
    match e
    case NewServer => true
    case NewSubscriber(k) => ServerLive(es, k)
    case DropSubscriber(j) => SubscriberLive(es, j)
    case DropServer(k) => ServerLive(es, k)
    case Message(k, _) => ServerLive(es, k)
  }

  predicate Proper(es: seq<Event>) {
    es == [] || (Proper(es[..|es| - 1]) && Allowed(es[..|es| - 1], es[|es| - 1]))
  }

  // The server subscriber j is registered with after the events.
  function Registered(es: seq<Event>, j: nat): Option<nat> {
    if es == [] then None
    else
      var before := es[..|es| - 1];
      match es[|es| - 1]
      case NewSubscriber(k) => if j == SubscribersMade(before) then Some(k) else Registered(before, j)
      case DropSubscriber(i) => if i == j then None else Registered(before, j)
      case DropServer(k) => if Registered(before, j) == Some(k) then None else Registered(before, j)
      case _ => Registered(before, j)
  }

  // The messages sent to the server j was registered with at that moment.
  function Inbox(es: seq<Event>, j: nat): seq<string> {
    if es == [] then []
    else
      var before := es[..|es| - 1];
      match es[|es| - 1]
      case Message(k, text) => Inbox(before, j) + if Registered(before, j) == Some(k) then [text] else []
      case _ => Inbox(before, j)
  }

  // How often j has lost the server it was registered with.
  function Orphanings(es: seq<Event>, j: nat): nat {
    if es == [] then 0
    else
      var before := es[..|es| - 1];
      match es[|es| - 1]
      case DropServer(k) => Orphanings(before, j) + if Registered(before, j) == Some(k) then 1 else 0
      case _ => Orphanings(before, j)
  }

  // ----- What follows from the events alone -----

  // Who is registered is alive, with a live server, and was never orphaned.
  lemma {:induction false} RegisteredIsLive(es: seq<Event>, j: nat)
    requires Proper(es)
    ensures Registered(es, j).Some? ==>
      SubscriberLive(es, j) && ServerLive(es, Registered(es, j).value) && Orphanings(es, j) == 0
    ensures Orphanings(es, j) <= 1
    ensures j >= SubscribersMade(es) ==>
      Registered(es, j) == None && Inbox(es, j) == [] && Orphanings(es, j) == 0 && DropSubscriber(j) !in es
  {
    if es != [] {
      RegisteredIsLive(es[..|es| - 1], j);
    }
  }

  // A subscriber whose server is gone never hears anything again.
  lemma {:induction false} SilenceAfterwards(es: seq<Event>, more: seq<Event>, j: nat)
    requires j < SubscribersMade(es) && Registered(es, j) == None
    ensures SubscribersMade(es) <= SubscribersMade(es + more)
    ensures Registered(es + more, j) == None && Inbox(es + more, j) == Inbox(es, j)
    ensures Orphanings(es + more, j) == Orphanings(es, j)
  {
    if more == [] {
      assert es + more == es;
    } else {
      assert (es + more)[..|es + more| - 1] == es + more[..|more| - 1];
      SilenceAfterwards(es, more[..|more| - 1], j);
    }
  }

  // ----- The objects after the events -----

  ghost function LiveServers(es: seq<Event>, servers: seq<Server>): set<Server> {
    set k | 0 <= k < |servers| && ServerLive(es, k) :: servers[k]
  }

  ghost function LiveSubscribers(es: seq<Event>, subs: seq<Subscriber>): set<Subscriber> {
    set j | 0 <= j < |subs| && SubscriberLive(es, j) :: subs[j]
  }

  predicate Distinct<T(==)>(objects: seq<T>) {
    forall i, j :: 0 <= i < j < |objects| ==> objects[i] != objects[j]
  }

  function Pointer(r: Option<nat>, servers: seq<Server>): Server? {
    if r.Some? && r.value < |servers| then servers[r.value] else null
  }

  ghost predicate Knows(es: seq<Event>, j: nat, servers: seq<Server>, sub: Subscriber)
    reads sub
  {
    && sub.server == Pointer(Registered(es, j), servers)
    && sub.received == Inbox(es, j)
    && sub.orphaned == Orphanings(es, j)
  }

  ghost predicate Matches(es: seq<Event>, servers: seq<Server>, subs: seq<Subscriber>)
    reads servers, subs
  {
    && |servers| == ServersMade(es) && |subs| == SubscribersMade(es)
    && Distinct(servers) && Distinct(subs)
    && Consistent(LiveServers(es, servers), LiveSubscribers(es, subs))
    && forall j :: 0 <= j < |subs| && SubscriberLive(es, j) ==> Knows(es, j, servers, subs[j])
  }

  lemma OneMore(es: seq<Event>, e: Event)
    ensures (es + [e])[..|es + [e]| - 1] == es
    ensures forall x :: x in es + [e] <==> x in es || x == e
  {}

  // How each event changes the live objects.
  lemma ServerAdded(es: seq<Event>, servers: seq<Server>, subs: seq<Subscriber>, sv: Server)
    requires Proper(es) && |servers| == ServersMade(es)
    ensures LiveServers(es + [NewServer], servers + [sv]) == LiveServers(es, servers) + {sv}
    ensures LiveSubscribers(es + [NewServer], subs) == LiveSubscribers(es, subs)
  {
    var es' := es + [NewServer];
    OneMore(es, NewServer);
    NotDroppedYet(es, |servers|);
    assert ServerLive(es', |servers|) && (servers + [sv])[|servers|] == sv;
    forall k | 0 <= k < |servers| && ServerLive(es, k)
      ensures servers[k] in LiveServers(es', servers + [sv])
    {
      assert ServerLive(es', k) && (servers + [sv])[k] == servers[k];
    }
  }

  lemma SubscriberAdded(es: seq<Event>, servers: seq<Server>, subs: seq<Subscriber>, k: nat, sub: Subscriber)
    requires Proper(es) && |subs| == SubscribersMade(es)
    ensures LiveServers(es + [NewSubscriber(k)], servers) == LiveServers(es, servers)
    ensures LiveSubscribers(es + [NewSubscriber(k)], subs + [sub]) == LiveSubscribers(es, subs) + {sub}
  {
    var es' := es + [NewSubscriber(k)];
    OneMore(es, NewSubscriber(k));
    RegisteredIsLive(es, |subs|);
    assert SubscriberLive(es', |subs|) && (subs + [sub])[|subs|] == sub;
    forall j | 0 <= j < |subs| && SubscriberLive(es, j)
      ensures subs[j] in LiveSubscribers(es', subs + [sub])
    {
      assert SubscriberLive(es', j) && (subs + [sub])[j] == subs[j];
    }
  }

  lemma SubscriberDropped(es: seq<Event>, servers: seq<Server>, subs: seq<Subscriber>, j: nat)
    requires j < |subs| && Distinct(subs)
    ensures LiveServers(es + [DropSubscriber(j)], servers) == LiveServers(es, servers)
    ensures LiveSubscribers(es + [DropSubscriber(j)], subs) == LiveSubscribers(es, subs) - {subs[j]}
  {
    OneMore(es, DropSubscriber(j));
    assert forall i :: 0 <= i < |subs| ==>
      (SubscriberLive(es + [DropSubscriber(j)], i) <==> SubscriberLive(es, i) && i != j);
  }

  lemma ServerDropped(es: seq<Event>, servers: seq<Server>, subs: seq<Subscriber>, k: nat)
    requires k < |servers| && Distinct(servers)
    ensures LiveServers(es + [DropServer(k)], servers) == LiveServers(es, servers) - {servers[k]}
    ensures LiveSubscribers(es + [DropServer(k)], subs) == LiveSubscribers(es, subs)
  {
    OneMore(es, DropServer(k));
    assert forall i :: 0 <= i < |servers| ==>
      (ServerLive(es + [DropServer(k)], i) <==> ServerLive(es, i) && i != k);
  }

  lemma NothingDropped(es: seq<Event>, servers: seq<Server>, subs: seq<Subscriber>, k: nat, text: string)
    ensures LiveServers(es + [Message(k, text)], servers) == LiveServers(es, servers)
    ensures LiveSubscribers(es + [Message(k, text)], subs) == LiveSubscribers(es, subs)
  {
    OneMore(es, Message(k, text));
  }

  lemma {:induction false} NotDroppedYet(es: seq<Event>, k: nat)
    requires Proper(es) && k >= ServersMade(es)
    ensures DropServer(k) !in es
  {
    if es != [] {
      NotDroppedYet(es[..|es| - 1], k);
    }
  }

  // A live subscriber points to the server it is registered with.
  lemma PointsTo(es: seq<Event>, servers: seq<Server>, j: nat, k: nat)
    requires Proper(es) && |servers| == ServersMade(es) && Distinct(servers) && k < |servers|
    ensures Pointer(Registered(es, j), servers) == servers[k] <==> Registered(es, j) == Some(k)
    ensures forall sv :: Pointer(Registered(es, j), servers + [sv]) == Pointer(Registered(es, j), servers)
  {
    RegisteredIsLive(es, j);
  }

  // ----- The methods of server.cpp, event by event -----

  method AddServer(ghost es: seq<Event>, servers: seq<Server>, ghost subs: seq<Subscriber>)
    returns (servers': seq<Server>)
    requires Proper(es) && Matches(es, servers, subs)
    ensures Matches(es + [NewServer], servers', subs)
    ensures |servers'| == |servers| + 1 && servers <= servers' && fresh(servers'[|servers|])
  {
    var sv := CreateServer(LiveServers(es, servers), LiveSubscribers(es, subs));
    servers' := servers + [sv];
    ServerAdded(es, servers, subs, sv);
    OneMore(es, NewServer);
    forall j | 0 <= j < |subs| && SubscriberLive(es, j)
      ensures Knows(es + [NewServer], j, servers', subs[j])
    {
      RegisteredIsLive(es, j);
    }
  }

  method AddSubscriber(ghost es: seq<Event>, servers: seq<Server>, subs: seq<Subscriber>, k: nat)
    returns (subs': seq<Subscriber>)
    requires Proper(es) && Matches(es, servers, subs) && ServerLive(es, k)
    modifies servers
    ensures Matches(es + [NewSubscriber(k)], servers, subs')
    ensures |subs'| == |subs| + 1 && subs <= subs' && fresh(subs'[|subs|])
  {
    var sub := Subscribe(LiveServers(es, servers), LiveSubscribers(es, subs), servers[k]);
    subs' := subs + [sub];
    SubscriberAdded(es, servers, subs, k, sub);
    OneMore(es, NewSubscriber(k));
    RegisteredIsLive(es, |subs|);
  }

  method RemoveSubscriber(ghost es: seq<Event>, ghost servers: seq<Server>, subs: seq<Subscriber>, j: nat)
    requires Proper(es) && Matches(es, servers, subs) && SubscriberLive(es, j)
    modifies servers
    ensures Matches(es + [DropSubscriber(j)], servers, subs)
  {
    DestroySubscriber(LiveServers(es, servers), LiveSubscribers(es, subs), subs[j]);
    SubscriberDropped(es, servers, subs, j);
    OneMore(es, DropSubscriber(j));
  }

  method RemoveServer(ghost es: seq<Event>, servers: seq<Server>, ghost subs: seq<Subscriber>, k: nat)
    requires Proper(es) && Matches(es, servers, subs) && ServerLive(es, k)
    modifies subs
    ensures Matches(es + [DropServer(k)], servers, subs)
  {
    DestroyServer(LiveServers(es, servers), LiveSubscribers(es, subs), servers[k]);
    ServerDropped(es, servers, subs, k);
    OneMore(es, DropServer(k));
    forall j | 0 <= j < |subs| && SubscriberLive(es, j)
      ensures Knows(es + [DropServer(k)], j, servers, subs[j])
    {
      PointsTo(es, servers, j, k);
    }
  }

  method SendMessage(ghost es: seq<Event>, servers: seq<Server>, ghost subs: seq<Subscriber>, k: nat, text: string)
    requires Proper(es) && Matches(es, servers, subs) && ServerLive(es, k)
    modifies subs
    ensures Matches(es + [Message(k, text)], servers, subs)
  {
    Notify(LiveServers(es, servers), LiveSubscribers(es, subs), servers[k], text);
    NothingDropped(es, servers, subs, k, text);
    OneMore(es, Message(k, text));
    forall j | 0 <= j < |subs| && SubscriberLive(es, j)
      ensures Knows(es + [Message(k, text)], j, servers, subs[j])
    {
      PointsTo(es, servers, j, k);
    }
  }

  method Step(ghost es: seq<Event>, e: Event, servers: seq<Server>, subs: seq<Subscriber>)
    returns (servers': seq<Server>, subs': seq<Subscriber>)
    requires Proper(es) && Allowed(es, e) && Matches(es, servers, subs)
    modifies servers, subs
    ensures Matches(es + [e], servers', subs')
    ensures |servers| <= |servers'| && servers == servers'[..|servers|]
    ensures |subs| <= |subs'| && subs == subs'[..|subs|]
    ensures forall k :: |servers| <= k < |servers'| ==> fresh(servers'[k])
    ensures forall j :: |subs| <= j < |subs'| ==> fresh(subs'[j])
  {
    servers', subs' := servers, subs;
    match e {
      case NewServer => servers' := AddServer(es, servers, subs);
      case NewSubscriber(k) => subs' := AddSubscriber(es, servers, subs, k);
      case DropSubscriber(j) => RemoveSubscriber(es, servers, subs, j);
      case DropServer(k) => RemoveServer(es, servers, subs, k);
      case Message(k, text) => SendMessage(es, servers, subs, k, text);
    }
  }

  // Any interleaving: the live objects are consistent, no dead one is touched,
  // and every live subscriber has received exactly the messages sent to its
  // server while it was registered, once each and in order.
  method Replay(es: seq<Event>) returns (servers: seq<Server>, subs: seq<Subscriber>)
    requires Proper(es)
    ensures Matches(es, servers, subs)
  {
    servers, subs := [], [];
    var i := 0;
    while i < |es|
      invariant 0 <= i <= |es| && Proper(es[..i])
      invariant Matches(es[..i], servers, subs)
      invariant forall k :: 0 <= k < |servers| ==> fresh(servers[k])
      invariant forall j :: 0 <= j < |subs| ==> fresh(subs[j])
    {
      Onwards(es, i);
      servers, subs := Step(es[..i], es[i], servers, subs);
      i := i + 1;
    }
    assert es[..i] == es;
  }

  lemma Onwards(es: seq<Event>, i: nat)
    requires Proper(es) && i < |es|
    ensures es[..i + 1] == es[..i] + [es[i]]
    ensures Proper(es[..i + 1]) && Allowed(es[..i], es[i])
  {
    assert es[..i + 1][..i] == es[..i];
    ProperPrefix(es, i + 1);
  }

  lemma {:induction false} ProperPrefix(es: seq<Event>, i: nat)
    requires Proper(es) && i <= |es|
    ensures Proper(es[..i])
  {
    if i < |es| {
      assert es[..|es| - 1][..i] == es[..i];
      ProperPrefix(es[..|es| - 1], i);
    } else {
      assert es[..i] == es;
    }
  }
}
