// The message type registry and typed dispatch: registerMessageType,
// registerSlot, serialize and construct (inc/lesf/ipc/message_factory.h,
// src/ipc/message_factory.cpp, inc/lesf/ipc/endpoint.h, src/ipc/endpoint.cpp).
module MessageFactory {
  import opened Wrappers
  import T = Template

  // typeid(T).name()
  type Type = string

  // A concrete message: its type and its bound members.
  datatype Message = Message(kind: Type, members: T.Template)

  // LESF_IPC_MEMBERS fixes which members a type binds; types with none are
  // allowed.
  type Schema = Type -> seq<T.Slot>

  predicate OfSchema(schema: Schema, m: Message) {
    T.ShapeOf(m.members) == schema(m.kind) && T.Distinct(m.members)
  }

  datatype Error = IdInUse(id: string) | NotRegistered(kind: Type) | BadData | UnknownId(id: string)
                 | BadMembers(e: T.JsonError) | NoSlot(id: string) | BadCast

  // m_rtti_map, m_ctors (by the type each constructor builds), and the slots
  // of one endpoint (by the type each handler casts to).
  datatype Registry = Registry(rtti: map<Type, string>, ctors: map<string, Type>, slots: map<string, Type>)

  const EMPTY := Registry(map[], map[], map[])

  datatype Op = RegisterType(kind: Type, id: string) | RegisterSlot(kind: Type)

  // A registration that throws leaves everything as it was.
  function Apply(r: Registry, op: Op): Result<Registry, Error> {
    match op
    case RegisterType(kind, id) =>
      if id in r.ctors then Failure(IdInUse(id))
      else Success(r.(rtti := r.rtti[kind := id], ctors := r.ctors[id := kind]))
    case RegisterSlot(kind) =>
      if kind !in r.rtti then Failure(NotRegistered(kind))
      else Success(r.(slots := r.slots[r.rtti[kind] := kind]))
  }

  function After(ops: seq<Op>): Registry {
    if ops == [] then EMPTY
    else
      var before := After(ops[..|ops| - 1]);
      match Apply(before, ops[|ops| - 1])
      case Failure(_) => before
      case Success(r) => r
  }

  // ----- Soundness of the registry -----

  ghost predicate Sound(r: Registry) {
    && (forall k :: k in r.rtti ==> r.rtti[k] in r.ctors && r.ctors[r.rtti[k]] == k)
    && (forall id :: id in r.slots ==> id in r.ctors && r.ctors[id] == r.slots[id])
  }

  // Over every sequence of registrations, one type under several ids and
  // failed registrations included.
  lemma {:induction false} RegistrySound(ops: seq<Op>)
    ensures Sound(After(ops))
  {
    if ops != [] {
      RegistrySound(ops[..|ops| - 1]);
    }
  }

  // An id, once taken, keeps its type for ever.
  lemma {:induction false} IdsAreForever(ops: seq<Op>, more: seq<Op>, id: string)
    requires id in After(ops).ctors
    ensures id in After(ops + more).ctors && After(ops + more).ctors[id] == After(ops).ctors[id]
  {
    if more == [] {
      assert ops + more == ops;
    } else {
      assert (ops + more)[..|ops + more| - 1] == ops + more[..|more| - 1];
      IdsAreForever(ops, more[..|more| - 1], id);
    }
  }

  // ----- What registrations leave behind -----

  // Operation i is the first registration under its identifier: those succeed
  // and all others throw.
  predicate First(ops: seq<Op>, i: nat) {
    && i < |ops| && ops[i].RegisterType?
    && forall j :: 0 <= j < i && ops[j].RegisterType? ==> ops[j].id != ops[i].id
  }

  lemma FirstBefore(ops: seq<Op>, i: nat)
    requires ops != [] && i < |ops| - 1
    ensures First(ops, i) <==> First(ops[..|ops| - 1], i)
  {}

  // Which identifiers are taken, and by whom, is settled by the first
  // registration of each.
  lemma {:induction false} IdTaken(ops: seq<Op>, id: string)
    ensures id in After(ops).ctors <==> exists i: nat :: i < |ops| && ops[i].RegisterType? && ops[i].id == id
  {
    if ops != [] {
      var before := ops[..|ops| - 1];
      IdTaken(before, id);
      assert forall i :: 0 <= i < |before| ==> ops[i] == before[i];
    }
  }

  lemma {:induction false} IdTakenByFirst(ops: seq<Op>, i: nat)
    requires First(ops, i)
    ensures ops[i].id in After(ops).ctors && After(ops).ctors[ops[i].id] == ops[i].kind
  {
    var before := ops[..|ops| - 1];
    if i < |before| {
      FirstBefore(ops, i);
      IdTakenByFirst(before, i);
    } else {
      IdTaken(before, ops[i].id);
    }
  }

  // Operation i is the latest successful registration of the type.
  predicate Latest(ops: seq<Op>, i: nat, kind: Type) {
    First(ops, i) && ops[i].kind == kind && forall j: nat :: i < j < |ops| && First(ops, j) ==> ops[j].kind != kind
  }

  // A type goes by the identifier of its latest successful registration, and
  // by none if it has had none.
  lemma {:induction false} TypeHasLatestId(ops: seq<Op>, kind: Type)
    ensures forall i: nat :: Latest(ops, i, kind) ==>
      kind in After(ops).rtti && After(ops).rtti[kind] == ops[i].id
    ensures kind in After(ops).rtti ==> exists i: nat :: Latest(ops, i, kind)
  {
    if ops != [] {
      var n := |ops| - 1;
      TypeHasLatestId(ops[..n], kind);
      if ops[n].RegisterType? {
        IdTaken(ops[..n], ops[n].id);
      }
      forall i: nat | Latest(ops, i, kind)
        ensures kind in After(ops).rtti && After(ops).rtti[kind] == ops[i].id
      {
        if i < n {
          LatestBefore(ops, i, kind);
        }
      }
      if kind in After(ops).rtti {
        var i := SomeLatest(ops, ops[..n], kind);
      }
    }
  }

  lemma LatestBefore(ops: seq<Op>, i: nat, kind: Type)
    requires ops != [] && i < |ops| - 1
    ensures Latest(ops, i, kind) <==>
      Latest(ops[..|ops| - 1], i, kind) && !(First(ops, |ops| - 1) && ops[|ops| - 1].kind == kind)
  {
    forall j: nat | j < |ops| - 1 ensures First(ops, j) <==> First(ops[..|ops| - 1], j) {
      FirstBefore(ops, j);
    }
  }

  lemma SomeLatest(ops: seq<Op>, before: seq<Op>, kind: Type) returns (i: nat)
    requires ops != [] && before == ops[..|ops| - 1] && kind in After(ops).rtti
    requires kind in After(before).rtti ==> exists k: nat :: Latest(before, k, kind)
    ensures Latest(ops, i, kind)
  {
    var n := |ops| - 1;
    if ops[n].RegisterType? {
      IdTaken(before, ops[n].id);
    }
    if First(ops, n) && ops[n].kind == kind {
      i := n;
    } else {
      i :| Latest(before, i, kind);
      LatestBefore(ops, i, kind);
    }
  }

  lemma {:induction false} TypesStayRegistered(ops: seq<Op>, more: seq<Op>, kind: Type)
    requires kind in After(ops).rtti
    ensures kind in After(ops + more).rtti
    ensures (forall i :: 0 <= i < |more| && more[i].RegisterType? ==> more[i].kind != kind) ==>
      After(ops + more).rtti[kind] == After(ops).rtti[kind]
  {
    if more == [] {
      assert ops + more == ops;
    } else {
      assert (ops + more)[..|ops + more| - 1] == ops + more[..|more| - 1];
      TypesStayRegistered(ops, more[..|more| - 1], kind);
    }
  }

  // A slot, once connected, stays, under its identifier and for its type.
  lemma {:induction false} SlotsStayConnected(ops: seq<Op>, more: seq<Op>, id: string)
    requires id in After(ops).slots
    ensures id in After(ops + more).slots && After(ops + more).slots[id] == After(ops).slots[id]
  {
    RegistrySound(ops);
    RegistrySound(ops + more);
    if more == [] {
      assert ops + more == ops;
    } else {
      assert (ops + more)[..|ops + more| - 1] == ops + more[..|more| - 1];
      SlotsStayConnected(ops, more[..|more| - 1], id);
      IdsAreForever(ops, more, id);
    }
  }

  // A slot is there exactly if it was registered when its type went by that
  // identifier.
  lemma {:induction false} SlotsConnected(ops: seq<Op>, id: string)
    ensures id in After(ops).slots <==>
      exists i :: 0 <= i < |ops| && ops[i].RegisterSlot?
        && ops[i].kind in After(ops[..i]).rtti && After(ops[..i]).rtti[ops[i].kind] == id
  {
    if ops != [] {
      var n := |ops| - 1;
      SlotsConnected(ops[..n], id);
      forall i | 0 <= i < n ensures ops[..n][..i] == ops[..i] {}
    }
  }

  // ----- serialize and construct -----

  // M_push, or an empty object if the type binds nothing.
  function Payload(m: Message): T.Json {
    T.JObject(T.Synthetize(m.members))
  }

  function Serialize(r: Registry, m: Message): Result<T.Json, Error> {
    if m.kind !in r.rtti then Failure(NotRegistered(m.kind))
    else Success(T.JObject(map["id" := T.JString(r.rtti[m.kind]), "payload" := Payload(m)]))
  }

  // M_pull extracts nothing for a type that binds nothing.
  function Pull(shape: seq<T.Slot>, payload: T.Json): Result<T.Template, T.JsonError> {
    if shape == [] then Success([])
    else if !payload.JObject? then Failure(T.WrongNode)
    else T.Extract(shape, payload.fields)
  }

  // The message and its identifier.
  function Construct(r: Registry, schema: Schema, data: T.Json): Result<(Message, string), Error> {
    if !data.JObject? || "id" !in data.fields || !data.fields["id"].JString? || "payload" !in data.fields then
      Failure(BadData)
    else
      var id := data.fields["id"].text;
      if id !in r.ctors then Failure(UnknownId(id))
      else
        match Pull(schema(r.ctors[id]), data.fields["payload"])
        case Failure(e) => Failure(BadMembers(e))
        case Success(members) => Success((Message(r.ctors[id], members), id))
  }

  // What M_receiveThread does with the text: construct, find the slot, cast.
  function Dispatch(r: Registry, schema: Schema, data: T.Json): Result<Message, Error> {
    match Construct(r, schema, data)
    case Failure(e) => Failure(e)
    case Success((m, id)) =>
      if id !in r.slots then Failure(NoSlot(id))
      else if r.slots[id] != m.kind then Failure(BadCast)
      else Success(m)
  }

  // A registered message arrives with its type, its identifier and its
  // members.
  lemma ConstructSerialize(r: Registry, schema: Schema, m: Message)
    requires Sound(r) && OfSchema(schema, m)
    ensures Serialize(r, m).Success? <==> m.kind in r.rtti
    ensures m.kind in r.rtti ==>
      Construct(r, schema, Serialize(r, m).value) == Success((m, r.rtti[m.kind]))
  {
    if m.kind in r.rtti {
      T.TemplateRoundTrip(m.members);
      assert m.members == [] ==> schema(m.kind) == [];
    }
  }

  // The tree of a registered message, in figures: its identifier, and its
  // members under their keys, and nothing else.
  lemma SerializedAs(r: Registry, m: Message)
    requires m.kind in r.rtti && T.Distinct(m.members)
    ensures Serialize(r, m).Success?
    ensures var tree := Serialize(r, m).value;
      && tree.JObject? && tree.fields.Keys == {"id", "payload"}
      && tree.fields["id"] == T.JString(r.rtti[m.kind]) && tree.fields["payload"].JObject?
      && var payload := tree.fields["payload"].fields;
         && (forall i :: 0 <= i < |m.members| ==>
               m.members[i].key in payload && T.CoversField(payload[m.members[i].key], m.members[i].field))
         && (forall key :: key in payload ==> exists i :: 0 <= i < |m.members| && m.members[i].key == key)
  {
    T.SynthetizedCovers(m.members);
    var payload := T.Synthetize(m.members);
    forall key | key in payload ensures exists i :: 0 <= i < |m.members| && m.members[i].key == key {
      T.SynthetizedKeys(m.members, key);
    }
  }

  // The parts construct needs are there.
  predicate Readable(data: T.Json) {
    data.JObject? && "id" in data.fields && data.fields["id"].JString? && "payload" in data.fields
  }

  // The payload holds the members of m, which are those of its type.
  predicate Holds(payload: T.Json, schema: Schema, m: Message) {
    && T.ShapeOf(m.members) == schema(m.kind)
    && (m.members != [] ==> payload.JObject? && T.Covers(payload.fields, m.members))
  }

  // construct yields a message and an identifier from exactly the trees that
  // have that identifier, registered for the message's type, and its members.
  lemma ConstructExact(r: Registry, schema: Schema, data: T.Json, m: Message, id: string)
    ensures Construct(r, schema, data) == Success((m, id)) <==>
      Readable(data) && data.fields["id"].text == id && id in r.ctors && r.ctors[id] == m.kind
      && Holds(data.fields["payload"], schema, m)
  {
    if Readable(data) && data.fields["id"].text == id && id in r.ctors && r.ctors[id] == m.kind {
      PullExact(schema(m.kind), data.fields["payload"], m.members);
    }
  }

  lemma PullExact(shape: seq<T.Slot>, payload: T.Json, members: T.Template)
    ensures Pull(shape, payload) == Success(members) <==>
      T.ShapeOf(members) == shape && (members != [] ==> payload.JObject? && T.Covers(payload.fields, members))
  {
    if payload.JObject? && shape != [] {
      T.ExtractKeepsShape(shape, payload.fields);
      if T.ShapeOf(members) == shape {
        T.ExtractExact(payload.fields, members);
      }
    }
  }

  // And it fails in this order: malformed data, an unknown identifier, members
  // that are not those of the type.
  lemma ConstructFails(r: Registry, schema: Schema, data: T.Json)
    ensures Construct(r, schema, data) == Failure(BadData) <==> !Readable(data)
    ensures Readable(data) ==>
      var id := data.fields["id"].text;
      && (Construct(r, schema, data) == Failure(UnknownId(id)) <==> id !in r.ctors)
      && (id in r.ctors ==>
            (Construct(r, schema, data).Failure? <==>
              forall m: Message :: m.kind == r.ctors[id] ==> !Holds(data.fields["payload"], schema, m)))
  {
    if Readable(data) && data.fields["id"].text in r.ctors {
      var id := data.fields["id"].text;
      if Construct(r, schema, data).Success? {
        ConstructExact(r, schema, data, Construct(r, schema, data).value.0, id);
      } else {
        forall m: Message | m.kind == r.ctors[id] ensures !Holds(data.fields["payload"], schema, m) {
          ConstructExact(r, schema, data, m, id);
        }
      }
    }
  }

  // Two types never go by the same identifier.
  lemma DistinctIds(ops: seq<Op>, a: Type, b: Type)
    requires a in After(ops).rtti && b in After(ops).rtti
    ensures After(ops).rtti[a] == After(ops).rtti[b] ==> a == b
  {
    RegistrySound(ops);
  }

  // The cast in a slot never fails, whatever data arrives; and a registered
  // message reaches its handler exactly when a slot is connected under the
  // identifier its type has now.
  lemma DispatchSound(ops: seq<Op>, schema: Schema, data: T.Json)
    ensures Dispatch(After(ops), schema, data) != Failure(BadCast)
    ensures forall m ::
      OfSchema(schema, m) && m.kind in After(ops).rtti && Serialize(After(ops), m) == Success(data) ==>
        if After(ops).rtti[m.kind] in After(ops).slots
        then Dispatch(After(ops), schema, data) == Success(m)
        else Dispatch(After(ops), schema, data) == Failure(NoSlot(After(ops).rtti[m.kind]))
  {
    RegistrySound(ops);
    var r := After(ops);
    forall m | OfSchema(schema, m) && m.kind in r.rtti && Serialize(r, m) == Success(data)
      ensures if r.rtti[m.kind] in r.slots then Dispatch(r, schema, data) == Success(m)
              else Dispatch(r, schema, data) == Failure(NoSlot(r.rtti[m.kind]))
    {
      ConstructSerialize(r, schema, m);
    }
  }

  // Connecting a slot for a registered type makes its messages arrive.
  lemma ConnectedSlotDelivers(ops: seq<Op>, schema: Schema, m: Message)
    requires OfSchema(schema, m) && m.kind in After(ops).rtti
    ensures var r := After(ops + [RegisterSlot(m.kind)]);
      && Serialize(r, m) == Serialize(After(ops), m) && Serialize(r, m).Success?
      && Dispatch(r, schema, Serialize(r, m).value) == Success(m)
  {
    var all := ops + [RegisterSlot(m.kind)];
    assert all[..|all| - 1] == ops;
    RegistrySound(all);
    ConstructSerialize(After(all), schema, m);
  }

  // And they go on arriving, whatever is registered, until the type itself is
  // registered again.
  lemma ConnectedSlotGoesOn(ops: seq<Op>, more: seq<Op>, schema: Schema, m: Message)
    requires OfSchema(schema, m) && m.kind in After(ops).rtti && After(ops).rtti[m.kind] in After(ops).slots
    requires forall i :: 0 <= i < |more| && more[i].RegisterType? ==> more[i].kind != m.kind
    ensures var r := After(ops + more);
      Serialize(r, m).Success? && Dispatch(r, schema, Serialize(r, m).value) == Success(m)
  {
    TypesStayRegistered(ops, more, m.kind);
    SlotsStayConnected(ops, more, After(ops).rtti[m.kind]);
    RegistrySound(ops + more);
    ConstructSerialize(After(ops + more), schema, m);
  }

  // A type registered again under a new identifier is no longer dispatched to
  // the slot it had: its messages go out under the new identifier, which no
  // slot has yet.
  lemma ReregisteringDisconnects(ops: seq<Op>, schema: Schema, m: Message, id: string)
    requires OfSchema(schema, m) && id !in After(ops).ctors
    ensures var r := After(ops + [RegisterType(m.kind, id)]);
      && r.slots == After(ops).slots
      && Serialize(r, m).Success?
      && Dispatch(r, schema, Serialize(r, m).value) == Failure(NoSlot(id))
  {
    var all := ops + [RegisterType(m.kind, id)];
    assert all[..|all| - 1] == ops;
    RegistrySound(ops);
    RegistrySound(all);
    ConstructSerialize(After(all), schema, m);
  }

  // The static maps and an endpoint's slots, updated in place.
  class Factory {
    var rttiMap: map<Type, string>
    var ctors: map<string, Type>
    var slots: map<string, Type>

    ghost function View(): Registry
      reads this
    {
      Registry(rttiMap, ctors, slots)
    }

    constructor ()
      ensures View() == EMPTY
    {
      rttiMap, ctors, slots := map[], map[], map[];
    }

    method RegisterMessageType(kind: Type, id: string) returns (r: Result<(), Error>)
      modifies this
      ensures r.Failure? <==> id in old(ctors)
      ensures r.Success? ==> kind in rttiMap && rttiMap[kind] == id && id in ctors && ctors[id] == kind
      ensures forall k :: k in old(rttiMap) && (k != kind || r.Failure?) ==>
        k in rttiMap && rttiMap[k] == old(rttiMap[k])
      ensures forall i :: i in old(ctors) ==> i in ctors && ctors[i] == old(ctors[i])
      ensures slots == old(slots)
      ensures match Apply(old(View()), RegisterType(kind, id))
              case Failure(e) => r == Failure(e) && View() == old(View())
              case Success(v) => View() == v
    {
      if id in ctors {
        return Failure(IdInUse(id));
      }
      rttiMap := rttiMap[kind := id];
      ctors := ctors[id := kind];
      r := Success(());
    }

    method TypeIdentifier(kind: Type) returns (r: Result<string, Error>)
      ensures r == if kind in rttiMap then Success(rttiMap[kind]) else Failure(NotRegistered(kind))
    {
      r := if kind in rttiMap then Success(rttiMap[kind]) else Failure(NotRegistered(kind));
    }

    method ConnectSlot(kind: Type) returns (r: Result<(), Error>)
      modifies this
      ensures match Apply(old(View()), RegisterSlot(kind))
              case Failure(e) => r == Failure(e) && View() == old(View())
              case Success(v) => r.Success? && View() == v
      ensures r.Failure? <==> kind !in old(rttiMap)
      ensures r.Success? ==> rttiMap[kind] in slots && slots[rttiMap[kind]] == kind
      ensures forall i :: i in old(slots) && (r.Failure? || i != rttiMap[kind]) ==>
        i in slots && slots[i] == old(slots[i])
      ensures rttiMap == old(rttiMap) && ctors == old(ctors)
    {
      var id := TypeIdentifier(kind);
      if id.Failure? {
        return Failure(id.error);
      }
      slots := slots[id.value := kind];
      r := Success(());
    }

    // construct, with the identifier as an out-parameter.
    method ConstructMessage(schema: Schema, data: T.Json) returns (r: Result<Message, Error>, id: string)
      ensures match Construct(View(), schema, data)
              case Failure(e) => r == Failure(e)
              case Success((m, i)) => r == Success(m) && id == i
      ensures id == if r.Success? || r.error.BadMembers? then data.fields["id"].text else ""
    {
      id := "";
      if !data.JObject? || "id" !in data.fields || !data.fields["id"].JString? || "payload" !in data.fields {
        return Failure(BadData), id;
      }
      var name := data.fields["id"].text;
      if name !in ctors {
        return Failure(UnknownId(name)), id;
      }
      id := name;
      var members := Pull(schema(ctors[name]), data.fields["payload"]);
      if members.Failure? {
        return Failure(BadMembers(members.error)), id;
      }
      r := Success(Message(ctors[name], members.value));
    }
  }
}
