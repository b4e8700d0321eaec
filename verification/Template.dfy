// json::Template at the level of JSON trees: binding members to keys,
// synthetizing an object from them, and extracting them from an object that
// may have other keys as well (uses in inc/lesf/ipc/message.h,
// src/ipc/message_factory.cpp and src/log/message.cpp).
module Template {
  import opened Wrappers
  import opened Hex
  import opened TimePoint

  datatype Json = JObject(fields: map<string, Json>) | JString(text: string) | JInt(i: int) | JBool(b: bool)

  datatype JsonError = MissingKey(key: string) | WrongNode | BadTime

  // The members bound so far, in the order of the bind calls.
  type Template = seq<Binding>
  datatype Binding = Bind(key: string, field: Field)
  datatype Field = Int(i: int) | Bool(b: bool) | Str(s: string) | Time(t: int64) | Sub(tpl: seq<Binding>)

  // The same without the values: what extraction starts from.
  datatype Slot = Slot(key: string, kind: Kind)
  datatype Kind = KInt | KBool | KStr | KTime | KSub(shape: seq<Slot>)

  function ShapeOf(t: Template): (r: seq<Slot>)
    ensures |r| == |t|
    decreases t, 0
  {
    if t == [] then []
    else
      var b := t[|t| - 1];
      ShapeOf(t[..|t| - 1]) + [Slot(b.key, KindOf(b.field))]
  }

  function KindOf(f: Field): Kind
    decreases f, 1
  {
    match f
    case Int(_) => KInt
    case Bool(_) => KBool
    case Str(_) => KStr
    case Time(_) => KTime
    case Sub(t) => KSub(ShapeOf(t))
  }

  predicate Distinct(t: Template) {
    && (forall i, j :: 0 <= i < j < |t| ==> t[i].key != t[j].key)
    && (forall i :: 0 <= i < |t| && t[i].field.Sub? ==> Distinct(t[i].field.tpl))
  }

  function Synthetize(t: Template): map<string, Json>
    decreases t, 0
  {
    if t == [] then map[]
    else
      var b := t[|t| - 1];
      Synthetize(t[..|t| - 1])[b.key := SynthetizeField(b.field)]
  }

  function SynthetizeField(f: Field): Json
    decreases f, 1
  {
    match f
    case Int(i) => JInt(i)
    case Bool(b) => JBool(b)
    case Str(s) => JString(s)
    case Time(t) => JString(TimePoint.Synthetize(t))
    case Sub(t) => JObject(Synthetize(t))
  }

  function Extract(shape: seq<Slot>, obj: map<string, Json>): Result<Template, JsonError>
    decreases shape, 0
  {
    if shape == [] then Success([])
    else
      var slot := shape[|shape| - 1];
      match Extract(shape[..|shape| - 1], obj)
      case Failure(e) => Failure(e)
      case Success(t) =>
        if slot.key !in obj then Failure(MissingKey(slot.key))
        else
          match ExtractField(slot.kind, obj[slot.key])
          case Failure(e) => Failure(e)
          case Success(field) => Success(t + [Bind(slot.key, field)])
  }

  function ExtractField(kind: Kind, node: Json): Result<Field, JsonError>
    decreases kind, 1
  {
    match kind
    case KInt => if node.JInt? then Success(Int(node.i)) else Failure(WrongNode)
    case KBool => if node.JBool? then Success(Bool(node.b)) else Failure(WrongNode)
    case KStr => if node.JString? then Success(Str(node.text)) else Failure(WrongNode)
    case KTime =>
      if !node.JString? then Failure(WrongNode)
      else
        (match TimePoint.Extract(node.text)
         case Failure(_) => Failure(BadTime)
         case Success(t) => Success(Time(t)))
    case KSub(shape) =>
      if !node.JObject? then Failure(WrongNode)
      else
        match Extract(shape, node.fields)
        case Failure(e) => Failure(e)
        case Success(t) => Success(Sub(t))
  }

  // ----- What extraction finds -----

  // An object holds the values of a template, possibly among other keys.
  predicate Covers(obj: map<string, Json>, t: Template)
    decreases t, 0
  {
    forall i :: 0 <= i < |t| ==> t[i].key in obj && CoversField(obj[t[i].key], t[i].field)
  }

  predicate CoversField(node: Json, f: Field)
    decreases f, 1
  {
    match f
    case Int(i) => node == JInt(i)
    case Bool(b) => node == JBool(b)
    case Str(s) => node == JString(s)
    case Time(t) => node.JString? && TimePoint.Extract(node.text) == Success(t)
    case Sub(t) => node.JObject? && Covers(node.fields, t)
  }

  lemma {:induction false} CoversLast(obj: map<string, Json>, t: Template)
    requires t != []
    ensures var b := t[|t| - 1];
      Covers(obj, t) <==> Covers(obj, t[..|t| - 1]) && b.key in obj && CoversField(obj[b.key], b.field)
  {
    var init := t[..|t| - 1];
    assert forall i :: 0 <= i < |init| ==> t[i] == init[i];
  }

  // Extraction yields a template's values from exactly the objects that hold
  // them, whatever other keys they have.
  lemma {:induction false} ExtractExact(obj: map<string, Json>, t: Template)
    ensures Extract(ShapeOf(t), obj) == Success(t) <==> Covers(obj, t)
    decreases t, 0
  {
    if t != [] {
      var init, b := t[..|t| - 1], t[|t| - 1];
      ExtractExact(obj, init);
      CoversLast(obj, t);
      assert ShapeOf(t)[..|t| - 1] == ShapeOf(init);
      assert t == init + [b];
      if b.key in obj {
        ExtractFieldExact(obj[b.key], b.field);
      }
    }
  }

  lemma {:induction false} ExtractFieldExact(node: Json, f: Field)
    ensures ExtractField(KindOf(f), node) == Success(f) <==> CoversField(node, f)
    decreases f, 1
  {
    if f.Sub? && node.JObject? {
      ExtractExact(node.fields, f.tpl);
    }
  }

  // What was extracted has the keys and types that were asked for.
  lemma {:induction false} ExtractKeepsShape(shape: seq<Slot>, obj: map<string, Json>)
    ensures Extract(shape, obj).Success? ==> ShapeOf(Extract(shape, obj).value) == shape
    decreases shape, 0
  {
    if shape != [] && Extract(shape, obj).Success? {
      var init, slot := shape[..|shape| - 1], shape[|shape| - 1];
      ExtractKeepsShape(init, obj);
      ExtractFieldKeepsKind(slot.kind, obj[slot.key]);
      var t := Extract(shape, obj).value;
      assert t[..|t| - 1] == Extract(init, obj).value;
      assert init + [slot] == shape;
    }
  }

  lemma {:induction false} ExtractFieldKeepsKind(kind: Kind, node: Json)
    ensures ExtractField(kind, node).Success? ==> KindOf(ExtractField(kind, node).value) == kind
    decreases kind, 1
  {
    if kind.KSub? && node.JObject? {
      ExtractKeepsShape(kind.shape, node.fields);
    }
  }

  lemma {:induction false} ShapeAt(t: Template)
    ensures forall i :: 0 <= i < |t| ==> ShapeOf(t)[i] == Slot(t[i].key, KindOf(t[i].field))
  {
    if t != [] {
      ShapeAt(t[..|t| - 1]);
    }
  }

  // Templates of one shape agree in all keys and types.
  lemma {:induction false} SameShapeAt(t: Template, u: Template)
    requires ShapeOf(t) == ShapeOf(u)
    ensures |t| == |u|
    ensures forall i :: 0 <= i < |t| ==> t[i].key == u[i].key && KindOf(t[i].field) == KindOf(u[i].field)
  {
    ShapeAt(t);
    ShapeAt(u);
    forall i | 0 <= i < |t| ensures t[i].key == u[i].key && KindOf(t[i].field) == KindOf(u[i].field) {
      assert ShapeOf(t)[i] == ShapeOf(u)[i];
    }
  }

  lemma {:induction false} SynthetizedAt(t: Template, i: nat)
    requires Distinct(t) && i < |t|
    ensures t[i].key in Synthetize(t) && Synthetize(t)[t[i].key] == SynthetizeField(t[i].field)
  {
    if i < |t| - 1 {
      SynthetizedAt(t[..|t| - 1], i);
    }
  }

  // The object has the keys of the template and no others.
  lemma {:induction false} SynthetizedKeys(t: Template, key: string)
    ensures key in Synthetize(t) <==> exists i :: 0 <= i < |t| && t[i].key == key
  {
    if t != [] {
      SynthetizedKeys(t[..|t| - 1], key);
      assert t == t[..|t| - 1] + [t[|t| - 1]];
    }
  }

  lemma SynthetizedPrefix(t: Template, i: nat)
    requires i < |t|
    ensures Synthetize(t[..i + 1]) == Synthetize(t[..i])[t[i].key := SynthetizeField(t[i].field)]
    ensures i == 0 ==> Synthetize(t[..i]) == map[]
    ensures i + 1 == |t| ==> t[..i + 1] == t
  {
    assert t[..i + 1][..i] == t[..i];
  }

  // How extraction fails: at the first slot whose key is missing or whose node
  // is not of its type.
  lemma ExtractFailsAt(shape: seq<Slot>, slot: Slot, obj: map<string, Json>)
    requires Extract(shape, obj).Success?
    ensures slot.key !in obj ==> Extract(shape + [slot], obj) == Failure(MissingKey(slot.key))
    ensures slot.key in obj && ExtractField(slot.kind, obj[slot.key]).Failure? ==>
      Extract(shape + [slot], obj) == Failure(ExtractField(slot.kind, obj[slot.key]).error)
    ensures slot.key in obj && ExtractField(slot.kind, obj[slot.key]).Success? ==>
      Extract(shape + [slot], obj)
      == Success(Extract(shape, obj).value + [Bind(slot.key, ExtractField(slot.kind, obj[slot.key]).value)])
  {
    assert (shape + [slot])[..|shape + [slot]| - 1] == shape;
  }

  lemma {:induction false} ExtractStaysFailed(shape: seq<Slot>, more: seq<Slot>, obj: map<string, Json>)
    requires Extract(shape, obj).Failure?
    ensures Extract(shape + more, obj) == Extract(shape, obj)
  {
    if more == [] {
      assert shape + more == shape;
    } else {
      assert (shape + more)[..|shape + more| - 1] == shape + more[..|more| - 1];
      ExtractStaysFailed(shape, more[..|more| - 1], obj);
    }
  }

  // Which nodes a field of each type takes, and what it reads from them.
  lemma FieldTakes(node: Json, shape: seq<Slot>)
    ensures ExtractField(KInt, node) == if node.JInt? then Success(Int(node.i)) else Failure(WrongNode)
    ensures ExtractField(KBool, node) == if node.JBool? then Success(Bool(node.b)) else Failure(WrongNode)
    ensures ExtractField(KStr, node) == if node.JString? then Success(Str(node.text)) else Failure(WrongNode)
    ensures ExtractField(KTime, node).Failure? <==> !(node.JString? && InAlphabet(node.text) && |node.text| == 16)
    ensures ExtractField(KTime, node) == Failure(WrongNode) <==> !node.JString?
    ensures ExtractField(KTime, node) == Failure(BadTime) <==>
      node.JString? && !(InAlphabet(node.text) && |node.text| == 16)
    ensures ExtractField(KSub(shape), node) ==
      if !node.JObject? then Failure(WrongNode)
      else if Extract(shape, node.fields).Failure? then Failure(Extract(shape, node.fields).error)
      else Success(Sub(Extract(shape, node.fields).value))
  {
    if node.JString? {
      ExtractErrors(node.text);
    }
  }

  lemma {:induction false} SynthetizedCovers(t: Template)
    requires Distinct(t)
    ensures Covers(Synthetize(t), t)
    decreases t, 0
  {
    forall i | 0 <= i < |t|
      ensures t[i].key in Synthetize(t) && CoversField(Synthetize(t)[t[i].key], t[i].field)
    {
      SynthetizedAt(t, i);
      SynthetizedFieldCovers(t[i].field);
    }
  }

  lemma {:induction false} SynthetizedFieldCovers(f: Field)
    requires f.Sub? ==> Distinct(f.tpl)
    ensures CoversField(SynthetizeField(f), f)
    decreases f, 1
  {
    match f
    case Time(t) => TimeRoundTrip(t);
    case Sub(t) => SynthetizedCovers(t);
    case _ =>
  }

  // Round trip of every template with distinct keys.
  lemma {:induction false} TemplateRoundTrip(t: Template)
    requires Distinct(t)
    ensures Extract(ShapeOf(t), Synthetize(t)) == Success(t)
  {
    SynthetizedCovers(t);
    ExtractExact(Synthetize(t), t);
  }
}
