/** Derivation of a JSON Schema from a protobuf message descriptor
    (internal/egress/grpc/schema.go), over descriptor graphs that may be cyclic. */
module JsonSchema {
  import opened Basics

  datatype Kind =
    | BoolKind
    | Int32Kind | Sint32Kind | Uint32Kind | Fixed32Kind | Sfixed32Kind
    | Int64Kind | Sint64Kind | Uint64Kind | Fixed64Kind | Sfixed64Kind
    | FloatKind | DoubleKind
    | StringKind | BytesKind | EnumKind
    | MessageKind(message: string)
    | GroupKind(message: string)

  datatype Shape = Singular | List | MapField

  /** `kind` is the kind of the field, of its elements, or of its map values. */
  datatype Field = Field(jsonName: string, shape: Shape, kind: Kind)

  /** The fields of every message, by full name. A name without an entry is a
      placeholder descriptor, which has no fields. */
  type Graph = map<string, seq<Field>>

  datatype JsonType = BooleanType | IntegerType | NumberType | StringType

  datatype Schema =
    | Scalar(jsonType: JsonType)
    | BareObject
    | Object(properties: map<string, Schema>)
    | Array(items: Schema)
    | Dictionary(additional: Schema)

  function JsonTypeOf(k: Kind): JsonType
    requires !k.MessageKind? && !k.GroupKind?
  {
    match k
    case BoolKind => BooleanType
    case Int32Kind | Sint32Kind | Uint32Kind | Fixed32Kind | Sfixed32Kind => IntegerType
    case Int64Kind | Sint64Kind | Uint64Kind | Fixed64Kind | Sfixed64Kind => StringType
    case FloatKind | DoubleKind => NumberType
    case StringKind | BytesKind | EnumKind => StringType
  }

  /** The schema of message n below the messages in `visited`. The recursion ends because
      each message it enters leaves the set of messages not yet visited. */
  function MessageSchema(g: Graph, n: string, visited: set<string>): Schema
    decreases g.Keys - visited, 0, 0
  {
    if n in visited then BareObject
    else if n !in g then Object(map[])
    else Object(Properties(g, g[n], visited + {n}))
  }

  function Properties(g: Graph, fields: seq<Field>, visited: set<string>): map<string, Schema>
    decreases g.Keys - visited, 2, |fields|
  {
    if fields == [] then map[]
    else Properties(g, Front(fields), visited)[Last(fields).jsonName := FieldSchema(g, Last(fields), visited)]
  }

  function FieldSchema(g: Graph, f: Field, visited: set<string>): Schema
    decreases g.Keys - visited, 1, 1
  {
    match f.shape
    case List => Array(ElementSchema(g, f.kind, visited))
    case MapField => Dictionary(ElementSchema(g, f.kind, visited))
    case Singular => ElementSchema(g, f.kind, visited)
  }

  function ElementSchema(g: Graph, k: Kind, visited: set<string>): Schema
    decreases g.Keys - visited, 1, 0
  {
    if k.MessageKind? || k.GroupKind? then MessageSchema(g, k.message, visited) else Scalar(JsonTypeOf(k))
  }

  // ---- The derivation as the source runs it -----------------------------------

  /** The visited set, shared and mutated along the recursion. */
  class Visited {
    var seen: set<string>

    constructor ()
      ensures seen == {}
    {
      seen := {};
    }
  }

  method MessageToJSONSchema(g: Graph, n: string) returns (s: Schema)
    ensures s == MessageSchema(g, n, {})
  {
    var visited := new Visited();
    s := MessageToJSONSchemaWithVisited(g, n, visited);
  }

  /** Leaves the visited set as it found it. */
  method MessageToJSONSchemaWithVisited(g: Graph, n: string, visited: Visited) returns (s: Schema)
    modifies visited
    ensures visited.seen == old(visited.seen)
    ensures s == MessageSchema(g, n, old(visited.seen))
    decreases g.Keys - visited.seen, 0
  {
    if n in visited.seen {
      return BareObject;
    }
    visited.seen := visited.seen + {n};
    var properties := map[];
    var fields := if n in g then g[n] else [];
    var i := 0;
    while i < |fields|
      invariant 0 <= i <= |fields|
      invariant visited.seen == old(visited.seen) + {n}
      invariant properties == Properties(g, fields[..i], visited.seen)
    {
      var prop := FieldToSchemaProperty(g, fields[i], visited);
      properties := properties[fields[i].jsonName := prop];
      assert Front(fields[..i + 1]) == fields[..i];
      i := i + 1;
    }
    assert fields[..i] == fields;
    visited.seen := visited.seen - {n};
    s := Object(properties);
  }

  method FieldToSchemaProperty(g: Graph, f: Field, visited: Visited) returns (s: Schema)
    modifies visited
    ensures visited.seen == old(visited.seen)
    ensures s == FieldSchema(g, f, old(visited.seen))
    decreases g.Keys - visited.seen, 2
  {
    s := ScalarOrMessageSchema(g, f.kind, visited);
    match f.shape {
      case List => s := Array(s);
      case MapField => s := Dictionary(s);
      case Singular =>
    }
  }

  method ScalarOrMessageSchema(g: Graph, k: Kind, visited: Visited) returns (s: Schema)
    modifies visited
    ensures visited.seen == old(visited.seen)
    ensures s == ElementSchema(g, k, old(visited.seen))
    decreases g.Keys - visited.seen, 1
  {
    if k.MessageKind? || k.GroupKind? {
      s := MessageToJSONSchemaWithVisited(g, k.message, visited);
    } else {
      s := Scalar(JsonTypeOf(k));
    }
  }

  // ---- Values and conformance -------------------------------------------------

  datatype Member = Member(key: string, value: Value)

  datatype Value =
    | Null
    | Bool(b: bool)
    | Number(n: real)
    | Text(s: string)
    | Elements(elements: seq<Value>)
    | Members(members: seq<Member>)

  predicate OfType(t: JsonType, v: Value) {
    match t
    case BooleanType => v.Bool?
    case IntegerType => v.Number? && v.n == v.n.Floor as real
    case NumberType => v.Number?
    case StringType => v.Text?
  }

  /** JSON Schema validation for the keywords the derivation emits. */
  predicate Conforms(s: Schema, v: Value)
    decreases v
  {
    match s
    case Scalar(t) => OfType(t, v)
    case BareObject => v.Members?
    case Object(properties) =>
      && v.Members?
      && forall i :: 0 <= i < |v.members| && v.members[i].key in properties ==>
           Conforms(properties[v.members[i].key], v.members[i].value)
    case Array(items) =>
      v.Elements? && forall i :: 0 <= i < |v.elements| ==> Conforms(items, v.elements[i])
    case Dictionary(additional) =>
      v.Members? && forall i :: 0 <= i < |v.members| ==> Conforms(additional, v.members[i].value)
  }

  /** The JSON type of every scalar kind: 64-bit integers are strings, as ProtoJSON prints
      them, and 32-bit ones are integers. */
  lemma ScalarsAcceptExactly(g: Graph, k: Kind, visited: set<string>, v: Value)
    ensures k == BoolKind ==> (Conforms(ElementSchema(g, k, visited), v) <==> v.Bool?)
    ensures k in {Int32Kind, Sint32Kind, Uint32Kind, Fixed32Kind, Sfixed32Kind} ==>
      (Conforms(ElementSchema(g, k, visited), v) <==> v.Number? && v.n == v.n.Floor as real)
    ensures k in {Int64Kind, Sint64Kind, Uint64Kind, Fixed64Kind, Sfixed64Kind, StringKind, BytesKind, EnumKind} ==>
      (Conforms(ElementSchema(g, k, visited), v) <==> v.Text?)
    ensures k in {FloatKind, DoubleKind} ==> (Conforms(ElementSchema(g, k, visited), v) <==> v.Number?)
  {
  }

  // ---- What the derived schema accepts ----------------------------------------

  /** The field a JSON member name denotes: the last one declared with it. */
  function FieldNamed(fields: seq<Field>, key: string): Option<Field> {
    if fields == [] then None
    else if Last(fields).jsonName == key then Some(Last(fields))
    else FieldNamed(Front(fields), key)
  }

  function FieldsOf(g: Graph, n: string): seq<Field> {
    if n in g then g[n] else []
  }

  /** v has the JSON types message n prescribes, at every depth, except that below a
      message already on the path from the root any object will do. */
  predicate Typed(g: Graph, n: string, path: set<string>, v: Value)
    decreases v, 2
  {
    && v.Members?
    && (n in path ||
        forall i :: 0 <= i < |v.members| && FieldNamed(FieldsOf(g, n), v.members[i].key).Some? ==>
          TypedField(g, FieldNamed(FieldsOf(g, n), v.members[i].key).value, path + {n}, v.members[i].value))
  }

  predicate TypedField(g: Graph, f: Field, path: set<string>, v: Value)
    decreases v, 4
  {
    match f.shape
    case Singular => TypedElement(g, f.kind, path, v)
    case List =>
      v.Elements? && forall i :: 0 <= i < |v.elements| ==> TypedElement(g, f.kind, path, v.elements[i])
    case MapField =>
      v.Members? && forall i :: 0 <= i < |v.members| ==> TypedElement(g, f.kind, path, v.members[i].value)
  }

  predicate TypedElement(g: Graph, k: Kind, path: set<string>, v: Value)
    decreases v, 3
  {
    if k.MessageKind? || k.GroupKind? then Typed(g, k.message, path, v) else OfType(JsonTypeOf(k), v)
  }

  lemma {:induction false} PropertiesByName(g: Graph, fields: seq<Field>, visited: set<string>, key: string)
    ensures key in Properties(g, fields, visited) <==> FieldNamed(fields, key).Some?
    ensures key in Properties(g, fields, visited) ==>
      Properties(g, fields, visited)[key] == FieldSchema(g, FieldNamed(fields, key).value, visited)
  {
    if fields != [] {
      PropertiesByName(g, Front(fields), visited, key);
    }
  }

  /** The derived schema accepts exactly the values with the prescribed types, for every
      graph, cyclic or not. */
  lemma {:induction false} SchemaAcceptsExactly(g: Graph, n: string, visited: set<string>, v: Value)
    ensures Conforms(MessageSchema(g, n, visited), v) <==> Typed(g, n, visited, v)
    decreases v, 2
  {
    if v.Members? && n !in visited && n in g {
      var ps := Properties(g, g[n], visited + {n});
      forall i | 0 <= i < |v.members|
        ensures v.members[i].key in ps <==> FieldNamed(g[n], v.members[i].key).Some?
        ensures v.members[i].key in ps ==>
          (Conforms(ps[v.members[i].key], v.members[i].value) <==>
           TypedField(g, FieldNamed(g[n], v.members[i].key).value, visited + {n}, v.members[i].value))
      {
        var m := v.members[i];
        PropertiesByName(g, g[n], visited + {n}, m.key);
        if m.key in ps {
          FieldAcceptsExactly(g, FieldNamed(g[n], m.key).value, visited + {n}, m.value);
        }
      }
    }
  }

  lemma {:induction false} FieldAcceptsExactly(g: Graph, f: Field, visited: set<string>, v: Value)
    ensures Conforms(FieldSchema(g, f, visited), v) <==> TypedField(g, f, visited, v)
    decreases v, 4
  {
    match f.shape
    case Singular => ElementAcceptsExactly(g, f.kind, visited, v);
    case List =>
      if v.Elements? {
        forall i | 0 <= i < |v.elements|
          ensures Conforms(ElementSchema(g, f.kind, visited), v.elements[i]) <==>
            TypedElement(g, f.kind, visited, v.elements[i])
        {
          ElementAcceptsExactly(g, f.kind, visited, v.elements[i]);
        }
      }
    case MapField =>
      if v.Members? {
        forall i | 0 <= i < |v.members|
          ensures Conforms(ElementSchema(g, f.kind, visited), v.members[i].value) <==>
            TypedElement(g, f.kind, visited, v.members[i].value)
        {
          ElementAcceptsExactly(g, f.kind, visited, v.members[i].value);
        }
      }
  }

  lemma {:induction false} ElementAcceptsExactly(g: Graph, k: Kind, visited: set<string>, v: Value)
    ensures Conforms(ElementSchema(g, k, visited), v) <==> TypedElement(g, k, visited, v)
    decreases v, 3
  {
    if k.MessageKind? || k.GroupKind? {
      SchemaAcceptsExactly(g, k.message, visited, v);
    }
  }

  // ---- Soundness for ProtoJSON ------------------------------------------------

  /** The JSON object a ProtoJSON printer writes for a message n: every member is a field
      of the message under its JSON name. 64-bit integers, bytes and enum names are
      strings, floats are finite, and well-known types do not occur. */
  predicate ProtoJson(g: Graph, n: string, v: Value)
    decreases v, 2
  {
    && v.Members?
    && forall i :: 0 <= i < |v.members| ==> exists j ::
         && 0 <= j < |FieldsOf(g, n)|
         && FieldsOf(g, n)[j].jsonName == v.members[i].key
         && ProtoJsonField(g, FieldsOf(g, n)[j], v.members[i].value)
  }

  predicate ProtoJsonField(g: Graph, f: Field, v: Value)
    decreases v, 4
  {
    match f.shape
    case Singular => ProtoJsonElement(g, f.kind, v)
    case List => v.Elements? && forall i :: 0 <= i < |v.elements| ==> ProtoJsonElement(g, f.kind, v.elements[i])
    case MapField => v.Members? && forall i :: 0 <= i < |v.members| ==> ProtoJsonElement(g, f.kind, v.members[i].value)
  }

  predicate ProtoJsonElement(g: Graph, k: Kind, v: Value)
    decreases v, 3
  {
    match k
    case BoolKind => v.Bool?
    case Int32Kind | Sint32Kind | Sfixed32Kind => IntegerIn(v, -0x8000_0000, 0x8000_0000)
    case Uint32Kind | Fixed32Kind => IntegerIn(v, 0, 0x1_0000_0000)
    case Int64Kind | Sint64Kind | Uint64Kind | Fixed64Kind | Sfixed64Kind => v.Text?
    case FloatKind | DoubleKind => v.Number?
    case StringKind | BytesKind | EnumKind => v.Text?
    case MessageKind(m) => ProtoJson(g, m, v)
    case GroupKind(m) => ProtoJson(g, m, v)
  }

  predicate IntegerIn(v: Value, lo: int, hi: int) {
    v.Number? && v.n == v.n.Floor as real && lo <= v.n.Floor < hi
  }

  /** Protobuf's own rule: the fields of a message have distinct JSON names. */
  predicate DistinctNames(g: Graph) {
    forall n :: n in g ==> forall i, j :: 0 <= i < j < |g[n]| ==> g[n][i].jsonName != g[n][j].jsonName
  }

  lemma {:induction false} FieldNamedIs(fields: seq<Field>, j: nat)
    requires j < |fields| && forall i :: j < i < |fields| ==> fields[i].jsonName != fields[j].jsonName
    ensures FieldNamed(fields, fields[j].jsonName) == Some(fields[j])
  {
    if j < |fields| - 1 {
      FieldNamedIs(Front(fields), j);
    }
  }

  lemma {:induction false} ProtoJsonIsTyped(g: Graph, n: string, path: set<string>, v: Value)
    requires DistinctNames(g) && ProtoJson(g, n, v)
    ensures Typed(g, n, path, v)
    decreases v, 2
  {
    forall i | 0 <= i < |v.members| && FieldNamed(FieldsOf(g, n), v.members[i].key).Some?
      ensures TypedField(g, FieldNamed(FieldsOf(g, n), v.members[i].key).value, path + {n}, v.members[i].value)
    {
      var j :| 0 <= j < |FieldsOf(g, n)| && FieldsOf(g, n)[j].jsonName == v.members[i].key &&
        ProtoJsonField(g, FieldsOf(g, n)[j], v.members[i].value);
      FieldNamedIs(FieldsOf(g, n), j);
      ProtoJsonFieldIsTyped(g, FieldsOf(g, n)[j], path + {n}, v.members[i].value);
    }
  }

  lemma {:induction false} ProtoJsonFieldIsTyped(g: Graph, f: Field, path: set<string>, v: Value)
    requires DistinctNames(g) && ProtoJsonField(g, f, v)
    ensures TypedField(g, f, path, v)
    decreases v, 4
  {
    match f.shape
    case Singular => ProtoJsonElementIsTyped(g, f.kind, path, v);
    case List =>
      forall i | 0 <= i < |v.elements|
        ensures TypedElement(g, f.kind, path, v.elements[i])
      {
        ProtoJsonElementIsTyped(g, f.kind, path, v.elements[i]);
      }
    case MapField =>
      forall i | 0 <= i < |v.members|
        ensures TypedElement(g, f.kind, path, v.members[i].value)
      {
        ProtoJsonElementIsTyped(g, f.kind, path, v.members[i].value);
      }
  }

  lemma {:induction false} ProtoJsonElementIsTyped(g: Graph, k: Kind, path: set<string>, v: Value)
    requires DistinctNames(g) && ProtoJsonElement(g, k, v)
    ensures TypedElement(g, k, path, v)
    decreases v, 3
  {
    if k.MessageKind? || k.GroupKind? {
      ProtoJsonIsTyped(g, k.message, path, v);
    }
  }

  /** Every ProtoJSON value of a message, even of a recursive one and to any depth,
      conforms to the schema derived for the message. */
  lemma SchemaIsSound(g: Graph, n: string, v: Value)
    requires DistinctNames(g) && ProtoJson(g, n, v)
    ensures Conforms(MessageSchema(g, n, {}), v)
  {
    ProtoJsonIsTyped(g, n, {}, v);
    SchemaAcceptsExactly(g, n, {}, v);
  }

  // ---- Where the derivation truncates -----------------------------------------

  /** Follows one field of an object schema to the schema of its elements. */
  function Follow(s: Schema, f: Field): Option<Schema> {
    if !s.Object? || f.jsonName !in s.properties then None
    else
      var p := s.properties[f.jsonName];
      match f.shape
      case Singular => Some(p)
      case List => if p.Array? then Some(p.items) else None
      case MapField => if p.Dictionary? then Some(p.additional) else None
  }

  function FollowAll(s: Schema, fs: seq<Field>): Option<Schema> {
    if fs == [] then Some(s)
    else
      var r := FollowAll(s, Front(fs));
      if r.None? then None else Follow(r.value, Last(fs))
  }

  /** f is the field of message n that its JSON name denotes, and has message type m. */
  predicate Edge(g: Graph, n: string, f: Field, m: string) {
    FieldNamed(FieldsOf(g, n), f.jsonName) == Some(f) && (f.kind == MessageKind(m) || f.kind == GroupKind(m))
  }

  /** fs leads from message ns[0] through ns[1], ns[2] and so on. */
  predicate IsPath(g: Graph, ns: seq<string>, fs: seq<Field>) {
    |ns| == |fs| + 1 && forall i :: 0 <= i < |fs| ==> Edge(g, ns[i], fs[i], ns[i + 1])
  }

  predicate Distinct(ns: seq<string>) {
    forall i, j :: 0 <= i < j < |ns| ==> ns[i] != ns[j]
  }

  function Elems(ns: seq<string>): set<string> {
    set i | 0 <= i < |ns| :: ns[i]
  }

  lemma FollowMessageField(g: Graph, n: string, f: Field, visited: set<string>)
    requires n !in visited && FieldNamed(FieldsOf(g, n), f.jsonName) == Some(f)
    requires f.kind.MessageKind? || f.kind.GroupKind?
    ensures Follow(MessageSchema(g, n, visited), f) == Some(MessageSchema(g, f.kind.message, visited + {n}))
  {
    PropertiesByName(g, FieldsOf(g, n), visited + {n}, f.jsonName);
  }

  lemma ElemsOfDistinct(ns: seq<string>)
    requires ns != [] && Distinct(ns)
    ensures Last(ns) !in Elems(Front(ns)) && Elems(ns) == Elems(Front(ns)) + {Last(ns)}
  {
    assert ns == Front(ns) + [Last(ns)];
  }

  /** The schema at the end of a path whose earlier messages are distinct is that of its
      last message below all the others. */
  lemma {:induction false} SchemaAlongPath(g: Graph, ns: seq<string>, fs: seq<Field>)
    requires IsPath(g, ns, fs) && Distinct(Front(ns))
    ensures FollowAll(MessageSchema(g, ns[0], {}), fs) == Some(MessageSchema(g, Last(ns), Elems(Front(ns))))
  {
    if fs == [] {
      assert Elems(Front(ns)) == {};
    } else {
      var k := |fs| - 1;
      var ms := Front(ns);
      assert Edge(g, ns[k], fs[k], ns[k + 1]);
      assert IsPath(g, ms, Front(fs)) && ms[0] == ns[0] && Last(ms) == ns[k];
      SchemaAlongPath(g, ms, Front(fs));
      ElemsOfDistinct(ms);
      FollowMessageField(g, ns[k], fs[k], Elems(Front(ms)));
    }
  }

  /** Along such a path the schema is truncated to a bare object exactly when the last
      message is one of its own ancestors. */
  lemma TruncatesExactlyAtAncestors(g: Graph, ns: seq<string>, fs: seq<Field>)
    requires IsPath(g, ns, fs) && Distinct(Front(ns))
    ensures FollowAll(MessageSchema(g, ns[0], {}), fs) == Some(BareObject) <==> Last(ns) in Front(ns)
  {
    SchemaAlongPath(g, ns, fs);
    assert Last(ns) in Elems(Front(ns)) <==> Last(ns) in Front(ns);
  }

  // ---- Acyclic graphs are unfolded in full ------------------------------------

  /** The unfolding of a message to a given depth, with no memory of the path. */
  function Unfold(g: Graph, n: string, depth: nat): Schema
    decreases depth, 0, 0
  {
    if depth == 0 then BareObject else Object(UnfoldFields(g, FieldsOf(g, n), depth - 1))
  }

  function UnfoldFields(g: Graph, fields: seq<Field>, depth: nat): map<string, Schema>
    decreases depth, 2, |fields|
  {
    if fields == [] then map[]
    else UnfoldFields(g, Front(fields), depth)[Last(fields).jsonName := UnfoldField(g, Last(fields), depth)]
  }

  function UnfoldField(g: Graph, f: Field, depth: nat): Schema
    decreases depth, 1, 0
  {
    var e :=
      if f.kind.MessageKind? || f.kind.GroupKind? then Unfold(g, f.kind.message, depth)
      else Scalar(JsonTypeOf(f.kind));
    match f.shape
    case Singular => e
    case List => Array(e)
    case MapField => Dictionary(e)
  }

  /** rank falls along every message-typed field. */
  predicate Acyclic(g: Graph, rank: map<string, nat>) {
    forall n, i :: n in g && 0 <= i < |g[n]| ==> FieldDescends(g, n, i, rank)
  }

  predicate FieldDescends(g: Graph, n: string, i: int, rank: map<string, nat>)
    requires n in g && 0 <= i < |g[n]|
  {
    var k := g[n][i].kind;
    k.MessageKind? || k.GroupKind? ==> RankOf(rank, k.message) < RankOf(rank, n)
  }

  function RankOf(rank: map<string, nat>, n: string): nat {
    if n in rank then rank[n] else 0
  }

  /** On an acyclic graph the schema is the full unfolding: nothing is truncated. */
  lemma {:induction false} AcyclicIsUnfolding(
    g: Graph, rank: map<string, nat>, n: string, visited: set<string>, depth: nat)
    requires Acyclic(g, rank) && RankOf(rank, n) < depth
    requires forall a :: a in visited ==> RankOf(rank, n) < RankOf(rank, a)
    ensures MessageSchema(g, n, visited) == Unfold(g, n, depth)
    decreases depth, 0
  {
    if n in g {
      AcyclicFields(g, rank, n, |g[n]|, visited + {n}, depth - 1);
      assert g[n][..|g[n]|] == g[n];
    }
  }

  lemma {:induction false} AcyclicFields(
    g: Graph, rank: map<string, nat>, n: string, count: nat, visited: set<string>, depth: nat)
    requires Acyclic(g, rank) && n in g && count <= |g[n]| && RankOf(rank, n) <= depth
    requires forall a :: a in visited ==> RankOf(rank, n) <= RankOf(rank, a)
    ensures Properties(g, g[n][..count], visited) == UnfoldFields(g, g[n][..count], depth)
    decreases depth, 1, count
  {
    if count > 0 {
      AcyclicFields(g, rank, n, count - 1, visited, depth);
      assert Front(g[n][..count]) == g[n][..count - 1];
      var f := g[n][count - 1];
      assert FieldDescends(g, n, count - 1, rank) && Last(g[n][..count]) == f;
      if f.kind.MessageKind? || f.kind.GroupKind? {
        AcyclicIsUnfolding(g, rank, f.kind.message, visited, depth);
      }
      assert FieldSchema(g, f, visited) == UnfoldField(g, f, depth);
    }
  }
}
