/** Lowering a JSON type definition to C structs in definition order (tools/gen/lower.c:41-343). A type
    is known by its name; `visited` holds every type under construction, `types` the finished ones in
    the order they are emitted. */
module Lower {
  import opened Paths
  import Rings

  // ---------------------------------------------------------------- schemas

  datatype Scalar = Text | Boolean | Uint32 | Uint64 | Int32 | OtherScalar

  datatype Form = Empty | Ref(name: string, target: nat) | Scalars(scalar: Scalar) | Enum | Elements(element: nat)
                | Properties(all: seq<Property>) | Values(value: nat) | Discriminator

  datatype Property = Property(key: string, schema: nat, required: bool)

  /** A schema with the metadata lowering looks at; absent metadata is the empty string. */
  datatype Schema = Schema(form: Form, extern_: string, rename: string, key: string, shorthand: string)

  type Schemas = seq<Schema>

  ghost predicate InRange(sc: Schemas) {
    forall i :: 0 <= i < |sc| ==>
      && (sc[i].form.Ref? ==> sc[i].form.target < |sc|)
      && (sc[i].form.Elements? ==> sc[i].form.element < |sc|)
      && (sc[i].form.Values? ==> sc[i].form.value < |sc|)
      && (sc[i].form.Properties? ==> forall k :: 0 <= k < |sc[i].form.all| ==> sc[i].form.all[k].schema < |sc|)
  }

  /** What following `hops` references leads to. */
  function Hop(sc: Schemas, i: nat, hops: nat): nat
    decreases hops
  {
    if hops == 0 || i >= |sc| || !sc[i].form.Ref? then i else Hop(sc, sc[i].form.target, hops - 1)
  }

  predicate EndsIn(sc: Schemas, i: nat, hops: nat) {
    Hop(sc, i, hops) < |sc| && !sc[Hop(sc, i, hops)].form.Ref?
  }

  /** Every chain of references reaches a schema that is no reference. Schemas may still be recursive. */
  ghost predicate Linked(sc: Schemas) {
    InRange(sc) && forall i :: 0 <= i < |sc| ==> HasEnd(sc, i)
  }

  ghost predicate HasEnd(sc: Schemas, i: nat) {
    exists hops: nat :: EndsIn(sc, i, hops)
  }

  /** `deref`. */
  ghost function Target(sc: Schemas, i: nat): (t: nat)
    requires Linked(sc) && i < |sc|
    ensures t < |sc| && !sc[t].form.Ref?
  {
    assert HasEnd(sc, i);
    var hops: nat :| EndsIn(sc, i, hops);
    Hop(sc, i, hops)
  }

  lemma {:induction false} HopsAgree(sc: Schemas, i: nat, m: nat, n: nat)
    requires EndsIn(sc, i, m) && EndsIn(sc, i, n)
    ensures Hop(sc, i, m) == Hop(sc, i, n)
    decreases m
  {
    if i < |sc| && sc[i].form.Ref? {
      HopsAgree(sc, sc[i].form.target, m - 1, n - 1);
    }
  }

  lemma TargetStep(sc: Schemas, i: nat)
    requires Linked(sc) && i < |sc|
    ensures Target(sc, i) == if sc[i].form.Ref? then Target(sc, sc[i].form.target) else i
  {
    assert HasEnd(sc, i);
    var hops: nat :| EndsIn(sc, i, hops) && Target(sc, i) == Hop(sc, i, hops);
    if sc[i].form.Ref? {
      var next := sc[i].form.target;
      assert HasEnd(sc, next);
      var more: nat :| EndsIn(sc, next, more) && Target(sc, next) == Hop(sc, next, more);
      HopsAgree(sc, next, hops - 1, more);
    }
  }

  // ---------------------------------------------------------------- what a field should become

  datatype FieldKind =
    | FieldStr | FieldPrim(scalar: Scalar) | FieldEnum(enumeration: string) | FieldObject(struct: string)
    | FieldExtern(ext: string) | FieldExternArray(ext: string) | FieldStrArray | FieldEnumArray(enumeration: string)
    | FieldObjectArray(struct: string, shorthand: string) | FieldKeyed(struct: string, field: string)
    | FieldMap(entry: string)

  datatype Field = Field(key: string, name: string, required: bool, kind: FieldKind)

  datatype Card = Single | Array | Map

  function CardOf(form: Form): Card {
    if form.Elements? then Array else if form.Values? then Map else Single
  }

  /** The schema of the value behind an array or a map. */
  function ValueOf(sc: Schemas, i: nat): nat
    requires i < |sc|
  {
    match sc[i].form
    case Elements(element) => element
    case Values(value) => value
    case _ => i
  }

  function NameOf(sc: Schemas, p: Property): string
    requires InRange(sc) && p.schema < |sc|
  {
    var value := sc[ValueOf(sc, p.schema)].form;
    if value.Ref? then value.name else p.key
  }

  function Supported(scalar: Scalar): bool {
    !scalar.OtherScalar?
  }

  function EntryName(owner: string, key: string): string {
    owner + "_" + key + "_entry"
  }

  /** The kind the schema of a property asks for, if any is supported. */
  ghost function KindOf(sc: Schemas, union_: bool, owner: string, p: Property): Option<FieldKind>
    requires Linked(sc) && p.schema < |sc|
  {
    var card, value := CardOf(sc[p.schema].form), sc[ValueOf(sc, p.schema)];
    if value.extern_ != "" then
      if !value.form.Empty? || card.Map? || (card.Array? && !union_) then None
      else Some(if card.Array? then FieldExternArray(value.extern_) else FieldExtern(value.extern_))
    else
      var name, target := NameOf(sc, p), sc[Target(sc, ValueOf(sc, p.schema))].form;
      match target
      case Enum =>
        if card.Single? then Some(FieldEnum(name)) else if card.Array? then Some(FieldEnumArray(name)) else None
      case Scalars(scalar) =>
        if scalar.Text? then
          Some(if card.Single? then FieldStr
               else if card.Array? then FieldStrArray
               else FieldMap(EntryName(owner, p.key)))
        else if Supported(scalar) && card.Single? then Some(FieldPrim(scalar))
        else None
      case Properties(_) =>
        if card.Single? then Some(FieldObject(name))
        else if card.Map? then Some(FieldMap(EntryName(owner, p.key)))
        else if sc[p.schema].key != "" then Some(FieldKeyed(name, sc[p.schema].key))
        else Some(FieldObjectArray(name, sc[p.schema].shorthand))
      case _ => None
  }

  /** A type: its name and the schema it is lowered from. */
  datatype Node = Node(name: string, schema: nat)

  /** The struct a property needs, by value, in an array or in a map. */
  ghost function StructOf(sc: Schemas, p: Property): (r: Option<Node>)
    requires Linked(sc) && p.schema < |sc|
    ensures r.Some? ==> IsStruct(sc, r.value.schema)
  {
    var value := ValueOf(sc, p.schema);
    if sc[value].extern_ == "" && sc[Target(sc, value)].form.Properties?
    then Some(Node(NameOf(sc, p), Target(sc, value))) else None
  }

  function FieldName(sc: Schemas, p: Property): string
    requires p.schema < |sc|
  {
    if sc[p.schema].rename != "" then sc[p.schema].rename else p.key
  }

  /** A field is what its property asks for. */
  ghost predicate Fits(sc: Schemas, union_: bool, owner: string, p: Property, f: Field)
    requires Linked(sc) && p.schema < |sc|
  {
    && f.key == p.key && f.name == FieldName(sc, p) && f.required == p.required
    && KindOf(sc, union_, owner, p) == Some(f.kind)
  }

  // ---------------------------------------------------------------- what has been lowered

  /** A type under construction: its schema and the fields it has so far. */
  datatype Visit = Visit(schema: nat, fields: seq<Field>)

  type Visits = map<string, Visit>

  ghost predicate IsStruct(sc: Schemas, i: nat) {
    i < |sc| && sc[i].form.Properties?
  }

  /** The fields of a type are the first of its properties, one for one and in order. */
  ghost predicate Built(sc: Schemas, union_: bool, name: string, visit: Visit)
    requires Linked(sc)
  {
    && IsStruct(sc, visit.schema) && |visit.fields| <= |sc[visit.schema].form.all|
    && forall k :: 0 <= k < |visit.fields| ==> Fits(sc, union_, name, sc[visit.schema].form.all[k], visit.fields[k])
  }

  predicate Emitted(types: seq<string>, name: string, before: nat) {
    exists j :: 0 <= j < before && j < |types| && types[j] == name
  }

  /** Every struct a field embeds by value is emitted before position `before`. */
  predicate EmbedsEarlier(types: seq<string>, visit: Visit, before: nat) {
    forall k :: 0 <= k < |visit.fields| && visit.fields[k].kind.FieldObject? ==>
      Emitted(types, visit.fields[k].kind.struct, before)
  }

  ghost predicate Known(visits: Visits, node: Node) {
    node.name in visits && visits[node.name].schema == node.schema
  }

  /** Every struct the properties behind the fields need is known, from the right schema. */
  ghost predicate MentionsKnown(sc: Schemas, visits: Visits, visit: Visit)
    requires Linked(sc) && IsStruct(sc, visit.schema) && |visit.fields| <= |sc[visit.schema].form.all|
  {
    forall k :: 0 <= k < |visit.fields| ==>
      var node := StructOf(sc, sc[visit.schema].form.all[k]);
      node.Some? ==> Known(visits, node.value)
  }

  /** Emitted types are known and distinct, each behind the structs it embeds. */
  ghost predicate Ordered(visits: Visits, types: seq<string>) {
    && (forall i :: 0 <= i < |types| ==> types[i] in visits && EmbedsEarlier(types, visits[types[i]], i))
    && (forall i, j :: 0 <= i < j < |types| ==> types[i] != types[j])
  }

  ghost predicate Sound(sc: Schemas, union_: bool, visits: Visits, types: seq<string>) {
    && Linked(sc) && Ordered(visits, types)
    && (forall n :: n in visits ==>
          && Built(sc, union_, n, visits[n]) && MentionsKnown(sc, visits, visits[n])
          && EmbedsEarlier(types, visits[n], |types|))
    && (forall n :: n in visits && n in types ==> |visits[n].fields| == |sc[visits[n].schema].form.all|)
  }

  /** The entry behind a map: the type it belongs to, the struct of its values if they are structs, and
      the shorthand. */
  datatype Entry = Entry(owner: string, struct: Option<Node>, shorthand: string)

  type Entries = map<string, Entry>

  ghost predicate IsMap(sc: Schemas, unions: bool, owner: string, p: Property)
    requires Linked(sc) && p.schema < |sc|
  {
    KindOf(sc, unions, owner, p) == Some(FieldMap(EntryName(owner, p.key)))
  }

  /** The entry a map property asks for. */
  ghost function Wanted(sc: Schemas, owner: string, p: Property): Entry
    requires Linked(sc) && p.schema < |sc|
  {
    Entry(owner, StructOf(sc, p), sc[p.schema].shorthand)
  }

  /** Property `k` of `owner` is a map that asks for this entry. */
  ghost predicate Asks(sc: Schemas, unions: bool, visits: Visits, owner: string, k: nat, name: string, entry: Entry)
    requires Linked(sc)
  {
    && owner in visits && IsStruct(sc, visits[owner].schema) && k < |sc[visits[owner].schema].form.all|
    && var p := sc[visits[owner].schema].form.all[k];
       IsMap(sc, unions, owner, p) && name == EntryName(owner, p.key) && entry == Wanted(sc, owner, p)
  }

  /** Every map field has an entry, and every entry is one that some map asks for. */
  ghost predicate EntriesSound(sc: Schemas, unions: bool, visits: Visits, entries: Entries)
    requires Linked(sc)
  {
    && (forall n, k :: n in visits && 0 <= k < |visits[n].fields| && visits[n].fields[k].kind.FieldMap? ==>
          visits[n].fields[k].kind.entry in entries)
    && (forall name :: name in entries ==> exists owner, k :: Asks(sc, unions, visits, owner, k, name, entries[name]))
  }

  /** Known types keep their schemas. */
  ghost predicate SchemasKept(visits: Visits, visits': Visits) {
    forall n :: n in visits ==> n in visits' && visits'[n].schema == visits[n].schema
  }

  lemma AskersStay(sc: Schemas, unions: bool, visits: Visits, visits': Visits, entries: Entries)
    requires Linked(sc) && EntriesSound(sc, unions, visits, entries) && SchemasKept(visits, visits')
    ensures forall name :: name in entries ==>
      exists owner, k :: Asks(sc, unions, visits', owner, k, name, entries[name])
  {
    forall name | name in entries ensures exists owner, k :: Asks(sc, unions, visits', owner, k, name, entries[name]) {
      var owner, k :| Asks(sc, unions, visits, owner, k, name, entries[name]);
      assert Asks(sc, unions, visits', owner, k, name, entries[name]);
    }
  }

  /** Known types stay what they are; types are only appended; what is new is finished. */
  ghost predicate Grown(visits: Visits, types: seq<string>, visits': Visits, types': seq<string>) {
    && visits.Keys <= visits'.Keys && (forall n :: n in visits ==> visits'[n] == visits[n])
    && |types| <= |types'| && types'[..|types|] == types
    && (forall n :: n in visits' && n !in visits ==> n in types')
    && (forall n :: n in visits && n in types' ==> n in types)
  }

  lemma GrownJoin(v0: Visits, t0: seq<string>, v1: Visits, t1: seq<string>, v2: Visits, t2: seq<string>)
    requires Grown(v0, t0, v1, t1) && Grown(v1, t1, v2, t2)
    ensures Grown(v0, t0, v2, t2)
  {
    assert t2[..|t0|] == t2[..|t1|][..|t0|];
    forall n | n in v2 && n !in v0 ensures n in t2 {
      if n in v1 {
        assert n in t1;
        var i :| 0 <= i < |t1| && t1[i] == n;
        assert t2[..|t1|][i] == t2[i];
      }
    }
  }

  /** The type names a set of schemas can ask for. */
  ghost function Names(sc: Schemas): set<string>
    requires InRange(sc)
  {
    set i, k | 0 <= i < |sc| && sc[i].form.Properties? && 0 <= k < |sc[i].form.all| :: NameOf(sc, sc[i].form.all[k])
  }

  lemma FewerLeft(universe: set<string>, known: set<string>, more: set<string>, name: string)
    requires name in universe && name !in known && name in more && known <= more
    ensures |universe - more| < |universe - known|
  {
    Fewer(universe - more, universe - known, name);
  }

  lemma NoMoreLeft(universe: set<string>, known: set<string>, more: set<string>)
    requires known <= more
    ensures |universe - more| <= |universe - known|
  {
    Rings.Subsets(universe - more, universe - known);
  }

  lemma Fewer(a: set<string>, b: set<string>, x: string)
    requires a <= b && x in b && x !in a
    ensures |a| < |b|
  {
    var rest := b - {x};
    assert a <= rest;
    Rings.Subsets(a, rest);
  }

  lemma EmittedIsKnown(sc: Schemas, union_: bool, visits: Visits, types: seq<string>, name: string)
    requires Sound(sc, union_, visits, types) && name in types
    ensures name in visits
  {
    var i :| 0 <= i < |types| && types[i] == name;
  }

  /** A new type with no fields yet. */
  lemma Opened(sc: Schemas, union_: bool, visits: Visits, types: seq<string>, name: string, schema: nat)
    requires Sound(sc, union_, visits, types) && name !in visits && IsStruct(sc, schema)
    ensures Sound(sc, union_, visits[name := Visit(schema, [])], types)
  {
    var v := visits[name := Visit(schema, [])];
    forall i | 0 <= i < |types| ensures types[i] in v && EmbedsEarlier(types, v[types[i]], i) {
      assert v[types[i]] == visits[types[i]];
    }
  }

  /** One more field. */
  function WithField(visits: Visits, name: string, f: Field): (r: Visits)
    requires name in visits
    ensures r.Keys == visits.Keys
  {
    visits[name := visits[name].(fields := visits[name].fields + [f])]
  }

  /** `v'` is `v` with one more field for `owner`. */
  ghost predicate Pushed(v: Visits, v': Visits, owner: string) {
    && owner in v && owner in v' && v'[owner := v[owner]] == v
    && |v'[owner].fields| == |v[owner].fields| + 1 && v'[owner].schema == v[owner].schema
  }

  lemma WithFieldPushes(visits: Visits, name: string, f: Field)
    requires name in visits
    ensures Pushed(visits, WithField(visits, name, f), name) && SchemasKept(visits, WithField(visits, name, f))
  {
    var v := WithField(visits, name, f);
    assert v[name := visits[name]] == visits;
  }

  lemma MentionsStay(sc: Schemas, visits: Visits, visits': Visits, visit: Visit)
    requires Linked(sc) && IsStruct(sc, visit.schema) && |visit.fields| <= |sc[visit.schema].form.all|
    requires SchemasKept(visits, visits') && MentionsKnown(sc, visits, visit)
    ensures MentionsKnown(sc, visits', visit)
  {
  }

  ghost predicate MayExtend(sc: Schemas, union_: bool, visits: Visits, types: seq<string>, name: string, f: Field)
    requires Linked(sc)
  {
    && name in visits && name !in types && IsStruct(sc, visits[name].schema)
    && |visits[name].fields| < |sc[visits[name].schema].form.all|
    && var p := sc[visits[name].schema].form.all[|visits[name].fields|];
       && Fits(sc, union_, name, p, f) && (f.kind.FieldObject? ==> f.kind.struct in types)
       && (StructOf(sc, p).Some? ==> Known(visits, StructOf(sc, p).value))
  }

  lemma ExtendedIsBuilt(sc: Schemas, union_: bool, visits: Visits, types: seq<string>, name: string, f: Field)
    requires Linked(sc) && name in visits && Built(sc, union_, name, visits[name])
    requires MayExtend(sc, union_, visits, types, name, f)
    ensures Built(sc, union_, name, WithField(visits, name, f)[name])
  {
  }

  lemma ExtendedIsKnown(sc: Schemas, union_: bool, visits: Visits, types: seq<string>, name: string, f: Field)
    requires Linked(sc) && MayExtend(sc, union_, visits, types, name, f) && MentionsKnown(sc, visits, visits[name])
    ensures MentionsKnown(sc, WithField(visits, name, f), WithField(visits, name, f)[name])
  {
    WithFieldPushes(visits, name, f);
    MentionsStay(sc, visits, WithField(visits, name, f), visits[name]);
  }

  lemma ExtendedIsEarlier(visits: Visits, types: seq<string>, name: string, f: Field)
    requires name in visits && EmbedsEarlier(types, visits[name], |types|)
    requires f.kind.FieldObject? ==> f.kind.struct in types
    ensures EmbedsEarlier(types, WithField(visits, name, f)[name], |types|)
  {
    if f.kind.FieldObject? {
      var j :| 0 <= j < |types| && types[j] == f.kind.struct;
      assert Emitted(types, f.kind.struct, |types|);
    }
  }

  lemma Extended(sc: Schemas, union_: bool, visits: Visits, types: seq<string>, name: string, f: Field)
    requires Sound(sc, union_, visits, types) && MayExtend(sc, union_, visits, types, name, f)
    ensures Sound(sc, union_, WithField(visits, name, f), types)
  {
    var v := WithField(visits, name, f);
    WithFieldPushes(visits, name, f);
    ExtendedIsBuilt(sc, union_, visits, types, name, f);
    ExtendedIsKnown(sc, union_, visits, types, name, f);
    ExtendedIsEarlier(visits, types, name, f);
    forall i | 0 <= i < |types| ensures types[i] in v && EmbedsEarlier(types, v[types[i]], i) {
      assert types[i] in types && v[types[i]] == visits[types[i]];
    }
    forall n | n in v && n != name
      ensures Built(sc, union_, n, v[n]) && MentionsKnown(sc, v, v[n]) && EmbedsEarlier(types, v[n], |types|)
    {
      assert v[n] == visits[n];
      MentionsStay(sc, visits, v, visits[n]);
    }
  }

  lemma EntriesOpened(sc: Schemas, unions: bool, visits: Visits, entries: Entries, name: string, schema: nat)
    requires Linked(sc) && EntriesSound(sc, unions, visits, entries) && name !in visits
    ensures EntriesSound(sc, unions, visits[name := Visit(schema, [])], entries)
  {
    var v := visits[name := Visit(schema, [])];
    AskersStay(sc, unions, visits, v, entries);
    forall n, k | n in v && 0 <= k < |v[n].fields| && v[n].fields[k].kind.FieldMap?
      ensures v[n].fields[k].kind.entry in entries
    {
      assert v[n] == visits[n];
    }
  }

  lemma EntriesExtended(sc: Schemas, unions: bool, visits: Visits, entries: Entries, name: string, f: Field)
    requires Linked(sc) && EntriesSound(sc, unions, visits, entries) && name in visits
    requires f.kind.FieldMap? ==> f.kind.entry in entries
    ensures EntriesSound(sc, unions, WithField(visits, name, f), entries)
  {
    var v := WithField(visits, name, f);
    WithFieldPushes(visits, name, f);
    AskersStay(sc, unions, visits, v, entries);
    forall n, k | n in v && 0 <= k < |v[n].fields| && v[n].fields[k].kind.FieldMap?
      ensures v[n].fields[k].kind.entry in entries
    {
      if n == name && k == |visits[n].fields| {
        assert v[n].fields[k] == f;
      } else {
        assert v[n].fields[k] == visits[n].fields[k];
      }
    }
  }

  lemma EntriesAdded(sc: Schemas, unions: bool, visits: Visits, entries: Entries, owner: string, k: nat, name: string,
                     entry: Entry)
    requires Linked(sc) && EntriesSound(sc, unions, visits, entries) && Asks(sc, unions, visits, owner, k, name, entry)
    ensures EntriesSound(sc, unions, visits, entries[name := entry])
  {
  }

  /** A finished type is emitted behind all others. */
  lemma Closed(sc: Schemas, union_: bool, visits: Visits, types: seq<string>, name: string)
    requires Sound(sc, union_, visits, types) && name in visits && name !in types
    requires |visits[name].fields| == |sc[visits[name].schema].form.all|
    ensures Sound(sc, union_, visits, types + [name])
  {
    var all := types + [name];
    forall n, before: nat | n in visits && EmbedsEarlier(types, visits[n], before)
      ensures EmbedsEarlier(all, visits[n], before)
    {
      StillEmitted(types, visits[n], before, name);
    }
    forall n | n in visits ensures EmbedsEarlier(all, visits[n], |all|) {
      assert EmbedsEarlier(types, visits[n], |types|);
      StillEmitted(types, visits[n], |types|, name);
      Later(all, visits[n], |types|, |all|);
    }
    forall i | 0 <= i < |all| ensures all[i] in visits && EmbedsEarlier(all, visits[all[i]], i) {
      if i < |types| {
        assert EmbedsEarlier(types, visits[types[i]], i);
      }
    }
  }

  lemma StillEmitted(types: seq<string>, visit: Visit, before: nat, name: string)
    requires EmbedsEarlier(types, visit, before)
    ensures EmbedsEarlier(types + [name], visit, before)
  {
    forall k | 0 <= k < |visit.fields| && visit.fields[k].kind.FieldObject?
      ensures Emitted(types + [name], visit.fields[k].kind.struct, before)
    {
      var j :| 0 <= j < before && j < |types| && types[j] == visit.fields[k].kind.struct;
      assert (types + [name])[j] == types[j];
    }
  }

  lemma Later(types: seq<string>, visit: Visit, before: nat, after: nat)
    requires EmbedsEarlier(types, visit, before) && before <= after
    ensures EmbedsEarlier(types, visit, after)
  {
    forall k | 0 <= k < |visit.fields| && visit.fields[k].kind.FieldObject?
      ensures Emitted(types, visit.fields[k].kind.struct, after)
    {
      var j :| 0 <= j < before && j < |types| && types[j] == visit.fields[k].kind.struct;
    }
  }

  // ---------------------------------------------------------------- types that embed each other

  ghost predicate Edge(sc: Schemas, a: Node, b: Node, k: nat)
    requires Linked(sc)
  {
    IsStruct(sc, a.schema) && k < |sc[a.schema].form.all| && StructOf(sc, sc[a.schema].form.all[k]) == Some(b)
  }

  ghost predicate Refers(sc: Schemas, a: Node, b: Node)
    requires Linked(sc)
  {
    exists k: nat :: Edge(sc, a, b, k)
  }

  /** `a` has a field that is a `b`, neither in an array nor in a map. */
  ghost predicate Embeds(sc: Schemas, a: Node, b: Node)
    requires Linked(sc)
  {
    exists k: nat :: Edge(sc, a, b, k) && CardOf(sc[sc[a.schema].form.all[k].schema].form).Single?
  }

  ghost predicate Walk(sc: Schemas, path: seq<Node>)
    requires Linked(sc)
  {
    forall i :: 0 <= i < |path| - 1 ==> Refers(sc, path[i], path[i + 1])
  }

  predicate Distinct(path: seq<Node>) {
    forall i, j :: 0 <= i < j < |path| ==> path[i] != path[j]
  }

  /** A walk without repetitions whose last type embeds one of its types. */
  ghost predicate EmbedsBack(sc: Schemas, path: seq<Node>, i: nat)
    requires Linked(sc)
  {
    Walk(sc, path) && Distinct(path) && i < |path| && Embeds(sc, path[|path| - 1], path[i])
  }

  /** From `root` lowering can get to a type that embeds one still being lowered. */
  ghost predicate EmbedsOpen(sc: Schemas, root: Node)
    requires Linked(sc)
  {
    exists path, i :: EmbedsBack(sc, path, i) && path[0] == root
  }

  ghost predicate Leads(sc: Schemas, a: Node, b: Node, path: seq<Node>)
    requires Linked(sc)
  {
    path != [] && Walk(sc, path) && path[0] == a && path[|path| - 1] == b
  }

  /** Something `root` leads to embeds `root`. */
  ghost predicate ComesBack(sc: Schemas, root: Node)
    requires Linked(sc)
  {
    exists path :: path != [] && Leads(sc, root, path[|path| - 1], path) && Embeds(sc, path[|path| - 1], root)
  }

  /** A walk without the detour between two visits of one type. */
  lemma WithoutDetour(sc: Schemas, path: seq<Node>, i: nat, j: nat)
    requires Linked(sc) && Walk(sc, path) && i < j < |path| && path[i] == path[j]
    ensures var less := path[..i] + path[j..];
      less != [] && Walk(sc, less) && less[0] == path[0] && less[|less| - 1] == path[|path| - 1]
  {
    var less, cut := path[..i] + path[j..], j - i;
    forall k | 0 <= k < |less| - 1 ensures Refers(sc, less[k], less[k + 1]) {
      var from := if k < i then k else k + cut;
      assert less[k] == path[from] && less[k + 1] == path[from + 1];
    }
  }

  lemma {:induction false} Shortened(sc: Schemas, path: seq<Node>) returns (short: seq<Node>)
    requires Linked(sc) && path != [] && Walk(sc, path)
    ensures Leads(sc, path[0], path[|path| - 1], short) && Distinct(short)
    decreases |path|
  {
    short := path;
    if i, j :| 0 <= i < j < |path| && path[i] == path[j] {
      WithoutDetour(sc, path, i, j);
      short := Shortened(sc, path[..i] + path[j..]);
    }
  }

  lemma BackIsACycle(sc: Schemas, path: seq<Node>, i: nat)
    requires Linked(sc) && EmbedsBack(sc, path, i)
    ensures ComesBack(sc, path[i])
  {
    var tail := path[i..];
    assert Leads(sc, path[i], tail[|tail| - 1], tail);
  }

  lemma CycleIsDanger(sc: Schemas, root: Node)
    requires Linked(sc) && ComesBack(sc, root)
    ensures EmbedsOpen(sc, root)
  {
    var path: seq<Node> :| path != [] && Leads(sc, root, path[|path| - 1], path) && Embeds(sc, path[|path| - 1], root);
    var short := Shortened(sc, path);
    assert EmbedsBack(sc, short, 0);
  }

  /** Lowering is in danger from some root exactly when it must fail from some root: when a field by value
      lies on a cycle of references. */
  lemma DangerIsACycle(sc: Schemas)
    requires Linked(sc)
    ensures (exists root :: EmbedsOpen(sc, root)) <==> (exists root :: ComesBack(sc, root))
  {
    if root :| EmbedsOpen(sc, root) {
      var path, i :| EmbedsBack(sc, path, i) && path[0] == root;
      BackIsACycle(sc, path, i);
    }
    if root :| ComesBack(sc, root) {
      CycleIsDanger(sc, root);
    }
  }

  // ---------------------------------------------------------------- nothing else in the way

  ghost predicate Lists(sc: Schemas, p: Property, name: string)
    requires Linked(sc) && p.schema < |sc|
  {
    && StructOf(sc, p).Some? && StructOf(sc, p).value.name == name
    && CardOf(sc[p.schema].form).Array? && sc[p.schema].key == "" && sc[p.schema].shorthand != ""
  }

  /** Two properties that need structs of one name need one struct, and list it under one shorthand. */
  ghost predicate OneMeaning(sc: Schemas, p: Property, q: Property)
    requires Linked(sc) && p.schema < |sc| && q.schema < |sc|
  {
    StructOf(sc, p).Some? && StructOf(sc, q).Some? && StructOf(sc, p).value.name == StructOf(sc, q).value.name ==>
      && StructOf(sc, p) == StructOf(sc, q)
      && (Lists(sc, p, StructOf(sc, p).value.name) && Lists(sc, q, StructOf(sc, p).value.name) ==>
            sc[p.schema].shorthand == sc[q.schema].shorthand)
  }

  ghost predicate IsProperty(sc: Schemas, p: Property)
    requires Linked(sc)
  {
    exists i: nat, k: nat :: IsStruct(sc, i) && k < |sc[i].form.all| && sc[i].form.all[k] == p
  }

  /** Every property has a supported form, no name stands for two schemas, and no struct has two
      shorthands. */
  ghost predicate Clean(sc: Schemas, unions: bool)
    requires Linked(sc)
  {
    && (forall p :: IsProperty(sc, p) ==> p.schema < |sc| && KindOf(sc, unions, "", p).Some?)
    && (forall p, q :: IsProperty(sc, p) && IsProperty(sc, q) && p.schema < |sc| && q.schema < |sc| ==>
          OneMeaning(sc, p, q))
  }

  /** No property gives this name to another schema. */
  ghost predicate NameFits(sc: Schemas, name: string, schema: nat)
    requires Linked(sc)
  {
    forall p :: IsProperty(sc, p) && p.schema < |sc| && StructOf(sc, p).Some? && StructOf(sc, p).value.name == name ==>
      StructOf(sc, p).value.schema == schema
  }

  ghost predicate RootsFit(sc: Schemas, roots: map<string, nat>)
    requires Linked(sc)
  {
    forall n :: n in roots ==> NameFits(sc, n, roots[n])
  }

  /** Some property needs this struct. */
  ghost predicate Needed(sc: Schemas, node: Node)
    requires Linked(sc)
  {
    exists p :: IsProperty(sc, p) && p.schema < |sc| && StructOf(sc, p) == Some(node)
  }

  ghost predicate Listed(sc: Schemas, name: string, shorthand: string)
    requires Linked(sc)
  {
    exists p :: IsProperty(sc, p) && p.schema < |sc| && Lists(sc, p, name) && sc[p.schema].shorthand == shorthand
  }

  /** Every known type is a root or needed by some property, every shorthand is listed by one. */
  ghost predicate Founded(sc: Schemas, visits: Visits, shorthands: map<string, string>, roots: map<string, nat>)
    requires Linked(sc)
  {
    && (forall n :: n in visits ==>
          (n in roots && roots[n] == visits[n].schema) || Needed(sc, Node(n, visits[n].schema)))
    && (forall n :: n in shorthands ==> Listed(sc, n, shorthands[n]))
  }

  /** `open` lists the types under construction, each mentioned by the one before. */
  ghost predicate Opens(sc: Schemas, visits: Visits, types: seq<string>, open: seq<Node>)
    requires Linked(sc)
  {
    && Walk(sc, open) && Distinct(open)
    && (forall i :: 0 <= i < |open| ==> Known(visits, open[i]) && open[i].name !in types)
    && (forall n :: n in visits && n !in types ==> Node(n, visits[n].schema) in open)
  }

  lemma OpensOneMore(sc: Schemas, visits: Visits, types: seq<string>, open: seq<Node>, name: string, at: nat)
    requires Linked(sc) && Opens(sc, visits, types, open) && name !in visits && name !in types
    requires open != [] ==> Refers(sc, open[|open| - 1], Node(name, at))
    ensures Opens(sc, visits[name := Visit(at, [])], types, open + [Node(name, at)])
  {
    var more, v := open + [Node(name, at)], visits[name := Visit(at, [])];
    forall n | n in v && n !in types ensures Node(n, v[n].schema) in more {
      assert more[|open|] == Node(name, at);
    }
  }

  lemma OpensOneLess(sc: Schemas, visits: Visits, types: seq<string>, open: seq<Node>, name: string, at: nat)
    requires Linked(sc) && Opens(sc, visits, types, open + [Node(name, at)])
    ensures Opens(sc, visits, types + [name], open)
  {
    var more := open + [Node(name, at)];
    assert more[|open|] == Node(name, at);
    forall i | 0 <= i < |open| - 1 ensures Refers(sc, open[i], open[i + 1]) {
      assert more[i] == open[i] && more[i + 1] == open[i + 1];
    }
    forall i | 0 <= i < |open|
      ensures Known(visits, open[i]) && open[i].name !in types + [name] && open[i] != Node(name, at)
    {
      assert more[i] == open[i] && Known(visits, more[i]) && Known(visits, more[|open|]);
    }
    assert Distinct(open) by {
      forall i, j | 0 <= i < j < |open| ensures open[i] != open[j] {
        assert more[i] == open[i] && more[j] == open[j];
      }
    }
    forall n | n in visits && n !in types + [name] ensures Node(n, visits[n].schema) in open {
      assert Node(n, visits[n].schema) in more;
    }
  }

  lemma PushKeepsOpen(sc: Schemas, v: Visits, v': Visits, types: seq<string>, open: seq<Node>, owner: string)
    requires Linked(sc) && Opens(sc, v, types, open) && Pushed(v, v', owner)
    ensures Opens(sc, v', types, open)
  {
    PushKeepsSchemas(v, v', owner);
  }

  lemma PushKeepsSchemas(v: Visits, v': Visits, owner: string)
    requires Pushed(v, v', owner)
    ensures v'.Keys == v.Keys && forall n :: n in v ==> v'[n].schema == v[n].schema
  {
    assert v'.Keys == v'[owner := v[owner]].Keys;
    assert forall n | n in v' && n != owner :: v'[n] == v'[owner := v[owner]][n];
  }

  lemma PushKeepsFounded(sc: Schemas, v: Visits, v': Visits, shorthands: map<string, string>, roots: map<string, nat>,
                         owner: string)
    requires Linked(sc) && Founded(sc, v, shorthands, roots) && Pushed(v, v', owner)
    ensures Founded(sc, v', shorthands, roots)
  {
    PushKeepsSchemas(v, v', owner);
  }

  lemma OpenKeepsFounded(sc: Schemas, v: Visits, shorthands: map<string, string>, roots: map<string, nat>,
                         name: string, at: nat)
    requires Linked(sc) && Founded(sc, v, shorthands, roots) && name !in v
    requires (name in roots && roots[name] == at) || Needed(sc, Node(name, at))
    ensures Founded(sc, v[name := Visit(at, [])], shorthands, roots)
  {
  }

  lemma IsNeeded(sc: Schemas, a: Node, b: Node)
    requires Linked(sc) && Refers(sc, a, b)
    ensures Needed(sc, b)
  {
    var k: nat :| Edge(sc, a, b, k);
    assert IsProperty(sc, sc[a.schema].form.all[k]);
  }

  lemma CleanAt(sc: Schemas, unions: bool, i: nat, k: nat, owner: string)
    requires Linked(sc) && Clean(sc, unions) && IsStruct(sc, i) && k < |sc[i].form.all|
    ensures IsProperty(sc, sc[i].form.all[k]) && KindOf(sc, unions, owner, sc[i].form.all[k]).Some?
  {
    var p := sc[i].form.all[k];
    assert IsProperty(sc, p);
    assert KindOf(sc, unions, "", p).Some? == KindOf(sc, unions, owner, p).Some?;
  }

  lemma NestedIsNamed(sc: Schemas, at: nat, k: nat, p: Property, name: string, target: nat, universe: set<string>)
    requires Linked(sc) && IsStruct(sc, at) && k < |sc[at].form.all| && p == sc[at].form.all[k] && Names(sc) <= universe
    requires StructOf(sc, p) == Some(Node(name, target))
    ensures name in universe && Target(sc, target) == target
  {
    assert name == NameOf(sc, sc[at].form.all[k]) && name in Names(sc);
    TargetStep(sc, target);
  }

  lemma NextRefers(sc: Schemas, a: Node, k: nat)
    requires Linked(sc) && IsStruct(sc, a.schema) && k < |sc[a.schema].form.all|
    ensures var node := StructOf(sc, sc[a.schema].form.all[k]); node.Some? ==> Refers(sc, a, node.value)
  {
    assert forall b :: StructOf(sc, sc[a.schema].form.all[k]) == Some(b) ==> Edge(sc, a, b, k);
  }

  /** A struct that is known and not finished is one of the open ones. */
  lemma OpenIsEmbedded(sc: Schemas, visits: Visits, types: seq<string>, open: seq<Node>, k: nat, p: Property)
    requires Linked(sc) && Opens(sc, visits, types, open) && open != []
    requires var a := open[|open| - 1];
      IsStruct(sc, a.schema) && k < |sc[a.schema].form.all| && p == sc[a.schema].form.all[k]
    requires CardOf(sc[p.schema].form).Single? && StructOf(sc, p).Some? && Known(visits, StructOf(sc, p).value)
    requires StructOf(sc, p).value.name !in types
    ensures EmbedsOpen(sc, open[0])
  {
    var node := StructOf(sc, p).value;
    assert node in open;
    var i :| 0 <= i < |open| && open[i] == node;
    assert Edge(sc, open[|open| - 1], node, k);
    assert EmbedsBack(sc, open, i);
  }

  lemma FoundedShorthand(sc: Schemas, visits: Visits, shorthands: map<string, string>, roots: map<string, nat>,
                         name: string, field: string)
    requires Linked(sc) && Founded(sc, visits, shorthands, roots) && Listed(sc, name, field)
    ensures Founded(sc, visits, shorthands[name := field], roots)
  {
  }

  lemma ShorthandIsListed(sc: Schemas, i: nat, k: nat, name: string)
    requires Linked(sc) && IsStruct(sc, i) && k < |sc[i].form.all| && Lists(sc, sc[i].form.all[k], name)
    ensures Listed(sc, name, sc[sc[i].form.all[k].schema].shorthand)
  {
    assert IsProperty(sc, sc[i].form.all[k]);
  }

  /** Why a property cannot become a field: its schema is not supported, its type name is taken by another
      schema, it embeds a type that is still being lowered, or its shorthand differs. */
  ghost predicate Refused(sc: Schemas, unions: bool, visits: Visits, types: seq<string>,
                          shorthands: map<string, string>, owner: string, p: Property)
    requires Linked(sc) && p.schema < |sc|
  {
    var node := StructOf(sc, p);
    || KindOf(sc, unions, owner, p).None?
    || (node.Some? && node.value.name in visits
        && (|| visits[node.value.name].schema != node.value.schema
            || (CardOf(sc[p.schema].form).Single? && node.value.name !in types)
            || (Lists(sc, p, node.value.name) && node.value.name in shorthands
                && shorthands[node.value.name] != sc[p.schema].shorthand)))
  }

  /** The innermost open type is refused its next property. */
  ghost predicate Stuck(sc: Schemas, unions: bool, visits: Visits, types: seq<string>, shorthands: map<string, string>,
                        open: seq<Node>)
    requires Linked(sc)
  {
    && open != [] && Known(visits, open[|open| - 1]) && IsStruct(sc, open[|open| - 1].schema)
    && var last := open[|open| - 1];
       && |visits[last.name].fields| < |sc[last.schema].form.all|
       && Refused(sc, unions, visits, types, shorthands, last.name,
                  sc[last.schema].form.all[|visits[last.name].fields|])
  }

  /** A type name that is taken by another schema is a reason to refuse. */
  lemma TakenIsStuck(sc: Schemas, unions: bool, visits: Visits, types: seq<string>, shorthands: map<string, string>,
                     open: seq<Node>, p: Property)
    requires Linked(sc) && open != [] && Known(visits, open[|open| - 1]) && IsStruct(sc, open[|open| - 1].schema)
    requires var last := open[|open| - 1];
      && |visits[last.name].fields| < |sc[last.schema].form.all|
      && p == sc[last.schema].form.all[|visits[last.name].fields|]
    requires StructOf(sc, p).Some?
    requires StructOf(sc, p).value.name in visits
    requires visits[StructOf(sc, p).value.name].schema != StructOf(sc, p).value.schema
    ensures Stuck(sc, unions, visits, types, shorthands, open)
  {
  }

  lemma KnownAlike(sc: Schemas, unions: bool, visits: Visits, shorthands: map<string, string>, roots: map<string, nat>,
                   p: Property)
    requires Linked(sc) && Founded(sc, visits, shorthands, roots) && Clean(sc, unions) && RootsFit(sc, roots)
    requires IsProperty(sc, p) && p.schema < |sc| && StructOf(sc, p).Some?
    ensures var node := StructOf(sc, p).value;
      && (node.name in visits ==> visits[node.name].schema == node.schema)
      && (Lists(sc, p, node.name) && node.name in shorthands ==> shorthands[node.name] == sc[p.schema].shorthand)
  {
    var node := StructOf(sc, p).value;
    if node.name in visits && !(node.name in roots && roots[node.name] == visits[node.name].schema) {
      var q :| IsProperty(sc, q) && q.schema < |sc|
        && StructOf(sc, q) == Some(Node(node.name, visits[node.name].schema));
      assert OneMeaning(sc, p, q);
    }
    if node.name in shorthands {
      var q :| IsProperty(sc, q) && q.schema < |sc| && Lists(sc, q, node.name)
        && sc[q.schema].shorthand == shorthands[node.name];
      assert OneMeaning(sc, p, q);
    }
  }

  /** Where nothing else is in the way, lowering is stuck on a type that embeds an open one. */
  lemma StuckMeans(sc: Schemas, unions: bool, visits: Visits, types: seq<string>, shorthands: map<string, string>,
                   open: seq<Node>, roots: map<string, nat>)
    requires Linked(sc) && Opens(sc, visits, types, open) && Founded(sc, visits, shorthands, roots)
    requires Clean(sc, unions) && RootsFit(sc, roots) && Stuck(sc, unions, visits, types, shorthands, open)
    ensures open != [] && EmbedsOpen(sc, open[0])
  {
    var last := open[|open| - 1];
    var k := |visits[last.name].fields|;
    var p := sc[last.schema].form.all[k];
    CleanAt(sc, unions, last.schema, k, last.name);
    KnownAlike(sc, unions, visits, shorthands, roots, p);
    OpenIsEmbedded(sc, visits, types, open, k, p);
  }

  // ---------------------------------------------------------------- lowering

  class Gen {
    const sc: Schemas
    const unions: bool  // the format is one of the two union formats
    var visits: Visits
    var types: seq<string>
    var entries: Entries
    var shorthands: map<string, string>
    var err: bool
    ghost var open: seq<Node>           // the types under construction, outermost first
    ghost var roots: map<string, nat>   // what lowering was asked for

    ghost predicate Valid()
      reads this
    {
      && Linked(sc) && Sound(sc, unions, visits, types) && EntriesSound(sc, unions, visits, entries)
      && Opens(sc, visits, types, open) && Founded(sc, visits, shorthands, roots)
    }

    /** `owner` is the innermost open type and has room for `p` as its next field. */
    ghost predicate Next(owner: string, p: Property)
      requires Linked(sc)
      reads this
    {
      && owner in visits && owner !in types && IsStruct(sc, visits[owner].schema)
      && |visits[owner].fields| < |sc[visits[owner].schema].form.all|
      && p == sc[visits[owner].schema].form.all[|visits[owner].fields|]
      && open != [] && open[|open| - 1] == Node(owner, visits[owner].schema)
    }

    ghost predicate IsStuck()
      requires Linked(sc)
      reads this
    {
      Stuck(sc, unions, visits, types, shorthands, open)
    }

    /** Why a type cannot be lowered under a name at all. */
    ghost predicate Misnamed(name: string, schema: nat)
      requires Linked(sc) && schema < |sc|
      reads this
    {
      !sc[Target(sc, schema)].form.Properties? || (name in visits && visits[name].schema != Target(sc, schema))
    }

    constructor (sc: Schemas, unions: bool)
      requires Linked(sc)
      ensures this.sc == sc && this.unions == unions && Valid() && visits == map[] && types == []
      ensures entries == map[] && shorthands == map[] && roots == map[]
    {
      this.sc, this.unions := sc, unions;
      visits, types, entries, shorthands, err := map[], [], map[], map[], false;
      open, roots := [], map[];
    }

    /** `gen_find`. */
    method Find(name: string) returns (found: bool)
      ensures found <==> name in types
    {
      for it := 0 to |types|
        invariant name !in types[..it]
      {
        if types[it] == name {
          return true;
        }
      }
      return false;
    }

    method Deref(schema: nat) returns (target: nat)
      requires Linked(sc) && schema < |sc|
      ensures target == Target(sc, schema)
    {
      target := schema;
      assert HasEnd(sc, schema);
      ghost var hops: nat :| EndsIn(sc, schema, hops);
      while sc[target].form.Ref?
        invariant target < |sc| && Target(sc, target) == Target(sc, schema) && EndsIn(sc, target, hops)
        decreases hops
      {
        TargetStep(sc, target);
        target := sc[target].form.target;
        hops := hops - 1;
      }
      TargetStep(sc, target);
    }

    /** The property is at fault. */
    method Fail() returns (ok: bool)
      requires Linked(sc) && IsStuck()
      modifies this`err
      ensures !ok && err && IsStuck()
    {
      err := true;
      return false;
    }

    method PushField(owner: string, p: Property, kind: FieldKind)
      requires Valid() && Next(owner, p) && KindOf(sc, unions, owner, p) == Some(kind)
      requires kind.FieldObject? ==> kind.struct in types
      requires kind.FieldMap? ==> kind.entry in entries
      requires StructOf(sc, p).Some? ==> Known(visits, StructOf(sc, p).value)
      modifies this`visits
      ensures Valid() && Pushed(old(visits), visits, owner)
    {
      hide Sound, EntriesSound, Opens, Founded;
      var f := Field(p.key, FieldName(sc, p), p.required, kind);
      ghost var v0 := visits;
      assert MayExtend(sc, unions, visits, types, owner, f);
      Extended(sc, unions, visits, types, owner, f);
      EntriesExtended(sc, unions, visits, entries, owner, f);
      WithFieldPushes(visits, owner, f);
      visits := WithField(visits, owner, f);
      PushKeepsOpen(sc, v0, visits, types, open, owner);
      PushKeepsFounded(sc, v0, visits, shorthands, roots, owner);
    }

    /** `add_entry`: the first entry of a name stays. */
    method AddEntry(name: string, entry: Entry)
      modifies this`entries
      ensures entries == if name in old(entries) then old(entries) else old(entries)[name := entry]
    {
      if name !in entries {
        entries := entries[name := entry];
      }
    }

    /** A map field with its entry. */
    method PushMap(owner: string, p: Property, struct: Option<Node>)
      requires Valid() && Next(owner, p) && IsMap(sc, unions, owner, p)
      requires struct == StructOf(sc, p) && (struct.Some? ==> Known(visits, struct.value))
      modifies this`visits, this`entries
      ensures Valid() && Pushed(old(visits), visits, owner)
      ensures var name := EntryName(owner, p.key);
        entries == if name in old(entries) then old(entries) else old(entries)[name := Wanted(sc, owner, p)]
    {
      hide Sound, EntriesSound, Opens, Founded;
      var name, entry := EntryName(owner, p.key), Entry(owner, struct, sc[p.schema].shorthand);
      EntriesAdded(sc, unions, visits, entries, owner, |visits[owner].fields|, name, entry);
      AddEntry(name, entry);
      PushField(owner, p, FieldMap(name));
    }

    /** Lists the shorthand of a struct; a struct has one shorthand at most. */
    method AddShorthand(struct: string, field: string) returns (ok: bool)
      modifies this`shorthands
      ensures ok <==> struct !in old(shorthands) || old(shorthands)[struct] == field
      ensures shorthands == if struct in old(shorthands) then old(shorthands) else old(shorthands)[struct := field]
    {
      if struct in shorthands {
        return shorthands[struct] == field;
      }
      shorthands := shorthands[struct := field];
      return true;
    }

    /** `lower_field`: on success the type has one more field, the one its property asks for; on failure the
        innermost open type is refused its next property. */
    method LowerField(owner: string, p: Property, ghost universe: set<string>) returns (ok: bool)
      requires Valid() && Next(owner, p) && Names(sc) <= universe && visits.Keys <= universe
      modifies this
      ensures Valid() && roots == old(roots) && old(open) <= open
      ensures !ok ==> err && IsStuck()
      ensures ok ==>
        open == old(open) && visits.Keys <= universe && FieldAdded(old(visits), old(types), visits, types, owner)
      decreases |universe - visits.Keys|, 4
    {
      hide Sound, EntriesSound, Opens, Founded;
      ghost var v0 := visits;
      var value := ValueOf(sc, p.schema);
      if sc[value].extern_ != "" {
        ok := LowerExtern(owner, p);
      } else {
        var target := Deref(value);
        if sc[target].form.Properties? {
          ok := LowerNested(owner, p, NameOf(sc, p), target, universe);
          return;
        }
        ok := LowerPlain(owner, p, target);
      }
      if ok {
        PushAdds(v0, visits, types, owner);
      }
    }

    method LowerExtern(owner: string, p: Property) returns (ok: bool)
      requires Valid() && Next(owner, p) && sc[ValueOf(sc, p.schema)].extern_ != ""
      modifies this`visits, this`err
      ensures Valid()
      ensures !ok ==> err && IsStuck()
      ensures ok ==> Pushed(old(visits), visits, owner)
    {
      hide Sound, EntriesSound, Opens, Founded;
      var card, value := CardOf(sc[p.schema].form), ValueOf(sc, p.schema);
      if !sc[value].form.Empty? || card.Map? || (card.Array? && !unions) {
        ok := Fail();
        return;
      }
      PushField(owner, p, if card.Array? then FieldExternArray(sc[value].extern_) else FieldExtern(sc[value].extern_));
      return true;
    }

    method LowerPlain(owner: string, p: Property, target: nat) returns (ok: bool)
      requires Valid() && Next(owner, p) && sc[ValueOf(sc, p.schema)].extern_ == ""
      requires target == Target(sc, ValueOf(sc, p.schema)) && !sc[target].form.Properties?
      modifies this`visits, this`entries, this`err
      ensures Valid()
      ensures !ok ==> err && IsStuck()
      ensures ok ==> Pushed(old(visits), visits, owner)
    {
      hide Sound, EntriesSound, Opens, Founded;
      var card := CardOf(sc[p.schema].form);
      if sc[target].form.Enum? && !card.Map? {
        var name := NameOf(sc, p);
        PushField(owner, p, if card.Array? then FieldEnumArray(name) else FieldEnum(name));
        return true;
      }
      if sc[target].form.Scalars? {
        ok := LowerScalar(owner, p, sc[target].form.scalar);
        return;
      }
      ok := Fail();
    }

    method LowerScalar(owner: string, p: Property, scalar: Scalar) returns (ok: bool)
      requires Valid() && Next(owner, p) && sc[ValueOf(sc, p.schema)].extern_ == ""
      requires sc[Target(sc, ValueOf(sc, p.schema))].form == Scalars(scalar)
      modifies this`visits, this`entries, this`err
      ensures Valid()
      ensures !ok ==> err && IsStuck()
      ensures ok ==> Pushed(old(visits), visits, owner)
    {
      hide Sound, EntriesSound, Opens, Founded;
      var card := CardOf(sc[p.schema].form);
      if scalar.OtherScalar? || (!scalar.Text? && !card.Single?) {
        ok := Fail();
        return;
      }
      match card {
        case Single => PushField(owner, p, if scalar.Text? then FieldStr else FieldPrim(scalar));
        case Array => PushField(owner, p, FieldStrArray);
        case Map => PushMap(owner, p, None);
      }
      return true;
    }

    /** A struct field: first the struct, then the field. */
    method LowerNested(owner: string, p: Property, name: string, target: nat, ghost universe: set<string>)
      returns (ok: bool)
      requires Valid() && Next(owner, p) && Names(sc) <= universe && visits.Keys <= universe
      requires StructOf(sc, p) == Some(Node(name, target))
      modifies this
      ensures Valid() && roots == old(roots) && old(open) <= open
      ensures !ok ==> err && IsStuck()
      ensures ok ==>
        open == old(open) && visits.Keys <= universe && FieldAdded(old(visits), old(types), visits, types, owner)
      decreases |universe - visits.Keys|, 3
    {
      hide Sound, EntriesSound, Opens, Founded, Stuck;
      ghost var v0, t0, sh0, open0 := visits, types, shorthands, open;
      NestedIsNamed(sc, visits[owner].schema, |visits[owner].fields|, p, name, target, universe);
      NextRefers(sc, Node(owner, visits[owner].schema), |visits[owner].fields|);
      ok := LowerType(name, target, universe);
      if !ok {
        if Misnamed(name, target) && Same(v0, t0, sh0, open0) {
          TakenIsStuck(sc, unions, visits, types, shorthands, open, p);
        }
        return;
      }
      ghost var v1 := visits;
      assert visits[owner] == v0[owner] && owner !in types;
      ok := LowerStruct(owner, p, name);
      if ok {
        AddedAround(v0, t0, v1, types, visits, owner);
      }
    }

    /** The field for a struct that has been lowered, or is being lowered. */
    method LowerStruct(owner: string, p: Property, name: string) returns (ok: bool)
      requires Valid() && Next(owner, p) && StructOf(sc, p).Some? && Known(visits, StructOf(sc, p).value)
      requires name == NameOf(sc, p)
      modifies this`visits, this`entries, this`shorthands, this`err
      ensures Valid()
      ensures !ok ==> err && IsStuck()
      ensures ok ==> Pushed(old(visits), visits, owner)
    {
      hide Sound, EntriesSound, Opens, Founded;
      match CardOf(sc[p.schema].form) {
        case Single =>
          var found := Find(name);
          if !found {
            ok := Fail();  // a recursive type must be an array or a map
            return;
          }
          PushField(owner, p, FieldObject(name));
        case Array =>
          ok := LowerStructArray(owner, p, name);
          return;
        case Map =>
          PushMap(owner, p, Some(Node(name, visits[name].schema)));
      }
      return true;
    }

    method LowerStructArray(owner: string, p: Property, name: string) returns (ok: bool)
      requires Valid() && Next(owner, p) && StructOf(sc, p).Some? && Known(visits, StructOf(sc, p).value)
      requires name == NameOf(sc, p) && CardOf(sc[p.schema].form).Array?
      modifies this`visits, this`shorthands, this`err
      ensures Valid()
      ensures !ok ==> err && IsStuck()
      ensures ok ==> Pushed(old(visits), visits, owner)
    {
      hide Sound, EntriesSound, Opens, Founded;
      if sc[p.schema].key != "" {
        PushField(owner, p, FieldKeyed(name, sc[p.schema].key));
        return true;
      }
      if sc[p.schema].shorthand != "" {
        ShorthandIsListed(sc, visits[owner].schema, |visits[owner].fields|, name);
        FoundedShorthand(sc, visits, shorthands, roots, name, sc[p.schema].shorthand);
        ok := AddShorthand(name, sc[p.schema].shorthand);
        if !ok {
          ok := Fail();
          return;
        }
      }
      PushField(owner, p, FieldObjectArray(name, sc[p.schema].shorthand));
      return true;
    }

    /** `lower_type`. */
    method LowerType(name: string, schema: nat, ghost universe: set<string>) returns (ok: bool)
      requires Valid() && schema < |sc| && name in universe && Names(sc) <= universe && visits.Keys <= universe
      requires MayOpen(Node(name, Target(sc, schema)))
      modifies this
      ensures Valid() && roots == old(roots) && old(open) <= open
      ensures !ok ==>
        err && (IsStuck() || (Misnamed(name, schema) && Same(old(visits), old(types), old(shorthands), old(open))))
      ensures !ok && old(open) == [] && open != [] ==> open[0] == Node(name, Target(sc, schema))
      ensures ok ==> open == old(open) && visits.Keys <= universe && Known(visits, Node(name, Target(sc, schema)))
      ensures ok ==> Grown(old(visits), old(types), visits, types)
      ensures ok && name !in old(visits) ==> types != [] && types[|types| - 1] == name
      decreases |universe - visits.Keys|, 2
    {
      hide Sound, EntriesSound, Opens, Founded, Stuck;
      var at := Deref(schema);
      if !sc[at].form.Properties? {
        err := true;
        return false;
      }
      if name in visits {
        if visits[name].schema != at {
          err := true;  // two distinct schemas produce the same type name
          return false;
        }
        NothingGrows(visits, types);
        return true;
      }
      ok := LowerNew(name, at, universe);
    }

    ghost predicate Same(v: Visits, t: seq<string>, sh: map<string, string>, op: seq<Node>)
      reads this
    {
      visits == v && types == t && shorthands == sh && open == op
    }

    /** The innermost open type needs `node`, or nothing is open and `node` was asked for. */
    ghost predicate MayOpen(node: Node)
      requires Linked(sc)
      reads this
    {
      if open == [] then
        || node.name in visits || !IsStruct(sc, node.schema)
        || (node.name in roots && roots[node.name] == node.schema)
      else Refers(sc, open[|open| - 1], node)
    }

    /** A type seen for the first time. */
    method LowerNew(name: string, at: nat, ghost universe: set<string>) returns (ok: bool)
      requires Valid() && IsStruct(sc, at) && name in universe && Names(sc) <= universe && visits.Keys <= universe
      requires name !in visits && MayOpen(Node(name, at))
      modifies this
      ensures Valid() && roots == old(roots)
      ensures !ok ==> err && IsStuck() && old(open) + [Node(name, at)] <= open
      ensures ok ==> open == old(open) && visits.Keys <= universe && Known(visits, Node(name, at))
      ensures ok ==> Grown(old(visits), old(types), visits, types) && types != [] && types[|types| - 1] == name
      decreases |universe - visits.Keys|, 1
    {
      hide Sound, EntriesSound, Opens, Founded, Stuck, Grown;
      ghost var v0, t0 := visits, types;
      OpenType(name, at);
      FewerLeft(universe, v0.Keys, visits.Keys, name);
      OpenedGrows(v0, t0, name, at);
      ok := LowerOpened(name, at, universe, v0, t0);
    }

    /** The fields of a type that has just been opened; then it is emitted. */
    method LowerOpened(name: string, at: nat, ghost universe: set<string>, ghost v0: Visits, ghost t0: seq<string>)
      returns (ok: bool)
      requires Valid() && IsStruct(sc, at) && Names(sc) <= universe && visits.Keys <= universe
      requires name in visits && name !in types && visits[name] == Visit(at, []) && name !in v0
      requires open != [] && open[|open| - 1] == Node(name, at)
      requires Grown(v0[name := Visit(at, [])], t0, visits[name := Visit(at, [])], types)
      modifies this
      ensures Valid() && roots == old(roots)
      ensures !ok ==> err && IsStuck() && old(open) <= open
      ensures ok ==> open == old(open)[..|old(open)| - 1] && visits.Keys <= universe && Known(visits, Node(name, at))
      ensures ok ==> Grown(v0, t0, visits, types) && types != [] && types[|types| - 1] == name
      decreases |universe - visits.Keys|, 6
    {
      hide Sound, EntriesSound, Opens, Founded, Stuck, Grown;
      ok := LowerFields(name, at, universe, v0, t0);
      if ok {
        GrownWhole(v0, t0, visits, types, name, at);
        CloseType(name);
      }
    }

    method OpenType(name: string, at: nat)
      requires Valid() && IsStruct(sc, at) && name !in visits && MayOpen(Node(name, at))
      modifies this`visits, this`open
      ensures visits == old(visits)[name := Visit(at, [])] && open == old(open) + [Node(name, at)]
      ensures Valid() && name !in types
    {
      hide Sound, EntriesSound, Opens, Founded;
      Opened(sc, unions, visits, types, name, at);
      EntriesOpened(sc, unions, visits, entries, name, at);
      if name in types {
        EmittedIsKnown(sc, unions, visits, types, name);
      }
      OpensOneMore(sc, visits, types, open, name, at);
      if open != [] {
        IsNeeded(sc, open[|open| - 1], Node(name, at));
      }
      OpenKeepsFounded(sc, visits, shorthands, roots, name, at);
      visits := visits[name := Visit(at, [])];
      open := open + [Node(name, at)];
    }

    method CloseType(name: string)
      requires Valid() && open != [] && name in visits && name !in types
      requires open[|open| - 1] == Node(name, visits[name].schema)
      requires |visits[name].fields| == |sc[visits[name].schema].form.all|
      modifies this`types, this`open
      ensures types == old(types) + [name] && open == old(open)[..|old(open)| - 1] && Valid()
    {
      hide Sound, EntriesSound, Founded;
      Closed(sc, unions, visits, types, name);
      assert open == open[..|open| - 1] + [Node(name, visits[name].schema)];
      OpensOneLess(sc, visits, types, open[..|open| - 1], name, visits[name].schema);
      types := types + [name];
      open := open[..|open| - 1];
    }

    /** The fields of a type under construction, one by one. */
    method LowerFields(name: string, at: nat, ghost universe: set<string>, ghost v0: Visits, ghost t0: seq<string>)
      returns (ok: bool)
      requires Valid() && IsStruct(sc, at) && Names(sc) <= universe && visits.Keys <= universe
      requires name in visits && name !in types && visits[name] == Visit(at, []) && name !in v0
      requires open != [] && open[|open| - 1] == Node(name, at)
      requires Grown(v0[name := Visit(at, [])], t0, visits[name := Visit(at, [])], types)
      modifies this
      ensures Valid() && roots == old(roots) && old(open) <= open
      ensures !ok ==> err && IsStuck()
      ensures ok ==> open == old(open) && visits.Keys <= universe && name in visits && name !in types
      ensures ok ==> visits[name].schema == at && |visits[name].fields| == |sc[at].form.all|
      ensures ok ==> Grown(v0[name := Visit(at, [])], t0, visits[name := Visit(at, [])], types)
      decreases |universe - visits.Keys|, 5
    {
      hide Sound, EntriesSound, Opens, Founded, Stuck;
      ghost var before := visits;
      for it := 0 to |sc[at].form.all|
        invariant Valid() && roots == old(roots) && open == old(open)
        invariant visits.Keys <= universe && before.Keys <= visits.Keys && name in visits && name !in types
        invariant visits[name].schema == at && |visits[name].fields| == it
        invariant Grown(v0[name := Visit(at, [])], t0, visits[name := Visit(at, [])], types)
      {
        ghost var v1, t1 := visits, types;
        NoMoreLeft(universe, before.Keys, visits.Keys);
        ok := LowerField(name, sc[at].form.all[it], universe);
        if !ok {
          return;
        }
        GrownPast(v0, t0, v1, t1, visits, types, name, at);
        assert v1.Keys <= visits.Keys;
      }
      return true;
    }

    /** `gen_lower`: when it succeeds, every known type has been emitted. It succeeds whenever no walk
        from the root comes to a type that embeds one of its own walk and nothing else is in the way; it
        fails whenever a new root is embedded by something it leads to. */
    method Lower(name: string, schema: nat) returns (ok: bool)
      requires Valid() && schema < |sc| && (forall n :: n in visits ==> n in types)
      modifies this
      ensures Valid()
      ensures roots == if old(Misnamed(name, schema)) then old(roots) else old(roots)[name := Target(sc, schema)]
      ensures !ok ==> err && (IsStuck() || Misnamed(name, schema))
      ensures ok ==> (forall n :: n in visits ==> n in types) && Known(visits, Node(name, Target(sc, schema)))
      ensures ok ==> |types| >= |old(types)| && types[..|old(types)|] == old(types)
      ensures Clean(sc, unions) && RootsFit(sc, roots) && !old(Misnamed(name, schema)) ==>
        (!EmbedsOpen(sc, Node(name, Target(sc, schema))) ==> ok)
      ensures ok && name !in old(visits) ==> !ComesBack(sc, Node(name, Target(sc, schema)))
    {
      hide Sound, EntriesSound, Opens, Founded, Stuck, Clean, RootsFit, EmbedsOpen, ComesBack;
      ghost var universe := Names(sc) + visits.Keys + {name};
      ghost var v0, t0, node := visits, types, Node(name, Target(sc, schema));
      NothingOpen(sc, visits, types, open);
      if !Misnamed(name, schema) {
        FoundedRoot(sc, visits, shorthands, roots, node);
        roots := roots[name := Target(sc, schema)];
      }
      ok := LowerType(name, schema, universe);
      if ok {
        EmittedStays(v0, t0, visits, types);
        if name !in v0 {
          LastIsEmbeddedNowhere(sc, unions, visits, types, node);
        }
      } else if IsStuck() && Clean(sc, unions) && RootsFit(sc, roots) {
        StuckMeans(sc, unions, visits, types, shorthands, open, roots);
      }
    }
  }

  lemma FoundedRoot(sc: Schemas, visits: Visits, shorthands: map<string, string>, roots: map<string, nat>, node: Node)
    requires Linked(sc) && Founded(sc, visits, shorthands, roots)
    requires node.name in visits ==> visits[node.name].schema == node.schema
    ensures Founded(sc, visits, shorthands, roots[node.name := node.schema])
  {
  }

  lemma OutermostIsOpen(sc: Schemas, visits: Visits, types: seq<string>, open: seq<Node>)
    requires Linked(sc) && Opens(sc, visits, types, open) && open != []
    ensures open[0].name in visits && open[0].name !in types
  {
    assert Known(visits, open[0]);
  }

  lemma NothingOpen(sc: Schemas, visits: Visits, types: seq<string>, open: seq<Node>)
    requires Linked(sc) && Opens(sc, visits, types, open) && forall n :: n in visits ==> n in types
    ensures open == []
  {
    if open != [] {
      OutermostIsOpen(sc, visits, types, open);
      assert false;
    }
  }

  lemma EmittedStays(v0: Visits, t0: seq<string>, v: Visits, t: seq<string>)
    requires Grown(v0, t0, v, t) && forall n :: n in v0 ==> n in t0
    ensures forall n :: n in v ==> n in t
  {
    forall n | n in v && n in v0 ensures n in t {
      var i :| 0 <= i < |t0| && t0[i] == n;
      assert t[..|t0|][i] == t[i];
    }
  }

  /** Types may have been lowered, and then `owner` got one more field. */
  ghost predicate FieldAdded(v0: Visits, t0: seq<string>, v: Visits, t: seq<string>, owner: string) {
    && owner in v0 && owner in v && Grown(v0, t0, v[owner := v0[owner]], t)
    && |v[owner].fields| == |v0[owner].fields| + 1 && v[owner].schema == v0[owner].schema
  }

  lemma NothingGrows(v: Visits, t: seq<string>)
    ensures Grown(v, t, v, t)
  {
  }

  lemma PushAdds(v: Visits, v': Visits, t: seq<string>, owner: string)
    requires Pushed(v, v', owner)
    ensures FieldAdded(v, t, v', t, owner) && v'.Keys == v.Keys
  {
    NothingGrows(v, t);
    assert v'.Keys == v'[owner := v[owner]].Keys;
  }

  lemma AddedAround(v0: Visits, t0: seq<string>, v1: Visits, t1: seq<string>, v2: Visits, owner: string)
    requires Grown(v0, t0, v1, t1) && owner in v0 && Pushed(v1, v2, owner)
    ensures FieldAdded(v0, t0, v2, t1, owner) && v2.Keys == v1.Keys
  {
    GrownAround(v0, t0, v1, t1, v2, owner);
  }

  /** Growth, and then one more field for a type that was there before. */
  lemma GrownAround(v0: Visits, t0: seq<string>, v1: Visits, t1: seq<string>, v2: Visits, owner: string)
    requires Grown(v0, t0, v1, t1) && owner in v0 && owner in v2 && v2[owner := v1[owner]] == v1
    ensures Grown(v0, t0, v2[owner := v0[owner]], t1) && v2.Keys == v1.Keys
  {
    assert v1[owner] == v0[owner];
    assert v2.Keys == v2[owner := v1[owner]].Keys;
  }

  lemma OpenedGrows(v0: Visits, t0: seq<string>, name: string, at: nat)
    requires name !in v0
    ensures var v := v0[name := Visit(at, [])]; Grown(v, t0, v[name := Visit(at, [])], t0)
  {
    var v := v0[name := Visit(at, [])];
    assert v[name := Visit(at, [])] == v;
  }

  /** Growth while one type is under construction, past its fields. */
  lemma GrownPast(v0: Visits, t0: seq<string>, v1: Visits, t1: seq<string>, v2: Visits, t2: seq<string>, name: string,
                  at: nat)
    requires name !in v0 && name in v1 && name in v2
    requires Grown(v0[name := Visit(at, [])], t0, v1[name := Visit(at, [])], t1)
    requires Grown(v1, t1, v2[name := v1[name]], t2)
    ensures Grown(v0[name := Visit(at, [])], t0, v2[name := Visit(at, [])], t2)
    ensures v1.Keys <= v2.Keys && (name !in t1 ==> name !in t2)
  {
    var a, b, c := v0[name := Visit(at, [])], v1[name := Visit(at, [])], v2[name := Visit(at, [])];
    assert Grown(b, t1, c, t2) by {
      assert forall n | n in b :: n in v1 && n in v2;
      assert forall n | n in b && n != name :: c[n] == v2[name := v1[name]][n];
      assert forall n | n in c :: n in v2[name := v1[name]];
    }
    GrownJoin(a, t0, b, t1, c, t2);
    assert v0.Keys <= a.Keys;
  }

  /** Growth once the type is emitted. */
  lemma GrownWhole(v0: Visits, t0: seq<string>, v: Visits, t: seq<string>, name: string, at: nat)
    requires name !in v0 && name in v && name !in t
    requires Grown(v0[name := Visit(at, [])], t0, v[name := Visit(at, [])], t)
    ensures Grown(v0, t0, v, t + [name])
  {
    var a, b := v0[name := Visit(at, [])], v[name := Visit(at, [])];
    assert (t + [name])[..|t0|] == t[..|t0|];
    forall n | n in v0 ensures n in v && v[n] == v0[n] {
      assert n in a && b[n] == a[n];
    }
    forall n | n in v && n !in v0 ensures n in t + [name] {
      assert n in b;
      assert n != name ==> n !in a;
    }
    forall n | n in v0 && n in t + [name] ensures n in t0 {
      assert n in a && n in t;
    }
  }

  // ---------------------------------------------------------------- what success means

  /** Embedding by value never comes back to where it started: the emitted order is a rank. */
  lemma EmbeddingDescends(sc: Schemas, unions: bool, visits: Visits, types: seq<string>, i: nat, k: nat)
    requires Sound(sc, unions, visits, types) && i < |types| && k < |visits[types[i]].fields|
    requires visits[types[i]].fields[k].kind.FieldObject?
    ensures exists j :: 0 <= j < i && types[j] == visits[types[i]].fields[k].kind.struct
  {
    assert EmbedsEarlier(types, visits[types[i]], i);
  }

  /** Once everything known is emitted, an emitted type has exactly the fields its schema asks for, and
      every struct it needs, by value, in an array or in a map, is emitted from the right schema. */
  lemma EmittedIsComplete(sc: Schemas, unions: bool, visits: Visits, types: seq<string>, i: nat)
    requires Sound(sc, unions, visits, types) && (forall n :: n in visits ==> n in types) && i < |types|
    ensures var visit := visits[types[i]];
      && IsStruct(sc, visit.schema) && |visit.fields| == |sc[visit.schema].form.all|
      && forall k :: 0 <= k < |visit.fields| ==>
           var p := sc[visit.schema].form.all[k];
           && Fits(sc, unions, types[i], p, visit.fields[k])
           && visit.fields[k].key == p.key && visit.fields[k].required == p.required
           && (sc[p.schema].rename != "" ==> visit.fields[k].name == sc[p.schema].rename)
           && (sc[p.schema].rename == "" ==> visit.fields[k].name == p.key)
           && (StructOf(sc, p).Some? ==> Known(visits, StructOf(sc, p).value) && StructOf(sc, p).value.name in types)
  {
    assert types[i] in visits && MentionsKnown(sc, visits, visits[types[i]]);
  }

  ghost predicate IsNamed(sc: Schemas, p: Property, name: string)
    requires InRange(sc) && p.schema < |sc|
  {
    var value := sc[ValueOf(sc, p.schema)].form;
    (value.Ref? ==> name == value.name) && (!value.Ref? ==> name == p.key)
  }

  /** What a field tells of the property behind it: its cardinality, its value, and where names come from. */
  ghost predicate Tells(sc: Schemas, kind: FieldKind, owner: string, p: Property)
    requires Linked(sc) && p.schema < |sc|
  {
    var form, value := sc[p.schema].form, ValueOf(sc, p.schema);
    var single, ext, target := !form.Elements? && !form.Values?, sc[value].extern_, sc[Target(sc, value)].form;
    match kind
    case FieldStr => single && ext == "" && target == Scalars(Text)
    case FieldPrim(scalar) => single && ext == "" && target == Scalars(scalar) && !scalar.Text? && !scalar.OtherScalar?
    case FieldEnum(name) => single && ext == "" && target.Enum? && IsNamed(sc, p, name)
    case FieldObject(name) => single && ext == "" && target.Properties? && IsNamed(sc, p, name)
    case FieldExtern(name) => !form.Elements? && !form.Values? && ext == name && ext != ""
    case FieldExternArray(name) => form.Elements? && ext == name && ext != ""
    case FieldStrArray => form.Elements? && ext == "" && target == Scalars(Text)
    case FieldEnumArray(name) => form.Elements? && ext == "" && target.Enum? && IsNamed(sc, p, name)
    case FieldKeyed(name, key) =>
      form.Elements? && ext == "" && target.Properties? && IsNamed(sc, p, name) && key == sc[p.schema].key != ""
    case FieldObjectArray(name, shorthand) =>
      && form.Elements? && ext == "" && target.Properties? && IsNamed(sc, p, name)
      && sc[p.schema].key == "" && shorthand == sc[p.schema].shorthand
    case FieldMap(entry) =>
      && form.Values? && ext == "" && (target == Scalars(Text) || target.Properties?)
      && entry == owner + "_" + p.key + "_entry"
  }

  /** The properties that have a field: externs of the empty form, single or, in union formats, in arrays;
      strings and structs anywhere; enumerations but in maps; other known scalars alone. */
  ghost predicate HasField(sc: Schemas, unions: bool, p: Property)
    requires Linked(sc) && p.schema < |sc|
  {
    var form, value := sc[p.schema].form, ValueOf(sc, p.schema);
    var target := sc[Target(sc, value)].form;
    if sc[value].extern_ != "" then sc[value].form.Empty? && !form.Values? && (form.Elements? ==> unions)
    else
      || target.Properties? || target == Scalars(Text) || (target.Enum? && !form.Values?)
      || (target.Scalars? && !target.scalar.OtherScalar? && !form.Values? && !form.Elements?)
  }

  /** A property has a field exactly when it is of a supported form, and the field tells which. */
  lemma KindsTell(sc: Schemas, unions: bool, owner: string, p: Property)
    requires Linked(sc) && p.schema < |sc|
    ensures KindOf(sc, unions, owner, p).Some? <==> HasField(sc, unions, p)
    ensures KindOf(sc, unions, owner, p).Some? ==> Tells(sc, KindOf(sc, unions, owner, p).value, owner, p)
  {
  }

  /** Whatever an emitted type leads to is emitted. */
  lemma {:induction false} WalkIsEmitted(sc: Schemas, unions: bool, visits: Visits, types: seq<string>, path: seq<Node>)
    requires Sound(sc, unions, visits, types) && (forall n :: n in visits ==> n in types)
    requires path != [] && Walk(sc, path) && Known(visits, path[0])
    ensures Known(visits, path[|path| - 1]) && path[|path| - 1].name in types
  {
    var k := |path| - 1;
    if k > 0 {
      var front := path[..k];
      forall i | 0 <= i < |front| - 1 ensures Refers(sc, front[i], front[i + 1]) {
        assert front[i] == path[i] && front[i + 1] == path[i + 1];
      }
      WalkIsEmitted(sc, unions, visits, types, front);
      assert Refers(sc, path[k - 1], path[k]);
      var at: nat :| Edge(sc, path[k - 1], path[k], at);
      var j :| 0 <= j < |types| && types[j] == path[k - 1].name;
      EmittedIsComplete(sc, unions, visits, types, j);
    }
  }

  /** The type that was emitted last is embedded by nothing it leads to. */
  lemma LastIsEmbeddedNowhere(sc: Schemas, unions: bool, visits: Visits, types: seq<string>, root: Node)
    requires Sound(sc, unions, visits, types) && (forall n :: n in visits ==> n in types)
    requires types != [] && types[|types| - 1] == root.name && Known(visits, root)
    ensures !ComesBack(sc, root)
  {
    if ComesBack(sc, root) {
      var path: seq<Node> :| path != [] && Leads(sc, root, path[|path| - 1], path)
        && Embeds(sc, path[|path| - 1], root);
      WalkIsEmitted(sc, unions, visits, types, path);
      var a := path[|path| - 1];
      var j :| 0 <= j < |types| && types[j] == a.name;
      EmbedderIsLater(sc, unions, visits, types, j, root);
    }
  }

  lemma EmbedderIsLater(sc: Schemas, unions: bool, visits: Visits, types: seq<string>, j: nat, b: Node)
    requires Sound(sc, unions, visits, types) && (forall n :: n in visits ==> n in types) && j < |types|
    requires Embeds(sc, Node(types[j], visits[types[j]].schema), b)
    ensures exists i :: 0 <= i < j && types[i] == b.name
  {
    var a := Node(types[j], visits[types[j]].schema);
    var k: nat :| Edge(sc, a, b, k) && CardOf(sc[sc[a.schema].form.all[k].schema].form).Single?;
    EmittedIsComplete(sc, unions, visits, types, j);
    assert Fits(sc, unions, types[j], sc[a.schema].form.all[k], visits[types[j]].fields[k]);
    assert visits[types[j]].fields[k].kind == FieldObject(b.name);
    EmbeddingDescends(sc, unions, visits, types, j, k);
  }

  // ---------------------------------------------------------------- entries

  /** The entry of a map field is the one its property asks for. */
  ghost predicate HasOwnEntry(sc: Schemas, visits: Visits, entries: Entries, owner: string, k: nat)
    requires Linked(sc) && owner in visits && IsStruct(sc, visits[owner].schema)
    requires k < |sc[visits[owner].schema].form.all|
  {
    var p := sc[visits[owner].schema].form.all[k];
    EntryName(owner, p.key) in entries && entries[EntryName(owner, p.key)] == Wanted(sc, owner, p)
  }

  /** Two map properties that ask for different entries under one name. */
  ghost predicate Clash(sc: Schemas, unions: bool, visits: Visits, name: string, entry: Entry, other: Entry)
    requires Linked(sc)
  {
    && entry != other
    && (exists owner, k :: Asks(sc, unions, visits, owner, k, name, entry))
    && (exists owner, k :: Asks(sc, unions, visits, owner, k, name, other))
  }

  lemma AskedIsFiled(sc: Schemas, unions: bool, visits: Visits, types: seq<string>, entries: Entries, owner: string,
                     k: nat, name: string, entry: Entry)
    requires Sound(sc, unions, visits, types) && EntriesSound(sc, unions, visits, entries)
    requires forall n :: n in visits ==> n in types
    requires Asks(sc, unions, visits, owner, k, name, entry)
    ensures name in entries
  {
    var i :| 0 <= i < |types| && types[i] == owner;
    EmittedIsComplete(sc, unions, visits, types, i);
    assert Fits(sc, unions, owner, sc[visits[owner].schema].form.all[k], visits[owner].fields[k]);
    assert visits[owner].fields[k].kind == FieldMap(name);
  }

  ghost predicate AllOwn(sc: Schemas, unions: bool, visits: Visits, entries: Entries)
    requires Linked(sc)
  {
    forall owner, k: nat, name, entry :: Asks(sc, unions, visits, owner, k, name, entry) ==>
      HasOwnEntry(sc, visits, entries, owner, k)
  }

  lemma ClashingEntries(sc: Schemas, unions: bool, visits: Visits, entries: Entries, name: string, entry: Entry,
                        other: Entry)
    requires Linked(sc) && Clash(sc, unions, visits, name, entry, other)
    ensures !AllOwn(sc, unions, visits, entries)
  {
    var a, k :| Asks(sc, unions, visits, a, k, name, entry);
    var b, l :| Asks(sc, unions, visits, b, l, name, other);
    assert !(HasOwnEntry(sc, visits, entries, a, k) && HasOwnEntry(sc, visits, entries, b, l));
  }

  lemma FiledIsAsked(sc: Schemas, unions: bool, visits: Visits, entries: Entries, name: string)
    requires Linked(sc) && EntriesSound(sc, unions, visits, entries) && name in entries
    ensures exists owner, k :: Asks(sc, unions, visits, owner, k, name, entries[name])
  {
  }

  /** Once everything is emitted, every map field has the entry its property asks for exactly when no two
      map properties ask for different entries under one name. */
  lemma EntriesAreOwn(sc: Schemas, unions: bool, visits: Visits, types: seq<string>, entries: Entries)
    requires Linked(sc) && Sound(sc, unions, visits, types) && EntriesSound(sc, unions, visits, entries)
    requires forall n :: n in visits ==> n in types
    ensures AllOwn(sc, unions, visits, entries) <==>
      !exists name, entry, other :: Clash(sc, unions, visits, name, entry, other)
  {
    hide Sound, EntriesSound;
    if name, entry, other :| Clash(sc, unions, visits, name, entry, other) {
      ClashingEntries(sc, unions, visits, entries, name, entry, other);
    } else {
      forall owner: string, k: nat, name: string, entry: Entry | Asks(sc, unions, visits, owner, k, name, entry)
        ensures HasOwnEntry(sc, visits, entries, owner, k)
      {
        AskedIsFiled(sc, unions, visits, types, entries, owner, k, name, entry);
        FiledIsAsked(sc, unions, visits, entries, name);
        assert !Clash(sc, unions, visits, name, entry, entries[name]);
      }
    }
  }

  /** Two types may ask for entries under one name. */
  lemma EntryNamesCollide(a: string, b: string, c: string)
    ensures EntryName(a + "_" + b, c) == EntryName(a, b + "_" + c)
  {
    assert ((a + "_" + b) + "_") + c == (a + "_") + (b + "_" + c);
  }

  // ---------------------------------------------------------------- which schemas lower from every root

  ghost predicate IsRoot(sc: Schemas, node: Node)
    requires Linked(sc)
  {
    IsStruct(sc, node.schema) && NameFits(sc, node.name, node.schema)
  }

  /** A field by value lies on a cycle of references. */
  ghost predicate ValueCycle(sc: Schemas)
    requires Linked(sc)
  {
    exists root :: ComesBack(sc, root)
  }

  /** `lowers` are the roots that a fresh generator lowers, as far as the contract of `Gen.Lower` says: with
      nothing else in the way, all roots lower exactly when no field by value lies on a cycle. */
  lemma EveryRootLowers(sc: Schemas, unions: bool, lowers: iset<Node>)
    requires Linked(sc) && Clean(sc, unions)
    requires forall root :: IsRoot(sc, root) && !EmbedsOpen(sc, root) ==> root in lowers
    requires forall root :: root in lowers ==> !ComesBack(sc, root)
    ensures (forall root :: IsRoot(sc, root) ==> root in lowers) <==> !ValueCycle(sc)
  {
    DangerIsACycle(sc);
    if root :| ComesBack(sc, root) {
      CycleIsRoot(sc, unions, root);
    }
  }

  lemma CycleIsRoot(sc: Schemas, unions: bool, root: Node)
    requires Linked(sc) && Clean(sc, unions) && ComesBack(sc, root)
    ensures IsRoot(sc, root)
  {
    var path: seq<Node> :| path != [] && Leads(sc, root, path[|path| - 1], path) && Embeds(sc, path[|path| - 1], root);
    var a := path[|path| - 1];
    var k: nat :| Edge(sc, a, root, k);
    var p := sc[a.schema].form.all[k];
    assert IsProperty(sc, p);
    forall q | IsProperty(sc, q) && q.schema < |sc| && StructOf(sc, q).Some? && StructOf(sc, q).value.name == root.name
      ensures StructOf(sc, q).value.schema == root.schema
    {
      assert OneMeaning(sc, p, q);
    }
  }

  // ---------------------------------------------------------------- the order decides

  /** Type A holds an array of B, type B holds an A by value. */
  function Mutual(): Schemas {
    [Schema(Properties([Property("xs", 2, true)]), "", "", "", ""),
     Schema(Properties([Property("a", 4, true)]), "", "", "", ""),
     Schema(Elements(3), "", "", "", ""),
     Schema(Ref("B", 1), "", "", "", ""),
     Schema(Ref("A", 0), "", "", "", "")]
  }

  lemma MutualTargets()
    ensures var sc := Mutual();
      Linked(sc) && Target(sc, 0) == 0 && Target(sc, 1) == 1 && Target(sc, 3) == 1 && Target(sc, 4) == 0
  {
    var sc := Mutual();
    assert EndsIn(sc, 0, 0) && EndsIn(sc, 1, 0) && EndsIn(sc, 2, 0) && EndsIn(sc, 3, 1) && EndsIn(sc, 4, 1);
    TargetStep(sc, 0);
    TargetStep(sc, 1);
    TargetStep(sc, 3);
    TargetStep(sc, 4);
  }

  lemma MutualEdges()
    ensures var sc, a, b := Mutual(), Node("A", 0), Node("B", 1);
      && Linked(sc)
      && (forall x, y, k: nat :: Edge(sc, x, y, k) ==> k == 0 && x.schema < 2 && y == if x.schema == 0 then b else a)
      && Edge(sc, a, b, 0) && Embeds(sc, b, a) && forall x, y :: Embeds(sc, x, y) ==> x.schema == 1 && y == a
  {
    var sc, a, b := Mutual(), Node("A", 0), Node("B", 1);
    MutualTargets();
    assert StructOf(sc, sc[0].form.all[0]) == Some(b) && StructOf(sc, sc[1].form.all[0]) == Some(a);
    assert Edge(sc, b, a, 0);
  }

  lemma MutualNeeds()
    ensures var sc := Mutual(); var p, q := sc[0].form.all[0], sc[1].form.all[0];
      && Linked(sc) && StructOf(sc, p) == Some(Node("B", 1)) && StructOf(sc, q) == Some(Node("A", 0))
      && KindOf(sc, false, "", p).Some? && KindOf(sc, false, "", q).Some?
      && forall r :: IsProperty(sc, r) ==> r == p || r == q
  {
    MutualTargets();
  }

  lemma MutualProperties()
    ensures Linked(Mutual()) && Clean(Mutual(), false)
    ensures NameFits(Mutual(), "A", 0) && NameFits(Mutual(), "B", 1)
  {
    MutualNeeds();
    forall p, q | IsProperty(Mutual(), p) && IsProperty(Mutual(), q) && p.schema < |Mutual()| && q.schema < |Mutual()|
      ensures OneMeaning(Mutual(), p, q)
    {
      assert "A" != "B";
    }
  }

  lemma MutualWalk(path: seq<Node>)
    requires Linked(Mutual()) && path != [] && Walk(Mutual(), path) && path[0] == Node("B", 1)
    ensures |path| > 1 ==> path[1] == Node("A", 0)
    ensures |path| > 2 ==> path[2] == path[0]
  {
    MutualEdges();
    assert |path| > 1 ==> Refers(Mutual(), path[0], path[1]);
    assert |path| > 2 ==> Refers(Mutual(), path[1], path[2]);
  }

  /** A walk from B without repetitions is B, or B and A. */
  lemma MutualPath(path: seq<Node>)
    requires Linked(Mutual()) && path != [] && Walk(Mutual(), path) && Distinct(path) && path[0] == Node("B", 1)
    ensures path == [Node("B", 1)] || path == [Node("B", 1), Node("A", 0)]
  {
    MutualWalk(path);
  }

  /** From B nothing open is embedded, from A it is. */
  lemma MutualWalks()
    ensures Linked(Mutual()) && !EmbedsOpen(Mutual(), Node("B", 1)) && ComesBack(Mutual(), Node("A", 0))
  {
    var sc, a, b := Mutual(), Node("A", 0), Node("B", 1);
    MutualEdges();
    assert Refers(sc, a, b);
    assert Leads(sc, a, b, [a, b]);
    if EmbedsOpen(sc, b) {
      var path, i :| EmbedsBack(sc, path, i) && path[0] == b;
      MutualPath(path);
    }
  }

  /** The same two types: lowering A first fails, lowering B first succeeds. */
  method OrderDecides() returns (aFirst: bool, bFirst: bool)
    ensures !aFirst && bFirst
  {
    hide Sound, EntriesSound, Opens, Founded, Stuck, Clean, NameFits, EmbedsOpen, ComesBack;
    MutualTargets();
    MutualProperties();
    MutualWalks();
    var gen := new Gen(Mutual(), false);
    aFirst := gen.Lower("A", 0);
    gen := new Gen(Mutual(), false);
    bFirst := gen.Lower("B", 1);
  }
}
