/**
 bmq_publish_row's pass over the row: one loop builds the message properties (strict) and the
 payload (permissive).
 */
module RowSplit {
  import opened Wrappers

  /** A column's datum together with its type; `Other` is every type without a case of its own. */
  datatype Value =
    | Bool(b: bool)
    | Int2(i: int)
    | Int4(i: int)
    | Int8(i: int)
    | Float4(r: real)
    | Float8(r: real)
    | Text(s: string)
    | Varchar(s: string)
    | Bpchar(s: string)
    | Other(typid: nat, output: string)

  /** For a NULL column the value only says the type. */
  datatype Column = Column(name: string, dropped: bool, isNull: bool, value: Value)

  datatype Property = AsBool(b: bool) | AsShort(i: int) | AsInt32(i: int) | AsInt64(i: int) | AsString(s: string)

  /** zerialize's dynamic value, as far as a row can produce one. */
  datatype Dyn = Null | DynBool(b: bool) | DynInt(i: int) | DynDouble(r: real) | DynString(s: string)

  datatype Split =
    | Built(payload: seq<(string, Dyn)>, properties: seq<(string, Property)>)
    | Rejected(column: string)

  class MessageProperties {
    var entries: seq<(string, Property)>   // the setPropertyAs... calls made, in order

    constructor ()
      ensures entries == []
    {
      entries := [];
    }

    method Set(name: string, p: Property)
      modifies this
      ensures entries == old(entries) + [(name, p)]
    {
      entries := entries + [(name, p)];
    }
  }

  function PropertyOf(v: Value): Option<Property> {
    match v
    case Bool(b) => Some(AsBool(b))
    case Int2(i) => Some(AsShort(i))
    case Int4(i) => Some(AsInt32(i))
    case Int8(i) => Some(AsInt64(i))
    case Text(s) => Some(AsString(s))
    case Varchar(s) => Some(AsString(s))
    case Bpchar(s) => Some(AsString(s))
    case _ => None
  }

  function DatumToDynValue(v: Value, isNull: bool): Dyn {
    if isNull then Null else
    match v
    case Bool(b) => DynBool(b)
    case Int2(i) => DynInt(i)
    case Int4(i) => DynInt(i)
    case Int8(i) => DynInt(i)
    case Float4(r) => DynDouble(r)
    case Float8(r) => DynDouble(r)
    case Text(s) => DynString(s)
    case Varchar(s) => DynString(s)
    case Bpchar(s) => DynString(s)
    case Other(_, out) => DynString(out)
  }

  method SetMessageProperty(props: MessageProperties, name: string, v: Value, isNull: bool) returns (eligible: bool)
    modifies props
    ensures eligible == Promotable(Column(name, false, isNull, v))
    ensures props.entries == old(props.entries) + (if eligible then [(name, PropertyOf(v).value)] else [])
  {
    if isNull {
      return false;
    }
    match PropertyOf(v)
    case Some(p) =>
      props.Set(name, p);
      return true;
    case None =>
      return false;
  }

  // ---- The specification ----

  predicate Promotable(c: Column) {
    !c.isNull && PropertyOf(c.value).Some?
  }

  /** An attribute array as SQL gives it: absent, or names with NULLs among them. */
  type Attributes = Option<seq<Option<string>>>

  predicate Wants(attrs: Attributes, name: string) {
    attrs.Some? ==> Some(name) in attrs.value
  }

  /** A column becomes a property. */
  predicate Promoted(attrs: Attributes, c: Column) {
    !c.dropped && Wants(attrs, c.name) && Promotable(c)
  }

  /** A column was asked for by name and cannot become a property. */
  predicate Refused(attrs: Attributes, c: Column) {
    !c.dropped && attrs.Some? && Some(c.name) in attrs.value && !Promotable(c)
  }

  /** The entries the columns contribute, in column order. */
  function Build<T>(entry: Column -> Option<T>, cols: seq<Column>): seq<T> {
    if cols == [] then [] else
    Build(entry, cols[..|cols| - 1])
      + (var e := entry(cols[|cols| - 1]); if e.Some? then [e.value] else [])
  }

  function PayloadEntry(c: Column): Option<(string, Dyn)> {
    if c.dropped then None else Some((c.name, DatumToDynValue(c.value, c.isNull)))
  }

  function PropertyEntry(attrs: Attributes): Column -> Option<(string, Property)> {
    c => if Promoted(attrs, c) then Some((c.name, PropertyOf(c.value).value)) else None
  }

  function Payload(cols: seq<Column>): seq<(string, Dyn)> {
    Build(PayloadEntry, cols)
  }

  function Properties(attrs: Attributes, cols: seq<Column>): seq<(string, Property)> {
    Build(PropertyEntry(attrs), cols)
  }

  ghost predicate AnyRefused(attrs: Attributes, cols: seq<Column>) {
    exists i :: 0 <= i < |cols| && Refused(attrs, cols[i])
  }

  /**
   The pass over the row. It is refused exactly if a list was given that names a live column which cannot
   be a property, and then the first such column is reported.
   */
  method SplitRow(cols: seq<Column>, attrs: Attributes) returns (r: Split)
    ensures r.Rejected? <==>
            attrs.Some? && exists i :: 0 <= i < |cols| && !cols[i].dropped && Some(cols[i].name) in attrs.value
                                       && !Promotable(cols[i])
    ensures r.Rejected? <==> AnyRefused(attrs, cols)
    ensures r.Built? ==> r.payload == Payload(cols) && r.properties == Properties(attrs, cols)
    ensures r.Rejected? ==> exists i :: 0 <= i < |cols| && Refused(attrs, cols[i]) && r.column == cols[i].name
                                        && !AnyRefused(attrs, cols[..i])
  {
    var requested: set<string> := {};
    var explicit := attrs.Some?;
    if explicit {
      var list := attrs.value;
      for i := 0 to |list|
        invariant forall name :: name in requested <==> Some(name) in list[..i]
      {
        assert list[..i + 1] == list[..i] + [list[i]];
        if list[i].Some? {
          requested := requested + {list[i].value};
        }
      }
      assert list[..|list|] == list;
    }

    var props := new MessageProperties();
    var rowMap: seq<(string, Dyn)> := [];
    for i := 0 to |cols|
      invariant fresh(props) && !AnyRefused(attrs, cols[..i])
      invariant rowMap == Payload(cols[..i]) && props.entries == Properties(attrs, cols[..i])
    {
      var c := cols[i];
      assert cols[..i + 1] == cols[..i] + [c];
      assert (cols[..i + 1])[..i] == cols[..i];
      if c.dropped {
        continue;
      }
      var want := if explicit then c.name in requested else true;
      if want {
        var eligible := SetMessageProperty(props, c.name, c.value, c.isNull);
        if !eligible && explicit {
          assert Refused(attrs, c);
          return Rejected(c.name);
        }
      }
      rowMap := rowMap + [(c.name, DatumToDynValue(c.value, c.isNull))];
    }
    assert cols[..|cols|] == cols;
    r := Built(rowMap, props.entries);
  }

  // ---- What the two outputs contain ----

  /** How many of the first `n` columns contribute an entry. */
  function Before<T>(entry: Column -> Option<T>, cols: seq<Column>, n: nat): nat
    requires n <= |cols|
  {
    if n == 0 then 0 else Before(entry, cols, n - 1) + (if entry(cols[n - 1]).Some? then 1 else 0)
  }

  lemma {:induction false} BuildSize<T>(entry: Column -> Option<T>, cols: seq<Column>, n: nat)
    requires n <= |cols|
    ensures |Build(entry, cols[..n])| == Before(entry, cols, n)
  {
    if n > 0 {
      BuildSize(entry, cols, n - 1);
      assert cols[..n][..n - 1] == cols[..n - 1];
    }
  }

  lemma {:induction false} BuildPrefix<T>(entry: Column -> Option<T>, cols: seq<Column>, n: nat)
    requires n <= |cols|
    ensures Build(entry, cols[..n]) <= Build(entry, cols)
    decreases |cols|
  {
    if n < |cols| {
      BuildPrefix(entry, cols[..|cols| - 1], n);
      assert cols[..|cols| - 1][..n] == cols[..n];
    } else {
      assert cols[..n] == cols;
    }
  }

  /**
   Both outputs are complete and in column order: the number of entries is the number of
   contributing columns, and each contributing column's entry stands right after those of the
   contributing columns before it.
   */
  lemma BuildAt<T>(entry: Column -> Option<T>, cols: seq<Column>, i: nat)
    requires i < |cols| && entry(cols[i]).Some?
    ensures |Build(entry, cols)| == Before(entry, cols, |cols|)
    ensures Before(entry, cols, i) < |Build(entry, cols)|
    ensures Build(entry, cols)[Before(entry, cols, i)] == entry(cols[i]).value
  {
    assert cols[..|cols|] == cols;
    BuildSize(entry, cols, |cols|);
    BuildSize(entry, cols, i);
    BuildPrefix(entry, cols, i + 1);
    assert cols[..i + 1][..i] == cols[..i];
  }

  /** Each entry comes from a column that contributes it. */
  lemma {:induction false} BuildFrom<T>(entry: Column -> Option<T>, cols: seq<Column>, k: nat) returns (i: nat)
    requires k < |Build(entry, cols)|
    ensures i < |cols| && entry(cols[i]).Some? && Build(entry, cols)[k] == entry(cols[i]).value
  {
    if k < |Build(entry, cols[..|cols| - 1])| {
      i := BuildFrom(entry, cols[..|cols| - 1], k);
    } else {
      i := |cols| - 1;
    }
  }

  /** A property widened to the type its column has in the payload. */
  function Widened(p: Property): Dyn {
    match p
    case AsBool(b) => DynBool(b)
    case AsShort(i) => DynInt(i)
    case AsInt32(i) => DynInt(i)
    case AsInt64(i) => DynInt(i)
    case AsString(s) => DynString(s)
  }

  /** A value of the same type as `like`, read back from its payload form. */
  function FromDyn(like: Value, d: Dyn): Option<Value> {
    match (like, d)
    case (Bool(_), DynBool(b)) => Some(Bool(b))
    case (Int2(_), DynInt(i)) => Some(Int2(i))
    case (Int4(_), DynInt(i)) => Some(Int4(i))
    case (Int8(_), DynInt(i)) => Some(Int8(i))
    case (Float4(_), DynDouble(r)) => Some(Float4(r))
    case (Float8(_), DynDouble(r)) => Some(Float8(r))
    case (Text(_), DynString(t)) => Some(Text(t))
    case (Varchar(_), DynString(t)) => Some(Varchar(t))
    case (Bpchar(_), DynString(t)) => Some(Bpchar(t))
    case (Other(typid, _), DynString(t)) => Some(Other(typid, t))
    case _ => None
  }

  lemma DatumSurvives(v: Value)
    ensures FromDyn(v, DatumToDynValue(v, false)) == Some(v)
    ensures DatumToDynValue(v, true) == Null && DatumToDynValue(v, false) != Null
  {
  }

  /** The same attribute of a row type. */
  predicate SameAttribute(a: Column, b: Column) {
    && a.name == b.name && a.dropped == b.dropped
    && match (a.value, b.value)
       case (Bool(_), Bool(_)) => true
       case (Int2(_), Int2(_)) => true
       case (Int4(_), Int4(_)) => true
       case (Int8(_), Int8(_)) => true
       case (Float4(_), Float4(_)) => true
       case (Float8(_), Float8(_)) => true
       case (Text(_), Text(_)) => true
       case (Varchar(_), Varchar(_)) => true
       case (Bpchar(_), Bpchar(_)) => true
       case (Other(i, _), Other(j, _)) => i == j
       case _ => false
  }

  predicate SameDatum(a: Column, b: Column) {
    a.isNull == b.isNull && (!a.isNull ==> a.value == b.value)
  }

  lemma SameReading(a: Column, b: Column, d: Dyn)
    requires SameAttribute(a, b)
    ensures FromDyn(a.value, d) == FromDyn(b.value, d)
  {
  }

  lemma EntryDetermines(a: Column, b: Column)
    requires SameAttribute(a, b)
    ensures PayloadEntry(a) == PayloadEntry(b) <==> a.dropped || SameDatum(a, b)
  {
    DatumSurvives(a.value);
    DatumSurvives(b.value);
    SameReading(a, b, DatumToDynValue(a.value, false));
    hide SameAttribute, DatumToDynValue, FromDyn;
    assert a.name == b.name && a.dropped == b.dropped by {
      SameNames(a, b);
    }
    DatumNull(a.value);
    DatumNull(b.value);
  }

  lemma SameNames(a: Column, b: Column)
    requires SameAttribute(a, b)
    ensures a.name == b.name && a.dropped == b.dropped
  {
  }

  lemma DatumNull(v: Value)
    ensures DatumToDynValue(v, true) == Null
  {
  }

  /**
   The payload loses nothing: two rows of the same type have the same payload exactly if they have the
   same datum, or both NULL, in every live column.
   */
  lemma {:induction false} PayloadDetermines(a: seq<Column>, b: seq<Column>)
    requires |a| == |b| && forall i :: 0 <= i < |a| ==> SameAttribute(a[i], b[i])
    ensures Payload(a) == Payload(b) <==> forall i :: 0 <= i < |a| ==> a[i].dropped || SameDatum(a[i], b[i])
  {
    hide SameAttribute, SameDatum, PayloadEntry;
    if a != [] {
      var n := |a| - 1;
      PayloadDetermines(a[..n], b[..n]);
      EntryDetermines(a[n], b[n]);
      EntryLive(a[n]);
      EntryLive(b[n]);
      SameNames(a[n], b[n]);
      Appended(Payload(a[..n]), Payload(b[..n]), PayloadEntry(a[n]), PayloadEntry(b[n]));
      assert forall i :: 0 <= i < n ==> a[..n][i] == a[i] && b[..n][i] == b[i];
    }
  }

  lemma Appended<T>(s: seq<T>, t: seq<T>, e: Option<T>, f: Option<T>)
    requires e.Some? == f.Some?
    ensures s + (if e.Some? then [e.value] else []) == t + (if f.Some? then [f.value] else []) <==> s == t && e == f
  {
    if e.Some? {
      assert (s + [e.value])[..|s|] == s && (t + [f.value])[..|t|] == t;
      assert (s + [e.value])[|s|] == e.value && (t + [f.value])[|t|] == f.value;
      assert |s + [e.value]| == |s| + 1 && |t + [f.value]| == |t| + 1;
    } else {
      assert s + [] == s && t + [] == t;
    }
  }

  lemma EntryLive(c: Column)
    ensures PayloadEntry(c).Some? <==> !c.dropped
  {
  }

  /** The broker filters on nothing the payload does not say: each property repeats a payload entry. */
  lemma PropertyMatchesPayload(attrs: Attributes, cols: seq<Column>, k: nat) returns (j: nat)
    requires k < |Properties(attrs, cols)|
    ensures j < |Payload(cols)|
    ensures Payload(cols)[j] == (Properties(attrs, cols)[k].0, Widened(Properties(attrs, cols)[k].1))
  {
    var i := BuildFrom(PropertyEntry(attrs), cols, k);
    j := Before(PayloadEntry, cols, i);
    BuildAt(PayloadEntry, cols, i);
  }

  /** The name of a live column that can be a property. */
  ghost predicate EligibleName(cols: seq<Column>, name: string) {
    exists i :: 0 <= i < |cols| && !cols[i].dropped && Promotable(cols[i]) && cols[i].name == name
  }

  lemma {:induction false} SameProperties(a: Attributes, b: Attributes, cols: seq<Column>)
    requires forall c :: c in cols ==> Promoted(a, c) == Promoted(b, c)
    ensures Properties(a, cols) == Properties(b, cols)
  {
    if cols != [] {
      SameProperties(a, b, cols[..|cols| - 1]);
      assert cols[|cols| - 1] in cols;
    }
  }

  /**
   Leaving attr_columns out builds what listing exactly the eligible non-NULL columns builds, in
   any order, with repetitions and NULLs, unless some live column that cannot be a property shares
   its name with one that can (names may repeat in a record): exactly then the list is refused.
   */
  lemma OmittedListsEligible(cols: seq<Column>, list: seq<Option<string>>)
    requires forall name :: Some(name) in list <==> EligibleName(cols, name)
    ensures Properties(None, cols) == Properties(Some(list), cols)
    ensures AnyRefused(Some(list), cols) <==>
            exists i, j :: 0 <= i < |cols| && 0 <= j < |cols| && cols[i].name == cols[j].name
                           && !cols[i].dropped && !cols[j].dropped && Promotable(cols[i]) && !Promotable(cols[j])
    ensures !AnyRefused(None, cols)
  {
    forall c | c in cols ensures Promoted(None, c) == Promoted(Some(list), c) {
      var i :| 0 <= i < |cols| && cols[i] == c;
      assert !c.dropped && Promotable(c) ==> EligibleName(cols, c.name);
    }
    SameProperties(None, Some(list), cols);
    if AnyRefused(Some(list), cols) {
      var j :| 0 <= j < |cols| && Refused(Some(list), cols[j]);
      assert EligibleName(cols, cols[j].name);
      var i :| 0 <= i < |cols| && !cols[i].dropped && Promotable(cols[i]) && cols[i].name == cols[j].name;
    }
    if i, j :| 0 <= i < |cols| && 0 <= j < |cols| && cols[i].name == cols[j].name
               && !cols[i].dropped && !cols[j].dropped && Promotable(cols[i]) && !Promotable(cols[j])
    {
      assert EligibleName(cols, cols[i].name);
      assert Refused(Some(list), cols[j]);
    }
  }

  // ---- Types and values ----

  /** The types the broker can filter on. */
  predicate EligibleType(v: Value) {
    v.Bool? || v.Int2? || v.Int4? || v.Int8? || v.Text? || v.Varchar? || v.Bpchar?
  }

  /** What a property says of the column it came from. */
  predicate Stands(p: Property, v: Value) {
    match p
    case AsBool(b) => v == Bool(b)
    case AsShort(i) => v == Int2(i)
    case AsInt32(i) => v == Int4(i)
    case AsInt64(i) => v == Int8(i)
    case AsString(s) => v == Text(s) || v == Varchar(s) || v == Bpchar(s)
  }

  /** What a payload value that is not Null says of it. */
  predicate Says(d: Dyn, v: Value) {
    match d
    case Null => false
    case DynBool(b) => v == Bool(b)
    case DynInt(i) => v == Int2(i) || v == Int4(i) || v == Int8(i)
    case DynDouble(r) => v == Float4(r) || v == Float8(r)
    case DynString(s) => v == Text(s) || v == Varchar(s) || v == Bpchar(s) || (v.Other? && v.output == s)
  }

  /**
   Column by column. A live, non-NULL column of an eligible type that is listed, or any such column if
   there is no list, has its property in its place, of its own type and value; no other column has one.
   */
  lemma PropertiesExactly(attrs: Attributes, cols: seq<Column>, i: nat)
    requires i < |cols|
    ensures var c, entry := cols[i], PropertyEntry(attrs); var k := Before(entry, cols, i);
            && |Properties(attrs, cols)| == Before(entry, cols, |cols|)
            && if !c.dropped && !c.isNull && EligibleType(c.value) && (attrs.None? || Some(c.name) in attrs.value)
               then k < |Properties(attrs, cols)| && Properties(attrs, cols)[k].0 == c.name
                    && Stands(Properties(attrs, cols)[k].1, c.value) && Before(entry, cols, i + 1) == k + 1
               else Before(entry, cols, i + 1) == k
  {
    assert cols[..|cols|] == cols;
    BuildSize(PropertyEntry(attrs), cols, |cols|);
    PropertyStands(cols[i].value);
    hide PropertyOf, Stands, EligibleType;
    if PropertyEntry(attrs)(cols[i]).Some? {
      BuildAt(PropertyEntry(attrs), cols, i);
    }
  }

  lemma PropertyStands(v: Value)
    ensures PropertyOf(v).Some? <==> EligibleType(v)
    ensures PropertyOf(v).Some? ==> Stands(PropertyOf(v).value, v)
  {
  }

  /** And every live column has its payload entry in its place, Null or with its value. */
  lemma PayloadExactly(cols: seq<Column>, i: nat)
    requires i < |cols|
    ensures var c := cols[i]; var k := Before(PayloadEntry, cols, i);
            && |Payload(cols)| == Before(PayloadEntry, cols, |cols|)
            && if !c.dropped
               then k < |Payload(cols)| && Payload(cols)[k].0 == c.name && Before(PayloadEntry, cols, i + 1) == k + 1
                    && (if c.isNull then Payload(cols)[k].1 == Null else Says(Payload(cols)[k].1, c.value))
               else Before(PayloadEntry, cols, i + 1) == k
  {
    assert cols[..|cols|] == cols;
    BuildSize(PayloadEntry, cols, |cols|);
    if !cols[i].dropped {
      BuildAt(PayloadEntry, cols, i);
    }
  }
}
