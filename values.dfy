/**
 * The data the modeler plugins handle: SNMP column values as Python values,
 * rows as dictionaries keyed by column name, tables as dictionaries keyed by
 * SNMP index, and the ObjectMap / RelationshipMap records they return.
 */
module Values {
  import opened Options
  import opened PyStrings
  import opened Folds

  /** A Python value as it appears in a row. `Args` is a Zenoss MultiArgs. */
  datatype Value =
    | NoneV
    | Bool(b: bool)
    | Int(i: int)
    | Float(f: real)
    | Str(s: string)
    | List(items: seq<Value>)
    | Args(args: seq<Value>)

  /** A row of an SNMP table, or the data of an ObjectMap. */
  type Row = map<string, Value>

  /** Python's str() of a value. */
  function PyStr(v: Value): string
    decreases v, 0
  {
    match v
    case NoneV => "None"
    case Bool(b) => if b then "True" else "False"
    case Int(i) => IntToString(i)
    case Float(f) => if f.Floor as real == f then IntToString(f.Floor) + ".0" else "<float>"
    case Str(s) => s
    case List(items) =>
      "[" + JoinWith(seq(|items|, k requires 0 <= k < |items| => Repr(items[k])), ", ") + "]"
    case Args(_) => "<MultiArgs>"
  }

  /** Python's repr(): strings are quoted (without escaping). */
  function Repr(v: Value): string
    decreases v, 1
  {
    if v.Str? then "'" + v.s + "'" else PyStr(v)
  }

  /** Python truth value. MultiArgs objects are always true. */
  predicate Truthy(v: Value) {
    match v
    case NoneV => false
    case Bool(b) => b
    case Int(i) => i != 0
    case Float(f) => f != 0.0
    case Str(s) => s != ""
    case List(items) => items != []
    case Args(_) => true
  }

  /** The integer a value compares and hashes as: Python's bool is an int. */
  function NumKey(v: Value): Option<int> {
    match v
    case Int(i) => Some(i)
    case Bool(b) => Some(if b then 1 else 0)
    case Float(f) => if f.Floor as real == f then Some(f.Floor) else None
    case _ => None
  }

  /** int(s) for an optionally signed run of digits. */
  function ParseInt(s: string): Option<int> {
    if s != [] && (s[0] == '-' || s[0] == '+') then
      match ParseNat(s[1..])
      case Some(n) => Some(if s[0] == '-' then -(n as int) else n as int)
      case None => None
    else
      match ParseNat(s)
      case Some(n) => Some(n)
      case None => None
  }

  /** Python's int(): a number is truncated toward zero, text is parsed, anything else raises TypeError. */
  function PyInt(v: Value): Outcome<int> {
    match v
    case Int(i) => Done(i)
    case Bool(b) => Done(if b then 1 else 0)
    case Float(f) => Done(if f >= 0.0 then f.Floor else -((-f).Floor))
    case Str(s) => if ParseInt(s).Some? then Done(ParseInt(s).value) else Raised(ValueError(s))
    case _ => Raised(TypeError("int"))
  }

  /** int() reads back what str() writes for any integer. */
  lemma PyIntOfString(i: int)
    ensures PyInt(Str(IntToString(i))) == Done(i)
  {
    if i < 0 {
      ParseNatToString(-i);
      assert ("-" + NatToString(-i))[1..] == NatToString(-i);
    } else {
      ParseNatToString(i);
    }
  }

  /** Python's `1 == v` */
  predicate IsOne(v: Value) { NumKey(v) == Some(1) }

  /** `codes.get(v)` for a dictionary with integer keys. */
  function Lookup(codes: map<int, Value>, v: Value): (r: Option<Value>)
    ensures r.Some? <==> NumKey(v).Some? && NumKey(v).value in codes
  {
    match NumKey(v)
    case Some(k) => if k in codes then Some(codes[k]) else None
    case None => None
  }

  /** `codes.get(v, v)`: a known code becomes its name, anything else stays. */
  function Translated(codes: map<int, Value>, v: Value): Value {
    match Lookup(codes, v)
    case Some(name) => name
    case None => v
  }

  /** An integer code the table lists takes its name, and so does a bool, as 0 or 1; anything else is kept as it is. */
  lemma TranslatedRule(codes: map<int, Value>, v: Value)
    ensures v.Int? && v.i in codes ==> Translated(codes, v) == codes[v.i]
    ensures v.Bool? && (if v.b then 1 else 0) in codes ==> Translated(codes, v) == codes[if v.b then 1 else 0]
    ensures v.Int? && v.i !in codes ==> Translated(codes, v) == v
    ensures NumKey(v).None? ==> Translated(codes, v) == v
  {
  }

  /** `row.get(k, d)` */
  function Get(row: Row, k: string, d: Value): Value {
    if k in row then row[k] else d
  }

  /** `'k' in row and row['k']` */
  predicate HasTruthy(row: Row, k: string) { k in row && Truthy(row[k]) }

  /**
   * A Python dictionary with string keys. Python 2 gives no iteration order;
   * the model fixes one, the order in which keys were first inserted.
   */
  datatype ODict<V> = ODict(keys: seq<string>, vals: map<string, V>) {
    ghost predicate Valid() {
      && (forall i, j :: 0 <= i < j < |keys| ==> keys[i] != keys[j])
      && (forall k :: k in vals <==> k in keys)
    }

    /** `d[k] = v` */
    function Put(k: string, v: V): (r: ODict<V>)
      ensures r.vals == vals[k := v]
      ensures k in vals ==> r.keys == keys
      ensures k !in vals ==> r.keys == keys + [k]
      ensures Valid() ==> r.Valid()
    {
      if k in vals then ODict(keys, vals[k := v]) else ODict(keys + [k], vals[k := v])
    }
  }

  function EmptyDict<V>(): (r: ODict<V>)
    ensures r.Valid() && r.keys == []
  {
    ODict([], map[])
  }

  /** An SNMP table: SNMP index (with its leading dot) to row. */
  type Table = ODict<Row>

  /** The SNMP tables of one walk, by name; a table the walk did not return is absent. */
  type TableData = map<string, Table>

  /** `tabledata.get(name, dict())` */
  function TableOr(td: TableData, name: string): Table {
    if name in td then td[name] else EmptyDict()
  }

  /** Tables read with `tabledata.get(name)` and no default; a missing one makes the `len()` of the next log call raise. */
  predicate HasTables(td: TableData, names: seq<string>) {
    forall i :: 0 <= i < |names| ==> names[i] in td
  }

  /** `table.get(k, dict())` */
  function RowAt(t: Table, k: string): Row {
    if k in t.vals then t.vals[k] else map[]
  }

  /** The entries of `extra` overwrite or join those of `row`: `row.update(extra)`. */
  function Update(row: Row, extra: Row): Row {
    row + extra
  }

  /** `v.strip(c)` on a string; other values are kept, as the model takes text columns to hold text. */
  function StripValue(v: Value, c: char): Value {
    if v.Str? then Str(Strip(v.s, c)) else v
  }

  /** Python's len(): the length of a string or a list; any other value raises TypeError. */
  function PyLen(v: Value): Outcome<nat> {
    match v
    case Str(s) => Done(|s|)
    case List(items) => Done(|items|)
    case _ => Raised(TypeError("len"))
  }

  /** A Zenoss ObjectMap: the attributes of one model object. */
  datatype ObjMap = ObjMap(modname: string, compname: string, data: Row)

  /** A Zenoss RelationshipMap: the objects of one relationship of one component. */
  datatype RelMap = RelMap(compname: string, relname: string, modname: string, maps: seq<ObjMap>)

  /** A Python exception the code as written lets escape. */
  datatype PyError =
    | KeyError(key: string) | AttributeError(attr: string) | NameError(name: string)
    | ValueError(arg: string) | TypeError(what: string)

  /** The result of running a piece of code: a value, or an exception. */
  datatype Outcome<+T> = Done(value: T) | Raised(error: PyError)

  /**
   * A loop over `s` that may raise: the images `f` keeps, in order, or the
   * exception of the first element that raises.
   */
  function TryFilterMap<A, B>(s: seq<A>, f: A -> Outcome<Option<B>>): Outcome<seq<B>>
  {
    if s == [] then Done([])
    else
      match TryFilterMap(s[..|s| - 1], f)
      case Raised(e) => Raised(e)
      case Done(out) =>
        match f(s[|s| - 1])
        case Raised(e) => Raised(e)
        case Done(o) => Done(out + OptSeq(o))
  }

  /** One more element extends the output or ends in that element's exception. */
  lemma TryFilterMapStep<A, B>(s: seq<A>, i: nat, f: A -> Outcome<Option<B>>, out: seq<B>)
    requires i < |s| && TryFilterMap(s[..i], f) == Done(out)
    ensures TryFilterMap(s[..i + 1], f) == (if f(s[i]).Raised? then Raised(f(s[i]).error) else Done(out + OptSeq(f(s[i]).value)))
  {
    assert s[..i + 1][..i] == s[..i];
  }

  /** Once an element raises, so does the whole loop. */
  lemma {:induction false} TryFilterMapRaised<A, B>(s: seq<A>, i: nat, f: A -> Outcome<Option<B>>, e: PyError)
    requires i <= |s| && TryFilterMap(s[..i], f) == Raised(e)
    ensures TryFilterMap(s, f) == Raised(e)
    decreases |s|
  {
    if i == |s| {
      assert s[..i] == s;
    } else {
      var init := s[..|s| - 1];
      assert init[..i] == s[..i];
      TryFilterMapRaised(init, i, f, e);
    }
  }

  /** A loop that threads a state through the elements of `s` and may raise. */
  function TryFold<A, S>(s: seq<A>, init: S, f: (S, A) -> Outcome<S>): Outcome<S>
  {
    if s == [] then Done(init)
    else
      match TryFold(s[..|s| - 1], init, f)
      case Raised(e) => Raised(e)
      case Done(st) => f(st, s[|s| - 1])
  }

  /** A state that every element leaves as it is stays to the end of the loop. */
  lemma {:induction false} TryFoldAbsorbs<A, S>(s: seq<A>, i: nat, init: S, f: (S, A) -> Outcome<S>, st: S)
    requires i <= |s| && TryFold(s[..i], init, f) == Done(st)
    requires forall a :: f(st, a) == Done(st)
    ensures TryFold(s, init, f) == Done(st)
    decreases |s|
  {
    if i == |s| {
      assert s[..i] == s;
    } else {
      var init' := s[..|s| - 1];
      assert init'[..i] == s[..i];
      TryFoldAbsorbs(init', i, init, f, st);
    }
  }

  lemma TryFoldStep<A, S>(s: seq<A>, i: nat, init: S, f: (S, A) -> Outcome<S>, st: S)
    requires i < |s| && TryFold(s[..i], init, f) == Done(st)
    ensures TryFold(s[..i + 1], init, f) == f(st, s[i])
  {
    assert s[..i + 1][..i] == s[..i];
  }

  /** Once an element raises, so does the whole loop. */
  lemma {:induction false} TryFoldRaised<A, S>(s: seq<A>, i: nat, init: S, f: (S, A) -> Outcome<S>, e: PyError)
    requires i <= |s| && TryFold(s[..i], init, f) == Raised(e)
    ensures TryFold(s, init, f) == Raised(e)
    decreases |s|
  {
    if i == |s| {
      assert s[..i] == s;
    } else {
      var init' := s[..|s| - 1];
      assert init'[..i] == s[..i];
      TryFoldRaised(init', i, init, f, e);
    }
  }

  /** The step `f` appends `g(a)` to whatever has been collected so far. */
  ghost predicate StepAppends<A, B(!new)>(f: (Option<seq<B>>, A) -> Outcome<Option<seq<B>>>, g: A -> B, a: A) {
    forall st: seq<B> :: f(Some(st), a) == Done(Some(st + [g(a)]))
  }

  /** A loop whose every step appends `g` of its element collects one `g` per element, in order. */
  lemma {:induction false} TryFoldAppends<A, B(!new)>(s: seq<A>, n: nat, f: (Option<seq<B>>, A) -> Outcome<Option<seq<B>>>, g: A -> B)
    requires n <= |s|
    requires forall i :: 0 <= i < n ==> StepAppends(f, g, s[i])
    ensures var r := TryFold(s[..n], Some([]), f);
      && r.Done? && r.value.Some? && |r.value.value| == n
      && forall i :: 0 <= i < n ==> r.value.value[i] == g(s[i])
  {
    if n > 0 {
      TryFoldAppends(s, n - 1, f, g);
      var prev := TryFold(s[..n - 1], Some([]), f).value.value;
      TryFoldStep(s, n - 1, Some([]), f, Some(prev));
      assert StepAppends(f, g, s[n - 1]);
      assert f(Some(prev), s[n - 1]) == Done(Some(prev + [g(s[n - 1])]));
    }
  }

  /** When nothing raises, the loop is the plain filter. */
  lemma {:induction false} TryFilterMapDone<A, B>(s: seq<A>, f: A -> Outcome<Option<B>>, g: A -> Option<B>)
    requires forall i :: 0 <= i < |s| ==> f(s[i]) == Done(g(s[i]))
    ensures TryFilterMap(s, f) == Done(FilterMap(s, g))
  {
    if s != [] {
      TryFilterMapDone(s[..|s| - 1], f, g);
    }
  }

  /**
   * A compiled regular expression. The engine is not modelled: `matchAt(s, i)`
   * says whether the pattern matches `s` at position `i`.
   */
  datatype Regex = Regex(text: string, matchAt: (string, nat) -> bool)

  /** re.search: the pattern matches somewhere in `s`. */
  predicate Search(r: Regex, s: string) {
    exists i: nat :: i <= |s| && r.matchAt(s, i)
  }

  /** re.match: the pattern matches at the start of `s`. */
  predicate Match(r: Regex, s: string) { r.matchAt(s, 0) }

  /**
   * The name filter the plugins apply: an empty pattern means no filter;
   * `anchored` selects re.match over re.search.
   */
  predicate IgnoredBy(r: Regex, name: string, anchored: bool) {
    r.text != "" && (if anchored then Match(r, name) else Search(r, name))
  }

  /** A name the anchored filter ignores is ignored by the searching filter too. */
  lemma MatchImpliesSearch(r: Regex, name: string)
    requires IgnoredBy(r, name, true)
    ensures IgnoredBy(r, name, false)
  {
    assert r.matchAt(name, 0);
  }

  /**
   * The Zenoss helpers the plugins call: prepId (an id-safe form of a title),
   * asip (an IpAddress octet string to dotted text), asmac (an octet string to
   * MAC text) and maskToBits (a dotted netmask to its prefix length).
   */
  datatype Host = Host(
    prepId: string -> string,
    asip: Value -> string,
    asmac: Value -> string,
    maskToBits: Value -> int)

  // ----- translating coded columns -----

  /** Every listed column present in the row is translated; the rest is kept. */
  function TranslatedRow(row: Row, attrMap: map<string, map<int, Value>>): (r: Row)
    ensures r.Keys == row.Keys
  {
    map a | a in row :: if a in attrMap then Translated(attrMap[a], row[a]) else row[a]
  }

  /**
   * The `for attr in attr_map: if attr in row: row[attr] = ...get(row[attr], row[attr])`
   * loop; the columns are visited in an arbitrary order, as Python 2 does.
   */
  method TranslateCodes(row: Row, attrMap: map<string, map<int, Value>>) returns (r: Row)
    ensures r == TranslatedRow(row, attrMap)
  {
    r := row;
    var todo := attrMap.Keys;
    while todo != {}
      invariant todo <= attrMap.Keys
      invariant r == map a | a in row :: if a in attrMap && a !in todo then Translated(attrMap[a], row[a]) else row[a]
      decreases todo
    {
      var a :| a in todo;
      if a in r {
        r := r[a := Translated(attrMap[a], r[a])];
      }
      todo := todo - {a};
    }
  }

  /** Every listed column present is passed through `f`; the rest is kept. */
  function ColumnsMapped(row: Row, attrs: seq<string>, f: Value -> Value): (r: Row)
    ensures r.Keys == row.Keys
  {
    map a | a in row :: if a in attrs then f(row[a]) else row[a]
  }

  /** The `for attr in attrs: if attr in row: row[attr] = f(row[attr])` loop, over distinct columns. */
  method MapColumns(row: Row, attrs: seq<string>, f: Value -> Value) returns (r: Row)
    requires forall i, j :: 0 <= i < j < |attrs| ==> attrs[i] != attrs[j]
    ensures r == ColumnsMapped(row, attrs, f)
  {
    r := row;
    for i := 0 to |attrs|
      invariant r == map a | a in row :: if a in attrs[..i] then f(row[a]) else row[a]
    {
      var a := attrs[i];
      assert attrs[..i + 1] == attrs[..i] + [a];
      assert a !in attrs[..i] by {
        forall j | 0 <= j < i ensures attrs[..i][j] != a {
          assert attrs[..i][j] == attrs[j];
        }
      }
      if a in r {
        r := r[a := f(r[a])];
      }
    }
    assert attrs[..|attrs|] == attrs;
  }

  /** Every listed column present becomes True exactly when it equals 1. */
  function BooleansCleaned(row: Row, attrs: seq<string>): (r: Row)
    ensures r.Keys == row.Keys
  {
    map a | a in row :: if a in attrs then Bool(IsOne(row[a])) else row[a]
  }

  /** The `for attr in booleans: if attr in row: row[attr] = True if 1 == row[attr] else False` loop. */
  method CleanBooleans(row: Row, attrs: seq<string>) returns (r: Row)
    ensures r == BooleansCleaned(row, attrs)
  {
    r := row;
    for i := 0 to |attrs|
      invariant r == map a | a in row :: if a in attrs[..i] then Bool(IsOne(row[a])) else row[a]
    {
      var a := attrs[i];
      assert attrs[..i + 1] == attrs[..i] + [a];
      if a in r {
        r := r[a := Bool(IsOne(r[a]))];
      }
    }
    assert attrs[..|attrs|] == attrs;
  }

  /** Cleaning a column twice gives the same as once: a clean value stays as it is. */
  lemma BooleansIdempotent(row: Row, attrs: seq<string>)
    ensures BooleansCleaned(BooleansCleaned(row, attrs), attrs) == BooleansCleaned(row, attrs)
  {
  }
}
