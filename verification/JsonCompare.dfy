/** The comparison of two backends' JSON: the normal form, and the list of differences. */
module JsonCompare {
  import opened Wrappers
  import opened Json
  import opened Sorting
  import T = Text

  // `float` of a decimal that is not integral; nothing is assumed of how it rounds.
  type Rounding = real -> real

  predicate Integral(x: real) { x == x.Floor as real }

  function Number(j: Json, round: Rounding): Json {
    match j
    case JDec(d) => if Integral(d) then JInt(d.Floor) else JFloat(round(d))
    case JFloat(r) => if Integral(r) then JInt(r.Floor) else j
    case _ => j
  }

  // `canonical_json_normalize`; maps have no order, so sorting the keys leaves nothing to model.
  function Normalize(j: Json, round: Rounding): Json {
    match j
    case JArr(items) => JArr(seq(|items|, i requires 0 <= i < |items| => Normalize(items[i], round)))
    case JObj(fields) => JObj(map k | k in fields :: Normalize(fields[k], round))
    case _ => Number(j, round)
  }

  // Python's `==`: numbers by value, with True and False as 1 and 0.
  predicate PyEq(a: Json, b: Json) {
    match (a, b)
    case (JArr(x), JArr(y)) => |x| == |y| && forall i | 0 <= i < |x| :: PyEq(x[i], y[i])
    case (JObj(x), JObj(y)) => x.Keys == y.Keys && forall k | k in x :: PyEq(x[k], y[k])
    case _ => Hash(a).Some? && Hash(a) == Hash(b)
  }

  // The nesting without the values, which normalisation keeps.
  function Shape(j: Json): Json {
    match j
    case JArr(items) => JArr(seq(|items|, i requires 0 <= i < |items| => Shape(items[i])))
    case JObj(fields) => JObj(map k | k in fields :: Shape(fields[k]))
    case _ => JNull
  }

  lemma {:induction false} ShapeKept(j: Json, round: Rounding)
    ensures Shape(Normalize(j, round)) == Shape(j)
  {
    match j
    case JArr(items) =>
      forall i | 0 <= i < |items| ensures Shape(Normalize(items[i], round)) == Shape(items[i]) { ShapeKept(items[i], round); }
    case JObj(fields) =>
      forall k | k in fields ensures Shape(Normalize(fields[k], round)) == Shape(fields[k]) { ShapeKept(fields[k], round); }
    case _ =>
  }

  lemma InObject(f: map<string, Json>, k: string)
    requires k in f
    ensures f[k] < JObj(f)
  {}

  lemma InArray(s: seq<Json>, i: nat)
    requires i < |s|
    ensures s[i] < JArr(s)
  {}

  // Going into a value makes it smaller, normalised or not.
  lemma FieldShrinks(a: Json, k: string, round: Rounding)
    requires a.JObj? && k in a.fields
    ensures Shape(Normalize(a, round).fields[k]) == Shape(a).fields[k] && Shape(a).fields[k] < Shape(a)
  {
    ShapeKept(a.fields[k], round);
    var shapes := Shape(a).fields;
    assert shapes[k] == Shape(a.fields[k]) && Normalize(a, round).fields[k] == Normalize(a.fields[k], round);
    InObject(shapes, k);
    assert Shape(a) == JObj(shapes);
  }

  lemma ItemShrinks(a: Json, i: nat, round: Rounding)
    requires a.JArr? && i < |a.items|
    ensures Shape(Normalize(a, round).items[i]) == Shape(a).items[i] && Shape(a).items[i] < Shape(a)
  {
    ShapeKept(a.items[i], round);
    var shapes := Shape(a).items;
    assert shapes[i] == Shape(a.items[i]) && Normalize(a, round).items[i] == Normalize(a.items[i], round);
    InArray(shapes, i);
    assert Shape(a) == JArr(shapes);
  }

  datatype Difference = Difference(path: string, file: Json, postgres: Json)

  const MISSING: Json := JStr("<missing>")

  ghost function SortedKeys(s: set<string>): (r: seq<string>)
    ensures Increasing(r) && forall k :: k in r <==> k in s
  {
    if s == {} then []
    else
      var k :| k in s;
      AddSortedOk(k, SortedKeys(s - {k}));
      AddSorted(k, SortedKeys(s - {k}))
  }

  function FieldPath(path: string, key: string): string { if path == "" then key else path + "." + key }

  function ItemPath(path: string, index: nat): string { path + "[" + T.Decimal(index) + "]" }

  function Max(m: nat, n: nat): nat { if m < n then n else m }

  function ConcatAll<T>(parts: seq<seq<T>>): seq<T> {
    if parts == [] then [] else ConcatAll(parts[..|parts| - 1]) + parts[|parts| - 1]
  }

  // `differences`; every level normalises its two values again.
  ghost function Differences(a: Json, b: Json, path: string, round: Rounding): seq<Difference>
    decreases Shape(a), 2
  {
    var l, r := Normalize(a, round), Normalize(b, round);
    if l.JObj? && r.JObj? then OfFields(a, b, path, round, SortedKeys(l.fields.Keys + r.fields.Keys))
    else if l.JArr? && r.JArr? then OfItems(a, b, path, round, Max(|l.items|, |r.items|))
    else if PyEq(l, r) then []
    else [Difference(if path == "" then "$" else path, l, r)]
  }

  ghost function OfFields(a: Json, b: Json, path: string, round: Rounding, keys: seq<string>): seq<Difference>
    requires a.JObj? && b.JObj? && forall k | k in keys :: k in a.fields || k in b.fields
    decreases Shape(a), 1
  {
    ConcatAll(seq(|keys|, i requires 0 <= i < |keys| => OfField(a, b, path, round, keys[i])))
  }

  ghost function OfField(a: Json, b: Json, path: string, round: Rounding, k: string): seq<Difference>
    requires a.JObj? && b.JObj? && (k in a.fields || k in b.fields)
    decreases Shape(a), 0
  {
    var l, r := Normalize(a, round).fields, Normalize(b, round).fields;
    if k !in l then [Difference(FieldPath(path, k), MISSING, r[k])]
    else if k !in r then [Difference(FieldPath(path, k), l[k], MISSING)]
    else
      FieldShrinks(a, k, round);
      Differences(l[k], r[k], FieldPath(path, k), round)
  }

  ghost function OfItems(a: Json, b: Json, path: string, round: Rounding, n: nat): seq<Difference>
    requires a.JArr? && b.JArr? && n <= Max(|a.items|, |b.items|)
    decreases Shape(a), 1
  {
    ConcatAll(seq(n, i requires 0 <= i < n => OfItem(a, b, path, round, i)))
  }

  ghost function OfItem(a: Json, b: Json, path: string, round: Rounding, i: nat): seq<Difference>
    requires a.JArr? && b.JArr? && i < Max(|a.items|, |b.items|)
    decreases Shape(a), 0
  {
    var l, r := Normalize(a, round).items, Normalize(b, round).items;
    if i >= |l| then [Difference(ItemPath(path, i), MISSING, r[i])]
    else if i >= |r| then [Difference(ItemPath(path, i), l[i], MISSING)]
    else
      ItemShrinks(a, i, round);
      Differences(l[i], r[i], ItemPath(path, i), round)
  }
}

/** What an empty list of differences means. */
module JsonCompareLaws {
  import opened Wrappers
  import opened Json
  import opened Sorting
  import opened JsonCompare

  /******* Python equality *******/

  lemma {:induction false} PyEqSelf(a: Json)
    ensures PyEq(a, a)
  {
    match a
    case JArr(x) => forall i | 0 <= i < |x| ensures PyEq(x[i], x[i]) { PyEqSelf(x[i]); }
    case JObj(x) => forall k | k in x ensures PyEq(x[k], x[k]) { PyEqSelf(x[k]); }
    case _ =>
  }

  lemma {:induction false} PyEqSwap(a: Json, b: Json)
    ensures PyEq(a, b) ==> PyEq(b, a)
  {
    match (a, b)
    case (JArr(x), JArr(y)) => forall i | 0 <= i < |x| && i < |y| ensures PyEq(x[i], y[i]) ==> PyEq(y[i], x[i]) { PyEqSwap(x[i], y[i]); }
    case (JObj(x), JObj(y)) => forall k | k in x && k in y ensures PyEq(x[k], y[k]) ==> PyEq(y[k], x[k]) { PyEqSwap(x[k], y[k]); }
    case _ =>
  }

  lemma {:induction false} PyEqChain(a: Json, b: Json, c: Json)
    requires PyEq(a, b) && PyEq(b, c)
    ensures PyEq(a, c)
  {
    match (a, b)
    case (JArr(x), JArr(y)) => forall i | 0 <= i < |x| ensures PyEq(x[i], c.items[i]) { PyEqChain(x[i], y[i], c.items[i]); }
    case (JObj(x), JObj(y)) => forall k | k in x ensures PyEq(x[k], c.fields[k]) { PyEqChain(x[k], y[k], c.fields[k]); }
    case _ =>
  }

  /******* the normal form *******/

  // No decimal is left in a normal form.
  predicate NoDecimal(j: Json) {
    match j
    case JArr(items) => forall i | 0 <= i < |items| :: NoDecimal(items[i])
    case JObj(fields) => forall k | k in fields :: NoDecimal(fields[k])
    case _ => !j.JDec?
  }

  lemma {:induction false} NormalHasNoDecimal(j: Json, round: Rounding)
    ensures NoDecimal(Normalize(j, round))
  {
    match j
    case JArr(items) => forall i | 0 <= i < |items| ensures NoDecimal(Normalize(items[i], round)) { NormalHasNoDecimal(items[i], round); }
    case JObj(fields) => forall k | k in fields ensures NoDecimal(Normalize(fields[k], round)) { NormalHasNoDecimal(fields[k], round); }
    case _ =>
  }

  // Without decimals, normalising changes nothing that `==` can see.
  lemma {:induction false} NormalizeKeepsValue(j: Json, round: Rounding)
    requires NoDecimal(j)
    ensures PyEq(Normalize(j, round), j)
  {
    match j
    case JArr(items) => forall i | 0 <= i < |items| ensures PyEq(Normalize(items[i], round), items[i]) { NormalizeKeepsValue(items[i], round); }
    case JObj(fields) => forall k | k in fields ensures PyEq(Normalize(fields[k], round), fields[k]) { NormalizeKeepsValue(fields[k], round); }
    case _ =>
  }

  // Normalising twice gives a value equal, in Python's sense, to normalising once.
  lemma NormalizeTwice(j: Json, round: Rounding)
    ensures PyEq(Normalize(Normalize(j, round), round), Normalize(j, round))
  {
    NormalHasNoDecimal(j, round);
    NormalizeKeepsValue(Normalize(j, round), round);
  }

  // No decimal in the value rounds to an integral float.
  predicate RoundsCleanly(j: Json, round: Rounding) {
    match j
    case JArr(items) => forall i | 0 <= i < |items| :: RoundsCleanly(items[i], round)
    case JObj(fields) => forall k | k in fields :: RoundsCleanly(fields[k], round)
    case JDec(d) => !Integral(d) ==> !Integral(round(d))
    case _ => true
  }

  // It gives the very same value exactly when no decimal in it rounds to an integral float.
  lemma {:induction false} NormalizeIdempotentExactly(j: Json, round: Rounding)
    ensures Normalize(Normalize(j, round), round) == Normalize(j, round) <==> RoundsCleanly(j, round)
  {
    match j
    case JArr(items) =>
      var once, twice := Normalize(j, round).items, Normalize(Normalize(j, round), round).items;
      forall i | 0 <= i < |items| ensures twice[i] == once[i] <==> RoundsCleanly(items[i], round) { NormalizeIdempotentExactly(items[i], round); }
      if RoundsCleanly(j, round) { assert twice == once; }
    case JObj(fields) =>
      var once, twice := Normalize(j, round).fields, Normalize(Normalize(j, round), round).fields;
      forall k | k in fields ensures twice[k] == once[k] <==> RoundsCleanly(fields[k], round) { NormalizeIdempotentExactly(fields[k], round); }
      if RoundsCleanly(j, round) { assert twice == once; }
    case _ =>
  }

  /******* the differences *******/

  // A pair of values reached inside a comparison: normalised once more or once less, equality is the same.
  lemma EqualOnceMore(x: Json, y: Json, round: Rounding)
    requires NoDecimal(x) && NoDecimal(y)
    ensures PyEq(Normalize(x, round), Normalize(y, round)) <==> PyEq(x, y)
  {
    var nx, ny := Normalize(x, round), Normalize(y, round);
    NormalizeKeepsValue(x, round);
    NormalizeKeepsValue(y, round);
    PyEqSwap(nx, x);
    PyEqSwap(ny, y);
    if PyEq(nx, ny) {
      PyEqChain(x, nx, ny);
      PyEqChain(x, ny, y);
    }
    if PyEq(x, y) {
      PyEqChain(nx, x, y);
      PyEqChain(nx, y, ny);
    }
  }

  lemma {:induction false} ConcatEmpty<T>(parts: seq<seq<T>>)
    ensures ConcatAll(parts) == [] <==> forall i | 0 <= i < |parts| :: parts[i] == []
  {
    if parts != [] { ConcatEmpty(parts[..|parts| - 1]); }
  }

  lemma {:induction false} ConcatMember<T>(parts: seq<seq<T>>, x: T)
    ensures x in ConcatAll(parts) <==> exists i :: 0 <= i < |parts| && x in parts[i]
  {
    if parts != [] { ConcatMember(parts[..|parts| - 1], x); }
  }

  predicate FieldAgrees(x: map<string, Json>, y: map<string, Json>, round: Rounding, k: string) {
    k in x && k in y && PyEq(Normalize(x[k], round), Normalize(y[k], round))
  }

  predicate ItemAgrees(x: seq<Json>, y: seq<Json>, round: Rounding, i: nat) {
    i < |x| && i < |y| && PyEq(Normalize(x[i], round), Normalize(y[i], round))
  }

  lemma ItemsAgreeExactly(x: seq<Json>, y: seq<Json>, round: Rounding)
    ensures (forall i: nat | i < Max(|x|, |y|) :: ItemAgrees(x, y, round, i)) <==>
              PyEq(Normalize(JArr(x), round), Normalize(JArr(y), round))
  {
    var p, q, n := Normalize(JArr(x), round).items, Normalize(JArr(y), round).items, Max(|x|, |y|);
    assert |p| == |x| && |q| == |y|;
    if forall i: nat | i < n :: ItemAgrees(x, y, round, i) {
      assert n == 0 || ItemAgrees(x, y, round, n - 1);
      forall i | 0 <= i < n ensures PyEq(p[i], q[i]) { assert ItemAgrees(x, y, round, i); }
    } else {
      var i: nat :| i < n && !ItemAgrees(x, y, round, i);
      assert |p| == |q| ==> !PyEq(p[i], q[i]);
    }
  }

  lemma FieldsAgreeExactly(x: map<string, Json>, y: map<string, Json>, round: Rounding, keys: seq<string>)
    requires forall k :: k in keys <==> k in x || k in y
    ensures (forall i | 0 <= i < |keys| :: FieldAgrees(x, y, round, keys[i])) <==>
              PyEq(Normalize(JObj(x), round), Normalize(JObj(y), round))
  {
    var p, q := Normalize(JObj(x), round).fields, Normalize(JObj(y), round).fields;
    assert p.Keys == x.Keys && q.Keys == y.Keys;
    if forall i | 0 <= i < |keys| :: FieldAgrees(x, y, round, keys[i]) {
      forall k | k in x || k in y ensures FieldAgrees(x, y, round, k) {
        var i :| 0 <= i < |keys| && keys[i] == k;
      }
      assert x.Keys == y.Keys;
    } else {
      var i :| 0 <= i < |keys| && !FieldAgrees(x, y, round, keys[i]);
      assert keys[i] in keys;
      assert p.Keys == q.Keys ==> !PyEq(p[keys[i]], q[keys[i]]);
    }
  }

  lemma FieldEmptyExactly(a: Json, b: Json, path: string, round: Rounding, k: string)
    requires a.JObj? && b.JObj? && (k in a.fields || k in b.fields)
    ensures OfField(a, b, path, round, k) == [] <==> FieldAgrees(a.fields, b.fields, round, k)
    decreases Shape(a), 0
  {
    if k in a.fields && k in b.fields {
      var x, y := Normalize(a.fields[k], round), Normalize(b.fields[k], round);
      FieldShrinks(a, k, round);
      EmptyExactly(x, y, FieldPath(path, k), round);
      NormalHasNoDecimal(a.fields[k], round);
      NormalHasNoDecimal(b.fields[k], round);
      EqualOnceMore(x, y, round);
    }
  }

  lemma ItemEmptyExactly(a: Json, b: Json, path: string, round: Rounding, i: nat)
    requires a.JArr? && b.JArr? && i < Max(|a.items|, |b.items|)
    ensures OfItem(a, b, path, round, i) == [] <==> ItemAgrees(a.items, b.items, round, i)
    decreases Shape(a), 0
  {
    if i < |a.items| && i < |b.items| {
      var x, y := Normalize(a.items[i], round), Normalize(b.items[i], round);
      ItemShrinks(a, i, round);
      EmptyExactly(x, y, ItemPath(path, i), round);
      NormalHasNoDecimal(a.items[i], round);
      NormalHasNoDecimal(b.items[i], round);
      EqualOnceMore(x, y, round);
    }
  }

  lemma FieldsEmptyExactly(a: Json, b: Json, path: string, round: Rounding, keys: seq<string>)
    requires a.JObj? && b.JObj? && forall k | k in keys :: k in a.fields || k in b.fields
    ensures OfFields(a, b, path, round, keys) == [] <==>
              forall i | 0 <= i < |keys| :: FieldAgrees(a.fields, b.fields, round, keys[i])
    decreases Shape(a), 1
  {
    var parts := seq(|keys|, i requires 0 <= i < |keys| => OfField(a, b, path, round, keys[i]));
    ConcatEmpty(parts);
    forall i | 0 <= i < |keys| ensures parts[i] == [] <==> FieldAgrees(a.fields, b.fields, round, keys[i]) {
      FieldEmptyExactly(a, b, path, round, keys[i]);
    }
  }

  lemma ItemsEmptyExactly(a: Json, b: Json, path: string, round: Rounding, n: nat)
    requires a.JArr? && b.JArr? && n <= Max(|a.items|, |b.items|)
    ensures OfItems(a, b, path, round, n) == [] <==> forall i: nat | i < n :: ItemAgrees(a.items, b.items, round, i)
    decreases Shape(a), 1
  {
    var parts := seq(n, i requires 0 <= i < n => OfItem(a, b, path, round, i));
    ConcatEmpty(parts);
    forall i: nat | i < n ensures parts[i] == [] <==> ItemAgrees(a.items, b.items, round, i) {
      ItemEmptyExactly(a, b, path, round, i);
    }
  }

  // No difference is reported exactly when the two normal forms are equal in Python's sense.
  lemma {:induction false} EmptyExactly(a: Json, b: Json, path: string, round: Rounding)
    ensures Differences(a, b, path, round) == [] <==> PyEq(Normalize(a, round), Normalize(b, round))
    decreases Shape(a), 2
  {
    var l, r := Normalize(a, round), Normalize(b, round);
    if l.JObj? && r.JObj? {
      var keys := SortedKeys(l.fields.Keys + r.fields.Keys);
      FieldsEmptyExactly(a, b, path, round, keys);
      FieldsAgreeExactly(a.fields, b.fields, round, keys);
    } else if l.JArr? && r.JArr? {
      ItemsEmptyExactly(a, b, path, round, Max(|l.items|, |r.items|));
      ItemsAgreeExactly(a.items, b.items, round);
    }
  }

  // Two backends holding the same value are never reported.
  lemma SameValueNoDifference(a: Json, path: string, round: Rounding)
    ensures Differences(a, a, path, round) == []
  {
    EmptyExactly(a, a, path, round);
    PyEqSelf(Normalize(a, round));
  }

  /******* what a difference says *******/

  // x is met somewhere in a, normalised on the way as the comparison does.
  ghost predicate Occurs(x: Json, a: Json, round: Rounding)
    decreases Shape(a)
  {
    var l := Normalize(a, round);
    ShapeKept(a, round);
    || x == l
    || (l.JObj? && exists k :: k in l.fields && (x == l.fields[k] || InField(x, a, round, k)))
    || (l.JArr? && exists i :: 0 <= i < |l.items| && (x == l.items[i] || InItem(x, a, round, i)))
  }

  ghost predicate InField(x: Json, a: Json, round: Rounding, k: string)
    requires a.JObj? && k in a.fields
    decreases Shape(a), 0
  {
    FieldShrinks(a, k, round);
    Occurs(x, Normalize(a, round).fields[k], round)
  }

  ghost predicate InItem(x: Json, a: Json, round: Rounding, i: nat)
    requires a.JArr? && i < |a.items|
    decreases Shape(a), 0
  {
    ItemShrinks(a, i, round);
    Occurs(x, Normalize(a, round).items[i], round)
  }

  // The file's side comes from the file's value, the database's side from the database's value, and they are not equal;
  // or one side is missing.
  ghost predicate Honest(d: Difference, a: Json, b: Json, round: Rounding) {
    && (d.file == MISSING || Occurs(d.file, a, round))
    && (d.postgres == MISSING || Occurs(d.postgres, b, round))
    && (d.file == MISSING || d.postgres == MISSING || !PyEq(d.file, d.postgres))
  }

  lemma FieldHonest(a: Json, b: Json, path: string, round: Rounding, k: string, d: Difference)
    requires a.JObj? && b.JObj? && (k in a.fields || k in b.fields) && d in OfField(a, b, path, round, k)
    ensures Honest(d, a, b, round)
    decreases Shape(a), 0
  {
    var l, r := Normalize(a, round).fields, Normalize(b, round).fields;
    if k in l && k in r {
      FieldShrinks(a, k, round);
      DifferencesHonest(l[k], r[k], FieldPath(path, k), round, d);
      assert Occurs(d.file, l[k], round) ==> InField(d.file, a, round, k);
      assert Occurs(d.postgres, r[k], round) ==> InField(d.postgres, b, round, k);
    }
  }

  lemma ItemHonest(a: Json, b: Json, path: string, round: Rounding, i: nat, d: Difference)
    requires a.JArr? && b.JArr? && i < Max(|a.items|, |b.items|) && d in OfItem(a, b, path, round, i)
    ensures Honest(d, a, b, round)
    decreases Shape(a), 0
  {
    var l, r := Normalize(a, round).items, Normalize(b, round).items;
    if i < |l| && i < |r| {
      ItemShrinks(a, i, round);
      DifferencesHonest(l[i], r[i], ItemPath(path, i), round, d);
      assert Occurs(d.file, l[i], round) ==> InItem(d.file, a, round, i);
      assert Occurs(d.postgres, r[i], round) ==> InItem(d.postgres, b, round, i);
    }
  }

  lemma FieldsHonest(a: Json, b: Json, path: string, round: Rounding, keys: seq<string>, d: Difference)
    requires a.JObj? && b.JObj? && forall k | k in keys :: k in a.fields || k in b.fields
    requires d in OfFields(a, b, path, round, keys)
    ensures Honest(d, a, b, round)
    decreases Shape(a), 1
  {
    var parts := seq(|keys|, i requires 0 <= i < |keys| => OfField(a, b, path, round, keys[i]));
    ConcatMember(parts, d);
    var i :| 0 <= i < |parts| && d in parts[i];
    FieldHonest(a, b, path, round, keys[i], d);
  }

  lemma ItemsHonest(a: Json, b: Json, path: string, round: Rounding, n: nat, d: Difference)
    requires a.JArr? && b.JArr? && n <= Max(|a.items|, |b.items|) && d in OfItems(a, b, path, round, n)
    ensures Honest(d, a, b, round)
    decreases Shape(a), 1
  {
    var parts := seq(n, i requires 0 <= i < n => OfItem(a, b, path, round, i));
    ConcatMember(parts, d);
    var i :| 0 <= i < |parts| && d in parts[i];
    ItemHonest(a, b, path, round, i, d);
  }

  // Every reported difference shows unequal values, each found on its own side, or a value only one side has.
  lemma {:induction false} DifferencesHonest(a: Json, b: Json, path: string, round: Rounding, d: Difference)
    requires d in Differences(a, b, path, round)
    ensures Honest(d, a, b, round)
    decreases Shape(a), 2
  {
    var l, r := Normalize(a, round), Normalize(b, round);
    if l.JObj? && r.JObj? {
      FieldsHonest(a, b, path, round, SortedKeys(l.fields.Keys + r.fields.Keys), d);
    } else if l.JArr? && r.JArr? {
      ItemsHonest(a, b, path, round, Max(|l.items|, |r.items|), d);
    }
  }

  /******* exactly where the differences are *******/

  datatype Place = Field(key: string) | Item(index: nat)

  // Following the places from the two values, normalised at every level, one comes to where the difference is: a field or
  // an item that one side lacks, or two values that are neither both objects nor both lists and are not equal.
  ghost predicate DiffersAt(a: Json, b: Json, path: string, round: Rounding, places: seq<Place>, d: Difference)
    decreases |places|
  {
    var l, r := Normalize(a, round), Normalize(b, round);
    if l.JObj? && r.JObj? then
      places != [] && places[0].Field? && FieldDiffersAt(l.fields, r.fields, path, round, places[0].key, places[1..], d)
    else if l.JArr? && r.JArr? then
      places != [] && places[0].Item? && ItemDiffersAt(l.items, r.items, path, round, places[0].index, places[1..], d)
    else
      places == [] && !PyEq(l, r) && d.file == l && d.postgres == r && d.path == if path == "" then "$" else path
  }

  ghost predicate FieldDiffersAt(l: map<string, Json>, r: map<string, Json>, path: string, round: Rounding, k: string,
                                 more: seq<Place>, d: Difference)
    decreases |more| + 1, 0
  {
    if k in l && k in r then DiffersAt(l[k], r[k], FieldPath(path, k), round, more, d)
    else if k in l then more == [] && d == Difference(FieldPath(path, k), l[k], MISSING)
    else k in r && more == [] && d == Difference(FieldPath(path, k), MISSING, r[k])
  }

  ghost predicate ItemDiffersAt(l: seq<Json>, r: seq<Json>, path: string, round: Rounding, i: nat, more: seq<Place>, d: Difference)
    decreases |more| + 1, 0
  {
    if i < |l| && i < |r| then DiffersAt(l[i], r[i], ItemPath(path, i), round, more, d)
    else if i < |l| then more == [] && d == Difference(ItemPath(path, i), l[i], MISSING)
    else i < |r| && more == [] && d == Difference(ItemPath(path, i), MISSING, r[i])
  }

  lemma {:induction false} InConcat<T>(parts: seq<seq<T>>, x: T)
    ensures x in ConcatAll(parts) <==> exists i :: 0 <= i < |parts| && x in parts[i]
  {
    if parts != [] {
      var n := |parts| - 1;
      InConcat(parts[..n], x);
      assert x in ConcatAll(parts) <==> x in ConcatAll(parts[..n]) || x in parts[n];
    }
  }

  lemma FieldPlace(a: Json, b: Json, path: string, round: Rounding, k: string, d: Difference) returns (more: seq<Place>)
    requires a.JObj? && b.JObj? && (k in a.fields || k in b.fields) && d in OfField(a, b, path, round, k)
    ensures FieldDiffersAt(Normalize(a, round).fields, Normalize(b, round).fields, path, round, k, more, d)
    decreases Shape(a), 0
  {
    var l, r := Normalize(a, round).fields, Normalize(b, round).fields;
    more := [];
    if k in l && k in r {
      FieldShrinks(a, k, round);
      more := PlaceOf(l[k], r[k], FieldPath(path, k), round, d);
    }
  }

  lemma ItemPlace(a: Json, b: Json, path: string, round: Rounding, i: nat, d: Difference) returns (more: seq<Place>)
    requires a.JArr? && b.JArr? && i < Max(|a.items|, |b.items|) && d in OfItem(a, b, path, round, i)
    ensures ItemDiffersAt(Normalize(a, round).items, Normalize(b, round).items, path, round, i, more, d)
    decreases Shape(a), 0
  {
    var l, r := Normalize(a, round).items, Normalize(b, round).items;
    more := [];
    if i < |l| && i < |r| {
      ItemShrinks(a, i, round);
      more := PlaceOf(l[i], r[i], ItemPath(path, i), round, d);
    }
  }

  lemma FieldOf(a: Json, b: Json, path: string, round: Rounding, keys: seq<string>, d: Difference) returns (k: string)
    requires a.JObj? && b.JObj? && forall k | k in keys :: k in a.fields || k in b.fields
    requires d in OfFields(a, b, path, round, keys)
    ensures k in keys && d in OfField(a, b, path, round, k)
  {
    var parts := seq(|keys|, i requires 0 <= i < |keys| => OfField(a, b, path, round, keys[i]));
    InConcat(parts, d);
    var i :| 0 <= i < |parts| && d in parts[i];
    k := keys[i];
  }

  lemma ItemOf(a: Json, b: Json, path: string, round: Rounding, n: nat, d: Difference) returns (i: nat)
    requires a.JArr? && b.JArr? && n <= Max(|a.items|, |b.items|) && d in OfItems(a, b, path, round, n)
    ensures i < n && d in OfItem(a, b, path, round, i)
  {
    var parts := seq(n, i requires 0 <= i < n => OfItem(a, b, path, round, i));
    InConcat(parts, d);
    var j :| 0 <= j < |parts| && d in parts[j];
    i := j;
  }

  // Where a reported difference is.
  lemma {:induction false} PlaceOf(a: Json, b: Json, path: string, round: Rounding, d: Difference) returns (places: seq<Place>)
    requires d in Differences(a, b, path, round)
    ensures DiffersAt(a, b, path, round, places, d)
    decreases Shape(a), 1
  {
    var l, r := Normalize(a, round), Normalize(b, round);
    places := [];
    if l.JObj? && r.JObj? {
      var k := FieldOf(a, b, path, round, SortedKeys(l.fields.Keys + r.fields.Keys), d);
      var more := FieldPlace(a, b, path, round, k, d);
      places := [Field(k)] + more;
      assert places[1..] == more;
    } else if l.JArr? && r.JArr? {
      var i := ItemOf(a, b, path, round, Max(|l.items|, |r.items|), d);
      var more := ItemPlace(a, b, path, round, i, d);
      places := [Item(i)] + more;
      assert places[1..] == more;
    }
  }

  lemma FieldListed(a: Json, b: Json, path: string, round: Rounding, keys: seq<string>, k: string, d: Difference)
    requires a.JObj? && b.JObj? && forall k | k in keys :: k in a.fields || k in b.fields
    requires k in keys && d in OfField(a, b, path, round, k)
    ensures d in OfFields(a, b, path, round, keys)
  {
    var parts := seq(|keys|, i requires 0 <= i < |keys| => OfField(a, b, path, round, keys[i]));
    InConcat(parts, d);
    var i :| 0 <= i < |keys| && keys[i] == k;
    assert d in parts[i];
  }

  lemma ItemListed(a: Json, b: Json, path: string, round: Rounding, n: nat, i: nat, d: Difference)
    requires a.JArr? && b.JArr? && i < n <= Max(|a.items|, |b.items|) && d in OfItem(a, b, path, round, i)
    ensures d in OfItems(a, b, path, round, n)
  {
    var parts := seq(n, i requires 0 <= i < n => OfItem(a, b, path, round, i));
    InConcat(parts, d);
    assert d in parts[i];
  }

  // And a difference at any place is reported.
  lemma {:induction false} PlaceReported(a: Json, b: Json, path: string, round: Rounding, places: seq<Place>, d: Difference)
    requires DiffersAt(a, b, path, round, places, d)
    ensures d in Differences(a, b, path, round)
    decreases |places|
  {
    var l, r := Normalize(a, round), Normalize(b, round);
    if l.JObj? && r.JObj? {
      var k := places[0].key;
      if k in l.fields && k in r.fields {
        PlaceReported(l.fields[k], r.fields[k], FieldPath(path, k), round, places[1..], d);
      }
      FieldListed(a, b, path, round, SortedKeys(l.fields.Keys + r.fields.Keys), k, d);
    } else if l.JArr? && r.JArr? {
      var i := places[0].index;
      if i < |l.items| && i < |r.items| {
        PlaceReported(l.items[i], r.items[i], ItemPath(path, i), round, places[1..], d);
      }
      ItemListed(a, b, path, round, Max(|l.items|, |r.items|), i, d);
    }
  }

  ghost predicate SomewhereDiffers(a: Json, b: Json, path: string, round: Rounding, d: Difference) {
    exists places :: DiffersAt(a, b, path, round, places, d)
  }

  lemma DiffersSomewhere(a: Json, b: Json, path: string, round: Rounding, places: seq<Place>, d: Difference)
    requires DiffersAt(a, b, path, round, places, d)
    ensures SomewhereDiffers(a, b, path, round, d)
  {}

  // What is reported is exactly what differs: every difference is one at some place, with the values met there and the
  // path that leads there, and every difference at any place is reported.
  lemma DifferencesExactly(a: Json, b: Json, path: string, round: Rounding, d: Difference)
    ensures d in Differences(a, b, path, round) <==> SomewhereDiffers(a, b, path, round, d)
  {
    if d in Differences(a, b, path, round) {
      var places := PlaceOf(a, b, path, round, d);
      DiffersSomewhere(a, b, path, round, places, d);
    } else if SomewhereDiffers(a, b, path, round, d) {
      var places :| DiffersAt(a, b, path, round, places, d);
      PlaceReported(a, b, path, round, places, d);
    }
  }

  // How a path reads: names joined by dots, positions in brackets.
  lemma PathReads()
    ensures FieldPath("", "canon") == "canon" && ItemPath("canon", 12) == "canon[12]" && FieldPath("canon[12]", "id") == "canon[12].id"
    ensures MISSING == JStr("<missing>")
  {
    assert T.Decimal(1) == "1" && T.Decimal(12) == "12";
  }

  // A number becomes the integer it is, or stays or becomes a float; anything else but lists and objects stays.
  lemma NumbersNormalised(j: Json, round: Rounding)
    ensures j.JDec? || j.JFloat? ==>
              var x := if j.JDec? then j.d else j.r;
              if Integral(x) then Normalize(j, round).JInt? && Normalize(j, round).i as real == x
              else Normalize(j, round) == JFloat(if j.JDec? then round(x) else x)
    ensures j.JNull? || j.JBool? || j.JInt? || j.JStr? ==> Normalize(j, round) == j
    ensures Integral(2.0) && !Integral(2.5) && !Integral(-0.5)
  {}

  /******* when "no difference" means the same normal form *******/

  // A truth value and the number it equals are not told apart.
  lemma TruthValuePassesAsNumber(round: Rounding)
    ensures Differences(JBool(true), JInt(1), "", round) == [] && Normalize(JBool(true), round) != Normalize(JInt(1), round)
  {
    EmptyExactly(JBool(true), JInt(1), "", round);
  }

  // Twenty places behind the point are more than a binary64 float holds: this decimal rounds to the float one, which the
  // second normalisation turns into the integer one, and it passes for that integer.
  lemma RoundedTwice(round: Rounding)
    requires round(1.00000000000000000001) == 1.0
    ensures Normalize(JDec(1.00000000000000000001), round) == JFloat(1.0)
    ensures Normalize(Normalize(JDec(1.00000000000000000001), round), round) == JInt(1)
    ensures Differences(JInt(1), JDec(1.00000000000000000001), "", round) == []
  {
    EmptyExactly(JInt(1), JDec(1.00000000000000000001), "", round);
  }

  // No truth value in it, and no number a truth value could equal.
  predicate NoTruthLike(j: Json) {
    match j
    case JArr(items) => forall i | 0 <= i < |items| :: NoTruthLike(items[i])
    case JObj(fields) => forall k | k in fields :: NoTruthLike(fields[k])
    case JBool(_) => false
    case JInt(i) => i != 0 && i != 1
    case _ => true
  }

  // No float in it is integral.
  predicate NoIntegralFloat(j: Json) {
    match j
    case JArr(items) => forall i | 0 <= i < |items| :: NoIntegralFloat(items[i])
    case JObj(fields) => forall k | k in fields :: NoIntegralFloat(fields[k])
    case JFloat(r) => !Integral(r)
    case _ => true
  }

  lemma {:induction false} CleanNormalForm(j: Json, round: Rounding)
    requires RoundsCleanly(j, round)
    ensures NoIntegralFloat(Normalize(j, round))
  {
    match j
    case JArr(items) => forall i | 0 <= i < |items| ensures NoIntegralFloat(Normalize(items[i], round)) { CleanNormalForm(items[i], round); }
    case JObj(fields) => forall k | k in fields ensures NoIntegralFloat(Normalize(fields[k], round)) { CleanNormalForm(fields[k], round); }
    case _ =>
  }

  lemma {:induction false} EqualMeansSame(x: Json, y: Json)
    requires PyEq(x, y) && NoTruthLike(x) && NoDecimal(x) && NoDecimal(y) && NoIntegralFloat(x) && NoIntegralFloat(y)
    ensures x == y
  {
    match (x, y)
    case (JArr(p), JArr(q)) => forall i | 0 <= i < |p| ensures p[i] == q[i] { EqualMeansSame(p[i], q[i]); }
    case (JObj(p), JObj(q)) => forall k | k in p ensures p[k] == q[k] { EqualMeansSame(p[k], q[k]); }
    case _ => ScalarsSame(x, y);
  }

  lemma ScalarsSame(x: Json, y: Json)
    requires Hash(x).Some? && Hash(x) == Hash(y) && !x.JDec? && !y.JDec? && !x.JBool?
    requires (x.JInt? ==> x.i != 0 && x.i != 1) && (x.JFloat? ==> !Integral(x.r)) && (y.JFloat? ==> !Integral(y.r))
    ensures x == y
  {
    if x.JInt? { IntIsIntegral(x.i); }
    if y.JInt? { IntIsIntegral(y.i); }
  }

  lemma IntIsIntegral(i: int)
    ensures Integral(i as real)
  {}

  // Each truth value and its number, exchanged.
  function Exchanged(j: Json): Json {
    match j
    case JArr(items) => JArr(seq(|items|, i requires 0 <= i < |items| => Exchanged(items[i])))
    case JObj(fields) => JObj(map k | k in fields :: Exchanged(fields[k]))
    case JBool(b) => JInt(if b then 1 else 0)
    case JInt(i) => if i == 0 then JBool(false) else if i == 1 then JBool(true) else j
    case _ => j
  }

  // The second value passes for the first, and is the first only where the first holds nothing truth-like.
  predicate Passes(x: Json, y: Json, round: Rounding) {
    PyEq(x, y) && Normalize(y, round) == y && RoundsCleanly(y, round) && (y == x ==> NoTruthLike(x))
  }

  lemma ItemsPass(x: seq<Json>, y: seq<Json>, round: Rounding)
    requires |x| == |y| && forall i | 0 <= i < |x| :: Passes(x[i], y[i], round)
    ensures Passes(JArr(x), JArr(y), round)
  {
    assert Normalize(JArr(y), round).items == y;
  }

  lemma FieldsPass(x: map<string, Json>, y: map<string, Json>, round: Rounding)
    requires x.Keys == y.Keys && forall k | k in x :: Passes(x[k], y[k], round)
    ensures Passes(JObj(x), JObj(y), round)
  {
    assert Normalize(JObj(y), round).fields == y;
  }

  lemma {:induction false} ExchangedPasses(j: Json, round: Rounding)
    requires NoDecimal(j) && NoIntegralFloat(j)
    ensures Passes(j, Exchanged(j), round)
  {
    match j
    case JArr(items) =>
      forall i | 0 <= i < |items| ensures Passes(items[i], Exchanged(j).items[i], round) { ExchangedPasses(items[i], round); }
      ItemsPass(items, Exchanged(j).items, round);
    case JObj(fields) =>
      forall k | k in fields ensures Passes(fields[k], Exchanged(j).fields[k], round) { ExchangedPasses(fields[k], round); }
      FieldsPass(fields, Exchanged(j).fields, round);
    case _ =>
  }

  // For a value whose decimals round cleanly: "no difference" from another such value means the same normal form,
  // whichever the other value is, exactly when its normal form holds no truth value, no 0 and no 1.
  lemma CleanNoDifferenceMeansSame(a: Json, path: string, round: Rounding)
    requires RoundsCleanly(a, round)
    ensures (forall b | RoundsCleanly(b, round) && Differences(a, b, path, round) == [] :: Normalize(a, round) == Normalize(b, round))
            <==> NoTruthLike(Normalize(a, round))
  {
    var l := Normalize(a, round);
    NormalHasNoDecimal(a, round);
    CleanNormalForm(a, round);
    if NoTruthLike(l) {
      forall b | RoundsCleanly(b, round) && Differences(a, b, path, round) == [] ensures l == Normalize(b, round) {
        EmptyExactly(a, b, path, round);
        NormalHasNoDecimal(b, round);
        CleanNormalForm(b, round);
        EqualMeansSame(l, Normalize(b, round));
      }
    } else {
      var b := Exchanged(l);
      ExchangedPasses(l, round);
      EmptyExactly(a, b, path, round);
      assert RoundsCleanly(b, round) && Differences(a, b, path, round) == [] && l != Normalize(b, round);
    }
  }

  /******* the same question for all values *******/

  // A decimal that is not integral rounds to this float.
  ghost predicate Reached(x: real, round: Rounding) {
    exists d: real :: !Integral(d) && round(d) == x
  }

  // No other normal form passes for this one: it holds no truth value, no integral float, and no integer that equals a
  // truth value or the rounding of a decimal.
  ghost predicate Alone(j: Json, round: Rounding) {
    match j
    case JArr(items) => forall i | 0 <= i < |items| :: Alone(items[i], round)
    case JObj(fields) => forall k | k in fields :: Alone(fields[k], round)
    case JBool(_) => false
    case JInt(i) => i != 0 && i != 1 && !Reached(i as real, round)
    case JFloat(r) => !Integral(r)
    case _ => true
  }

  // An integral float in a normal form is the rounding of a decimal.
  ghost predicate FloatsReached(j: Json, round: Rounding) {
    match j
    case JArr(items) => forall i | 0 <= i < |items| :: FloatsReached(items[i], round)
    case JObj(fields) => forall k | k in fields :: FloatsReached(fields[k], round)
    case JFloat(r) => Integral(r) ==> Reached(r, round)
    case _ => true
  }

  lemma {:induction false} NormalFloats(j: Json, round: Rounding)
    ensures FloatsReached(Normalize(j, round), round)
  {
    match j
    case JArr(items) => forall i | 0 <= i < |items| ensures FloatsReached(Normalize(items[i], round), round) { NormalFloats(items[i], round); }
    case JObj(fields) => forall k | k in fields ensures FloatsReached(Normalize(fields[k], round), round) { NormalFloats(fields[k], round); }
    case _ =>
  }

  lemma {:induction false} AloneMeansSame(x: Json, y: Json, round: Rounding)
    requires PyEq(x, y) && Alone(x, round) && NoDecimal(x) && NoDecimal(y) && FloatsReached(y, round)
    ensures x == y
  {
    match (x, y)
    case (JArr(p), JArr(q)) => forall i | 0 <= i < |p| ensures p[i] == q[i] { AloneMeansSame(p[i], q[i], round); }
    case (JObj(p), JObj(q)) => forall k | k in p ensures p[k] == q[k] { AloneMeansSame(p[k], q[k], round); }
    case _ => ScalarsAlone(x, y, round);
  }

  lemma ScalarsAlone(x: Json, y: Json, round: Rounding)
    requires Hash(x).Some? && Hash(x) == Hash(y) && !x.JDec? && !y.JDec? && Alone(x, round) && FloatsReached(y, round)
    ensures x == y
  {
    if x.JInt? { IntIsIntegral(x.i); }
    if y.JInt? { IntIsIntegral(y.i); }
  }

  // Each truth value and its number exchanged, each integral float read as an integer, and each other integer written as
  // a decimal that rounds to it, if there is one.
  ghost function Twin(j: Json, round: Rounding): Json {
    match j
    case JArr(items) => JArr(seq(|items|, i requires 0 <= i < |items| => Twin(items[i], round)))
    case JObj(fields) => JObj(map k | k in fields :: Twin(fields[k], round))
    case JBool(b) => JInt(if b then 1 else 0)
    case JInt(i) =>
      if i == 0 then JBool(false) else if i == 1 then JBool(true)
      else if Reached(i as real, round) then (var d: real :| !Integral(d) && round(d) == i as real; JDec(d)) else j
    case JFloat(r) => if Integral(r) then JInt(r.Floor) else j
    case _ => j
  }

  // The normal form of the second passes for the first, and is the first only where the first is alone.
  ghost predicate Mimics(x: Json, y: Json, round: Rounding) {
    PyEq(x, Normalize(y, round)) && (Normalize(y, round) == x ==> Alone(x, round))
  }

  lemma ItemsMimic(x: seq<Json>, y: seq<Json>, round: Rounding)
    requires |x| == |y| && forall i | 0 <= i < |x| :: Mimics(x[i], y[i], round)
    ensures Mimics(JArr(x), JArr(y), round)
  {}

  lemma FieldsMimic(x: map<string, Json>, y: map<string, Json>, round: Rounding)
    requires x.Keys == y.Keys && forall k | k in x :: Mimics(x[k], y[k], round)
    ensures Mimics(JObj(x), JObj(y), round)
  {}

  lemma {:induction false} TwinMimics(j: Json, round: Rounding)
    requires NoDecimal(j)
    ensures Mimics(j, Twin(j, round), round)
  {
    match j
    case JArr(items) =>
      forall i | 0 <= i < |items| ensures Mimics(items[i], Twin(j, round).items[i], round) { TwinMimics(items[i], round); }
      ItemsMimic(items, Twin(j, round).items, round);
    case JObj(fields) =>
      forall k | k in fields ensures Mimics(fields[k], Twin(j, round).fields[k], round) { TwinMimics(fields[k], round); }
      FieldsMimic(fields, Twin(j, round).fields, round);
    case JInt(i) => IntIsIntegral(i);
    case _ =>
  }

  // "No difference" from any other value means the same normal form exactly when the normal form is alone.
  lemma NoDifferenceMeansSameExactly(a: Json, path: string, round: Rounding)
    ensures (forall b | Differences(a, b, path, round) == [] :: Normalize(a, round) == Normalize(b, round))
            <==> Alone(Normalize(a, round), round)
  {
    var l := Normalize(a, round);
    NormalHasNoDecimal(a, round);
    if Alone(l, round) {
      forall b | Differences(a, b, path, round) == [] ensures l == Normalize(b, round) {
        EmptyExactly(a, b, path, round);
        NormalHasNoDecimal(b, round);
        NormalFloats(b, round);
        AloneMeansSame(l, Normalize(b, round), round);
      }
    } else {
      var b := Twin(l, round);
      TwinMimics(l, round);
      EmptyExactly(a, b, path, round);
      assert Differences(a, b, path, round) == [] && l != Normalize(b, round);
    }
  }
}

/** `differences` as it is written: recursive, with the output collected in loops. */
module JsonCompareRun {
  import opened Wrappers
  import opened Json
  import opened Sorting
  import opened JsonCompare

  method SortKeys(s: set<string>) returns (r: seq<string>)
    ensures r == SortedKeys(s)
  {
    r := [];
    var rest := s;
    while rest != {}
      invariant rest <= s && Increasing(r) && forall k :: k in r <==> k in s - rest
      decreases |rest|
    {
      var k :| k in rest;
      AddSortedOk(k, r);
      r, rest := AddSorted(k, r), rest - {k};
    }
    IncreasingUnique(r, SortedKeys(s));
  }

  lemma {:induction false} ConcatNext<T>(parts: seq<seq<T>>, i: nat)
    requires i < |parts|
    ensures ConcatAll(parts[..i + 1]) == ConcatAll(parts[..i]) + parts[i]
  {
    assert parts[..i + 1][..i] == parts[..i];
  }

  method Compare(a: Json, b: Json, path: string, round: Rounding) returns (out: seq<Difference>)
    ensures out == Differences(a, b, path, round)
    decreases Shape(a), 1
  {
    var l, r := Normalize(a, round), Normalize(b, round);
    if l.JObj? && r.JObj? {
      var keys := SortKeys(l.fields.Keys + r.fields.Keys);
      out := CompareFields(a, b, path, round, keys);
    } else if l.JArr? && r.JArr? {
      out := CompareItems(a, b, path, round);
    } else if PyEq(l, r) {
      out := [];
    } else {
      out := [Difference(if path == "" then "$" else path, l, r)];
    }
  }

  method CompareFields(a: Json, b: Json, path: string, round: Rounding, keys: seq<string>) returns (out: seq<Difference>)
    requires a.JObj? && b.JObj? && forall k | k in keys :: k in a.fields || k in b.fields
    ensures out == OfFields(a, b, path, round, keys)
    decreases Shape(a), 0
  {
    var l, r := Normalize(a, round).fields, Normalize(b, round).fields;
    ghost var parts := seq(|keys|, i requires 0 <= i < |keys| => OfField(a, b, path, round, keys[i]));
    out := [];
    for i := 0 to |keys|
      invariant out == ConcatAll(parts[..i])
    {
      var k := keys[i];
      assert k in keys;
      ConcatNext(parts, i);
      if k !in l {
        out := out + [Difference(FieldPath(path, k), MISSING, r[k])];
      } else if k !in r {
        out := out + [Difference(FieldPath(path, k), l[k], MISSING)];
      } else {
        FieldShrinks(a, k, round);
        var inner := Compare(l[k], r[k], FieldPath(path, k), round);
        out := out + inner;
      }
    }
    assert parts[..|keys|] == parts;
  }

  method CompareItems(a: Json, b: Json, path: string, round: Rounding) returns (out: seq<Difference>)
    requires a.JArr? && b.JArr?
    ensures out == OfItems(a, b, path, round, Max(|a.items|, |b.items|))
    decreases Shape(a), 0
  {
    var l, r := Normalize(a, round).items, Normalize(b, round).items;
    ghost var n := Max(|l|, |r|);
    ghost var parts := seq(n, i requires 0 <= i < n => OfItem(a, b, path, round, i));
    out := [];
    for i := 0 to Max(|l|, |r|)
      invariant out == ConcatAll(parts[..i])
    {
      ConcatNext(parts, i);
      if i >= |l| {
        out := out + [Difference(ItemPath(path, i), MISSING, r[i])];
      } else if i >= |r| {
        out := out + [Difference(ItemPath(path, i), l[i], MISSING)];
      } else {
        ItemShrinks(a, i, round);
        var inner := Compare(l[i], r[i], ItemPath(path, i), round);
        out := out + inner;
      }
    }
    assert parts[..n] == parts;
  }
}
