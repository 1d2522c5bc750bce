/**
 * The build-time tables of build.rs, over the object catalog whose record
 * shape src/codegen.rs declares: record splitting and parsing, the two
 * exclusion filters, the fast-exclude jump table and the id list sorted by
 * name. The JSON reading and the code emission around them are not modelled;
 * the catalog arrives as a sequence of (key, record) text pairs.
 */
module Catalog {
  import opened Wrappers
  import opened Ints
  import Decimal
  import Sorting

  /** Ids the stock replay draws from lie in `[0, ID_LIMIT)`. */
  const ID_LIMIT: int := 790

  /** The record separator of the catalog's text records. */
  const SEPARATOR: char := '/'

  datatype ObjectInformation = ObjectInformation(
    name: string,
    price: u16,
    edibility: i16,
    typeAndCategory: string,
    displayName: string,
    description: string)

  /** The catalog: object id to its record. */
  type Objects = map<u16, ObjectInformation>

  // ---------------------------------------------------------------------
  // Record splitting and parsing
  // ---------------------------------------------------------------------

  /** `str::split`: the pieces between separators, at least one, none containing the separator. */
  function Split(s: string, sep: char): (parts: seq<string>)
    ensures |parts| >= 1
    ensures forall i :: 0 <= i < |parts| ==> sep !in parts[i]
  {
    if s == [] then [""]
    else
      var rest := Split(s[1..], sep);
      if s[0] == sep then [""] + rest
      else [[s[0]] + rest[0]] + rest[1..]
  }

  /** The pieces glued back together with one separator between neighbours. */
  function Join(parts: seq<string>, sep: char): string
    requires |parts| >= 1
  {
    if |parts| == 1 then parts[0] else parts[0] + [sep] + Join(parts[1..], sep)
  }

  lemma {:induction false} JoinSplit(s: string, sep: char)
    ensures Join(Split(s, sep), sep) == s
  {
    if s != [] {
      JoinSplit(s[1..], sep);
      var rest := Split(s[1..], sep);
      if s[0] == sep {
        assert ([""] + rest)[1..] == rest;
      } else {
        var parts := Split(s, sep);
        assert parts[0] == [s[0]] + rest[0];
        assert parts[1..] == rest[1..];
        if |rest| > 1 {
          assert Join(rest, sep) == rest[0] + [sep] + Join(rest[1..], sep);
        }
      }
    }
  }

  /** Splitting a text that starts with a separator-free piece `a`. */
  lemma {:induction false} SplitPrefix(a: string, tail: string, sep: char)
    requires sep !in a
    ensures Split(a + tail, sep) == [a + Split(tail, sep)[0]] + Split(tail, sep)[1..]
  {
    if a != [] {
      assert (a + tail)[1..] == a[1..] + tail;
      SplitPrefix(a[1..], tail, sep);
      assert [a[0]] + (a[1..] + Split(tail, sep)[0]) == a + Split(tail, sep)[0];
    } else {
      assert a + tail == tail;
      assert a + Split(tail, sep)[0] == Split(tail, sep)[0];
      assert Split(tail, sep) == [Split(tail, sep)[0]] + Split(tail, sep)[1..];
    }
  }

  lemma {:induction false} SplitJoin(parts: seq<string>, sep: char)
    requires |parts| >= 1
    requires forall i :: 0 <= i < |parts| ==> sep !in parts[i]
    ensures Split(Join(parts, sep), sep) == parts
  {
    if |parts| == 1 {
      SplitPrefix(parts[0], "", sep);
      assert parts[0] + "" == parts[0];
    } else {
      var tail := Join(parts[1..], sep);
      SplitJoin(parts[1..], sep);
      assert ([sep] + tail)[1..] == tail;
      assert Split([sep] + tail, sep) == [""] + parts[1..];
      assert parts[0] + [sep] + tail == parts[0] + ([sep] + tail);
      SplitPrefix(parts[0], [sep] + tail, sep);
      assert parts[0] + "" == parts[0];
    }
  }

  /**
   * One catalog record `name/price/edibility/type/display name/description[/...]`.
   * Too few fields or a numeric field that does not parse stops the build.
   */
  function ParseRecord(record: string): (r: Result<ObjectInformation>)
    ensures r.Ok? <==>
      var fields := Split(record, SEPARATOR);
      && |fields| >= 6
      && Decimal.ParseUnsigned(fields[1], U16_MAX).Some?
      && Decimal.ParseSigned(fields[2], I16_MIN, I16_MAX).Some?
    ensures r.Ok? ==>
      var fields := Split(record, SEPARATOR);
      && r.value.name == fields[0]
      && r.value.price == Decimal.ParseUnsigned(fields[1], U16_MAX).value
      && r.value.edibility == Decimal.ParseSigned(fields[2], I16_MIN, I16_MAX).value
      && r.value.typeAndCategory == fields[3]
      && r.value.displayName == fields[4]
      && r.value.description == fields[5]
  {
    var fields := Split(record, SEPARATOR);
    if |fields| < 6 then Err("record has fewer than six fields")
    else
      match (Decimal.ParseUnsigned(fields[1], U16_MAX), Decimal.ParseSigned(fields[2], I16_MIN, I16_MAX))
      case (Some(price), Some(edibility)) =>
        Ok(ObjectInformation(fields[0], price, edibility, fields[3], fields[4], fields[5]))
      case _ => Err("record has a malformed number")
  }

  /** The record text of an object, fields in catalog order. */
  function FormatRecord(o: ObjectInformation): string
  {
    Join([o.name, Decimal.ToDecimal(o.price), Decimal.ToSignedDecimal(o.edibility),
          o.typeAndCategory, o.displayName, o.description], SEPARATOR)
  }

  predicate SeparatorFree(o: ObjectInformation)
  {
    && SEPARATOR !in o.name
    && SEPARATOR !in o.typeAndCategory
    && SEPARATOR !in o.displayName
    && SEPARATOR !in o.description
  }

  /** A record whose text fields hold no separator parses back to itself. */
  lemma ParseFormatRecord(o: ObjectInformation)
    requires SeparatorFree(o)
    ensures ParseRecord(FormatRecord(o)) == Ok(o)
  {
    var price := Decimal.ToDecimal(o.price);
    var edibility := Decimal.ToSignedDecimal(o.edibility);
    assert SEPARATOR !in price by {
      assert Decimal.AllDigits(price);
    }
    assert SEPARATOR !in edibility by {
      if o.edibility < 0 {
        assert Decimal.AllDigits(edibility[1..]);
        assert forall i :: 0 <= i < |edibility| ==> edibility[i] == '-' || edibility[i] == edibility[1..][i - 1];
      } else {
        assert Decimal.AllDigits(edibility);
      }
    }
    var parts := [o.name, price, edibility, o.typeAndCategory, o.displayName, o.description];
    SplitJoin(parts, SEPARATOR);
    Decimal.ParseToDecimal(o.price, U16_MAX);
    Decimal.ParseToSignedDecimal(o.edibility, I16_MIN, I16_MAX);
  }

  /** A JSON entry of the catalog, parsed: the key as an id and the record. */
  function ParseEntry(entry: (string, string)): Option<(u16, ObjectInformation)>
  {
    match (Decimal.ParseUnsigned(entry.0, U16_MAX), ParseRecord(entry.1))
    case (Some(id), Ok(o)) => Some((id, o))
    case _ => None
  }

  /** The catalog a sequence of parsed entries describes, a later entry overriding an earlier one with the same id. */
  function MapOf(pairs: seq<(u16, ObjectInformation)>): Objects
  {
    if pairs == [] then map[]
    else MapOf(pairs[..|pairs| - 1])[pairs[|pairs| - 1].0 := pairs[|pairs| - 1].1]
  }

  /** The catalog's ids are exactly the entries' keys. */
  lemma {:induction false} MapOfKeys(pairs: seq<(u16, ObjectInformation)>, id: u16)
    ensures id in MapOf(pairs) <==> exists i :: 0 <= i < |pairs| && pairs[i].0 == id
  {
    if pairs != [] {
      var n := |pairs| - 1;
      var front := pairs[..n];
      MapOfKeys(front, id);
      if id in MapOf(front) {
        var i :| 0 <= i < n && front[i].0 == id;
        assert pairs[i].0 == id;
      }
      if i :| 0 <= i < n && pairs[i].0 == id {
        assert front[i].0 == id;
      }
    }
  }

  /** An id holds the record of the last entry with that key. */
  lemma {:induction false} MapOfLast(pairs: seq<(u16, ObjectInformation)>, i: int)
    requires 0 <= i < |pairs|
    requires forall j :: i < j < |pairs| ==> pairs[j].0 != pairs[i].0
    ensures pairs[i].0 in MapOf(pairs)
    ensures MapOf(pairs)[pairs[i].0] == pairs[i].1
  {
    var n := |pairs| - 1;
    if i < n {
      var front := pairs[..n];
      assert front[i] == pairs[i];
      MapOfLast(front, i);
    }
  }

  /**
   * Reads the catalog's (key, record) pairs in order into a map. The first key
   * or record that does not parse stops the build; otherwise the map is the
   * one the parsed pairs describe.
   */
  /** Appending the next entry's parse keeps every parsed entry lined up with its entry. */
  lemma ParsedPush(entries: seq<(string, string)>, pairs: seq<(u16, ObjectInformation)>, next: (u16, ObjectInformation))
    requires |pairs| < |entries|
    requires forall k :: 0 <= k < |pairs| ==> ParseEntry(entries[k]) == Some(pairs[k])
    requires ParseEntry(entries[|pairs|]) == Some(next)
    ensures forall k :: 0 <= k < |pairs| + 1 ==> ParseEntry(entries[k]) == Some((pairs + [next])[k])
  {
  }

  method LoadObjects(entries: seq<(string, string)>) returns (r: Result<Objects>, ghost pairs: seq<(u16, ObjectInformation)>)
    ensures r.Err? <==> exists i :: 0 <= i < |entries| && ParseEntry(entries[i]).None?
    ensures r.Ok? ==> |pairs| == |entries|
    ensures r.Ok? ==> forall i :: 0 <= i < |entries| ==> ParseEntry(entries[i]) == Some(pairs[i])
    ensures r.Ok? ==> r.value == MapOf(pairs)
  {
    var objects: Objects := map[];
    pairs := [];
    for i := 0 to |entries|
      invariant |pairs| == i
      invariant forall k :: 0 <= k < i ==> ParseEntry(entries[k]) == Some(pairs[k])
      invariant objects == MapOf(pairs)
    {
      var parsed := ParseEntry(entries[i]);
      if parsed.None? {
        return Err("catalog entry does not parse"), pairs;
      }
      var (id, record) := parsed.value;
      ParsedPush(entries, pairs, (id, record));
      pairs := pairs + [(id, record)];
      assert pairs[..i] == pairs[..|pairs| - 1];
      objects := objects[id := record];
    }
    return Ok(objects), pairs;
  }

  // ---------------------------------------------------------------------
  // Exclusion filters
  // ---------------------------------------------------------------------

  /** Ids the merchant never stocks whatever the catalog says. */
  const OFF_LIMIT: set<int> := {
    69, 73, 79, 91, 158, 159, 160, 161, 162, 163, 261, 277,
    279, 289, 292, 305, 308, 326, 341, 413, 417, 437, 439, 447,
    454, 460, 645, 680, 681, 682, 688, 689, 690, 774, 775, 797,
    798, 799, 800, 801, 802, 803, 807, 812 }

  /** Whether `pattern` occurs in `s` as a contiguous piece (`str::contains`). */
  predicate Contains(s: string, pattern: string)
  {
    exists i :: 0 <= i <= |s| && pattern <= s[i..]
  }

  /** The catalog-record rule of the second filter. */
  predicate SecondFilterRule(o: ObjectInformation)
  {
    || !Contains(o.typeAndCategory, "-")
    || o.price <= 0
    || Contains(o.typeAndCategory, "-13")
    || o.typeAndCategory == "Quest"
    || o.name == "Weeds"
    || Contains(o.typeAndCategory, "Minerals")
    || Contains(o.typeAndCategory, "Arch")
  }

  /** Ids below the limit with no catalog record or off limits. */
  function FirstFilterOf(objects: Objects): set<int>
  {
    set i | 0 <= i < ID_LIMIT && (i !in objects || i in OFF_LIMIT)
  }

  /** Ids below the limit outside the first filter whose record meets the second-filter rule. */
  function SecondFilterOf(objects: Objects): set<int>
  {
    set i: u16 | i < ID_LIMIT && i in objects && i !in OFF_LIMIT && SecondFilterRule(objects[i]) :: i as int
  }

  /** Builds the first filter one id at a time. */
  method BuildFirstFilter(objects: Objects) returns (first: set<int>)
    ensures first == FirstFilterOf(objects)
  {
    first := {};
    for index := 0 to ID_LIMIT
      invariant first == set i | 0 <= i < index && (i !in objects || i in OFF_LIMIT)
    {
      if index !in objects || index in OFF_LIMIT {
        first := first + {index};
      }
    }
  }

  /** Builds the second filter; ids outside the first filter are catalog ids, so their lookup succeeds. */
  method BuildSecondFilter(objects: Objects, first: set<int>) returns (second: set<int>)
    requires first == FirstFilterOf(objects)
    ensures second == SecondFilterOf(objects)
    ensures second !! first
    ensures forall i :: i in second <==>
      0 <= i < ID_LIMIT && i in objects && i !in OFF_LIMIT && SecondFilterRule(objects[i])
  {
    second := {};
    for index := 0 to ID_LIMIT
      invariant second == set i: u16 | i < index && i in objects && i !in OFF_LIMIT && SecondFilterRule(objects[i]) :: i as int
    {
      if index !in first {
        assert index in objects;
        var value := objects[index];
        if SecondFilterRule(value) {
          second := second + {index};
        }
      }
    }
  }

  // ---------------------------------------------------------------------
  // Fast-exclude jump table
  // ---------------------------------------------------------------------

  /** The id `k` places after `id`, wrapping at the limit. */
  function Cyclic(id: int, k: int): int
  {
    (id + k) % ID_LIMIT
  }

  lemma CyclicStep(id: int, k: int)
    ensures (Cyclic(id, k) + 1) % ID_LIMIT == Cyclic(id, k + 1)
  {
  }

  lemma CyclicZero(id: int)
    requires 0 <= id < ID_LIMIT
    ensures Cyclic(id, 0) == id
  {
  }

  lemma CyclicShift(id: int, k: int, j: int)
    ensures Cyclic(Cyclic(id, k), j) == Cyclic(id, k + j)
  {
  }

  /** The offset, between 1 and the limit, at which `target` follows `id`. */
  function OffsetTo(id: int, target: int): (k: int)
    requires 0 <= id < ID_LIMIT && 0 <= target < ID_LIMIT
    ensures 1 <= k <= ID_LIMIT && Cyclic(id, k) == target
  {
    if target > id then target - id else target - id + ID_LIMIT
  }

  /**
   * The first offset `r >= k` whose id is outside `excluded`; every offset
   * in between lands on an excluded id. `ID_LIMIT + 1` when no offset up to
   * a full turn qualifies.
   */
  function FirstOutside(excluded: set<int>, id: int, k: int): (r: int)
    requires 1 <= k <= ID_LIMIT + 1
    ensures k <= r <= ID_LIMIT + 1
    ensures r <= ID_LIMIT ==> Cyclic(id, r) !in excluded
    ensures forall j :: k <= j < r ==> Cyclic(id, j) in excluded
    decreases ID_LIMIT + 1 - k
  {
    if k > ID_LIMIT then k
    else if Cyclic(id, k) !in excluded then k
    else FirstOutside(excluded, id, k + 1)
  }

  /** Any offset with the first-outside property is the one `FirstOutside` finds. */
  lemma FirstOutsideUnique(excluded: set<int>, id: int, r: int)
    requires 1 <= r <= ID_LIMIT
    requires Cyclic(id, r) !in excluded
    requires forall j :: 1 <= j < r ==> Cyclic(id, j) in excluded
    ensures FirstOutside(excluded, id, 1) == r
  {
  }

  /** The walk from `id` finds a non-excluded id within a full turn iff some id below the limit is not excluded. */
  lemma WalkTerminates(excluded: set<int>, id: int)
    requires 0 <= id < ID_LIMIT
    ensures FirstOutside(excluded, id, 1) <= ID_LIMIT <==> exists e :: 0 <= e < ID_LIMIT && e !in excluded
  {
    var r := FirstOutside(excluded, id, 1);
    if r <= ID_LIMIT {
      assert 0 <= Cyclic(id, r) < ID_LIMIT;
    }
    if e :| 0 <= e < ID_LIMIT && e !in excluded {
      var k := OffsetTo(id, e);
      assert Cyclic(id, k) !in excluded;
    }
  }

  /** The fast-exclude entry of `id`: the first id strictly after it outside both filters. */
  function FastExcludeOf(first: set<int>, second: set<int>, id: int): int
  {
    Cyclic(id, FirstOutside(first + second, id, 1))
  }

  /** Ids below the limit outside both filters. */
  function EligibleOf(first: set<int>, second: set<int>): set<int>
  {
    set i | 0 <= i < ID_LIMIT && i !in first && i !in second
  }

  /** Builds the jump table by walking forward from every id; the walk needs some eligible id to stop. */
  method BuildFastExclude(first: set<int>, second: set<int>) returns (fastExclude: map<int, int>)
    requires EligibleOf(first, second) != {}
    ensures forall i :: i in fastExclude <==> 0 <= i < ID_LIMIT
    ensures forall i :: 0 <= i < ID_LIMIT ==> fastExclude[i] == FastExcludeOf(first, second, i)
  {
    fastExclude := map[];
    for index := 0 to ID_LIMIT
      invariant forall i :: i in fastExclude <==> 0 <= i < index
      invariant forall i :: 0 <= i < index ==> fastExclude[i] == FastExcludeOf(first, second, i)
    {
      var value := WalkFrom(first, second, index);
      fastExclude := fastExclude[index := value];
    }
  }

  /** The inner loop of the build: steps forward from `index` until an id outside both filters. */
  method WalkFrom(first: set<int>, second: set<int>, index: int) returns (value: int)
    requires EligibleOf(first, second) != {}
    requires 0 <= index < ID_LIMIT
    ensures value == FastExcludeOf(first, second, index)
  {
    ghost var e :| e in EligibleOf(first, second);
    assert 0 <= e < ID_LIMIT && e !in first + second;
    WalkTerminates(first + second, index);
    ghost var r := FirstOutside(first + second, index, 1);
    CyclicZero(index);
    value := index;
    ghost var k := 0;
    while true
      invariant 0 <= k < r <= ID_LIMIT
      invariant value == Cyclic(index, k)
      decreases ID_LIMIT - k
    {
      CyclicStep(index, k);
      value := (value + 1) % ID_LIMIT;
      k := k + 1;
      if value !in first && value !in second {
        break;
      }
      assert value in first + second;
    }
  }


  /** Every entry lies outside both filters and skips only filtered ids. */
  lemma FastExcludeSkipsFiltered(first: set<int>, second: set<int>, id: int)
    requires 0 <= id < ID_LIMIT
    requires EligibleOf(first, second) != {}
    ensures FastExcludeOf(first, second, id) in EligibleOf(first, second)
    ensures forall j :: 1 <= j < OffsetTo(id, FastExcludeOf(first, second, id)) ==> Cyclic(id, j) in first + second
  {
    var e :| e in EligibleOf(first, second);
    assert 0 <= e < ID_LIMIT && e !in first + second;
    WalkTerminates(first + second, id);
    var r := FirstOutside(first + second, id, 1);
    assert OffsetTo(id, Cyclic(id, r)) == r;
  }

  // ---------------------------------------------------------------------
  // Ids sorted by name
  // ---------------------------------------------------------------------

  /** Lexicographic order on strings, by code point as Rust compares `String`s. */
  predicate LexLess(a: string, b: string)
  {
    if a == [] then b != []
    else b != [] && (a[0] < b[0] || (a[0] == b[0] && LexLess(a[1..], b[1..])))
  }

  lemma {:induction false} LexLessIrreflexive(a: string)
    ensures !LexLess(a, a)
  {
    if a != [] {
      LexLessIrreflexive(a[1..]);
    }
  }

  lemma {:induction false} LexLessTransitive(a: string, b: string, c: string)
    requires LexLess(a, b) && LexLess(b, c)
    ensures LexLess(a, c)
  {
    if a != [] && a[0] == b[0] && b[0] == c[0] {
      LexLessTransitive(a[1..], b[1..], c[1..]);
    }
  }

  lemma {:induction false} LexLessTotal(a: string, b: string)
    requires a != b
    ensures LexLess(a, b) || LexLess(b, a)
  {
    if a != [] && b != [] && a[0] == b[0] {
      assert a == [a[0]] + a[1..] && b == [b[0]] + b[1..];
      LexLessTotal(a[1..], b[1..]);
    }
  }

  /** The sort key of build.rs: name first, id to break ties. */
  predicate KeyLess(x: (string, u16), y: (string, u16))
  {
    LexLess(x.0, y.0) || (x.0 == y.0 && x.1 < y.1)
  }

  lemma KeyLessOrder()
    ensures Sorting.StrictTotalOrder(KeyLess)
  {
    forall x: (string, u16) ensures !KeyLess(x, x) {
      LexLessIrreflexive(x.0);
    }
    forall x: (string, u16), y: (string, u16), z: (string, u16) | KeyLess(x, y) && KeyLess(y, z)
      ensures KeyLess(x, z)
    {
      if LexLess(x.0, y.0) && LexLess(y.0, z.0) {
        LexLessTransitive(x.0, y.0, z.0);
      }
    }
    forall x: (string, u16), y: (string, u16) | x != y ensures KeyLess(x, y) || KeyLess(y, x) {
      if x.0 != y.0 {
        LexLessTotal(x.0, y.0);
      }
    }
  }

  /** `ids` holds every catalog id exactly once, ordered by (name, id). */
  predicate SortedByName(objects: Objects, ids: seq<u16>)
  {
    && (forall i :: 0 <= i < |ids| ==> ids[i] in objects)
    && (forall id :: id in objects ==> id in ids)
    && (forall i, j :: 0 <= i < j < |ids| ==>
          KeyLess((objects[ids[i]].name, ids[i]), (objects[ids[j]].name, ids[j])))
  }

  /** A (name, id)-sorted list has no id twice. */
  lemma SortedByNameDistinct(objects: Objects, ids: seq<u16>)
    requires SortedByName(objects, ids)
    ensures Sorting.Distinct(ids)
  {
    forall i, j | 0 <= i < j < |ids| ensures ids[i] != ids[j] {
      if ids[i] == ids[j] {
        LexLessIrreflexive(objects[ids[i]].name);
      }
    }
  }

  /** The catalog as (name, id) pairs, each id once. */
  method CollectEntries(objects: Objects) returns (entries: seq<(string, u16)>)
    ensures Sorting.Distinct(entries)
    ensures forall e :: e in entries <==> e.1 in objects && e.0 == objects[e.1].name
    ensures |entries| == |objects|
  {
    entries := [];
    var rest := objects.Keys;
    while rest != {}
      invariant rest <= objects.Keys
      invariant forall e :: e in entries <==> e.1 in objects.Keys - rest && e.0 == objects[e.1].name
      invariant Sorting.Distinct(entries)
      invariant |entries| + |rest| == |objects|
      decreases |rest|
    {
      var id :| id in rest;
      assert (objects[id].name, id) !in entries;
      entries := entries + [(objects[id].name, id)];
      rest := rest - {id};
    }
  }

  /** A (name, id)-sorted arrangement of the catalog's pairs gives its ids sorted by name. */
  lemma SortedEntriesGiveIds(objects: Objects, entries: seq<(string, u16)>, sorted: seq<(string, u16)>, ids: seq<u16>)
    requires forall e :: e in entries <==> e.1 in objects && e.0 == objects[e.1].name
    requires |entries| == |objects|
    requires multiset(sorted) == multiset(entries)
    requires Sorting.StrictlySorted(KeyLess, sorted)
    requires |ids| == |sorted| && forall k :: 0 <= k < |sorted| ==> ids[k] == sorted[k].1
    ensures SortedByName(objects, ids)
    ensures |ids| == |objects|
  {
    forall k | 0 <= k < |sorted| ensures sorted[k] in entries {
      assert sorted[k] in multiset(sorted);
    }
    assert forall k :: 0 <= k < |ids| ==> sorted[k] == (objects[ids[k]].name, ids[k]);
    forall id | id in objects ensures id in ids {
      var e := (objects[id].name, id);
      assert e in multiset(sorted);
      var k :| 0 <= k < |sorted| && sorted[k] == e;
      assert ids[k] == id;
    }
    assert |multiset(sorted)| == |multiset(entries)|;
  }

  /** Collects the (name, id) pairs of the catalog, sorts them and keeps the ids. */
  method SortedIds(objects: Objects) returns (ids: seq<u16>)
    ensures SortedByName(objects, ids)
    ensures |ids| == |objects|
  {
    var entries := CollectEntries(objects);
    KeyLessOrder();
    var sorted := Sorting.SortBy(KeyLess, entries);
    ids := seq(|sorted|, k requires 0 <= k < |sorted| => sorted[k].1);
    SortedEntriesGiveIds(objects, entries, sorted, ids);
  }

  // ---------------------------------------------------------------------
  // All tables together
  // ---------------------------------------------------------------------

  datatype Tables = Tables(
    objects: Objects,
    sorted: seq<u16>,
    first: set<int>,
    second: set<int>,
    fastExclude: map<int, int>)

  /** Ids the replay may commit: below the limit and outside both filters. */
  function Eligible(t: Tables): set<int>
  {
    EligibleOf(t.first, t.second)
  }

  /** What the build guarantees of the generated tables. */
  predicate TablesValid(t: Tables)
  {
    && t.first == FirstFilterOf(t.objects)
    && t.second == SecondFilterOf(t.objects)
    && (forall i :: 0 <= i < ID_LIMIT ==> i in t.fastExclude && t.fastExclude[i] == FastExcludeOf(t.first, t.second, i))
    && SortedByName(t.objects, t.sorted)
    && Eligible(t) != {}
  }

  /** Some id the merchant can stock exists; without one the fast-exclude walk never stops. */
  predicate HasStockable(objects: Objects)
  {
    exists i: u16 :: i < ID_LIMIT && i in objects && i !in OFF_LIMIT && !SecondFilterRule(objects[i])
  }

  /** A stockable record survives both filters. */
  lemma StockableIsEligible(objects: Objects)
    requires HasStockable(objects)
    ensures EligibleOf(FirstFilterOf(objects), SecondFilterOf(objects)) != {}
  {
    var i: u16 :| i < ID_LIMIT && i in objects && i !in OFF_LIMIT && !SecondFilterRule(objects[i]);
    assert i as int !in SecondFilterOf(objects);
    assert i as int in EligibleOf(FirstFilterOf(objects), SecondFilterOf(objects));
  }

  method BuildTables(objects: Objects) returns (t: Tables)
    requires HasStockable(objects)
    ensures TablesValid(t) && t.objects == objects
  {
    var first := BuildFirstFilter(objects);
    var second := BuildSecondFilter(objects, first);
    StockableIsEligible(objects);
    var fastExclude := BuildFastExclude(first, second);
    var sorted := SortedIds(objects);
    t := Tables(objects, sorted, first, second, fastExclude);
    assert Eligible(t) == EligibleOf(first, second);
  }
}
