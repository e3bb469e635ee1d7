/** The key/date normalizer: the `traverse(obj).map(...)` visitor of `tidy`.
    The walk is pre-order, as traverse's is: a node is visited (and possibly
    rebuilt with camel-cased keys) before its children, so each child is
    visited under the key it has AFTER its parent was renamed. */
module Normalizer {
  import opened Document

  /** A regular expression whose body is a literal string, with optional
      `^` and `$` anchors (`/Date$/` is `Regex(false, "Date", true)`). */
  datatype Regex = Regex(anchorStart: bool, literal: string, anchorEnd: bool)

  /** An entry of `tidy.dateKeys`: a string compared with `==`, or a pattern. */
  datatype DateKey = Exact(name: string) | Pattern(re: Regex)

  /** traverse's `this.key`: undefined at the root, the field name in a
      mapping, the decimal index in a sequence. */
  datatype Key = Root | Named(name: string)

  /** The `tidy` section of the configuration. */
  datatype TidyOptions = TidyOptions(
    keys: bool,
    dates: bool,
    dateKeys: seq<DateKey>,
    populate: bool,
    populateKeys: seq<string>)

  /** The library calls the normalizer makes: lodash's `_.camelCase` and
      `new Date(value)`. Both are left uninterpreted. */
  datatype Foreign = Foreign(camelCase: string -> string, parseDate: Json -> DateTime)

  const DateSuffix := Regex(false, "Date", true)

  /** The defaults of the `tidy` section. */
  const DefaultOptions := TidyOptions(
    true,
    true,
    [Pattern(DateSuffix), Exact("createdAt"), Exact("updatedAt"), Exact("metaCreated"), Exact("metaUpdated")],
    false,
    ["records"])

  /** `re.test(s)` for a literal pattern. */
  predicate RegexTest(re: Regex, s: string) {
    var lit := re.literal;
    if re.anchorStart && re.anchorEnd then s == lit
    else if re.anchorStart then lit <= s
    else if re.anchorEnd then |lit| <= |s| && s[|s| - |lit|..] == lit
    else exists i :: 0 <= i <= |s| - |lit| && OccursAt(lit, s, i)
  }

  predicate OccursAt(lit: string, s: string, i: int) {
    0 <= i <= |s| - |lit| && s[i..i + |lit|] == lit
  }

  /** The string a pattern is tested against: `test(undefined)` tests "undefined". */
  function KeyText(key: Key): string {
    match key
    case Root => "undefined"
    case Named(name) => name
  }

  predicate EntryMatches(e: DateKey, key: Key) {
    match e
    case Exact(name) => key == Named(name)
    case Pattern(re) => RegexTest(re, KeyText(key))
  }

  /** `dateKeys.some(...)`: some entry matches the key. */
  predicate DateKeyMatches(entries: seq<DateKey>, key: Key) {
    exists i :: 0 <= i < |entries| && EntryMatches(entries[i], key)
  }

  /** The own (key, value) pairs of a node, as lodash iterates them. */
  function Entries(j: Json): seq<(string, Json)> {
    match j
    case Obj(fs) => fs
    case Arr(xs) => seq(|xs|, i requires 0 <= i < |xs| => (IndexKey(i), xs[i]))
    case Leaf(_) => []
  }

  /** `_.some(node, (v, k) => /_/.test(k))`. */
  predicate HasUnderscoreKey(es: seq<(string, Json)>) {
    exists i :: 0 <= i < |es| && '_' in es[i].0
  }

  /** lodash's `isLength` bound, `Number.MAX_SAFE_INTEGER`. */
  const MaxSafeInteger := 9007199254740991

  /** lodash's `isArrayLike` for a mapping: its `length` field holds a
      non-negative integer no larger than `MaxSafeInteger`. */
  predicate ArrayLike(j: Json) {
    match Field(j, "length")
    case Some(Leaf(Num(n))) => 0 <= n <= MaxSafeInteger
    case _ => false
  }

  /** The rename guard `_.some(node, (v, k) => /_/.test(k))`. lodash scans an
      array-like mapping by index, `0 .. length - 1`, and no decimal index
      holds `_`; any other node is scanned by its own keys. */
  predicate SomeKeyHasUnderscore(j: Json) {
    !ArrayLike(j) && HasUnderscoreKey(Entries(j))
  }

  /** `_.mapKeys(node, (v, k) => camel(k))`: the pairs are assigned in order
      into a fresh object, so a renamed key that is already present keeps its
      first position and takes the later value. */
  function MapKeys(es: seq<(string, Json)>, camel: string -> string): (r: seq<(string, Json)>)
    ensures |r| <= |es|
    ensures |es| > 0 ==> |r| > 0
  {
    if |es| == 0 then []
    else Assign(MapKeys(es[..|es| - 1], camel), camel(es[|es| - 1].0), es[|es| - 1].1)
  }

  /** `_.mapKeys` introduces no value: each value it produces is one of the
      input values. */
  lemma {:induction false} MapKeysValues(es: seq<(string, Json)>, camel: string -> string)
    ensures forall i :: 0 <= i < |MapKeys(es, camel)| ==>
      exists m :: 0 <= m < |es| && MapKeys(es, camel)[i].1 == es[m].1
  {
    if |es| > 0 {
      var n := |es| - 1;
      var init := es[..n];
      MapKeysValues(init, camel);
      var r := MapKeys(es, camel);
      forall i | 0 <= i < |r| ensures exists m :: 0 <= m < |es| && r[i].1 == es[m].1 {
        if r[i].1 == es[n].1 {
          assert 0 <= n < |es| && r[i].1 == es[n].1;
        } else {
          assert r[i] in MapKeys(init, camel);
          var p :| 0 <= p < |MapKeys(init, camel)| && MapKeys(init, camel)[p] == r[i];
          var m :| 0 <= m < |init| && MapKeys(init, camel)[p].1 == init[m].1;
          assert r[i].1 == es[m].1;
        }
      }
    } else {
      assert MapKeys(es, camel) == [];
    }
  }

  /** The node rebuilt by the key rule; its values are children of `j`. */
  function RenamedEntries(j: Json, camel: string -> string): (r: seq<(string, Json)>)
    ensures forall i :: 0 <= i < |r| ==> (j decreases to r[i].1)
  {
    var es := Entries(j);
    assert forall m :: 0 <= m < |es| ==> (j decreases to es[m].1);
    MapKeysValues(es, camel);
    MapKeys(es, camel)
  }

  /** The date rule on a leaf under `key`. */
  function CoerceLeaf(j: Json, key: Key, opts: TidyOptions, f: Foreign): Json {
    if opts.dates && DateKeyMatches(opts.dateKeys, key) then Leaf(Date(f.parseDate(j))) else j
  }

  /** The tree that `traverse(obj).map(visitor)` returns for the node `j`
      stored under `key`. */
  function Normalize(j: Json, key: Key, opts: TidyOptions, f: Foreign): Json
    decreases j, 1
  {
    if IsLeaf(j) then CoerceLeaf(j, key, opts, f)
    else if opts.keys && SomeKeyHasUnderscore(j) then
      Obj(WalkFields(j, RenamedEntries(j, f.camelCase), opts, f))
    else match j
      case Obj(fs) => Obj(WalkFields(j, fs, opts, f))
      case Arr(xs) => Arr(seq(|xs|, i requires 0 <= i < |xs| => Normalize(xs[i], Named(IndexKey(i)), opts, f)))
      case Leaf(_) => j
  }

  /** Visits every field of a (possibly rebuilt) mapping under its own key. */
  function WalkFields(parent: Json, es: seq<(string, Json)>, opts: TidyOptions, f: Foreign): seq<(string, Json)>
    requires forall i :: 0 <= i < |es| ==> (parent decreases to es[i].1)
    decreases parent, 0
  {
    seq(|es|, i requires 0 <= i < |es| => (es[i].0, Normalize(es[i].1, Named(es[i].0), opts, f)))
  }

  // ---------------------------------------------------------------------
  // Reference description of a normalized tree
  // ---------------------------------------------------------------------

  /** The node `j` is one whose keys the visitor rewrites. */
  predicate Renames(j: Json, opts: TidyOptions) {
    !IsLeaf(j) && opts.keys && SomeKeyHasUnderscore(j)
  }

  /** No mapping that gets renamed has two keys with the same camel-cased form. */
  ghost predicate CollisionFree(j: Json, opts: TidyOptions, f: Foreign)
    decreases j
  {
    (Renames(j, opts) ==>
      forall a, b :: 0 <= a < b < |j.fields| ==> f.camelCase(j.fields[a].0) != f.camelCase(j.fields[b].0)) &&
    match j
    case Leaf(_) => true
    case Obj(fs) => forall i :: 0 <= i < |fs| ==> CollisionFree(fs[i].1, opts, f)
    case Arr(xs) => forall i :: 0 <= i < |xs| ==> CollisionFree(xs[i], opts, f)
  }

  /** `r` is `j` normalized under `key`, node by node: a leaf is replaced by
      its parsed date exactly when dates are on and its key matches a
      `dateKeys` entry, and is otherwise kept; a mapping keeps its size and key
      order, and each key is camel-cased exactly when keys are on and the
      rename guard holds for that mapping; a sequence stays a sequence of the
      same length; every child is normalized under its new key. */
  ghost predicate Tidied(j: Json, key: Key, r: Json, opts: TidyOptions, f: Foreign)
    decreases j
  {
    if IsLeaf(j) then
      if opts.dates && DateKeyMatches(opts.dateKeys, key) then r == Leaf(Date(f.parseDate(j))) else r == j
    else if j.Obj? then
      var fs := j.fields;
      r.Obj? && |r.fields| == |fs| &&
      forall i :: 0 <= i < |fs| ==>
        && r.fields[i].0 == (if opts.keys && SomeKeyHasUnderscore(j) then f.camelCase(fs[i].0) else fs[i].0)
        && Tidied(fs[i].1, Named(r.fields[i].0), r.fields[i].1, opts, f)
    else
      var xs := j.items;
      r.Arr? && |r.items| == |xs| &&
      forall i :: 0 <= i < |xs| ==> Tidied(xs[i], Named(IndexKey(i)), r.items[i], opts, f)
  }

  /** Sequence indices never contain an underscore, so the key rule never
      fires on a sequence. */
  lemma SequencesNotRenamed(xs: seq<Json>)
    ensures !HasUnderscoreKey(Entries(Arr(xs)))
  {
    var es := Entries(Arr(xs));
    forall i | 0 <= i < |es| ensures '_' !in es[i].0 {
      assert es[i].0 == IndexKey(i);
    }
  }

  /** With pairwise distinct new names, `_.mapKeys` renames pair by pair,
      keeping values and order. */
  lemma {:induction false} MapKeysDistinct(es: seq<(string, Json)>, camel: string -> string)
    requires forall a, b :: 0 <= a < b < |es| ==> camel(es[a].0) != camel(es[b].0)
    ensures |MapKeys(es, camel)| == |es|
    ensures forall i :: 0 <= i < |es| ==> MapKeys(es, camel)[i] == (camel(es[i].0), es[i].1)
  {
    if |es| > 0 {
      var n := |es| - 1;
      var init := es[..n];
      assert forall i :: 0 <= i < n ==> init[i] == es[i];
      MapKeysDistinct(init, camel);
      var m := MapKeys(init, camel);
      var k := camel(es[n].0);
      var r := m + [(k, es[n].1)];
      assert MapKeys(es, camel) == r by {
        forall i | 0 <= i < |m| ensures m[i].0 != k {
          assert m[i].0 == camel(es[i].0);
        }
        assert IndexOf(m, k).None?;
      }
      forall i | 0 <= i < |es| ensures r[i] == (camel(es[i].0), es[i].1) {
        if i < n {
          assert r[i] == m[i];
        }
      }
    }
  }

  /** The normalizer meets the reference description on every tree whose
      renamed mappings have no colliding keys. */
  lemma {:induction false} NormalizeTidied(j: Json, key: Key, opts: TidyOptions, f: Foreign)
    requires CollisionFree(j, opts, f)
    ensures Tidied(j, key, Normalize(j, key, opts, f), opts, f)
    decreases j, 1
  {
    if IsLeaf(j) {
    } else if j.Obj? {
      MappingTidied(j, key, opts, f);
    } else {
      SequenceTidied(j, key, opts, f);
    }
  }

  lemma {:induction false} MappingTidied(j: Json, key: Key, opts: TidyOptions, f: Foreign)
    requires j.Obj? && !IsLeaf(j) && CollisionFree(j, opts, f)
    ensures Tidied(j, key, Normalize(j, key, opts, f), opts, f)
    decreases j, 0
  {
    var fs := j.fields;
    var r := Normalize(j, key, opts, f);
    var renamed := opts.keys && SomeKeyHasUnderscore(j);
    var es := if renamed then RenamedEntries(j, f.camelCase) else fs;
    if renamed {
      MapKeysDistinct(fs, f.camelCase);
    }
    assert |es| == |fs|;
    assert forall i :: 0 <= i < |fs| ==> es[i].1 == fs[i].1;
    assert forall i :: 0 <= i < |fs| ==> es[i].0 == (if renamed then f.camelCase(fs[i].0) else fs[i].0);
    assert r == Obj(WalkFields(j, es, opts, f));
    forall i | 0 <= i < |fs|
      ensures r.fields[i].0 == (if renamed then f.camelCase(fs[i].0) else fs[i].0)
      ensures Tidied(fs[i].1, Named(r.fields[i].0), r.fields[i].1, opts, f)
    {
      assert r.fields[i] == (es[i].0, Normalize(fs[i].1, Named(es[i].0), opts, f));
      NormalizeTidied(fs[i].1, Named(r.fields[i].0), opts, f);
    }
  }

  lemma {:induction false} SequenceTidied(j: Json, key: Key, opts: TidyOptions, f: Foreign)
    requires j.Arr? && !IsLeaf(j) && CollisionFree(j, opts, f)
    ensures Tidied(j, key, Normalize(j, key, opts, f), opts, f)
    decreases j, 0
  {
    var xs := j.items;
    var r := Normalize(j, key, opts, f);
    SequencesNotRenamed(xs);
    forall i | 0 <= i < |xs|
      ensures Tidied(xs[i], Named(IndexKey(i)), r.items[i], opts, f)
    {
      NormalizeTidied(xs[i], Named(IndexKey(i)), opts, f);
    }
  }

  // ---------------------------------------------------------------------
  // Consequences
  // ---------------------------------------------------------------------

  /** Same nesting: leaves stay leaves, mappings stay mappings and sequences
      stay sequences, each with as many children as before. */
  ghost predicate SameShape(a: Json, b: Json)
    decreases a
  {
    if IsLeaf(a) then IsLeaf(b)
    else if a.Obj? then
      b.Obj? && |b.fields| == |a.fields| &&
      forall i :: 0 <= i < |a.fields| ==> SameShape(a.fields[i].1, b.fields[i].1)
    else
      b.Arr? && |b.items| == |a.items| &&
      forall i :: 0 <= i < |a.items| ==> SameShape(a.items[i], b.items[i])
  }

  /** Same shape and, in every mapping, the same keys in the same order. */
  ghost predicate SameKeys(a: Json, b: Json)
    decreases a
  {
    if IsLeaf(a) then IsLeaf(b)
    else if a.Obj? then
      b.Obj? && |b.fields| == |a.fields| &&
      forall i :: 0 <= i < |a.fields| ==> b.fields[i].0 == a.fields[i].0 && SameKeys(a.fields[i].1, b.fields[i].1)
    else
      b.Arr? && |b.items| == |a.items| &&
      forall i :: 0 <= i < |a.items| ==> SameKeys(a.items[i], b.items[i])
  }

  lemma {:induction false} TidiedSameShape(j: Json, key: Key, r: Json, opts: TidyOptions, f: Foreign)
    requires Tidied(j, key, r, opts, f)
    ensures SameShape(j, r)
    decreases j
  {
    if IsLeaf(j) {
    } else if j.Obj? {
      forall i | 0 <= i < |j.fields| ensures SameShape(j.fields[i].1, r.fields[i].1) {
        TidiedSameShape(j.fields[i].1, Named(r.fields[i].0), r.fields[i].1, opts, f);
      }
    } else {
      forall i | 0 <= i < |j.items| ensures SameShape(j.items[i], r.items[i]) {
        TidiedSameShape(j.items[i], Named(IndexKey(i)), r.items[i], opts, f);
      }
    }
  }

  /** Normalization preserves the shape of a tree (given no key collisions). */
  lemma NormalizePreservesShape(j: Json, key: Key, opts: TidyOptions, f: Foreign)
    requires CollisionFree(j, opts, f)
    ensures SameShape(j, Normalize(j, key, opts, f))
  {
    NormalizeTidied(j, key, opts, f);
    TidiedSameShape(j, key, Normalize(j, key, opts, f), opts, f);
  }

  lemma {:induction false} KeysOffCollisionFree(j: Json, opts: TidyOptions, f: Foreign)
    requires !opts.keys
    ensures CollisionFree(j, opts, f)
    decreases j
  {
    match j
    case Leaf(_) =>
    case Obj(fs) =>
      forall i | 0 <= i < |fs| ensures CollisionFree(fs[i].1, opts, f) {
        KeysOffCollisionFree(fs[i].1, opts, f);
      }
    case Arr(xs) =>
      forall i | 0 <= i < |xs| ensures CollisionFree(xs[i], opts, f) {
        KeysOffCollisionFree(xs[i], opts, f);
      }
  }

  lemma {:induction false} TidiedKeysOff(j: Json, key: Key, r: Json, opts: TidyOptions, f: Foreign)
    requires Tidied(j, key, r, opts, f) && !opts.keys
    ensures SameKeys(j, r)
    decreases j
  {
    if IsLeaf(j) {
    } else if j.Obj? {
      forall i | 0 <= i < |j.fields| ensures SameKeys(j.fields[i].1, r.fields[i].1) {
        TidiedKeysOff(j.fields[i].1, Named(r.fields[i].0), r.fields[i].1, opts, f);
      }
    } else {
      forall i | 0 <= i < |j.items| ensures SameKeys(j.items[i], r.items[i]) {
        TidiedKeysOff(j.items[i], Named(IndexKey(i)), r.items[i], opts, f);
      }
    }
  }

  /** With `tidy.keys` off no key anywhere changes. */
  lemma KeysOffKeepsKeys(j: Json, key: Key, opts: TidyOptions, f: Foreign)
    requires !opts.keys
    ensures SameKeys(j, Normalize(j, key, opts, f))
  {
    KeysOffCollisionFree(j, opts, f);
    NormalizeTidied(j, key, opts, f);
    TidiedKeysOff(j, key, Normalize(j, key, opts, f), opts, f);
  }

  lemma {:induction false} TidiedAllOff(j: Json, key: Key, r: Json, opts: TidyOptions, f: Foreign)
    requires Tidied(j, key, r, opts, f) && !opts.keys && !opts.dates
    ensures r == j
    decreases j
  {
    if IsLeaf(j) {
    } else if j.Obj? {
      forall i | 0 <= i < |j.fields| ensures r.fields[i] == j.fields[i] {
        TidiedAllOff(j.fields[i].1, Named(r.fields[i].0), r.fields[i].1, opts, f);
      }
      assert r.fields == j.fields;
    } else {
      forall i | 0 <= i < |j.items| ensures r.items[i] == j.items[i] {
        TidiedAllOff(j.items[i], Named(IndexKey(i)), r.items[i], opts, f);
      }
      assert r.items == j.items;
    }
  }

  /** With both rules off the normalizer returns its input. */
  lemma AllOffIdentity(j: Json, key: Key, opts: TidyOptions, f: Foreign)
    requires !opts.keys && !opts.dates
    ensures Normalize(j, key, opts, f) == j
  {
    KeysOffCollisionFree(j, opts, f);
    NormalizeTidied(j, key, opts, f);
    TidiedAllOff(j, key, Normalize(j, key, opts, f), opts, f);
  }

  /** `r` keeps every leaf of `j` in its place: only keys may differ. */
  ghost predicate SameLeaves(a: Json, b: Json)
    decreases a
  {
    if IsLeaf(a) then b == a
    else if a.Obj? then
      b.Obj? && |b.fields| == |a.fields| &&
      forall i :: 0 <= i < |a.fields| ==> SameLeaves(a.fields[i].1, b.fields[i].1)
    else
      b.Arr? && |b.items| == |a.items| &&
      forall i :: 0 <= i < |a.items| ==> SameLeaves(a.items[i], b.items[i])
  }

  lemma {:induction false} TidiedDatesOff(j: Json, key: Key, r: Json, opts: TidyOptions, f: Foreign)
    requires Tidied(j, key, r, opts, f) && !opts.dates
    ensures SameLeaves(j, r)
    decreases j
  {
    if IsLeaf(j) {
    } else if j.Obj? {
      forall i | 0 <= i < |j.fields| ensures SameLeaves(j.fields[i].1, r.fields[i].1) {
        TidiedDatesOff(j.fields[i].1, Named(r.fields[i].0), r.fields[i].1, opts, f);
      }
    } else {
      forall i | 0 <= i < |j.items| ensures SameLeaves(j.items[i], r.items[i]) {
        TidiedDatesOff(j.items[i], Named(IndexKey(i)), r.items[i], opts, f);
      }
    }
  }

  /** With `tidy.dates` off no leaf changes (given no key collisions). */
  lemma DatesOffKeepsLeaves(j: Json, key: Key, opts: TidyOptions, f: Foreign)
    requires !opts.dates && CollisionFree(j, opts, f)
    ensures SameLeaves(j, Normalize(j, key, opts, f))
  {
    NormalizeTidied(j, key, opts, f);
    TidiedDatesOff(j, key, Normalize(j, key, opts, f), opts, f);
  }

  /** lodash's `_.camelCase` never leaves an underscore in its result. */
  ghost predicate CamelDropsUnderscores(f: Foreign) {
    forall k :: '_' !in f.camelCase(k)
  }

  /** `new Date(d)` of a date is that date. */
  ghost predicate DateParseStable(f: Foreign) {
    forall d :: f.parseDate(Leaf(Date(d))) == d
  }

  /** The date rule leaves a `length` field alone, so an array-like mapping
      stays array-like. */
  predicate LengthKeptByDates(opts: TidyOptions) {
    !(opts.dates && DateKeyMatches(opts.dateKeys, Named("length")))
  }

  /** Renamed keys carry no underscore when camel-casing removes them. */
  lemma {:induction false} MapKeysNoUnderscore(es: seq<(string, Json)>, f: Foreign)
    requires CamelDropsUnderscores(f)
    ensures forall i :: 0 <= i < |MapKeys(es, f.camelCase)| ==> '_' !in MapKeys(es, f.camelCase)[i].0
  {
    if |es| > 0 {
      var init := es[..|es| - 1];
      MapKeysNoUnderscore(init, f);
      var m := MapKeys(init, f.camelCase);
      var k := f.camelCase(es[|es| - 1].0);
      assert '_' !in k;
      var r := MapKeys(es, f.camelCase);
      assert r == Assign(m, k, es[|es| - 1].1);
      forall i | 0 <= i < |r| ensures '_' !in r[i].0 {
        if IndexOf(m, k).Some? && i != IndexOf(m, k).value {
          assert r[i] == m[i];
        } else if IndexOf(m, k).None? && i < |m| {
          assert r[i] == m[i];
        }
      }
    } else {
      assert MapKeys(es, f.camelCase) == [];
    }
  }

  /** Field lists with the same keys in the same order find a key at the
      same position. */
  lemma {:induction false} IndexOfSameKeys(a: seq<(string, Json)>, b: seq<(string, Json)>, k: string)
    requires |a| == |b| && forall i :: 0 <= i < |a| ==> a[i].0 == b[i].0
    ensures IndexOf(a, k) == IndexOf(b, k)
  {
    if |a| > 0 && a[0].0 != k {
      IndexOfSameKeys(a[1..], b[1..], k);
    }
  }

  /** Normalizing twice is normalizing once, as long as camel-casing removes
      underscores, re-parsing a date gives the same date, and the date rule
      does not apply to `length` (which would turn an array-like mapping into
      an ordinary one; see `LengthDateKeyBreaksIdempotence`). */
  lemma {:induction false} NormalizeIdempotent(j: Json, key: Key, opts: TidyOptions, f: Foreign)
    requires CamelDropsUnderscores(f) && DateParseStable(f) && LengthKeptByDates(opts)
    ensures Normalize(Normalize(j, key, opts, f), key, opts, f) == Normalize(j, key, opts, f)
    decreases j
  {
    var r := Normalize(j, key, opts, f);
    if IsLeaf(j) {
      if opts.dates && DateKeyMatches(opts.dateKeys, key) {
        assert f.parseDate(r) == f.parseDate(j);
      }
    } else if j.Obj? {
      ObjectSettles(j, key, opts, f);
    } else {
      var xs := j.items;
      SequencesNotRenamed(xs);
      assert r.items == seq(|xs|, i requires 0 <= i < |xs| => Normalize(xs[i], Named(IndexKey(i)), opts, f));
      SequencesNotRenamed(r.items);
      forall i | 0 <= i < |r.items|
        ensures Normalize(r.items[i], Named(IndexKey(i)), opts, f) == r.items[i]
      {
        NormalizeIdempotent(xs[i], Named(IndexKey(i)), opts, f);
      }
      assert Normalize(r, key, opts, f).items == r.items;
    }
  }

  lemma {:induction false} ObjectSettles(j: Json, key: Key, opts: TidyOptions, f: Foreign)
    requires j.Obj? && !IsLeaf(j)
    requires CamelDropsUnderscores(f) && DateParseStable(f) && LengthKeptByDates(opts)
    ensures Normalize(Normalize(j, key, opts, f), key, opts, f) == Normalize(j, key, opts, f)
    decreases j, 0
  {
    var r := Normalize(j, key, opts, f);
    var renamed := opts.keys && SomeKeyHasUnderscore(j);
    var es := if renamed then RenamedEntries(j, f.camelCase) else j.fields;
    assert forall i :: 0 <= i < |es| ==> (j decreases to es[i].1);
    assert r == Obj(WalkFields(j, es, opts, f));
    assert |r.fields| == |es| > 0;
    assert forall i :: 0 <= i < |es| ==> r.fields[i].0 == es[i].0;
    assert !(opts.keys && SomeKeyHasUnderscore(r)) by {
      if renamed {
        MapKeysNoUnderscore(j.fields, f);
        assert forall i :: 0 <= i < |r.fields| ==> '_' !in r.fields[i].0;
      } else if opts.keys && !HasUnderscoreKey(j.fields) {
        assert forall i :: 0 <= i < |r.fields| ==> r.fields[i].0 == j.fields[i].0;
      } else if opts.keys {
        assert ArrayLike(j);
        IndexOfSameKeys(j.fields, r.fields, "length");
        var p := IndexOf(j.fields, "length").value;
        assert r.fields[p].1 == Normalize(j.fields[p].1, Named("length"), opts, f);
        assert r.fields[p].1 == j.fields[p].1;
        assert ArrayLike(r);
      }
    }
    forall i | 0 <= i < |r.fields|
      ensures Normalize(r.fields[i].1, Named(r.fields[i].0), opts, f) == r.fields[i].1
    {
      NormalizeIdempotent(es[i].1, Named(es[i].0), opts, f);
    }
    assert Normalize(r, key, opts, f) == Obj(WalkFields(r, r.fields, opts, f));
    assert WalkFields(r, r.fields, opts, f) == r.fields;
  }

  // ---------------------------------------------------------------------
  // The default date keys and worked examples
  // ---------------------------------------------------------------------

  /** Under the default `dateKeys`, a key is a date key exactly when it ends
      in "Date" or is one of the four timestamp names. */
  lemma DefaultDateKeys(k: string)
    ensures DateKeyMatches(DefaultOptions.dateKeys, Named(k)) <==>
      (|k| >= 4 && k[|k| - 4..] == "Date") ||
      k == "createdAt" || k == "updatedAt" || k == "metaCreated" || k == "metaUpdated"
  {
    var ds := DefaultOptions.dateKeys;
    if |k| >= 4 && k[|k| - 4..] == "Date" {
      assert EntryMatches(ds[0], Named(k));
    } else if k == "createdAt" {
      assert EntryMatches(ds[1], Named(k));
    } else if k == "updatedAt" {
      assert EntryMatches(ds[2], Named(k));
    } else if k == "metaCreated" {
      assert EntryMatches(ds[3], Named(k));
    } else if k == "metaUpdated" {
      assert EntryMatches(ds[4], Named(k));
    }
  }

  /** Neither the root nor a sequence element is ever a default date key. */
  lemma DefaultDateKeysSkipRootAndIndices(i: nat)
    ensures !DateKeyMatches(DefaultOptions.dateKeys, Root)
    ensures !DateKeyMatches(DefaultOptions.dateKeys, Named(IndexKey(i)))
  {
    var k := IndexKey(i);
    DefaultDateKeys(k);
    assert k[|k| - 1] != 'e';
    var u := KeyText(Root);
    assert u[|u| - 4..] != "Date" by {
      assert u[|u| - 4..][0] == 'i';
    }
  }

  /** The fields of the study example after the key rule. */
  lemma StudyRenamed(f: Foreign)
    requires f.camelCase("study_title") == "studyTitle"
    requires f.camelCase("registrationDate") == "registrationDate"
    ensures var j := Obj([("study_title", Leaf(Str("X"))), ("registrationDate", Leaf(Str("2020-01-01T00:00:00Z")))]);
      && HasUnderscoreKey(Entries(j))
      && RenamedEntries(j, f.camelCase) == [("studyTitle", Leaf(Str("X"))), ("registrationDate", Leaf(Str("2020-01-01T00:00:00Z")))]
  {
    var j := Obj([("study_title", Leaf(Str("X"))), ("registrationDate", Leaf(Str("2020-01-01T00:00:00Z")))]);
    assert '_' in j.fields[0].0;
    MapKeysDistinct(j.fields, f.camelCase);
  }

  /** `studyTitle` does not end in "Date". */
  lemma StudyTitleNotDateKey()
    ensures !DateKeyMatches([Pattern(DateSuffix)], Named("studyTitle"))
  {
    var t := "studyTitle";
    assert t[|t| - 4..][0] == 'i';
    assert !EntryMatches(Pattern(DateSuffix), Named(t));
  }

  /** `{study_title: "X", registrationDate: "2020-01-01T00:00:00Z"}` with
      `dateKeys: [/Date$/]` becomes `{studyTitle: "X", registrationDate: <date>}`. */
  lemma StudyExample(f: Foreign)
    requires f.camelCase("study_title") == "studyTitle"
    requires f.camelCase("registrationDate") == "registrationDate"
    ensures
      var opts := TidyOptions(true, true, [Pattern(DateSuffix)], false, []);
      var stamp := Leaf(Str("2020-01-01T00:00:00Z"));
      Normalize(Obj([("study_title", Leaf(Str("X"))), ("registrationDate", stamp)]), Root, opts, f)
      == Obj([("studyTitle", Leaf(Str("X"))), ("registrationDate", Leaf(Date(f.parseDate(stamp))))])
  {
    var opts := TidyOptions(true, true, [Pattern(DateSuffix)], false, []);
    var stamp := Leaf(Str("2020-01-01T00:00:00Z"));
    var j := Obj([("study_title", Leaf(Str("X"))), ("registrationDate", stamp)]);
    var es := [("studyTitle", Leaf(Str("X"))), ("registrationDate", stamp)];
    StudyRenamed(f);
    StudyTitleNotDateKey();
    assert EntryMatches(opts.dateKeys[0], Named("registrationDate"));
    var w := WalkFields(j, es, opts, f);
    assert w == [("studyTitle", Leaf(Str("X"))), ("registrationDate", Leaf(Date(f.parseDate(stamp))))] by {
      assert w[0] == ("studyTitle", Leaf(Str("X")));
      assert w[1] == ("registrationDate", Leaf(Date(f.parseDate(stamp))));
    }
  }

  /** A key renamed by its parent is matched against `dateKeys` under its new
      name: `registration_date` becomes `registrationDate` and is parsed. */
  lemma RenamedKeyIsCoerced(f: Foreign, stamp: Json)
    requires f.camelCase("registration_date") == "registrationDate"
    requires stamp.Leaf?
    ensures Normalize(Obj([("registration_date", stamp)]), Root, DefaultOptions, f)
      == Obj([("registrationDate", Leaf(Date(f.parseDate(stamp))))])
  {
    var j := Obj([("registration_date", stamp)]);
    var es := [("registrationDate", stamp)];
    assert HasUnderscoreKey(Entries(j)) by {
      assert '_' in j.fields[0].0;
    }
    MapKeysDistinct(j.fields, f.camelCase);
    assert RenamedEntries(j, f.camelCase) == es;
    assert Normalize(j, Root, DefaultOptions, f) == Obj(WalkFields(j, es, DefaultOptions, f));
    assert EntryMatches(DefaultOptions.dateKeys[0], Named("registrationDate"));
  }

  /** `{a_b: 1}` with `tidy.keys` off is returned unchanged. */
  lemma KeysOffExample(f: Foreign)
    ensures
      var opts := TidyOptions(false, true, DefaultOptions.dateKeys, false, ["records"]);
      Normalize(Obj([("a_b", Leaf(Num(1)))]), Root, opts, f) == Obj([("a_b", Leaf(Num(1)))])
  {
    DefaultDateKeys("a_b");
  }

  /** Keys that camel-case to the same name collide in `_.mapKeys`: the
      mapping loses a field, which is why shape preservation needs
      `CollisionFree`. */
  lemma CollidingKeysMerge(f: Foreign, x: Scalar, y: Scalar)
    requires f.camelCase("a_b") == "aB" && f.camelCase("aB") == "aB"
    ensures
      var opts := TidyOptions(true, false, [], false, []);
      Normalize(Obj([("a_b", Leaf(x)), ("aB", Leaf(y))]), Root, opts, f) == Obj([("aB", Leaf(y))])
  {
    var opts := TidyOptions(true, false, [], false, []);
    var j := Obj([("a_b", Leaf(x)), ("aB", Leaf(y))]);
    assert HasUnderscoreKey(Entries(j)) by {
      assert '_' in j.fields[0].0;
    }
    assert j.fields[..1] == [("a_b", Leaf(x))];
    assert MapKeys(j.fields[..1][..0], f.camelCase) == [];
    assert MapKeys(j.fields[..1], f.camelCase) == [("aB", Leaf(x))];
    assert MapKeys(j.fields, f.camelCase) == [("aB", Leaf(y))];
    assert Normalize(j, Root, opts, f) == Obj(WalkFields(j, [("aB", Leaf(y))], opts, f));
  }

  /** Under the defaults `length` is not a date key, so the idempotence
      lemma applies to every tree under the default options. */
  lemma DefaultsKeepLength()
    ensures LengthKeptByDates(DefaultOptions)
  {
    var k := "length";
    DefaultDateKeys(k);
    assert k[|k| - 4..][0] == 'n';
  }

  /** `{length: 1, study_title: "X"}` is array-like, so `_.some` scans only
      index 0 and the underscored key is kept. */
  lemma ArrayLikeKeepsKeys(f: Foreign)
    ensures
      var opts := TidyOptions(true, false, [], false, []);
      var j := Obj([("length", Leaf(Num(1))), ("study_title", Leaf(Str("X")))]);
      Normalize(j, Root, opts, f) == j
  {
    var opts := TidyOptions(true, false, [], false, []);
    var j := Obj([("length", Leaf(Num(1))), ("study_title", Leaf(Str("X")))]);
    assert ArrayLike(j);
    var w := WalkFields(j, j.fields, opts, f);
    assert w[0] == j.fields[0] && w[1] == j.fields[1];
    assert w == j.fields;
  }

  /** With `length` as a date key the visitor is not idempotent: the first
      pass keeps `a_b` because the mapping is array-like, then turns `length`
      into a date, so the second pass renames `a_b`. */
  lemma LengthDateKeyBreaksIdempotence(f: Foreign)
    requires f.camelCase("length") == "length" && f.camelCase("a_b") == "aB"
    ensures
      var opts := TidyOptions(true, true, [Exact("length")], false, []);
      var j := Obj([("length", Leaf(Num(1))), ("a_b", Leaf(Num(2)))]);
      && Normalize(j, Root, opts, f).fields[1].0 == "a_b"
      && Normalize(Normalize(j, Root, opts, f), Root, opts, f) != Normalize(j, Root, opts, f)
  {
    var opts := TidyOptions(true, true, [Exact("length")], false, []);
    var j := Obj([("length", Leaf(Num(1))), ("a_b", Leaf(Num(2)))]);
    assert ArrayLike(j);
    assert EntryMatches(opts.dateKeys[0], Named("length"));
    assert !DateKeyMatches(opts.dateKeys, Named("a_b"));
    var d := Leaf(Date(f.parseDate(Leaf(Num(1)))));
    var r := Obj([("length", d), ("a_b", Leaf(Num(2)))]);
    assert Normalize(j, Root, opts, f) == r by {
      var w := WalkFields(j, j.fields, opts, f);
      assert w[0] == ("length", d) && w[1] == ("a_b", Leaf(Num(2)));
      assert w == r.fields;
    }
    assert !ArrayLike(r);
    assert SomeKeyHasUnderscore(r) by {
      assert '_' in r.fields[1].0;
    }
    assert RenamedEntries(r, f.camelCase) == [("length", d), ("aB", Leaf(Num(2)))] by {
      MapKeysDistinct(r.fields, f.camelCase);
    }
    assert Normalize(r, Root, opts, f) == Obj(WalkFields(r, RenamedEntries(r, f.camelCase), opts, f));
    assert Normalize(r, Root, opts, f).fields[1].0 == "aB";
  }
}
