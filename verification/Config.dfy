/**
 Configuration documents: the canonical form used for hashing, the field-level diff
 between two of them, and the drift verdict drawn from it.
 */
module Config {
  import opened Ordering

  /** A value as it is written: the entries of an object have an order. */
  datatype Document = Text(text: string) | Array(items: seq<Document>) | Fields(entries: seq<Entry>)

  datatype Entry = Entry(key: string, value: Document)

  /** A value as it is compared: the entries of an object have none. */
  datatype Json = Scalar(text: string) | List(elements: seq<Json>) | Object(fields: map<string, Json>)

  predicate DistinctKeys(entries: seq<Entry>) {
    forall i, j :: 0 <= i < j < |entries| ==> entries[i].key != entries[j].key
  }

  /** No object has a key twice. */
  predicate WellFormed(d: Document) {
    match d
    case Text(_) => true
    case Array(items) => forall i :: 0 <= i < |items| ==> WellFormed(items[i])
    case Fields(entries) => DistinctKeys(entries) && forall i :: 0 <= i < |entries| ==> WellFormed(entries[i].value)
  }

  function Keys(entries: seq<Entry>): set<string> {
    set e | e in entries :: e.key
  }

  function Find(entries: seq<Entry>, key: string): (i: nat)
    requires key in Keys(entries)
    ensures i < |entries| && entries[i].key == key
  {
    if entries[0].key == key then 0
    else
      assert entries == [entries[0]] + entries[1..];
      1 + Find(entries[1..], key)
  }

  function Meaning(d: Document): Json
    decreases d
  {
    match d
    case Text(t) => Scalar(t)
    case Array(items) => List(seq(|items|, i requires 0 <= i < |items| => Meaning(items[i])))
    case Fields(entries) => Object(map k | k in Keys(entries) :: Meaning(entries[Find(entries, k)].value))
  }

  // ---------------------------------------------------------------------
  // Canonical form
  // ---------------------------------------------------------------------

  predicate KeyLess(a: Entry, b: Entry) { StrLess(a.key, b.key) }

  /** Sort the entries of every object by key. */
  function SortKeys(d: Document): Document
    decreases d
  {
    match d
    case Text(_) => d
    case Array(items) => Array(seq(|items|, i requires 0 <= i < |items| => SortKeys(items[i])))
    case Fields(entries) =>
      Fields(Sort(KeyLess, seq(|entries|, i requires 0 <= i < |entries| => Entry(entries[i].key, SortKeys(entries[i].value)))))
  }

  function SortedValues(entries: seq<Entry>): (r: seq<Entry>)
    ensures |r| == |entries| && forall i :: 0 <= i < |r| ==> r[i] == Entry(entries[i].key, SortKeys(entries[i].value))
  {
    seq(|entries|, i requires 0 <= i < |entries| => Entry(entries[i].key, SortKeys(entries[i].value)))
  }

  lemma KeyLessIsOrder()
    ensures StrictWeak(KeyLess)
  {
    forall a, b ensures KeyLess(a, b) ==> !KeyLess(b, a) { StrLessTrichotomy(a.key, b.key); }
    forall a, b, c | KeyLess(a, b) && KeyLess(b, c) ensures KeyLess(a, c) { StrLessTransitive(a.key, b.key, c.key); }
    forall a, b, c | !KeyLess(a, b) && !KeyLess(b, c) ensures !KeyLess(a, c) {
      StrLessTrichotomy(a.key, b.key);
      StrLessTrichotomy(b.key, c.key);
      StrLessTrichotomy(a.key, c.key);
      if a.key != b.key && b.key != c.key { StrLessTransitive(c.key, b.key, a.key); }
    }
  }

  /** The sorted entries have the same elements as the unsorted ones, in strictly increasing order of their keys. */
  lemma SortedEntries(entries: seq<Entry>)
    requires DistinctKeys(entries)
    ensures var s := Sort(KeyLess, SortedValues(entries));
            StrictlySorted(KeyLess, s) && forall e :: e in s <==> e in SortedValues(entries)
  {
    var v := SortedValues(entries);
    var s := Sort(KeyLess, v);
    KeyLessIsOrder();
    SortSorts(KeyLess, v);
    SameElements(s, v);
    forall i, j | 0 <= i < j < |s| ensures KeyLess(s[i], s[j]) {
      DistinctAfterSort(v, s, i, j);
      StrLessTrichotomy(s[i].key, s[j].key);
    }
  }

  /** A permutation of entries with distinct keys has distinct keys. */
  lemma DistinctAfterSort(v: seq<Entry>, s: seq<Entry>, i: nat, j: nat)
    requires DistinctKeys(v) && multiset(s) == multiset(v) && i < j < |s|
    ensures s[i].key != s[j].key
  {
    SameElements(s, v);
    assert s[i] in s && s[j] in s;
    var p :| 0 <= p < |v| && v[p] == s[i];
    var q :| 0 <= q < |v| && v[q] == s[j];
    OnceOnly(v, p);
    TwiceCounted(s, i, j);
  }

  lemma TwiceCounted(s: seq<Entry>, i: nat, j: nat)
    requires i < j < |s|
    ensures s[i] == s[j] ==> multiset(s)[s[i]] >= 2
  {
    assert s == s[..j] + [s[j]] + s[j + 1..];
    assert s[i] in s[..j];
  }

  lemma OnceOnly(v: seq<Entry>, p: nat)
    requires DistinctKeys(v) && p < |v|
    ensures multiset(v)[v[p]] == 1
  {
    assert v == v[..p] + [v[p]] + v[p + 1..];
    assert v[p] !in v[..p];
    assert v[p] !in v[p + 1..];
  }

  lemma FindOnly(entries: seq<Entry>, i: nat)
    requires DistinctKeys(entries) && i < |entries|
    ensures entries[i].key in Keys(entries) && Find(entries, entries[i].key) == i
  {
    assert entries[i] in entries;
  }

  lemma SortedForm(entries: seq<Entry>)
    ensures SortKeys(Fields(entries)) == Fields(Sort(KeyLess, SortedValues(entries)))
  {
    assert SortedValues(entries) == seq(|entries|, i requires 0 <= i < |entries| => Entry(entries[i].key, SortKeys(entries[i].value)));
  }

  /** Objects with the same fields have the same sorted entries, given that their values do. */
  lemma SameEntries(a: seq<Entry>, b: seq<Entry>)
    requires DistinctKeys(a) && DistinctKeys(b) && Keys(a) == Keys(b)
    requires forall k :: k in Keys(a) ==> SortKeys(a[Find(a, k)].value) == SortKeys(b[Find(b, k)].value)
    ensures forall e :: e in SortedValues(a) ==> e in SortedValues(b)
  {
    forall e | e in SortedValues(a) ensures e in SortedValues(b) {
      var i :| 0 <= i < |a| && SortedValues(a)[i] == e;
      FindOnly(a, i);
      assert SortedValues(b)[Find(b, e.key)] == e;
    }
  }

  lemma SameObject(a: seq<Entry>, b: seq<Entry>)
    requires DistinctKeys(a) && DistinctKeys(b) && Keys(a) == Keys(b)
    requires forall k :: k in Keys(a) ==> SortKeys(a[Find(a, k)].value) == SortKeys(b[Find(b, k)].value)
    ensures SortKeys(Fields(a)) == SortKeys(Fields(b))
  {
    SameEntries(a, b);
    SameEntries(b, a);
    SortedEntries(a);
    SortedEntries(b);
    KeyLessIsOrder();
    StrictlySortedUnique(KeyLess, Sort(KeyLess, SortedValues(a)), Sort(KeyLess, SortedValues(b)));
    SortedForm(a);
    SortedForm(b);
  }

  lemma {:induction false} SameForm(a: Document, b: Document)
    requires WellFormed(a) && WellFormed(b) && Meaning(a) == Meaning(b)
    ensures SortKeys(a) == SortKeys(b)
    decreases a
  {
    match a
    case Text(_) =>
    case Array(items) =>
      assert |items| == |Meaning(a).elements| == |b.items|;
      forall i | 0 <= i < |items| ensures SortKeys(items[i]) == SortKeys(b.items[i]) {
        assert Meaning(a).elements[i] == Meaning(b).elements[i];
        SameForm(items[i], b.items[i]);
      }
    case Fields(entries) =>
      assert Keys(entries) == Meaning(a).fields.Keys == Keys(b.entries);
      forall k | k in Keys(entries)
        ensures SortKeys(entries[Find(entries, k)].value) == SortKeys(b.entries[Find(b.entries, k)].value)
      {
        assert Meaning(a).fields[k] == Meaning(b).fields[k];
        SameForm(entries[Find(entries, k)].value, b.entries[Find(b.entries, k)].value);
      }
      SameObject(entries, b.entries);
  }

  lemma SortedMeaning(entries: seq<Entry>)
    requires DistinctKeys(entries)
    requires forall i :: 0 <= i < |entries| ==> Meaning(SortKeys(entries[i].value)) == Meaning(entries[i].value)
    ensures Meaning(SortKeys(Fields(entries))) == Meaning(Fields(entries))
  {
    var v := SortedValues(entries);
    var s := Sort(KeyLess, v);
    SortedForm(entries);
    SortedEntries(entries);
    forall k ensures k in Keys(s) <==> k in Keys(entries) {
      if k in Keys(s) {
        var e :| e in s && e.key == k;
        var i :| 0 <= i < |v| && v[i] == e;
        assert entries[i] in entries;
      }
      if k in Keys(entries) {
        assert v[Find(entries, k)] in v && v[Find(entries, k)] in s;
      }
    }
    forall k | k in Keys(entries) ensures Meaning(s[Find(s, k)].value) == Meaning(entries[Find(entries, k)].value) {
      var e := s[Find(s, k)];
      assert e in s;
      var i :| 0 <= i < |v| && v[i] == e;
      FindOnly(entries, i);
    }
  }

  /** Sorting changes the order of entries and nothing else. */
  lemma {:induction false} SortKeepsMeaning(d: Document)
    requires WellFormed(d)
    ensures Meaning(SortKeys(d)) == Meaning(d)
    decreases d
  {
    match d
    case Text(_) =>
    case Array(items) =>
      forall i | 0 <= i < |items| ensures Meaning(SortKeys(items[i])) == Meaning(items[i]) {
        SortKeepsMeaning(items[i]);
      }
      assert Meaning(SortKeys(d)).elements == Meaning(d).elements;
    case Fields(entries) =>
      forall i | 0 <= i < |entries| ensures Meaning(SortKeys(entries[i].value)) == Meaning(entries[i].value) {
        SortKeepsMeaning(entries[i].value);
      }
      SortedMeaning(entries);
  }

  /** Sorted keys are a canonical form: two documents have the same one exactly when they are equal up to the order of entries. */
  lemma CanonicalForm(a: Document, b: Document)
    requires WellFormed(a) && WellFormed(b)
    ensures SortKeys(a) == SortKeys(b) <==> Meaning(a) == Meaning(b)
  {
    SortKeepsMeaning(a);
    SortKeepsMeaning(b);
    if Meaning(a) == Meaning(b) { SameForm(a, b); }
  }
}
