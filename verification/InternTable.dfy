/** An append-only string intern table: a bijection between strings and the first |strs| numbers. */
module InternTable {
  import opened Ordering

  /** The contents of a table: the strings by id, and the inverse map. */
  datatype Table = Table(ids: map<string, nat>, strs: seq<string>) {

    ghost predicate Valid() {
      && (forall s :: s in ids ==> ids[s] < |strs| && strs[ids[s]] == s)
      && (forall i :: 0 <= i < |strs| ==> strs[i] in ids && ids[strs[i]] == i)
    }

    /** The table after interning `s`: unchanged if `s` is known, else with `s` at the next id. */
    function Intern(s: string): Table {
      if s in ids then this else Table(ids[s := |strs|], strs + [s])
    }
  }

  const EMPTY := Table(map[], [])

  /** `t'` still resolves every id of `t` to the same string. */
  ghost predicate Grows(t: Table, t': Table) {
    t.Valid() && t'.Valid() && t.strs <= t'.strs
  }

  /** Interning finds or allocates an id for `s`, and disturbs no other. */
  lemma InternGrows(t: Table, s: string)
    requires t.Valid()
    ensures Grows(t, t.Intern(s)) && s in t.Intern(s).ids
    ensures |t.Intern(s).strs| <= |t.strs| + 1
    ensures forall s' :: s' in t.ids || s' == s <==> s' in t.Intern(s).ids
  {}

  /** Growing a table keeps the ids it had and gives new strings ids it did not have. */
  lemma GrownIds(t: Table, t': Table)
    requires Grows(t, t')
    ensures forall s :: s in t.ids ==> s in t'.ids && t'.ids[s] == t.ids[s]
    ensures forall s :: s in t'.ids && t'.ids[s] < |t.strs| ==> s in t.ids
  {
    forall s | s in t.ids ensures s in t'.ids && t'.ids[s] == t.ids[s] {
      assert t'.strs[t.ids[s]] == s;
    }
    forall s | s in t'.ids && t'.ids[s] < |t.strs| ensures s in t.ids {
      assert t.strs[t'.ids[s]] == s;
    }
  }

  /** Intern several strings, first to last. */
  function InternAll(t: Table, names: seq<string>): Table
    decreases |names|
  {
    if names == [] then t else InternAll(t.Intern(names[0]), names[1..])
  }

  /** Over any sequence of interns an id keeps its string, and interning a string again gives its old id. */
  lemma {:induction false} IdsAreForever(t: Table, names: seq<string>)
    requires t.Valid()
    ensures Grows(t, InternAll(t, names))
    ensures forall s :: s in InternAll(t, names).ids <==> s in t.ids || s in names
    ensures forall s :: s in t.ids ==> InternAll(t, names).Intern(s) == InternAll(t, names) && InternAll(t, names).ids[s] == t.ids[s]
    decreases |names|
  {
    if names != [] {
      InternGrows(t, names[0]);
      IdsAreForever(t.Intern(names[0]), names[1..]);
      assert names == [names[0]] + names[1..];
    }
    GrownIds(t, InternAll(t, names));
  }

  class InternTable {
    var ids: map<string, nat>
    var strs: seq<string>

    ghost function Contents(): Table
      reads this
    {
      Table(ids, strs)
    }

    constructor ()
      ensures Contents() == EMPTY
    {
      ids := map[];
      strs := [];
    }

    method Intern(s: string) returns (id: nat)
      requires Contents().Valid()
      modifies this
      ensures Contents() == old(Contents()).Intern(s) && Contents().Valid()
      ensures id < |strs| && strs[id] == s
    {
      InternGrows(Contents(), s);
      if s in ids {
        return ids[s];
      }
      id := |strs|;
      strs := strs + [s];
      ids := ids[s := id];
    }

    method Resolve(id: nat) returns (s: string)
      requires Contents().Valid() && id < |strs|
      ensures s in ids && ids[s] == id
    {
      s := strs[id];
    }

    method TryResolve(id: nat) returns (s: Option<string>)
      requires Contents().Valid()
      ensures s.Some? <==> id < |strs|
      ensures s.Some? ==> s.value in ids && ids[s.value] == id
    {
      s := if id < |strs| then Some(strs[id]) else None;
    }

    /** Finds `s` exactly when it has been interned, at the id that resolves back to it. */
    method Lookup(s: string) returns (id: Option<nat>)
      requires Contents().Valid()
      ensures id.Some? <==> s in strs
      ensures id.Some? ==> id.value < |strs| && strs[id.value] == s
    {
      id := if s in ids then Some(ids[s]) else None;
    }
  }
}
