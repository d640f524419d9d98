/**
 * Version requirements: an immutable (name, constraint) pair, and the
 * insertion-ordered, name-keyed list of them that rejects a second, different
 * constraint for a name.
 */
module Requirements {
  import opened Wrappers
  import opened Errors
  import opened OrderedMaps

  /** A value: no operation changes its name or constraint. */
  datatype VersionRequirement = VersionRequirement(name: string, constraint: string)

  /** `new VersionRequirement($name, $constraint = '*')`. */
  function NewRequirement(name: string, constraint: string := "*"): (r: VersionRequirement)
    ensures r.name == name && r.constraint == constraint
  {
    VersionRequirement(name, constraint)
  }

  /** The contents of a requirement list: requirement name to requirement. */
  type RequirementMap = OrderedMap<string, VersionRequirement>

  /** Every requirement is stored under its own name. */
  ghost predicate WellKeyed(m: RequirementMap) {
    m.Valid() && forall n :: n in m.table ==> m.table[n].name == n
  }

  /** Whether a requirement of that name with another constraint is already stored. */
  predicate Conflicts(m: RequirementMap, r: VersionRequirement) {
    r.name in m.table && m.table[r.name].constraint != r.constraint
  }

  /** `add($requirement)` on the list's contents. */
  function Added(m: RequirementMap, r: VersionRequirement): (res: Result<RequirementMap, Error>)
    ensures WellKeyed(m) && res.Ok? ==> WellKeyed(res.value)
  {
    if Conflicts(m, r) then Err(RequirementAlreadyAdded(r.name)) else Ok(m.Put(r.name, r))
  }

  /** The constructor's loop: `add` for each requirement in turn, stopping at the first failure. */
  function AddAll(m: RequirementMap, reqs: seq<VersionRequirement>): (res: Result<RequirementMap, Error>)
    ensures WellKeyed(m) && res.Ok? ==> WellKeyed(res.value)
    decreases |reqs|
  {
    if reqs == [] then Ok(m)
    else
      var m' :- Added(m, reqs[0]);
      AddAll(m', reqs[1..])
  }

  /**
   * The requirement loop of `merge`: each requirement of `src` whose name the
   * receiver lacks is added as a copy; names the receiver has are skipped.
   */
  function Union(m: RequirementMap, src: seq<VersionRequirement>): (r: RequirementMap)
    ensures WellKeyed(m) ==> WellKeyed(r)
    decreases |src|
  {
    if src == [] then m
    else
      var m' := if src[0].name in m.table then m
                else m.Put(src[0].name, NewRequirement(src[0].name, src[0].constraint));
      Union(m', src[1..])
  }

  /** The requirements of `src` whose names `m` lacks, in the order of `src`. */
  function Missing(m: RequirementMap, src: seq<VersionRequirement>): seq<VersionRequirement>
    decreases |src|
  {
    if src == [] then []
    else (if src[0].name in m.table then [] else [src[0]]) + Missing(m, src[1..])
  }

  /** No two requirements of the sequence share a name. */
  ghost predicate NamesDistinct(s: seq<VersionRequirement>) {
    forall i, j :: 0 <= i < j < |s| ==> s[i].name != s[j].name
  }

  /**
   * `add` fails exactly when the name is stored with a different constraint, and
   * then reports that name.
   */
  lemma AddedFailsOnConflict(m: RequirementMap, r: VersionRequirement)
    ensures Added(m, r).Err? <==> r.name in m.table && m.table[r.name].constraint != r.constraint
    ensures Added(m, r).Err? ==> Added(m, r).error == RequirementAlreadyAdded(r.name)
  {
  }

  /** Re-adding the constraint already stored for a name changes nothing: count and order stay. */
  lemma AddedSameIsNoOp(m: RequirementMap, r: VersionRequirement)
    requires WellKeyed(m)
    requires r.name in m.table && m.table[r.name].constraint == r.constraint
    ensures Added(m, r) == Ok(m)
  {
    assert m.table[r.name] == r;
    PutExistingInPlace(m, r.name, r);
  }

  /** A new name is appended at the end of the iteration order. */
  lemma AddedNewAppends(m: RequirementMap, r: VersionRequirement)
    requires WellKeyed(m) && r.name !in m.table
    ensures Added(m, r).Ok?
    ensures Added(m, r).value.keys == m.keys + [r.name]
    ensures Added(m, r).value.Values() == m.Values() + [r]
  {
    PutNewAppends(m, r.name, r);
  }

  /** After a successful `add`, `get(name)` is the requirement and every other entry is unchanged. */
  lemma AddedStoresOnlyIt(m: RequirementMap, r: VersionRequirement, n: string)
    requires Added(m, r).Ok?
    ensures r.name in Added(m, r).value.table && Added(m, r).value.table[r.name] == r
    ensures n != r.name ==> (n in Added(m, r).value.table <==> n in m.table)
    ensures n != r.name && n in m.table ==> Added(m, r).value.table[n] == m.table[n]
  {
  }

  /** Appending one element and then a sequence is concatenating the sequence led by it. */
  lemma AppendThenConcat<T>(a: seq<T>, x: T, rest: seq<T>, s: seq<T>)
    requires s == [x] + rest
    ensures (a + [x]) + rest == a + s
  {
  }

  /** Dropping the head keeps names distinct, and no later name equals the head's. */
  lemma NamesDistinctTail(s: seq<VersionRequirement>)
    requires NamesDistinct(s) && s != []
    ensures NamesDistinct(s[1..])
    ensures forall i :: 0 <= i < |s| - 1 ==> s[1..][i].name != s[0].name
  {
    var rest := s[1..];
    forall i, j | 0 <= i < j < |rest| ensures rest[i].name != rest[j].name {
      assert rest[i] == s[i + 1] && rest[j] == s[j + 1];
    }
    forall i | 0 <= i < |rest| ensures rest[i].name != s[0].name {
      assert rest[i] == s[i + 1];
    }
  }

  /**
   * The constructor behaves as successive `add` calls: with pairwise distinct
   * names it never fails and iteration yields the requirements in the order given.
   */
  lemma {:induction false} AddAllDistinctNames(m: RequirementMap, reqs: seq<VersionRequirement>)
    requires WellKeyed(m) && NamesDistinct(reqs)
    requires forall i :: 0 <= i < |reqs| ==> reqs[i].name !in m.table
    ensures AddAll(m, reqs).Ok?
    ensures AddAll(m, reqs).value.Values() == m.Values() + reqs
    decreases |reqs|
  {
    if reqs != [] {
      var r := reqs[0];
      AddedNewAppends(m, r);
      var m' := m.Put(r.name, r);
      var rest := reqs[1..];
      FreshTail(m, reqs);
      AddAllDistinctNames(m', rest);
      AppendThenConcat(m.Values(), r, rest, reqs);
    }
  }

  /** What the induction step of `AddAllDistinctNames` needs of the remaining requirements. */
  lemma FreshTail(m: RequirementMap, reqs: seq<VersionRequirement>)
    requires NamesDistinct(reqs) && reqs != []
    requires forall i :: 0 <= i < |reqs| ==> reqs[i].name !in m.table
    ensures NamesDistinct(reqs[1..])
    ensures forall i :: 0 <= i < |reqs[1..]| ==> reqs[1..][i].name !in m.table[reqs[0].name := reqs[0]]
  {
    NamesDistinctTail(reqs);
  }

  /**
   * `merge` on one list: the receiver's entries are followed by exactly the other
   * list's entries whose names it lacked, in the other list's order.
   */
  lemma {:induction false} UnionAppendsMissing(m: RequirementMap, src: seq<VersionRequirement>)
    requires WellKeyed(m) && NamesDistinct(src)
    ensures Union(m, src).Values() == m.Values() + Missing(m, src)
    decreases |src|
  {
    if src != [] {
      NamesDistinctTail(src);
      if src[0].name in m.table {
        UnionAppendsMissing(m, src[1..]);
      } else {
        var m' := m.Put(src[0].name, NewRequirement(src[0].name, src[0].constraint));
        UnionNewHeadKeyed(m, src);
        UnionAppendsMissing(m', src[1..]);
        UnionNewHead(m, src);
      }
    }
  }

  /** Adding the copy of a new head keeps the map well keyed. */
  lemma UnionNewHeadKeyed(m: RequirementMap, src: seq<VersionRequirement>)
    requires WellKeyed(m) && src != [] && src[0].name !in m.table
    ensures WellKeyed(m.Put(src[0].name, NewRequirement(src[0].name, src[0].constraint)))
  {
  }

  /** The induction step of `UnionAppendsMissing` for a head the receiver lacks. */
  lemma UnionNewHead(m: RequirementMap, src: seq<VersionRequirement>)
    requires WellKeyed(m) && src != [] && src[0].name !in m.table
    requires forall i :: 0 <= i < |src[1..]| ==> src[1..][i].name != src[0].name
    requires var m' := m.Put(src[0].name, NewRequirement(src[0].name, src[0].constraint));
      Union(m', src[1..]).Values() == m'.Values() + Missing(m', src[1..])
    ensures Union(m, src).Values() == m.Values() + Missing(m, src)
  {
    var r := src[0];
    var c := NewRequirement(r.name, r.constraint);
    var m' := m.Put(r.name, c);
    PutNewAppends(m, r.name, c);
    MissingUnaffected(m, r.name, c, src[1..]);
    assert Union(m, src) == Union(m', src[1..]);
    assert Missing(m, src) == [r] + Missing(m, src[1..]);
    AppendThenConcat(m.Values(), r, Missing(m, src[1..]), Missing(m, src));
  }

  /** `merge` never overwrites: every entry the receiver had is kept as it was. */
  lemma {:induction false} UnionKeepsExisting(m: RequirementMap, src: seq<VersionRequirement>, n: string)
    requires n in m.table
    ensures n in Union(m, src).table && Union(m, src).table[n] == m.table[n]
    decreases |src|
  {
    if src != [] {
      var m' := if src[0].name in m.table then m
                else m.Put(src[0].name, NewRequirement(src[0].name, src[0].constraint));
      UnionKeepsExisting(m', src[1..], n);
    }
  }

  /** After `merge` the receiver has every name of the other list. */
  lemma {:induction false} UnionCoversSource(m: RequirementMap, src: seq<VersionRequirement>, i: nat)
    requires i < |src|
    ensures src[i].name in Union(m, src).table
    decreases |src|
  {
    var m' := if src[0].name in m.table then m
              else m.Put(src[0].name, NewRequirement(src[0].name, src[0].constraint));
    if i == 0 {
      UnionKeepsExisting(m', src[1..], src[0].name);
    } else {
      UnionCoversSource(m', src[1..], i - 1);
    }
  }

  /** Adding a name none of `src` carries does not change which of `src` is missing. */
  lemma {:induction false} MissingUnaffected(m: RequirementMap, k: string, v: VersionRequirement, src: seq<VersionRequirement>)
    requires forall i :: 0 <= i < |src| ==> src[i].name != k
    ensures Missing(m.Put(k, v), src) == Missing(m, src)
    decreases |src|
  {
    if src != [] {
      MissingUnaffected(m, k, v, src[1..]);
    }
  }

  /** Merging a list into itself, or a list whose names are all present, changes nothing. */
  lemma {:induction false} UnionOfPresentIsIdentity(m: RequirementMap, src: seq<VersionRequirement>)
    requires forall i :: 0 <= i < |src| ==> src[i].name in m.table
    ensures Union(m, src) == m
    decreases |src|
  {
    if src != [] {
      UnionOfPresentIsIdentity(m, src[1..]);
    }
  }

  /** The mutable list object of the source. */
  class VersionRequirementList {
    var entries: RequirementMap

    ghost predicate Valid()
      reads this
    {
      WellKeyed(entries)
    }

    /** `new VersionRequirementList()`: an empty list. */
    constructor ()
      ensures Valid() && entries == Empty()
    {
      entries := Empty();
    }

    /**
     * `new VersionRequirementList($requirements)`: `add` for each requirement in
     * turn; the first conflict aborts construction with its error.
     */
    static method Create(reqs: seq<VersionRequirement>) returns (res: Result<VersionRequirementList, Error>)
      ensures res.Ok? ==> fresh(res.value) && res.value.Valid() && AddAll(Empty(), reqs) == Ok(res.value.entries)
      ensures res.Err? ==> AddAll(Empty(), reqs) == Err(res.error)
    {
      var list := new VersionRequirementList();
      var i := 0;
      while i < |reqs|
        invariant 0 <= i <= |reqs|
        invariant list.Valid()
        invariant AddAll(Empty(), reqs) == AddAll(list.entries, reqs[i..])
      {
        assert reqs[i..][1..] == reqs[i + 1..];
        var r := list.Add(reqs[i]);
        if r.Fail? {
          return Err(r.error);
        }
        i := i + 1;
      }
      return Ok(list);
    }

    /** `add`: stores the requirement under its name unless that name has another constraint. */
    method Add(r: VersionRequirement) returns (res: Outcome<Error>)
      requires Valid()
      modifies this
      ensures Valid()
      ensures Added(old(entries), r) == if res.Pass? then Ok(entries) else Err(res.error)
      ensures res.Fail? ==> entries == old(entries)
    {
      if Has(r.name) && Get(r.name).value.constraint != r.constraint {
        return Fail(RequirementAlreadyAdded(r.name));
      }
      entries := entries.Put(r.name, r);
      return Pass;
    }

    /** `get`: the requirement stored under the name, or "Requirement not added". */
    function Get(name: string): (r: Result<VersionRequirement, Error>)
      reads this
      requires Valid()
      ensures r.Ok? <==> Has(name)
      ensures r.Ok? ==> r.value.name == name && r.value in Items()
      ensures r.Err? ==> r.error == RequirementNotAdded(name)
    {
      if !Has(name) then
        Err(RequirementNotAdded(name))
      else
        assert name == entries.keys[IndexOf(entries.keys, name)];
        Ok(entries.table[name])
    }

    predicate Has(name: string)
      reads this
    {
      name in entries.table
    }

    /** `count`: the number of distinct requirement names stored. */
    function Count(): (n: nat)
      reads this
      requires Valid()
      ensures n == |entries.table| && n == |Items()|
    {
      entries.Size()
    }

    /**
     * `getIterator`: every stored requirement once, in the order its name was first
     * added; each call starts afresh.
     */
    function Items(): (r: seq<VersionRequirement>)
      reads this
      requires Valid()
      ensures |r| == |entries.keys|
      ensures forall i :: 0 <= i < |r| ==> r[i] == entries.table[entries.keys[i]]
      ensures NamesDistinct(r)
    {
      entries.Values()
    }

    /** `clone`: an independent list with the same contents. */
    method Clone() returns (c: VersionRequirementList)
      requires Valid()
      ensures fresh(c) && c.Valid() && c.entries == entries
    {
      c := new VersionRequirementList();
      c.entries := entries;
    }
  }

  /**
   * One iteration of `merge`'s requirement loop: every requirement of `source`
   * (as it was when the loop began) whose name `target` lacks is added to
   * `target`. Never fails: only absent names are added.
   */
  method MergeList(target: VersionRequirementList, source: VersionRequirementList)
    requires target.Valid() && source.Valid()
    modifies target
    ensures target.Valid()
    ensures target.entries == Union(old(target.entries), old(source.Items()))
  {
    var items := source.Items();
    var i := 0;
    while i < |items|
      invariant 0 <= i <= |items|
      invariant target.Valid()
      invariant Union(old(target.entries), items) == Union(target.entries, items[i..])
    {
      assert items[i..][1..] == items[i + 1..];
      var r := items[i];
      if !target.Has(r.name) {
        var res := target.Add(NewRequirement(r.name, r.constraint));
        assert res.Pass?;
      }
      i := i + 1;
    }
  }
}
