/** The process-wide function table `Expression.functions` that the extension packs register
    into.  The table's own implementation is not part of this model: its `add` is taken to be a
    plain overwrite of the entry stored under the given name (the last registration wins).
    Each evaluator class is an opaque tag; what an evaluator computes is not modelled. */
module Registry {
  import opened Wrappers

  datatype Evaluator =
    // datetime
    | AddDays
    // timex
    | GetNextViableDate
    | GetNextViableTime
    | GetPreviousViableDate
    | GetPreviousViableTime
    | IsDate
    | IsDateRange
    | IsTime
    | IsTimeRange
    | IsPresent
    | IsDuration
    | IsDefinite
    | TimexResolve
    // typechecking
    | IsObject
    | IsArray
    | IsBoolean
    | IsDateTime
    | IsFloat
    | IsInteger
    | IsString
    // uri
    | UriHost
    | UriPath
    | UriPathAndQuery
    | UriPort
    | UriQuery
    | UriScheme
    // xml
    | XML
    | XPath
    // regex
    | IsMatch
    // conversion
    | BoolFunc
    /** An evaluator registered by code outside this model (the built-in functions). */
    | Other(id: nat)

  type Table = map<string, Evaluator>

  /** One `add(name, evaluator)` call. */
  datatype Registration = Registration(name: string, evaluator: Evaluator)

  function Get(table: Table, name: string): Option<Evaluator> {
    if name in table then Some(table[name]) else None
  }

  function Names(regs: seq<Registration>): set<string> {
    set r | r in regs :: r.name
  }

  ghost predicate DistinctNames(regs: seq<Registration>) {
    forall i, j :: 0 <= i < j < |regs| ==> regs[i].name != regs[j].name
  }

  /** The table after the `add` calls of `regs`, in order. */
  function Apply(table: Table, regs: seq<Registration>): Table
    decreases |regs|
  {
    if regs == [] then table
    else Apply(table[regs[0].name := regs[0].evaluator], regs[1..])
  }

  /** The evaluator of the last registration under `name` in `regs`, if there is one. */
  function LastFor(regs: seq<Registration>, name: string): (r: Option<Evaluator>)
    ensures r.Some? <==> name in Names(regs)
    ensures r.Some? ==> Registration(name, r.value) in regs
    decreases |regs|
  {
    if regs == [] then None
    else
      match LastFor(regs[1..], name)
      case Some(e) => Some(e)
      case None => if regs[0].name == name then Some(regs[0].evaluator) else None
  }

  /** The registry object itself.  `add` is the only operation the extension packs use. */
  class FunctionTable {
    var entries: Table

    constructor (initial: Table)
      ensures entries == initial
    {
      entries := initial;
    }

    method Add(name: string, evaluator: Evaluator)
      modifies this
      ensures entries == old(entries)[name := evaluator]
    {
      entries := entries[name := evaluator];
    }
  }

  /** Two tables that agree on every name are equal. */
  lemma TablesEqual(a: Table, b: Table)
    requires forall name :: Get(a, name) == Get(b, name)
    ensures a == b
  {
    assert forall name :: name in a <==> Get(a, name).Some?;
    assert a.Keys == b.Keys;
    forall name | name in a
      ensures a[name] == b[name]
    {
      assert Get(a, name) == Get(b, name);
    }
  }

  /** What a name is bound to after `regs`: its last registration, or else its old entry. */
  lemma {:induction false} ApplyGet(table: Table, regs: seq<Registration>, name: string)
    ensures Get(Apply(table, regs), name) ==
            if LastFor(regs, name).Some? then LastFor(regs, name) else Get(table, name)
    decreases |regs|
  {
    if regs != [] {
      ApplyGet(table[regs[0].name := regs[0].evaluator], regs[1..], name);
    }
  }

  /** A name that `regs` does not register keeps its entry, or its absence. */
  lemma ApplyFrame(table: Table, regs: seq<Registration>, name: string)
    requires name !in Names(regs)
    ensures Get(Apply(table, regs), name) == Get(table, name)
  {
    ApplyGet(table, regs, name);
  }

  /** With distinct names, every registration in `regs` is in force afterwards. */
  lemma ApplyBinds(table: Table, regs: seq<Registration>, i: nat)
    requires DistinctNames(regs)
    requires i < |regs|
    ensures Get(Apply(table, regs), regs[i].name) == Some(regs[i].evaluator)
  {
    ApplyGet(table, regs, regs[i].name);
    LastForDistinct(regs, regs[i].name, regs[i].evaluator);
  }

  /** The names after `regs` are the old names plus the registered ones. */
  lemma ApplyKeys(table: Table, regs: seq<Registration>)
    ensures Apply(table, regs).Keys == table.Keys + Names(regs)
  {
    forall name
      ensures name in Apply(table, regs) <==> name in table || name in Names(regs)
    {
      ApplyGet(table, regs, name);
    }
  }

  lemma {:induction false} NamesCardinality(regs: seq<Registration>)
    ensures |Names(regs)| <= |regs|
    decreases |regs|
  {
    if regs != [] {
      NamesCardinality(regs[1..]);
      assert Names(regs) == Names(regs[1..]) + {regs[0].name} by {
        assert forall r :: r in regs <==> r == regs[0] || r in regs[1..];
      }
    }
  }

  /** Registering `regs` adds at most `|regs|` names. */
  lemma ApplyGrowth(table: Table, regs: seq<Registration>)
    ensures |Apply(table, regs).Keys| <= |table.Keys| + |regs|
  {
    ApplyKeys(table, regs);
    NamesCardinality(regs);
  }

  /** Running the same registrations twice gives the table of running them once. */
  lemma ApplyIdempotent(table: Table, regs: seq<Registration>)
    ensures Apply(Apply(table, regs), regs) == Apply(table, regs)
  {
    forall name
      ensures Get(Apply(Apply(table, regs), regs), name) == Get(Apply(table, regs), name)
    {
      ApplyGet(Apply(table, regs), regs, name);
      ApplyGet(table, regs, name);
    }
    TablesEqual(Apply(Apply(table, regs), regs), Apply(table, regs));
  }

  /** Registrations over disjoint names may run in either order. */
  lemma ApplyCommutes(table: Table, first: seq<Registration>, second: seq<Registration>)
    requires Names(first) !! Names(second)
    ensures Apply(Apply(table, first), second) == Apply(Apply(table, second), first)
  {
    forall name
      ensures Get(Apply(Apply(table, first), second), name) ==
              Get(Apply(Apply(table, second), first), name)
    {
      ApplyGet(Apply(table, first), second, name);
      ApplyGet(table, first, name);
      ApplyGet(Apply(table, second), first, name);
      ApplyGet(table, second, name);
    }
    TablesEqual(Apply(Apply(table, first), second), Apply(Apply(table, second), first));
  }

  /** With distinct names, the last registration under a name is its only one. */
  lemma {:induction false} LastForDistinct(regs: seq<Registration>, name: string, e: Evaluator)
    requires DistinctNames(regs)
    ensures LastFor(regs, name) == Some(e) <==> Registration(name, e) in regs
    decreases |regs|
  {
    if regs != [] {
      DistinctNamesCons(regs);
      LastForDistinct(regs[1..], name, e);
      assert forall r :: r in regs <==> r == regs[0] || r in regs[1..];
    }
  }

  /** A registration list has distinct names when its tail has and its head's name is new. */
  lemma DistinctNamesCons(regs: seq<Registration>)
    requires regs != []
    ensures DistinctNames(regs) <==> DistinctNames(regs[1..]) && regs[0].name !in Names(regs[1..])
  {
    var rest := regs[1..];
    if DistinctNames(regs) {
      forall i, j | 0 <= i < j < |rest|
        ensures rest[i].name != rest[j].name
      {
        assert rest[i] == regs[i + 1] && rest[j] == regs[j + 1];
      }
      forall r | r in rest
        ensures r.name != regs[0].name
      {
        var j :| 0 <= j < |rest| && rest[j] == r;
        assert regs[j + 1] == r;
      }
    }
    if DistinctNames(rest) && regs[0].name !in Names(rest) {
      forall i, j | 0 <= i < j < |regs|
        ensures regs[i].name != regs[j].name
      {
        assert regs[j] == rest[j - 1];
        if i > 0 {
          assert regs[i] == rest[i - 1];
        }
      }
    }
  }

  /** A registration list has distinct names exactly when it has as many names as entries. */
  lemma {:induction false} DistinctNamesCardinality(regs: seq<Registration>)
    ensures DistinctNames(regs) <==> |Names(regs)| == |regs|
    decreases |regs|
  {
    if regs != [] {
      var rest := regs[1..];
      DistinctNamesCardinality(rest);
      NamesCardinality(rest);
      DistinctNamesCons(regs);
      assert Names(regs) == Names(rest) + {regs[0].name} by {
        assert forall r :: r in regs <==> r == regs[0] || r in rest;
      }
    }
  }

  /** Reordering registrations with distinct names keeps the names distinct. */
  lemma PermutationKeepsDistinct(regs: seq<Registration>, reordered: seq<Registration>)
    requires DistinctNames(regs)
    requires multiset(regs) == multiset(reordered)
    ensures DistinctNames(reordered)
  {
    assert Names(regs) == Names(reordered) by {
      forall r
        ensures r in regs <==> r in reordered
      {
        assert r in regs <==> r in multiset(regs);
        assert r in reordered <==> r in multiset(reordered);
      }
    }
    assert |regs| == |reordered| by {
      assert |multiset(regs)| == |regs| && |multiset(reordered)| == |reordered|;
    }
    DistinctNamesCardinality(regs);
    DistinctNamesCardinality(reordered);
  }

  /** With distinct names, the order of the `add` calls does not matter: any permutation of the
      registrations gives the same table. */
  lemma ApplyReorder(table: Table, regs: seq<Registration>, reordered: seq<Registration>)
    requires DistinctNames(regs)
    requires multiset(regs) == multiset(reordered)
    ensures Apply(table, regs) == Apply(table, reordered)
  {
    PermutationKeepsDistinct(regs, reordered);
    forall name
      ensures Get(Apply(table, regs), name) == Get(Apply(table, reordered), name)
    {
      ApplyGet(table, regs, name);
      ApplyGet(table, reordered, name);
      assert forall r :: r in regs <==> r in reordered by {
        forall r
          ensures r in regs <==> r in reordered
        {
          assert r in regs <==> r in multiset(regs);
          assert r in reordered <==> r in multiset(reordered);
        }
      }
      match LastFor(regs, name)
      case Some(e) =>
        LastForDistinct(regs, name, e);
        LastForDistinct(reordered, name, e);
      case None =>
        match LastFor(reordered, name)
        case Some(e) =>
          LastForDistinct(regs, name, e);
          LastForDistinct(reordered, name, e);
        case None =>
    }
    TablesEqual(Apply(table, regs), Apply(table, reordered));
  }
}
