/**
 * An ordered table from task name to an entry, as a Python dict literal
 * builds it: lookups by name, the names in table order, and the
 * order-preserving subsequence relation the classification queries keep.
 */
module Registry {
  import opened Wrappers
  import opened PyValues

  /** The names of a table, in table order. */
  function Names<T>(table: seq<(string, T)>): (r: seq<string>)
    ensures |r| == |table|
    ensures forall i :: 0 <= i < |table| ==> r[i] == table[i].0
  {
    if table == [] then [] else [table[0].0] + Names(table[1..])
  }

  /** No name is bound twice. */
  predicate DistinctNames<T>(table: seq<(string, T)>) {
    forall i, j :: 0 <= i < j < |table| ==> table[i].0 != table[j].0
  }

  /** `table[name]`: the entry bound to `name`, or KeyError. */
  function Lookup<T>(table: seq<(string, T)>, name: string): (r: Result<T, Exc>)
    ensures r.Success? <==> name in Names(table)
    ensures r.Failure? ==> r.error == KeyError
    ensures r.Success? ==> exists i :: 0 <= i < |table| && table[i] == (name, r.value)
  {
    if table == [] then Failure(KeyError)
    else if table[0].0 == name then Success(table[0].1)
    else Lookup(table[1..], name)
  }

  /** In a table without repeated names, every entry is what its name looks up. */
  lemma {:induction false} LookupEntry<T>(table: seq<(string, T)>, i: nat)
    requires DistinctNames(table) && i < |table|
    ensures Lookup(table, table[i].0) == Success(table[i].1)
  {
    if i > 0 {
      assert table[1..][i - 1] == table[i];
      LookupEntry(table[1..], i - 1);
    }
  }

  /** `a` is `b` with some elements left out, the rest kept in their order. */
  predicate Subsequence(a: seq<string>, b: seq<string>)
    decreases |b|
  {
    if a == [] then true
    else if b == [] then false
    else if a[0] == b[0] then Subsequence(a[1..], b[1..])
    else Subsequence(a, b[1..])
  }

  /** Prepending an element to the longer sequence keeps a subsequence a subsequence. */
  lemma {:induction false} SubsequenceOfTail(a: seq<string>, b: seq<string>)
    requires b != [] && Subsequence(a, b[1..])
    ensures Subsequence(a, b)
    ensures Subsequence([b[0]] + a, b)
    decreases |b|, 0
  {
    assert ([b[0]] + a)[1..] == a;
    if a != [] && a[0] == b[0] {
      SubsequenceDropHead(a, b[1..]);
    }
  }

  /** Leaving out the first element of a subsequence keeps it a subsequence. */
  lemma {:induction false} SubsequenceDropHead(a: seq<string>, c: seq<string>)
    requires a != [] && Subsequence(a, c)
    ensures Subsequence(a[1..], c)
    decreases |c|, 1
  {
    if a[0] == c[0] {
      SubsequenceOfTail(a[1..], c);
    } else {
      SubsequenceDropHead(a, c[1..]);
      SubsequenceOfTail(a[1..], c);
    }
  }
}
