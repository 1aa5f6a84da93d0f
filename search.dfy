/**
 * The linear scans the resolvers perform over a table fetched whole with
 * `findAll()`: case-insensitive prefix matching (`find` and the `forEachAsync`
 * filter) and lookup by primary key (`findByPk`).
 */
module Search {
  import opened Wrappers
  import Text
  import Async

  /**
   * `field.toLowerCase().indexOf(query.toLowerCase()) === 0`: the case-folded
   * field starts with the case-folded query.
   */
  function PrefixMatch(fold: char -> char, field: string, query: string): (r: bool)
    ensures r <==> Text.FoldCase(fold, query) <= Text.FoldCase(fold, field)
  {
    Text.IndexOf(Text.FoldCase(fold, field), Text.FoldCase(fold, query)) == 0
  }

  /** Reference definition: the records whose `key` column matches, in table order. */
  function Matching<T(!new)>(table: seq<T>, key: T -> string, fold: char -> char, query: string): (r: seq<T>)
    ensures |r| <= |table|
    ensures forall x :: x in r <==> x in table && PrefixMatch(fold, key(x), query)
  {
    if table == [] then []
    else if PrefixMatch(fold, key(table[0]), query) then [table[0]] + Matching(table[1..], key, fold, query)
    else Matching(table[1..], key, fold, query)
  }

  /** Matching distributes over concatenation, so it keeps the table's order. */
  lemma {:induction false} MatchingAppend<T(!new)>(a: seq<T>, b: seq<T>, key: T -> string, fold: char -> char, query: string)
    ensures Matching(a + b, key, fold, query) == Matching(a, key, fold, query) + Matching(b, key, fold, query)
  {
    if a == [] {
      assert a + b == b;
    } else {
      assert (a + b)[1..] == a[1..] + b;
      MatchingAppend(a[1..], b, key, fold, query);
    }
  }

  /** The empty query matches every record: `indexOf('') === 0` always holds. */
  lemma {:induction false} EmptyQueryMatchesAll<T(!new)>(table: seq<T>, key: T -> string, fold: char -> char)
    ensures Matching(table, key, fold, "") == table
  {
    if table != [] {
      EmptyQueryMatchesAll(table[1..], key, fold);
    }
  }

  /** `Array.prototype.find` with the prefix predicate: the first matching record, if any. */
  function FindFirst<T(!new)>(table: seq<T>, key: T -> string, fold: char -> char, query: string): (r: Option<T>)
    ensures r.None? <==> forall x :: x in table ==> !PrefixMatch(fold, key(x), query)
    ensures r.Some? ==> r.value in table && PrefixMatch(fold, key(r.value), query)
  {
    if table == [] then None
    else if PrefixMatch(fold, key(table[0]), query) then Some(table[0])
    else FindFirst(table[1..], key, fold, query)
  }

  /** `find` returns the record at the earliest matching position. */
  lemma {:induction false} FindFirstIsEarliest<T(!new)>(table: seq<T>, key: T -> string, fold: char -> char, query: string, i: nat)
    requires i < |table| && PrefixMatch(fold, key(table[i]), query)
    requires forall j :: 0 <= j < i ==> !PrefixMatch(fold, key(table[j]), query)
    ensures FindFirst(table, key, fold, query) == Some(table[i])
  {
    if i > 0 {
      FindFirstIsEarliest(table[1..], key, fold, query, i - 1);
    }
  }

  /** The "find first" query is the head of the "find all" query. */
  lemma {:induction false} FindFirstIsHeadOfMatching<T(!new)>(table: seq<T>, key: T -> string, fold: char -> char, query: string)
    ensures var m := Matching(table, key, fold, query);
      FindFirst(table, key, fold, query) == if m == [] then None else Some(m[0])
  {
    if table != [] {
      FindFirstIsHeadOfMatching(table[1..], key, fold, query);
    }
  }

  /** The `forEachAsync` callback of a "find all" query: push the record when it matches. */
  function PushIfMatch<T(!new)>(key: T -> string, fold: char -> char, query: string): (seq<T>, T, nat) -> seq<T>
  {
    (queried: seq<T>, record: T, index: nat) =>
      if PrefixMatch(fold, key(record), query) then queried + [record] else queried
  }

  lemma {:induction false} RunPushIfMatch<T(!new)>(table: seq<T>, key: T -> string, fold: char -> char, query: string)
    ensures Async.Run(PushIfMatch(key, fold, query), [], table) == Matching(table, key, fold, query)
    decreases |table|
  {
    if table != [] {
      var n := |table| - 1;
      RunPushIfMatch(table[..n], key, fold, query);
      MatchingAppend(table[..n], [table[n]], key, fold, query);
      assert table[..n] + [table[n]] == table;
    }
  }

  /**
   * A "find all" query: start from an empty array, run `forEachAsync` over the
   * whole table pushing the matches, return the array.
   */
  method FindAllMatching<T(!new)>(table: seq<T>, key: T -> string, fold: char -> char, query: string)
    returns (queried: seq<T>)
    ensures queried == Matching(table, key, fold, query)
  {
    var visited;
    queried, visited := Async.ForEachAsync(table, [], PushIfMatch(key, fold, query));
    RunPushIfMatch(table, key, fold, query);
  }

  /** `findByPk`: the record whose primary key is `id`, if any. */
  function FindByKey<T(!new)>(table: seq<T>, key: T -> int, id: int): (r: Option<T>)
    ensures r.None? <==> forall x :: x in table ==> key(x) != id
    ensures r.Some? ==> r.value in table && key(r.value) == id
  {
    if table == [] then None
    else if key(table[0]) == id then Some(table[0])
    else FindByKey(table[1..], key, id)
  }

  /** Primary keys are unique: no two rows of the table share one. */
  ghost predicate UniqueKeys<T(!new)>(table: seq<T>, key: T -> int)
  {
    forall i, j :: 0 <= i < j < |table| ==> key(table[i]) != key(table[j])
  }

  /** With unique keys, `findByPk` returns exactly the row that carries the key. */
  lemma {:induction false} FindByKeyUnique<T(!new)>(table: seq<T>, key: T -> int, i: nat)
    requires i < |table| && UniqueKeys(table, key)
    ensures FindByKey(table, key, key(table[i])) == Some(table[i])
  {
    if i > 0 {
      assert key(table[0]) != key(table[i]);
      assert UniqueKeys(table[1..], key) by {
        forall a, b | 0 <= a < b < |table| - 1
          ensures key(table[1..][a]) != key(table[1..][b])
        {
          assert table[1..][a] == table[a + 1] && table[1..][b] == table[b + 1];
        }
      }
      FindByKeyUnique(table[1..], key, i - 1);
    }
  }
}
