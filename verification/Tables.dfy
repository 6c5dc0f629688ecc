/** Lists taken from a map of streams, for objects of any kind that stand for numbered ones. */
module Tables {

  /** The list holds what the table holds, and as many as there are entries. */
  ghost predicate Lists<T>(list: seq<T>, table: map<nat, T>) {
    && |list| == |table|
    && (forall i :: 0 <= i < |list| ==> list[i] in table.Values)
    && (forall id :: id in table ==> table[id] in list)
  }

  ghost function Numbers<T>(list: seq<T>, number: T -> nat): (ns: seq<nat>)
    ensures |ns| == |list| && forall i :: 0 <= i < |list| ==> ns[i] == number(list[i])
  {
    seq(|list|, i requires 0 <= i < |list| => number(list[i]))
  }

  method ListOf<T(==)>(table: map<nat, T>) returns (list: seq<T>)
    ensures Lists(list, table)
  {
    list := [];
    var left := table.Keys;
    while left != {}
      invariant |list| + |left| == |table| && left <= table.Keys
      invariant forall id :: id in table ==> id in left || table[id] in list
      invariant forall i :: 0 <= i < |list| ==> list[i] in table.Values
      decreases left
    {
      var id :| id in left;
      list := list + [table[id]];
      left := left - {id};
    }
  }

  lemma NumbersOfTable<T>(list: seq<T>, table: map<nat, T>, numbers: map<nat, nat>, number: T -> nat)
    requires Lists(list, table) && table.Keys == numbers.Keys
    requires forall id :: id in table ==> number(table[id]) == numbers[id]
    ensures |list| == |numbers|
    ensures forall n :: n in Numbers(list, number) <==> n in numbers.Values
  {
    assert |table.Keys| == |table| && |numbers.Keys| == |numbers|;
    var ns := Numbers(list, number);
    forall n | n in ns ensures n in numbers.Values {
      var i :| 0 <= i < |list| && ns[i] == n;
      var id :| id in table && table[id] == list[i];
      assert numbers[id] == n;
    }
    forall n | n in numbers.Values ensures n in ns {
      var id :| id in numbers && numbers[id] == n;
      var i :| 0 <= i < |list| && list[i] == table[id];
      assert ns[i] == n;
    }
  }
}
