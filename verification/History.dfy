/**
The bounded history checker (test-support/history.rs): a backtracking search over
a bitmask, sound and complete for linearizability.
*/
module History {
  datatype Operation<T> = Operation(start: nat, end: nat, value: T)

  const MAX_OPERATIONS := 16

  // ----- What the checker decides -----

  /** `order` lists each operation of `todo` exactly once. */
  ghost predicate Enumerates(order: seq<nat>, todo: set<nat>) {
    && (forall a, b | 0 <= a < b < |order| :: order[a] != order[b])
    && (forall i :: i in order <==> i in todo)
  }

  /** Whatever completed before another operation started comes before it. */
  ghost predicate RespectsRealTime<T>(history: seq<Operation<T>>, order: seq<nat>) {
    && (forall a | 0 <= a < |order| :: order[a] < |history|)
    && (forall a, b | 0 <= a < |order| && 0 <= b < |order| && history[order[a]].end < history[order[b]].start :: a < b)
  }

  /** The sequential model accepts the operations one after the other. */
  predicate Accepts<M, T>(history: seq<Operation<T>>, order: seq<nat>, model: M, apply: (M, T) -> (bool, M))
    requires forall a | 0 <= a < |order| :: order[a] < |history|
  {
    order == [] ||
    var (accepted, next) := apply(model, history[order[0]].value);
    accepted && Accepts(history, order[1..], next, apply)
  }

  ghost predicate Explains<M, T>(
    history: seq<Operation<T>>, todo: set<nat>, model: M, apply: (M, T) -> (bool, M), order: seq<nat>)
  {
    Enumerates(order, todo) && RespectsRealTime(history, order) && Accepts(history, order, model, apply)
  }

  ghost predicate Explainable<M, T>(
    history: seq<Operation<T>>, todo: set<nat>, model: M, apply: (M, T) -> (bool, M))
  {
    exists order :: Explains(history, todo, model, apply, order)
  }

  // ----- Bitmasks -----

  function Bit(i: nat): bv64
    requires i <= MAX_OPERATIONS
  {
    (1 as bv64) << i
  }

  predicate Overlaps(a: bv64, b: bv64) { a & b != 0 }

  function Without(mask: bv64, a: bv64): bv64 { mask & !a }

  predicate Has(mask: bv64, i: nat)
    requires i < MAX_OPERATIONS
  {
    Overlaps(mask, Bit(i))
  }

  /** A mask of at most sixteen operations. */
  predicate Small(mask: bv64) { mask & 0xFFFF == mask }

  function Bits(mask: bv64): set<nat> {
    set i: nat | i < MAX_OPERATIONS && Has(mask, i)
  }

  lemma BitsDiffer(i: nat, j: nat)
    requires i < MAX_OPERATIONS && j < MAX_OPERATIONS && i != j
    ensures !Overlaps(Bit(i), Bit(j))
  {}

  lemma MaskSame(mask: bv64, a: bv64)
    ensures !Overlaps(Without(mask, a), a)
  {}

  lemma MaskOther(mask: bv64, a: bv64, b: bv64)
    requires !Overlaps(a, b)
    ensures Overlaps(Without(mask, a), b) <==> Overlaps(mask, b)
  {}

  lemma ClearStaysSmall(mask: bv64, a: bv64)
    requires Small(mask)
    ensures Small(Without(mask, a))
  {}

  lemma HasAfterClear(mask: bv64, i: nat, j: nat)
    requires i < MAX_OPERATIONS && j < MAX_OPERATIONS
    ensures Has(Without(mask, Bit(i)), j) <==> j != i && Has(mask, j)
  {
    if j == i {
      MaskSame(mask, Bit(i));
    } else {
      BitsDiffer(i, j);
      MaskOther(mask, Bit(i), Bit(j));
    }
  }

  lemma ClearBit(mask: bv64, i: nat)
    requires i < MAX_OPERATIONS
    ensures Bits(Without(mask, Bit(i))) == Bits(mask) - {i}
  {
    forall j: nat | j < MAX_OPERATIONS
      ensures j in Bits(Without(mask, Bit(i))) <==> j in Bits(mask) - {i}
    {
      HasAfterClear(mask, i, j);
    }
  }

  lemma AllOperations(n: nat, j: nat)
    requires n <= MAX_OPERATIONS && j < MAX_OPERATIONS
    ensures Small(Bit(n) - 1)
    ensures Has(Bit(n) - 1, j) <==> j < n
  {}

  predicate AnyBit(mask: bv64) {
    || Has(mask, 0) || Has(mask, 1) || Has(mask, 2) || Has(mask, 3)
    || Has(mask, 4) || Has(mask, 5) || Has(mask, 6) || Has(mask, 7)
    || Has(mask, 8) || Has(mask, 9) || Has(mask, 10) || Has(mask, 11)
    || Has(mask, 12) || Has(mask, 13) || Has(mask, 14) || Has(mask, 15)
  }

  lemma NonzeroHasBit(mask: bv64)
    requires Small(mask) && mask != 0
    ensures AnyBit(mask)
  {}

  lemma SomeBit(mask: bv64)
    requires Small(mask) && mask != 0
    ensures Bits(mask) != {}
  {
    NonzeroHasBit(mask);
    var i :| 0 <= i < MAX_OPERATIONS && Has(mask, i);
    assert i in Bits(mask);
  }

  // ----- The search -----

  /** An operation that completed before `i` started is still to be placed. */
  predicate Blocked<T>(history: seq<Operation<T>>, todo: set<nat>, i: nat)
    requires i < |history|
  {
    exists j | j in todo :: j < |history| && history[j].end < history[i].start
  }

  /** An explanation begins with an unblocked, accepted operation and goes on with one of the rest. */
  lemma FirstChoice<M, T>(
    history: seq<Operation<T>>, todo: set<nat>, model: M, apply: (M, T) -> (bool, M), order: seq<nat>)
    requires Explains(history, todo, model, apply, order) && order != []
    ensures order[0] in todo && order[0] < |history| && !Blocked(history, todo, order[0])
    ensures apply(model, history[order[0]].value).0
    ensures Explains(history, todo - {order[0]}, apply(model, history[order[0]].value).1, apply, order[1..])
  {
    var rest := order[1..];
    assert forall a | 0 <= a < |rest| :: rest[a] == order[a + 1];
    assert Enumerates(rest, todo - {order[0]});
    forall a, b | 0 <= a < |rest| && 0 <= b < |rest| && history[rest[a]].end < history[rest[b]].start
      ensures a < b
    {
      assert a + 1 < b + 1;
    }
  }

  lemma PrependRealTime<T>(history: seq<Operation<T>>, todo: set<nat>, i: nat, rest: seq<nat>)
    requires i in todo && i < |history| && !Blocked(history, todo, i)
    requires Enumerates(rest, todo - {i}) && RespectsRealTime(history, rest)
    ensures RespectsRealTime(history, [i] + rest)
  {
    var order := [i] + rest;
    forall a, b | 0 <= a < |order| && 0 <= b < |order| && history[order[a]].end < history[order[b]].start
      ensures a < b
    {
      assert a > 0 ==> order[a] == rest[a - 1] && rest[a - 1] in rest;
      assert order[a] in todo;
      assert b > 0 ==> order[b] == rest[b - 1];
    }
  }

  lemma PrependEnumerates(todo: set<nat>, i: nat, rest: seq<nat>)
    requires i in todo && Enumerates(rest, todo - {i})
    ensures Enumerates([i] + rest, todo)
  {
    assert i !in rest;
  }

  lemma Prepend<M, T>(
    history: seq<Operation<T>>, todo: set<nat>, model: M, apply: (M, T) -> (bool, M), i: nat, rest: seq<nat>)
    requires i in todo && i < |history| && !Blocked(history, todo, i)
    requires apply(model, history[i].value).0
    requires Explains(history, todo - {i}, apply(model, history[i].value).1, apply, rest)
    ensures Explains(history, todo, model, apply, [i] + rest)
  {
    PrependEnumerates(todo, i, rest);
    PrependRealTime(history, todo, i, rest);
    assert ([i] + rest)[1..] == rest;
  }

  method Search<M, T>(history: seq<Operation<T>>, remaining: bv64, model: M, apply: (M, T) -> (bool, M))
    returns (found: bool)
    requires |history| <= MAX_OPERATIONS && Small(remaining)
    requires forall i | i in Bits(remaining) :: i < |history|
    ensures found <==> Explainable(history, Bits(remaining), model, apply)
    decreases |Bits(remaining)|
  {
    ghost var todo := Bits(remaining);
    if remaining == 0 {
      assert Explains(history, todo, model, apply, []);
      return true;
    }
    SomeBit(remaining);
    for i := 0 to |history|
      invariant forall order | Explains(history, todo, model, apply, order) && order != [] :: order[0] >= i
    {
      if !Has(remaining, i) || exists j | 0 <= j < |history| :: Has(remaining, j) && history[j].end < history[i].start {
        assert i !in todo || Blocked(history, todo, i);
        forall order | Explains(history, todo, model, apply, order) && order != []
          ensures order[0] >= i + 1
        {
          FirstChoice(history, todo, model, apply, order);
        }
        continue;
      }
      var (accepted, next) := apply(model, history[i].value);
      if accepted {
        ClearBit(remaining, i);
        ClearStaysSmall(remaining, Bit(i));
        var rest := Search(history, Without(remaining, Bit(i)), next, apply);
        if rest {
          ghost var order :| Explains(history, todo - {i}, next, apply, order);
          Prepend(history, todo, model, apply, i, order);
          return true;
        }
      }
      forall order | Explains(history, todo, model, apply, order) && order != []
        ensures order[0] >= i + 1
      {
        FirstChoice(history, todo, model, apply, order);
      }
    }
    if order :| Explains(history, todo, model, apply, order) {
      assert order != [];
      FirstChoice(history, todo, model, apply, order);
    }
    found := false;
  }

  function Indices(n: nat): (all: set<nat>)
    ensures forall i: nat :: i in all <==> i < n
  {
    if n == 0 then {} else Indices(n - 1) + {n - 1}
  }

  /** `linearizable`: some legal sequential order explains the whole history. */
  method Linearizable<M, T>(history: seq<Operation<T>>, model: M, apply: (M, T) -> (bool, M)) returns (found: bool)
    requires |history| <= MAX_OPERATIONS
    ensures found <==> Explainable(history, Indices(|history|), model, apply)
  {
    forall j: nat {:trigger j in Bits(Bit(|history|) - 1)} | j < MAX_OPERATIONS
      ensures j in Bits(Bit(|history|) - 1) <==> j < |history|
    {
      AllOperations(|history|, j);
    }
    AllOperations(|history|, 0);
    assert Bits(Bit(|history|) - 1) == Indices(|history|);
    found := Search(history, Bit(|history|) - 1, model, apply);
  }
}
