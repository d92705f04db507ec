/** Small facts about finite sets, and the walk over one in no particular order. */
module Sets {
  /** The elements in whatever order the walk meets them. */
  method Collect<T(==)>(s: set<T>) returns (items: seq<T>)
    ensures forall x :: x in items <==> x in s
    ensures forall i, j | 0 <= i < j < |items| :: items[i] != items[j]
  {
    items := [];
    var todo := s;
    while todo != {}
      invariant todo <= s
      invariant forall x :: x in items <==> x in s && x !in todo
      invariant forall i, j | 0 <= i < j < |items| :: items[i] != items[j]
      decreases todo
    {
      var x :| x in todo;
      items := items + [x];
      todo := todo - {x};
    }
  }

  lemma CountOne<T>(part: set<T>, done: set<T>, x: T)
    requires x !in done
    ensures |part * (done + {x})| == |part * done| + if x in part then 1 else 0
  {
    if x in part {
      assert part * (done + {x}) == part * done + {x};
    } else {
      assert part * (done + {x}) == part * done;
    }
  }

  lemma Visit<T>(part: set<T>, todo: set<T>, x: T)
    requires x in todo
    ensures x !in part - todo
    ensures part - (todo - {x}) == (part - todo) + if x in part then {x} else {}
    ensures |part - (todo - {x})| == |part - todo| + if x in part then 1 else 0
  {
    assert part - (todo - {x}) == (part - todo) + if x in part then {x} else {};
  }

  function Firsts<T>(items: seq<T>, n: nat): set<T>
    requires n <= |items|
  { set i | 0 <= i < n :: items[i] }

  lemma NextFirst<T>(items: seq<T>, n: nat)
    requires n < |items|
    ensures Firsts(items, n + 1) == Firsts(items, n) + {items[n]}
  {
  }

  lemma WithinAll<T>(part: set<T>, all: set<T>)
    requires part <= all
    ensures part * all == part
  {
  }
}
