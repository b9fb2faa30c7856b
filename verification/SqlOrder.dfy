/** `ORDER BY rank ASC LIMIT n` over a finite set of rows: what any answer the database may
    give looks like, and that one always exists. Rows of equal rank may come in any order. */
module SqlOrder {

  /** chosen is a possible answer: as many rows as the limit allows, none left out that ranks
      strictly before a chosen one. */
  ghost predicate IsFirst<T(!new)>(all: set<T>, rank: T -> int, limit: nat, chosen: set<T>) {
    && chosen <= all
    && |chosen| == (if |all| < limit then |all| else limit)
    && forall c, o :: c in chosen && o in all - chosen ==> rank(c) <= rank(o)
  }

  /** A row of least rank. */
  method Least<T(!new,==)>(all: set<T>, rank: T -> int) returns (least: T)
    requires all != {}
    ensures least in all && forall o :: o in all ==> rank(least) <= rank(o)
  {
    least :| least in all;
    var rest := all - {least};
    while rest != {}
      invariant least in all && rest <= all
      invariant forall o :: o in all - rest ==> rank(least) <= rank(o)
      decreases |rest|
    {
      var o :| o in rest;
      if rank(o) < rank(least) {
        least := o;
      }
      rest := rest - {o};
    }
  }

  /** An answer as a list: the rows of an IsFirst set, each once. */
  method TakeFirst<T(!new,==)>(all: set<T>, rank: T -> int, limit: nat)
    returns (rows: seq<T>, ghost taken: set<T>)
    ensures IsFirst(all, rank, limit, taken)
    ensures |rows| == |taken| && forall r :: r in rows <==> r in taken
    ensures forall i, j :: 0 <= i < j < |rows| ==> rows[i] != rows[j]
    ensures InOrder(rows, rank)
  {
    rows, taken := [], {};
    var rest := all;
    while |rows| < limit && rest != {}
      invariant Lists(rows, taken) && |rows| <= limit && InOrder(rows, rank)
      invariant taken !! rest && taken + rest == all
      invariant forall c, o :: c in taken && o in rest ==> rank(c) <= rank(o)
      decreases |rest|
    {
      var next := Least(rest, rank);
      ListsOneMore(rows, taken, next);
      OrderOneMore(rows, taken, rank, next);
      rows, taken, rest := rows + [next], taken + {next}, rest - {next};
    }
    assert |all| == |taken| + |rest|;
    assert all - taken == rest;
  }

  predicate InOrder<T(!new)>(rows: seq<T>, rank: T -> int) {
    forall i, j :: 0 <= i < j < |rows| ==> rank(rows[i]) <= rank(rows[j])
  }

  lemma OrderOneMore<T(!new)>(rows: seq<T>, taken: set<T>, rank: T -> int, next: T)
    requires Lists(rows, taken) && InOrder(rows, rank) && forall c :: c in taken ==> rank(c) <= rank(next)
    ensures InOrder(rows + [next], rank)
  {
    assert forall i :: 0 <= i < |rows| ==> rows[i] in taken;
  }

  /** Each element of the set once. */
  ghost predicate Lists<T(!new)>(rows: seq<T>, taken: set<T>) {
    && |rows| == |taken|
    && (forall r :: r in rows <==> r in taken)
    && forall i, j :: 0 <= i < j < |rows| ==> rows[i] != rows[j]
  }

  lemma ListsOneMore<T(!new)>(rows: seq<T>, taken: set<T>, next: T)
    requires Lists(rows, taken) && next !in taken
    ensures Lists(rows + [next], taken + {next})
  {
  }

  /** A row that belongs but was passed over saw a full batch of rows that rank no later. */
  lemma PassedOver<T(!new)>(all: set<T>, rank: T -> int, limit: nat, chosen: set<T>, row: T)
    requires IsFirst(all, rank, limit, chosen) && row in all && row !in chosen
    ensures |chosen| == limit
    ensures forall c :: c in chosen ==> rank(c) <= rank(row)
  {
    assert |all - chosen| == |all| - |chosen|;
    assert row in all - chosen;
  }
}
