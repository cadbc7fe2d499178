/**
 * ORDER BY two instants and the id, LIMIT n: how both claim queries choose their rows
 * (internal/adapters/postgres/work.go).
 */
module Selection {
  import opened Prelude

  datatype Key = Key(first: Time, second: Time)

  predicate Before(keys: map<Id, Key>, a: Id, b: Id)
    requires a in keys && b in keys
  {
    var x, y := keys[a], keys[b];
    x.first < y.first || (x.first == y.first && (x.second < y.second || (x.second == y.second && a < b)))
  }

  /** The first rows, in order, and no other row comes before them. */
  ghost predicate Chosen(keys: map<Id, Key>, limit: nat, chosen: seq<Id>) {
    && |chosen| == Min(limit, |keys|)
    && (forall i :: 0 <= i < |chosen| ==> chosen[i] in keys)
    && (forall i, j :: 0 <= i < j < |chosen| ==> Before(keys, chosen[i], chosen[j]))
    && (forall id, i :: id in keys && id !in chosen && 0 <= i < |chosen| ==> Before(keys, chosen[i], id))
  }

  lemma ChosenDistinct(keys: map<Id, Key>, limit: nat, chosen: seq<Id>)
    requires Chosen(keys, limit, chosen)
    ensures |chosen| <= limit && forall i :: 0 <= i < |chosen| ==> chosen[i] in keys
    ensures forall i, j :: 0 <= i < j < |chosen| ==> chosen[i] != chosen[j]
  {
    forall i, j | 0 <= i < j < |chosen| ensures chosen[i] != chosen[j] {
      assert Before(keys, chosen[i], chosen[j]);
    }
  }

  function Members(s: seq<Id>): (ids: set<Id>)
    ensures forall id :: id in ids <==> id in s
  {
    set id | id in s
  }

  /** Fewer rows than the limit are all there are. */
  lemma ChosenAll(keys: map<Id, Key>, limit: nat, chosen: seq<Id>)
    requires Chosen(keys, limit, chosen) && |chosen| < limit
    ensures forall id :: id in keys ==> id in chosen
  {
    ChosenDistinct(keys, limit, chosen);
    CountIds(chosen);
    forall id | id in keys ensures id in chosen {
      if id !in chosen {
        assert |keys.Keys - {id}| == |keys| - 1;
        CountSubset(Members(chosen), keys.Keys - {id});
      }
    }
  }

  lemma {:induction false} CountIds(s: seq<Id>)
    requires forall i, j :: 0 <= i < j < |s| ==> s[i] != s[j]
    ensures |Members(s)| == |s|
  {
    if s != [] {
      var front, last := s[..|s| - 1], s[|s| - 1];
      CountIds(front);
      assert last !in front && s == front + [last];
      assert Members(s) == Members(front) + {last};
    }
  }

  lemma {:induction false} CountSubset(a: set<Id>, b: set<Id>)
    requires a <= b
    ensures |a| <= |b|
  {
    assert b == a + (b - a);
  }

  method First(keys: map<Id, Key>, rest: set<Id>) returns (first: Id)
    requires rest != {} && rest <= keys.Keys
    ensures first in rest && forall id :: id in rest && id != first ==> Before(keys, first, id)
  {
    first :| first in rest;
    var unseen := rest - {first};
    while unseen != {}
      invariant unseen <= rest && first in rest && first !in unseen
      invariant forall id :: id in rest && id !in unseen && id != first ==> Before(keys, first, id)
    {
      var id :| id in unseen;
      unseen := unseen - {id};
      if Before(keys, id, first) {
        first := id;
      }
    }
  }

  method Select(keys: map<Id, Key>, limit: nat) returns (chosen: seq<Id>)
    ensures Chosen(keys, limit, chosen)
  {
    chosen := [];
    var rest := keys.Keys;
    while |chosen| < limit && rest != {}
      invariant rest <= keys.Keys && |chosen| <= limit && |chosen| + |rest| == |keys|
      invariant forall id :: id in keys ==> (id in rest <==> id !in chosen)
      invariant forall i :: 0 <= i < |chosen| ==> chosen[i] in keys && chosen[i] !in rest
      invariant forall i, j :: 0 <= i < j < |chosen| ==> Before(keys, chosen[i], chosen[j])
      invariant forall id, i :: id in rest && 0 <= i < |chosen| ==> Before(keys, chosen[i], id)
    {
      var first := First(keys, rest);
      rest := rest - {first};
      chosen := chosen + [first];
    }
  }
}
