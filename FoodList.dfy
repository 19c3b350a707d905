/** The three list computations the dashboard applies to `foods` once the
    server has answered: append on create, replace by id on update, filter by
    id on delete. Each builds a new list and leaves the old one alone. */
module FoodList {
  import opened Foods

  /** No two entries share an id. The server is trusted to keep this; the
      dashboard never checks it. */
  ghost predicate UniqueIds(foods: seq<Food>) {
    forall i, j :: 0 <= i < j < |foods| ==> foods[i].id != foods[j].id
  }

  /** How many entries carry `id`. */
  function CountId(foods: seq<Food>, id: string): nat {
    if foods == [] then 0
    else (if foods[0].id == id then 1 else 0) + CountId(foods[1..], id)
  }

  /** `[...foods, item]`: the old entries, unchanged and in order, then `item`. */
  function Append(foods: seq<Food>, item: Food): (r: seq<Food>)
    ensures |r| == |foods| + 1
    ensures r[..|foods|] == foods && r[|foods|] == item
  {
    foods + [item]
  }

  /** `foods.map(f => f.id !== updated.id ? f : updated)`: same length, every
      entry with `updated`'s id becomes `updated`, every other entry stays
      where it was. */
  function ReplaceById(foods: seq<Food>, updated: Food): (r: seq<Food>)
    ensures |r| == |foods|
    ensures forall i :: 0 <= i < |foods| && foods[i].id == updated.id ==> r[i] == updated
    ensures forall i :: 0 <= i < |foods| && foods[i].id != updated.id ==> r[i] == foods[i]
  {
    if foods == [] then []
    else [if foods[0].id != updated.id then foods[0] else updated]
         + ReplaceById(foods[1..], updated)
  }

  /** `foods.filter(f => f.id !== id)`: the list shrinks by exactly the
      number of entries that matched; `RemoveKeepsOthers` says which remain. */
  function RemoveById(foods: seq<Food>, id: string): (r: seq<Food>)
    ensures |r| == |foods| - CountId(foods, id)
  {
    if foods == [] then []
    else (if foods[0].id != id then [foods[0]] else []) + RemoveById(foods[1..], id)
  }

  /** After the delete no entry carries `id`, and every entry with another id
      is still there. */
  lemma {:induction false} RemoveKeepsOthers(foods: seq<Food>, id: string)
    ensures forall f :: f in RemoveById(foods, id) <==> f in foods && f.id != id
  {
    if foods != [] {
      RemoveKeepsOthers(foods[1..], id);
      assert foods == [foods[0]] + foods[1..];
    }
  }

  /** No entry carries `id` exactly when the count of `id` is zero. */
  lemma {:induction false} CountIdZero(foods: seq<Food>, id: string)
    ensures CountId(foods, id) == 0 <==> forall i :: 0 <= i < |foods| ==> foods[i].id != id
  {
    if foods != [] {
      CountIdZero(foods[1..], id);
      assert forall i :: 1 <= i < |foods| ==> foods[i] == foods[1..][i - 1];
    }
  }

  /** Counting distributes over concatenation. */
  lemma {:induction false} CountIdConcat(a: seq<Food>, b: seq<Food>, id: string)
    ensures CountId(a + b, id) == CountId(a, id) + CountId(b, id)
  {
    if a != [] {
      assert (a + b)[1..] == a[1..] + b;
      CountIdConcat(a[1..], b, id);
    } else {
      assert a + b == b;
    }
  }

  /** An appended item whose id was not in the list occurs exactly once in
      the new list, and the list keeps distinct ids. */
  lemma AppendFreshIdOnce(foods: seq<Food>, item: Food)
    requires CountId(foods, item.id) == 0
    ensures CountId(Append(foods, item), item.id) == 1
    ensures UniqueIds(foods) ==> UniqueIds(Append(foods, item))
  {
    CountIdConcat(foods, [item], item.id);
    CountIdZero(foods, item.id);
    assert CountId([item], item.id) == 1 by {
      assert [item][1..] == [];
    }
  }

  /** Replacing never changes any entry's id, so the list of ids, and with it
      their distinctness, is exactly what it was. */
  lemma ReplaceKeepsIds(foods: seq<Food>, updated: Food)
    ensures forall i :: 0 <= i < |foods| ==> ReplaceById(foods, updated)[i].id == foods[i].id
    ensures UniqueIds(foods) ==> UniqueIds(ReplaceById(foods, updated))
  {
  }

  /** With distinct ids, updating the entry at `k` is a point update of the
      list at `k`; with no entry carrying the id, nothing changes. */
  lemma ReplaceAt(foods: seq<Food>, updated: Food, k: nat)
    requires UniqueIds(foods) && k < |foods| && foods[k].id == updated.id
    ensures ReplaceById(foods, updated) == foods[k := updated]
  {
  }

  lemma ReplaceAbsent(foods: seq<Food>, updated: Food)
    requires CountId(foods, updated.id) == 0
    ensures ReplaceById(foods, updated) == foods
  {
    CountIdZero(foods, updated.id);
  }

  /** Applying the same server reply twice gives what applying it once did. */
  lemma ReplaceIdempotent(foods: seq<Food>, updated: Food)
    ensures ReplaceById(ReplaceById(foods, updated), updated) == ReplaceById(foods, updated)
  {
  }

  /** Filtering distributes over concatenation: what is kept from `a` comes
      before what is kept from `b`, so the kept entries keep their relative
      order. */
  lemma {:induction false} RemoveConcat(a: seq<Food>, b: seq<Food>, id: string)
    ensures RemoveById(a + b, id) == RemoveById(a, id) + RemoveById(b, id)
  {
    if a == [] {
      assert a + b == b;
    } else {
      assert (a + b)[1..] == a[1..] + b;
      RemoveConcat(a[1..], b, id);
    }
  }

  /** Deleting an id that no entry carries leaves the list as it was. */
  lemma {:induction false} RemoveAbsent(foods: seq<Food>, id: string)
    requires CountId(foods, id) == 0
    ensures RemoveById(foods, id) == foods
  {
    if foods != [] {
      assert foods[0].id != id;
      RemoveAbsent(foods[1..], id);
      assert [foods[0]] + foods[1..] == foods;
    }
  }

  /** With distinct ids, deleting the id of the entry at `k` takes out that
      entry and nothing else. */
  lemma RemoveAt(foods: seq<Food>, k: nat)
    requires UniqueIds(foods) && k < |foods|
    ensures RemoveById(foods, foods[k].id) == foods[..k] + foods[k + 1..]
  {
    var id := foods[k].id;
    NoOtherWithId(foods, k, 0, k);
    assert foods[0..k] == foods[..k];
    NoOtherWithId(foods, k, k + 1, |foods|);
    assert foods[k + 1..|foods|] == foods[k + 1..];
    RemoveAbsent(foods[..k], id);
    RemoveAbsent(foods[k + 1..], id);
    RemoveOnlyAt(foods, k);
  }

  /** If deleting the id of the entry at `k` keeps everything before and
      after it, the delete removes just that entry. */
  lemma RemoveOnlyAt(foods: seq<Food>, k: nat)
    requires k < |foods|
    requires RemoveById(foods[..k], foods[k].id) == foods[..k]
    requires RemoveById(foods[k + 1..], foods[k].id) == foods[k + 1..]
    ensures RemoveById(foods, foods[k].id) == foods[..k] + foods[k + 1..]
  {
    var id, before, after := foods[k].id, foods[..k], foods[k + 1..];
    var rest := [foods[k]] + after;
    RemoveMatching(foods[k]);
    RemoveConcat([foods[k]], after, id);
    assert RemoveById(rest, id) == after;
    assert foods == before + rest;
    RemoveConcat(before, rest, id);
    assert RemoveById(before + rest, id) == before + after;
  }


  /** A one-entry list loses its entry when its own id is deleted. */
  lemma RemoveMatching(f: Food)
    ensures RemoveById([f], f.id) == []
  {
    assert [f][1..] == [];
  }

  /** With distinct ids, no entry of `foods[lo..hi]` away from `k` shares the
      id of the entry at `k`. */
  lemma NoOtherWithId(foods: seq<Food>, k: nat, lo: nat, hi: nat)
    requires UniqueIds(foods) && k < |foods| && lo <= hi <= |foods|
    requires k < lo || hi <= k
    ensures CountId(foods[lo..hi], foods[k].id) == 0
  {
    forall i | 0 <= i < hi - lo ensures foods[lo..hi][i].id != foods[k].id {
      assert foods[lo..hi][i] == foods[lo + i];
    }
    CountIdZero(foods[lo..hi], foods[k].id);
  }

  /** What the delete keeps is a sub-list, so it keeps distinct ids. */
  lemma {:induction false} RemoveKeepsUnique(foods: seq<Food>, id: string)
    requires UniqueIds(foods)
    ensures UniqueIds(RemoveById(foods, id))
  {
    if foods != [] {
      var rest := RemoveById(foods[1..], id);
      RemoveKeepsUnique(foods[1..], id);
      RemoveKeepsOthers(foods[1..], id);
      if foods[0].id != id {
        forall i, j | 0 <= i < j < |[foods[0]] + rest|
          ensures ([foods[0]] + rest)[i].id != ([foods[0]] + rest)[j].id
        {
          if i == 0 {
            var g := rest[j - 1];
            assert g in foods[1..];
            var m :| 0 <= m < |foods[1..]| && foods[1..][m] == g;
            assert foods[m + 1] == g;
          }
        }
      } else {
        assert RemoveById(foods, id) == rest;
      }
    }
  }

  /** Deleting the id of an item just appended with a fresh id gives back the
      list as it was before the append. */
  lemma RemoveUndoesAppend(foods: seq<Food>, item: Food)
    requires CountId(foods, item.id) == 0
    ensures RemoveById(Append(foods, item), item.id) == foods
  {
    RemoveConcat(foods, [item], item.id);
    RemoveMatching(item);
    RemoveAbsent(foods, item.id);
  }

  /** Of two replies for the same id, the later one is what the list shows. */
  lemma ReplaceLastWins(foods: seq<Food>, first: Food, second: Food)
    requires first.id == second.id
    ensures ReplaceById(ReplaceById(foods, first), second) == ReplaceById(foods, second)
  {
  }

  /** Deleting the same id twice is the same as deleting it once. */
  lemma RemoveIdempotent(foods: seq<Food>, id: string)
    ensures RemoveById(RemoveById(foods, id), id) == RemoveById(foods, id)
  {
    var r := RemoveById(foods, id);
    RemoveKeepsOthers(foods, id);
    assert forall i :: 0 <= i < |r| ==> r[i] in r;
    CountIdZero(r, id);
    RemoveAbsent(r, id);
  }
}
