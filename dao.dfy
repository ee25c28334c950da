/**
 * The generic persistence gateway AbstractDao. The Hibernate session is the
 * table of the entity class: a finite map from identifier to entity, and the
 * next identifier its generator hands out. Criteria queries become functions
 * over that map.
 */
module Dao {
  import opened Wrappers

  /**
   * What the gateway knows of its entity class, given explicitly instead of
   * being found by reflection: the identifier getter, and the entity as it
   * is after Hibernate assigns it a generated identifier.
   */
  datatype EntityClass<!T> = EntityClass(idOf: T -> int, withId: (T, int) -> T)

  /** Assigning an identifier is what the getter then reads back. */
  ghost predicate AssignsIds<T(!new)>(entity: EntityClass<T>) {
    forall e: T, id: int :: entity.idOf(entity.withId(e, id)) == id
  }

  /** The store-layer exceptions the gateway lets through. */
  datatype DaoError =
    | ObjectNotFound(id: int)         // delete of a missing row (ObjectNotFoundException)
    | StaleState(id: int)             // update of a missing row (StaleStateException)
    | NonUniqueResult(count: nat)     // uniqueResult over several rows (NonUniqueResultException)

  // ------------------------------------------------ ordering of identifiers

  /** Each element is below every later one. */
  predicate StrictlyIncreasing(s: seq<int>) {
    forall i, j | 0 <= i < j < |s| :: s[i] < s[j]
  }

  /** A non-empty set has a member. */
  lemma SomeMember(ids: set<int>) returns (id: int)
    requires ids != {}
    ensures id in ids
  {
    assert exists x :: x in ids by {
      if forall x :: x !in ids {
        assert false;
      }
    }
    id :| id in ids;
  }

  /** A non-empty set of identifiers has a least element: found by taking one out and recurring. */
  lemma {:induction false} LeastMember(ids: set<int>) returns (least: int)
    requires ids != {}
    ensures least in ids
    ensures forall k | k in ids :: least <= k
    decreases |ids|
  {
    var x := SomeMember(ids);
    var rest := ids - {x};
    if rest == {} {
      assert forall k | k in ids :: k == x || k in rest;
      least := x;
    } else {
      var m := LeastMember(rest);
      least := if x < m then x else m;
      forall k | k in ids ensures least <= k {
        if k != x {
          assert k in rest;
        }
      }
    }
  }

  lemma MinExists(ids: set<int>)
    requires ids != {}
    ensures exists m :: m in ids && forall k | k in ids :: m <= k
  {
    var least := LeastMember(ids);
  }

  /** The least identifier of a non-empty set. */
  function Least(ids: set<int>): (least: int)
    requires ids != {}
    ensures least in ids
    ensures forall k | k in ids :: least <= k
  {
    MinExists(ids);
    var least :| least in ids && forall k | k in ids :: least <= k;
    least
  }

  /** The identifiers in ascending order: what a criteria query with Order.asc("id") lists. */
  function Ascending(ids: set<int>): seq<int>
    decreases |ids|
  {
    if ids == {} then []
    else
      var least := Least(ids);
      assert |ids - {least}| == |ids| - 1;
      [least] + Ascending(ids - {least})
  }

  /** Ascending lists exactly the identifiers of the set, as many as there are. */
  lemma {:induction false} AscendingMembers(ids: set<int>)
    ensures |Ascending(ids)| == |ids|
    ensures forall i | 0 <= i < |Ascending(ids)| :: Ascending(ids)[i] in ids
    ensures forall id | id in ids :: id in Ascending(ids)
    decreases |ids|
  {
    if ids != {} {
      var least := Least(ids);
      var rest := ids - {least};
      AscendingMembers(rest);
      var r := Ascending(rest);
      var s := Ascending(ids);
      assert s == [least] + r;
      forall i | 0 <= i < |s| ensures s[i] in ids {
        if i > 0 {
          assert s[i] == r[i - 1];
        }
      }
      forall id | id in ids ensures id in s {
        if id != least {
          assert id in rest;
        }
      }
    }
  }

  /** Ascending lists the identifiers in strictly increasing order, so each of them once. */
  lemma {:induction false} AscendingIncreases(ids: set<int>)
    ensures StrictlyIncreasing(Ascending(ids))
    decreases |ids|
  {
    if ids != {} {
      var least := Least(ids);
      var rest := ids - {least};
      AscendingIncreases(rest);
      AscendingMembers(rest);
      var r := Ascending(rest);
      var s := Ascending(ids);
      assert s == [least] + r;
      forall i, j | 0 <= i < j < |s| ensures s[i] < s[j] {
        assert s[j] == r[j - 1] && r[j - 1] in rest;
        if i > 0 {
          assert s[i] == r[i - 1];
        }
      }
    }
  }

  /** Ascending lists every identifier of the set exactly once, in strictly increasing order. */
  lemma AscendingIsSorted(ids: set<int>)
    ensures |Ascending(ids)| == |ids|
    ensures forall i | 0 <= i < |Ascending(ids)| :: Ascending(ids)[i] in ids
    ensures forall id | id in ids :: id in Ascending(ids)
    ensures StrictlyIncreasing(Ascending(ids))
  {
    AscendingMembers(ids);
    AscendingIncreases(ids);
  }

  /** The set of the elements of a sequence. */
  function Elements(s: seq<int>): set<int> {
    set x | x in s
  }

  /** The least element of a strictly increasing sequence's elements is its head. */
  lemma HeadIsLeast(s: seq<int>)
    requires StrictlyIncreasing(s) && s != []
    ensures s[0] in Elements(s)
    ensures Least(Elements(s)) == s[0]
  {
    assert s[0] in Elements(s);
    var least := Least(Elements(s));
    var j :| 0 <= j < |s| && s[j] == least;
  }

  /** Without its head, a strictly increasing sequence holds the other elements. */
  lemma TailElements(s: seq<int>)
    requires StrictlyIncreasing(s) && s != []
    ensures Elements(s[1..]) == Elements(s) - {s[0]}
  {
    var tail := s[1..];
    forall x | x in Elements(s) - {s[0]} ensures x in tail {
      var j :| 0 <= j < |s| && s[j] == x;
      assert tail[j - 1] == x;
    }
    forall x | x in tail ensures x in Elements(s) - {s[0]} {
      var j :| 0 <= j < |tail| && tail[j] == x;
      assert s[j + 1] == x && s[0] < s[j + 1];
    }
  }

  /** Sorting the elements of a strictly increasing sequence gives the sequence back. */
  lemma {:induction false} AscendingOfSorted(s: seq<int>)
    requires StrictlyIncreasing(s)
    ensures Ascending(Elements(s)) == s
    decreases |s|
  {
    if s != [] {
      var ids := Elements(s);
      var tail := s[1..];
      HeadIsLeast(s);
      TailElements(s);
      assert StrictlyIncreasing(tail) by {
        forall i, j | 0 <= i < j < |tail| ensures tail[i] < tail[j] {
          assert tail[i] == s[i + 1] && tail[j] == s[j + 1];
        }
      }
      AscendingOfSorted(tail);
      assert Ascending(ids) == [s[0]] + Ascending(ids - {s[0]});
      assert s == [s[0]] + tail;
    } else {
      assert Elements(s) == {};
    }
  }

  // ------------------------------------------------------------ pagination

  /** The index of the first row of a page: limit rows for every page before it. */
  function FirstResult(offset: int, limit: int): (first: int)
    requires offset >= 1 && limit >= 1
    ensures first >= 0
  {
    if offset == 1 then 0 else FirstResult(offset - 1, limit) + limit
  }

  /** The index of the first row is the source's offset * limit - limit. */
  lemma {:induction false} FirstResultIsProduct(offset: int, limit: int)
    requires offset >= 1 && limit >= 1
    ensures FirstResult(offset, limit) == offset * limit - limit
  {
    if offset > 1 {
      FirstResultIsProduct(offset - 1, limit);
    }
  }

  /** The argument of setFirstResult, computed as the source writes it. */
  method FirstResultOf(offset: int, limit: int) returns (first: int)
    requires offset >= 1 && limit >= 1
    ensures first == FirstResult(offset, limit)
  {
    first := offset * limit - limit;
    FirstResultIsProduct(offset, limit);
  }

  function Min(a: int, b: int): (m: int)
    ensures m <= a && m <= b && (m == a || m == b)
  {
    if a < b then a else b
  }

  /** The run of at most limit elements of all from index first on (none when first is past the end). */
  function Window(all: seq<int>, first: nat, limit: nat): seq<int> {
    var start := Min(first, |all|);
    all[start..Min(start + limit, |all|)]
  }

  /** The window is the run of at most limit elements of all from index first on. */
  lemma WindowContents(all: seq<int>, first: nat, limit: nat)
    ensures |Window(all, first, limit)| <= limit
    ensures forall i | 0 <= i < |Window(all, first, limit)| ::
              first + i < |all| && Window(all, first, limit)[i] == all[first + i]
    ensures forall i | first <= i < first + limit && i < |all| :: all[i] in Window(all, first, limit)
    ensures |Window(all, first, limit)| > 0 <==> first < |all| && limit > 0
  {
    var window := Window(all, first, limit);
    forall i | first <= i < first + limit && i < |all| ensures all[i] in window {
      assert window[i - first] == all[i];
    }
  }

  /** A window of a strictly increasing sequence is strictly increasing. */
  lemma WindowSorted(all: seq<int>, first: nat, limit: nat)
    requires StrictlyIncreasing(all)
    ensures StrictlyIncreasing(Window(all, first, limit))
  {
    var window := Window(all, first, limit);
    var start := Min(first, |all|);
    forall i, j | 0 <= i < j < |window| ensures window[i] < window[j] {
      assert window[i] == all[start + i] && window[j] == all[start + j];
    }
  }

  /**
   * The ids of page number offset (counted from one) of limit rows each:
   * Order.asc("id") with setFirstResult and setMaxResults.
   */
  function PageIds(ids: set<int>, offset: int, limit: int): (page: seq<int>)
    requires offset >= 1 && limit >= 1
    ensures |page| <= limit
  {
    WindowContents(Ascending(ids), FirstResult(offset, limit), limit);
    Window(Ascending(ids), FirstResult(offset, limit), limit)
  }

  /**
   * A page holds stored ids in strictly increasing order, and it is empty
   * exactly when the first result is past the last id.
   */
  lemma PageIsSorted(ids: set<int>, offset: int, limit: int)
    requires offset >= 1 && limit >= 1
    ensures StrictlyIncreasing(PageIds(ids, offset, limit))
    ensures forall i | 0 <= i < |PageIds(ids, offset, limit)| :: PageIds(ids, offset, limit)[i] in ids
    ensures |PageIds(ids, offset, limit)| > 0 <==> FirstResult(offset, limit) < |ids|
  {
    var all := Ascending(ids);
    var first := FirstResult(offset, limit);
    var page := PageIds(ids, offset, limit);
    assert page == Window(all, first, limit);
    AscendingIsSorted(ids);
    WindowContents(all, first, limit);
    WindowSorted(all, first, limit);
  }

  /**
   * The page is the run of ids from the first result on in ascending order:
   * each of its ids is at its place in that order, and every id in that
   * range is on the page.
   */
  lemma PageIsWindow(ids: set<int>, offset: int, limit: int)
    requires offset >= 1 && limit >= 1
    ensures forall i | 0 <= i < |PageIds(ids, offset, limit)| ::
              FirstResult(offset, limit) + i < |Ascending(ids)| &&
              PageIds(ids, offset, limit)[i] == Ascending(ids)[FirstResult(offset, limit) + i]
    ensures forall i | FirstResult(offset, limit) <= i < FirstResult(offset, limit) + limit && i < |Ascending(ids)| ::
              Ascending(ids)[i] in PageIds(ids, offset, limit)
  {
    var all := Ascending(ids);
    var first := FirstResult(offset, limit);
    assert PageIds(ids, offset, limit) == Window(all, first, limit);
    WindowContents(all, first, limit);
  }

  /** Each element of the first sequence is below each element of the second. */
  predicate AllBelow(p: seq<int>, q: seq<int>) {
    forall i, j | 0 <= i < |p| && 0 <= j < |q| :: p[i] < q[j]
  }

  /** Two consecutive windows of a sequence are one window twice as long. */
  lemma WindowsAdjacent(all: seq<int>, first: nat, limit: nat)
    ensures Window(all, first, limit) + Window(all, first + limit, limit)
         == all[Min(first, |all|)..Min(Min(first, |all|) + 2 * limit, |all|)]
  {
    var start := Min(first, |all|);
    var middle := Min(first + limit, |all|);
    var stop := Min(start + 2 * limit, |all|);
    assert Window(all, first, limit) == all[start..middle];
    assert Window(all, first + limit, limit) == all[middle..stop];
    assert all[start..stop] == all[start..middle] + all[middle..stop];
  }

  /** The next page starts where a page ends: the two together are one window twice as long. */
  lemma PagesAreAdjacent(ids: set<int>, offset: int, limit: int)
    requires offset >= 1 && limit >= 1
    ensures var all := Ascending(ids);
            var start := Min(FirstResult(offset, limit), |all|);
            PageIds(ids, offset, limit) + PageIds(ids, offset + 1, limit) == all[start..Min(start + 2 * limit, |all|)]
  {
    var first := FirstResult(offset, limit);
    assert FirstResult(offset + 1, limit) == first + limit;
    WindowsAdjacent(Ascending(ids), first, limit);
  }

  /** In a strictly increasing sequence a window lies below the next one. */
  lemma WindowBelowNext(all: seq<int>, first: nat, limit: nat)
    requires StrictlyIncreasing(all)
    ensures AllBelow(Window(all, first, limit), Window(all, first + limit, limit))
  {
    var p := Window(all, first, limit);
    var q := Window(all, first + limit, limit);
    var start := Min(first, |all|);
    var middle := Min(first + limit, |all|);
    forall i, j | 0 <= i < |p| && 0 <= j < |q| ensures p[i] < q[j] {
      assert p[i] == all[start + i];
      assert q[j] == all[middle + j];
    }
  }

  /** Every id on a page is below every id on the next page, so the two pages are disjoint. */
  lemma NextPageIsHigher(ids: set<int>, offset: int, limit: int)
    requires offset >= 1 && limit >= 1
    ensures AllBelow(PageIds(ids, offset, limit), PageIds(ids, offset + 1, limit))
  {
    var first := FirstResult(offset, limit);
    assert FirstResult(offset + 1, limit) == first + limit;
    AscendingIsSorted(ids);
    WindowBelowNext(Ascending(ids), first, limit);
  }

  /** Re-selecting the rows whose id is on the page, ordered by id, gives the page back. */
  lemma {:induction false} PhaseTwoKeepsPageOrder(ids: set<int>, offset: int, limit: int, selected: set<int>)
    requires offset >= 1 && limit >= 1
    requires forall id :: id in selected <==> id in ids && id in PageIds(ids, offset, limit)
    ensures Ascending(selected) == PageIds(ids, offset, limit)
  {
    var page := PageIds(ids, offset, limit);
    PageIsSorted(ids, offset, limit);
    forall x | x in page ensures x in ids {
      var i :| 0 <= i < |page| && page[i] == x;
    }
    assert forall x :: x in selected <==> x in page;
    assert selected == Elements(page);
    AscendingOfSorted(page);
  }

  /**
   * Phase one of getAll(offset, limit): the distinct ids in ascending order,
   * from the first result on, at most limit of them.
   */
  method PageIdsQuery(ids: set<int>, offset: int, limit: int) returns (uniqueSubList: seq<int>)
    requires offset >= 1 && limit >= 1
    ensures uniqueSubList == PageIds(ids, offset, limit)
  {
    var ordered := Ascending(ids);
    var first := FirstResultOf(offset, limit);
    var start := if first < |ordered| then first else |ordered|;
    var end := if start + limit < |ordered| then start + limit else |ordered|;
    uniqueSubList := ordered[start..end];
  }

  /**
   * Phase two of getAll(offset, limit): the stored ids that are in the
   * sub-list of phase one, ordered by id.
   */
  method ReselectQuery(ids: set<int>, offset: int, limit: int, uniqueSubList: seq<int>) returns (orderedIds: seq<int>)
    requires offset >= 1 && limit >= 1
    requires uniqueSubList == PageIds(ids, offset, limit)
    ensures orderedIds == PageIds(ids, offset, limit)
  {
    var selected := set id | id in ids && id in uniqueSubList;
    orderedIds := Ascending(selected);
    PhaseTwoKeepsPageOrder(ids, offset, limit, selected);
  }

  // ------------------------------------------------------------ the gateway

  class AbstractDao<T(!new)> {
    const entity: EntityClass<T>
    /** The table: each stored entity under its identifier. */
    var rows: map<int, T>
    /** The next identifier the generator hands out. */
    var nextId: int

    ghost predicate Valid()
      reads this
    {
      && AssignsIds(entity)
      && (forall id | id in rows :: entity.idOf(rows[id]) == id)
      && (forall id | id in rows :: id < nextId)
    }

    constructor (entity: EntityClass<T>)
      requires AssignsIds(entity)
      ensures Valid()
      ensures this.entity == entity && rows == map[] && nextId == 1
    {
      this.entity := entity;
      rows := map[];
      nextId := 1;
    }

    /** getToTalCount: the number of distinct stored rows. */
    method TotalCount() returns (count: nat)
      requires Valid()
      ensures count == |rows|
      ensures count == |Ascending(rows.Keys)|
    {
      count := |rows|;
      AscendingIsSorted(rows.Keys);
    }

    /** get(id): the stored entity with that id, null when there is none. */
    method Get(id: int) returns (found: Option<T>)
      requires Valid()
      ensures found.Some? <==> id in rows
      ensures found.Some? ==> found.value == rows[id] && entity.idOf(found.value) == id
    {
      if id in rows {
        found := Some(rows[id]);
      } else {
        found := None;
      }
    }

    /** getAll(): every stored entity exactly once. */
    method GetAll() returns (all: seq<T>)
      requires Valid()
      ensures |all| == |rows|
      ensures forall i | 0 <= i < |all| :: entity.idOf(all[i]) in rows && rows[entity.idOf(all[i])] == all[i]
      ensures forall id | id in rows :: rows[id] in all
      ensures forall i, j | 0 <= i < j < |all| :: entity.idOf(all[i]) != entity.idOf(all[j])
    {
      var table := rows;
      var ids := Ascending(table.Keys);
      AscendingIsSorted(table.Keys);
      all := seq(|ids|, i requires 0 <= i < |ids| => table[ids[i]]);
      forall i | 0 <= i < |all| ensures entity.idOf(all[i]) == ids[i] {
        assert all[i] == table[ids[i]];
      }
      forall id | id in rows ensures rows[id] in all {
        var i :| 0 <= i < |ids| && ids[i] == id;
        assert all[i] == rows[id];
      }
    }

    /**
     * getAll(ids): one lookup per id, in the order given; a missing id gives a
     * null slot.
     */
    method GetAllByIds(ids: seq<int>) returns (list: seq<Option<T>>)
      requires Valid()
      ensures |list| == |ids|
      ensures forall i | 0 <= i < |ids| :: list[i].Some? <==> ids[i] in rows
      ensures forall i | 0 <= i < |ids| && ids[i] in rows :: list[i] == Some(rows[ids[i]])
    {
      list := [];
      var n := 0;
      while n < |ids|
        invariant 0 <= n <= |ids|
        invariant |list| == n
        invariant forall i | 0 <= i < n :: list[i] == if ids[i] in rows then Some(rows[ids[i]]) else None
      {
        var found := Get(ids[n]);
        list := list + [found];
        n := n + 1;
      }
    }

    /**
     * getAll(offset, limit): phase one selects the page of ids, phase two
     * re-fetches the rows with those ids, still ordered by id.
     */
    method GetPage(offset: int, limit: int) returns (page: seq<T>)
      requires Valid()
      requires offset >= 1 && limit >= 1
      ensures |page| <= limit
      ensures |page| == |PageIds(rows.Keys, offset, limit)|
      ensures forall i | 0 <= i < |page| :: entity.idOf(page[i]) == PageIds(rows.Keys, offset, limit)[i]
      ensures forall i | 0 <= i < |page| :: entity.idOf(page[i]) in rows && rows[entity.idOf(page[i])] == page[i]
    {
      var uniqueSubList := PageIdsQuery(rows.Keys, offset, limit);
      var orderedIds := ReselectQuery(rows.Keys, offset, limit, uniqueSubList);
      PageIsSorted(rows.Keys, offset, limit);
      var table := rows;
      page := seq(|orderedIds|, i requires 0 <= i < |orderedIds| => table[orderedIds[i]]);
      forall i | 0 <= i < |page| ensures entity.idOf(page[i]) == orderedIds[i] {
        assert page[i] == table[orderedIds[i]];
      }
    }

    /** create(entity): save under a newly generated identifier; the entity receives that identifier. */
    method Create(e: T) returns (saved: T)
      requires Valid()
      modifies this
      ensures Valid()
      ensures saved == entity.withId(e, old(nextId)) && entity.idOf(saved) == old(nextId)
      ensures old(nextId) !in old(rows)
      ensures rows == old(rows)[old(nextId) := saved]
      ensures nextId == old(nextId) + 1
    {
      saved := entity.withId(e, nextId);
      rows := rows[nextId := saved];
      nextId := nextId + 1;
    }

    /** update(entity): replace the row with the entity's identifier; a missing row is a failure. */
    method Update(e: T) returns (outcome: Outcome<DaoError>)
      requires Valid()
      modifies this
      ensures Valid()
      ensures outcome.Pass? <==> entity.idOf(e) in old(rows)
      ensures outcome.Pass? ==> rows == old(rows)[entity.idOf(e) := e]
      ensures outcome.Fail? ==> outcome.error == StaleState(entity.idOf(e)) && rows == old(rows)
      ensures nextId == old(nextId)
    {
      var id := entity.idOf(e);
      if id in rows {
        rows := rows[id := e];
        outcome := Pass;
      } else {
        outcome := Fail(StaleState(id));
      }
    }

    /** delete(id): load the row, then delete it; a missing row is a failure, not a silent no-op. */
    method Delete(id: int) returns (outcome: Outcome<DaoError>)
      requires Valid()
      modifies this
      ensures Valid()
      ensures outcome.Pass? <==> id in old(rows)
      ensures outcome.Pass? ==> rows == old(rows) - {id}
      ensures outcome.Fail? ==> outcome.error == ObjectNotFound(id) && rows == old(rows)
      ensures nextId == old(nextId)
    {
      var loaded := Get(id);
      if loaded.Some? {
        rows := rows - {id};
        outcome := Pass;
      } else {
        outcome := Fail(ObjectNotFound(id));
      }
    }
  }
}
