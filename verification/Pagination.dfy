/** Cursor pagination: common/dto/pagination.dto.ts and the query of orders.service.ts that uses it. */
module Pagination {
  import opened Types

  // An order as far as paging is concerned: when it was made, and the rank of its id in the
  // database's ordering of ids.
  datatype Item = Item(id: int, createdAt: int)

  datatype Page = Page(data: seq<Item>, hasNextPage: bool, nextCursor: Option<int>)

  function Paginate(items: seq<Item>, limit: nat): Page {
    var hasNextPage := |items| == limit;
    var nextCursor := if hasNextPage && items != [] then Some(items[|items| - 1].id) else None;
    Page(items, hasNextPage, nextCursor)
  }

  predicate CursorAllows(cursor: Option<int>, item: Item) {
    cursor.Some? ==> item.id < cursor.value
  }

  // The rows of `list` that the cursor's where clause keeps, in the order of the list.
  function After(list: seq<Item>, cursor: Option<int>): (kept: seq<Item>)
    ensures |kept| <= |list|
  {
    if list == [] then []
    else if CursorAllows(cursor, list[0]) then [list[0]] + After(list[1..], cursor)
    else After(list[1..], cursor)
  }

  function Take(items: seq<Item>, limit: nat): seq<Item> {
    if |items| <= limit then items else items[..limit]
  }

  // `list` is the filtered table, newest first.
  function FindPage(list: seq<Item>, cursor: Option<int>, limit: nat): Page {
    Paginate(Take(After(list, cursor), limit), limit)
  }

  // A client that follows nextCursor until hasNextPage is false.
  function Walk(list: seq<Item>, cursor: Option<int>, limit: nat): seq<Item>
    requires limit >= 1
    decreases |After(list, cursor)|
  {
    var page := FindPage(list, cursor, limit);
    if !page.hasNextPage then page.data
    else
      NextPageIsShorter(list, cursor, limit);
      page.data + Walk(list, page.nextCursor, limit)
  }

  lemma {:induction false} AfterMembers(list: seq<Item>, cursor: Option<int>)
    ensures forall x :: x in After(list, cursor) <==> x in list && CursorAllows(cursor, x)
  {
    if list != [] {
      AfterMembers(list[1..], cursor);
      assert list == [list[0]] + list[1..];
    }
  }

  // A later cursor keeps a part of what an earlier one kept.
  lemma {:induction false} AfterShrinks(list: seq<Item>, cursor: Option<int>, next: int)
    requires cursor.Some? ==> next < cursor.value
    ensures |After(list, Some(next))| <= |After(list, cursor)|
    ensures (exists x :: x in After(list, cursor) && x.id == next) ==>
      |After(list, Some(next))| < |After(list, cursor)|
  {
    if list != [] {
      AfterShrinks(list[1..], cursor, next);
    }
  }

  lemma NextPageIsShorter(list: seq<Item>, cursor: Option<int>, limit: nat)
    requires limit >= 1 && FindPage(list, cursor, limit).hasNextPage
    ensures
      var next := FindPage(list, cursor, limit).nextCursor;
      next.Some? && |After(list, next)| < |After(list, cursor)|
  {
    var kept := After(list, cursor);
    var last := Take(kept, limit)[limit - 1];
    assert last in kept;
    AfterMembers(list, cursor);
    AfterShrinks(list, cursor, last.id);
  }

  /** One page: the first `limit` of the rows that the cursor keeps, another page promised if
      and only if there were that many, and then the cursor is the last id shown. */
  lemma PageExactly(list: seq<Item>, cursor: Option<int>, limit: nat)
    requires limit >= 1
    ensures
      var kept, page := After(list, cursor), FindPage(list, cursor, limit);
      && page.data <= kept && |page.data| == (if |kept| < limit then |kept| else limit)
      && (page.hasNextPage <==> |kept| >= limit)
      && page.nextCursor == if |kept| >= limit then Some(kept[limit - 1].id) else None
    ensures forall x :: x in After(list, cursor) <==> x in list && (cursor.Some? ==> x.id < cursor.value)
  {
    AfterMembers(list, cursor);
  }

  // Ids fall along the list.
  predicate IdsFall(list: seq<Item>) {
    forall i, j :: 0 <= i < j < |list| ==> list[i].id > list[j].id
  }

  lemma {:induction false} AfterIsSuffix(list: seq<Item>, k: nat)
    requires IdsFall(list) && k < |list|
    ensures After(list, Some(list[k].id)) == list[k + 1..]
  {
    var cursor := Some(list[k].id);
    if k == 0 {
      AllKept(list[1..], cursor);
    } else {
      AfterIsSuffix(list[1..], k - 1);
      assert list[1..][k - 1 + 1..] == list[k + 1..];
    }
  }

  lemma {:induction false} AllKept(list: seq<Item>, cursor: Option<int>)
    requires forall i :: 0 <= i < |list| ==> CursorAllows(cursor, list[i])
    ensures After(list, cursor) == list
  {
    if list != [] {
      AllKept(list[1..], cursor);
    }
  }

  // The cursor of a client that has seen the first k items.
  function CursorAt(list: seq<Item>, k: nat): Option<int>
    requires k <= |list|
  {
    if k == 0 then None else Some(list[k - 1].id)
  }

  lemma AfterAt(list: seq<Item>, k: nat)
    requires IdsFall(list) && k <= |list|
    ensures After(list, CursorAt(list, k)) == list[k..]
  {
    if k == 0 {
      AllKept(list, None);
      assert list[0..] == list;
    } else {
      AfterIsSuffix(list, k - 1);
    }
  }

  lemma PageOf(list: seq<Item>, k: nat, limit: nat)
    requires limit >= 1 && k <= |list|
    ensures
      var page := Paginate(Take(list[k..], limit), limit);
      if |list| - k < limit then !page.hasNextPage && page.data == list[k..]
      else page == Page(list[k..k + limit], true, CursorAt(list, k + limit))
  {
    if |list| - k >= limit {
      assert list[k..][..limit] == list[k..k + limit];
    }
  }

  lemma PageAt(list: seq<Item>, k: nat, limit: nat)
    requires IdsFall(list) && limit >= 1 && k <= |list|
    ensures
      var page := FindPage(list, CursorAt(list, k), limit);
      if |list| - k < limit then !page.hasNextPage && page.data == list[k..]
      else page == Page(list[k..k + limit], true, CursorAt(list, k + limit))
  {
    AfterAt(list, k);
    PageOf(list, k, limit);
  }

  lemma PageThenRest(list: seq<Item>, k: nat, n: nat)
    requires k + n <= |list|
    ensures list[k..k + n] + list[k + n..] == list[k..]
  {
  }

  lemma WalkTurnsPage(list: seq<Item>, cursor: Option<int>, limit: nat)
    requires limit >= 1
    ensures
      var page := FindPage(list, cursor, limit);
      Walk(list, cursor, limit) ==
      if page.hasNextPage then page.data + Walk(list, page.nextCursor, limit) else page.data
  {
  }

  lemma {:induction false} WalkFrom(list: seq<Item>, k: nat, limit: nat)
    requires IdsFall(list) && limit >= 1 && k <= |list|
    ensures Walk(list, CursorAt(list, k), limit) == list[k..]
    decreases |list| - k
  {
    PageAt(list, k, limit);
    WalkTurnsPage(list, CursorAt(list, k), limit);
    if |list| - k >= limit {
      WalkFrom(list, k + limit, limit);
      PageThenRest(list, k, limit);
    }
  }

  // A walk in steps of one visits strictly falling ids, whatever the list.
  lemma {:induction false} SingleStepsFall(list: seq<Item>, cursor: Option<int>)
    ensures IdsFall(Walk(list, cursor, 1))
    ensures forall x :: x in Walk(list, cursor, 1) ==> CursorAllows(cursor, x)
    decreases |After(list, cursor)|
  {
    AfterMembers(list, cursor);
    var page := FindPage(list, cursor, 1);
    if page.hasNextPage {
      NextPageIsShorter(list, cursor, 1);
      var rest := Walk(list, page.nextCursor, 1);
      SingleStepsFall(list, page.nextCursor);
      assert page.data[0] in After(list, cursor) && CursorAllows(cursor, page.data[0]);
      assert forall x :: x in rest ==> x.id < page.data[0].id;
      assert Walk(list, cursor, 1) == [page.data[0]] + rest;
    }
  }

  // The listing's order: newest first, and in any order within the same moment.
  predicate NewestFirst(list: seq<Item>) {
    forall i, j :: 0 <= i < j < |list| ==> list[i].createdAt >= list[j].createdAt
  }

  // Ids sort the same way as createdAt.
  predicate IdsFollowTime(list: seq<Item>) {
    forall i, j :: 0 <= i < |list| && 0 <= j < |list| && list[i].createdAt > list[j].createdAt ==>
      list[i].id > list[j].id
  }

  // Orders of the same moment happen to be listed by falling id.
  predicate TiesFall(list: seq<Item>) {
    forall i, j :: 0 <= i < j < |list| && list[i].createdAt == list[j].createdAt ==> list[i].id > list[j].id
  }

  lemma IdsFallIff(list: seq<Item>)
    requires NewestFirst(list)
    ensures IdsFall(list) <==> IdsFollowTime(list) && TiesFall(list)
  {
    if IdsFall(list) {
      forall i, j | 0 <= i < |list| && 0 <= j < |list| && list[i].createdAt > list[j].createdAt
        ensures list[i].id > list[j].id
      {
        assert i < j;
      }
    }
  }

  lemma WalkIsListIffIdsFall(list: seq<Item>)
    ensures IdsFall(list) <==> forall limit: nat :: limit >= 1 ==> Walk(list, None, limit) == list
  {
    if IdsFall(list) {
      forall limit: nat | limit >= 1
        ensures Walk(list, None, limit) == list
      {
        WalkFrom(list, 0, limit);
        assert list[0..] == list;
      }
    } else {
      SingleStepsFall(list, None);
      assert Walk(list, None, 1) != list;
    }
  }

  /** Following the cursor visits a listing exactly, every item once and in order, for every
      page size, if and only if ids sort the same way as creation times and orders of the
      same moment are listed by id, which the query does not ask for. */
  lemma WalkIsListIffIdsFollowTime(list: seq<Item>)
    requires NewestFirst(list)
    ensures IdsFollowTime(list) && TiesFall(list) <==>
            forall limit: nat :: limit >= 1 ==> Walk(list, None, limit) == list
  {
    IdsFallIff(list);
    WalkIsListIffIdsFall(list);
  }
}
