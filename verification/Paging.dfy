/** Keyset paging over an ascending list of ids, as the store's queries do it. */
module Paging {
  import opened Common

  predicate Ascending(ids: seq<nat>) {
    forall i, j :: 0 <= i < j < |ids| ==> ids[i] < ids[j]
  }

  /** The ids after a cursor. */
  function Beyond(ids: seq<nat>, after: Option<nat>): (rest: seq<nat>)
    ensures |rest| <= |ids|
  {
    if ids == [] || after == None || ids[0] > after.value then ids else Beyond(ids[1..], after)
  }

  datatype Page = Page(items: seq<nat>, next: Option<nat>)

  /** One query: at most `limit` ids, and a cursor only if there are more. */
  function PageOf(ids: seq<nat>, after: Option<nat>, limit: nat): Page
    requires limit > 0
  {
    var rest := Beyond(ids, after);
    if |rest| > limit then Page(rest[..limit], Some(rest[limit - 1])) else Page(rest, None)
  }

  lemma AscendingTail(ids: seq<nat>)
    requires Ascending(ids) && ids != []
    ensures Ascending(ids[1..]) && forall id :: id in ids[1..] ==> id > ids[0]
  {
  }

  lemma {:induction false} BeyondAscending(ids: seq<nat>, after: Option<nat>)
    requires Ascending(ids)
    ensures Ascending(Beyond(ids, after))
    decreases |ids|
  {
    if !(ids == [] || after == None || ids[0] > after.value) {
      AscendingTail(ids);
      BeyondAscending(ids[1..], after);
    }
  }

  /** What is beyond a cursor are the greater ids. */
  lemma {:induction false} BeyondMembers(ids: seq<nat>, after: Option<nat>, id: nat)
    requires Ascending(ids)
    ensures id in Beyond(ids, after) <==> id in ids && (after.Some? ==> id > after.value)
    decreases |ids|
  {
    if ids != [] {
      AscendingTail(ids);
      assert id in ids <==> id == ids[0] || id in ids[1..] by {
        assert ids == [ids[0]] + ids[1..];
      }
      if !(after == None || ids[0] > after.value) {
        BeyondMembers(ids[1..], after, id);
      }
    }
  }

  /** A cursor inside the list cuts it right after that id. */
  lemma {:induction false} BeyondAt(ids: seq<nat>, k: nat)
    requires Ascending(ids) && k < |ids|
    ensures Beyond(ids, Some(ids[k])) == ids[k + 1..]
    decreases k
  {
    AscendingTail(ids);
    if k == 0 {
      assert ids[1..] == [] || ids[1..][0] > ids[0];
    } else {
      BeyondAt(ids[1..], k - 1);
      assert ids[1..][k..] == ids[k + 1..];
    }
  }

  lemma {:induction false} BeyondTwice(ids: seq<nat>, after: Option<nat>, later: nat)
    requires Ascending(ids) && (after.Some? ==> after.value <= later)
    ensures Beyond(Beyond(ids, after), Some(later)) == Beyond(ids, Some(later))
    decreases |ids|
  {
    if !(ids == [] || after == None || ids[0] > after.value) {
      AscendingTail(ids);
      BeyondTwice(ids[1..], after, later);
    }
  }

  /** The cursor of a page continues right after its last id. */
  lemma {:induction false} CursorContinues(ids: seq<nat>, after: Option<nat>, k: nat)
    requires Ascending(ids) && k < |Beyond(ids, after)|
    ensures Beyond(ids, Some(Beyond(ids, after)[k])) == Beyond(ids, after)[k + 1..]
  {
    var rest := Beyond(ids, after);
    var last := rest[k];
    BeyondAscending(ids, after);
    BeyondMembers(ids, after, last);
    BeyondTwice(ids, after, last);
    BeyondAt(rest, k);
  }

  /** A page and what follows its cursor are what followed the cursor before it. */
  lemma {:induction false} PageFollows(ids: seq<nat>, after: Option<nat>, limit: nat)
    requires Ascending(ids) && limit > 0
    ensures var page := PageOf(ids, after, limit);
            && Beyond(ids, after) == page.items + (if page.next.Some? then Beyond(ids, page.next) else [])
            && |page.items| <= limit && (page.next.Some? ==> |page.items| == limit)
  {
    var rest := Beyond(ids, after);
    if |rest| > limit {
      CursorContinues(ids, after, limit - 1);
      assert rest == rest[..limit] + rest[limit..];
    } else {
      assert rest + [] == rest;
    }
  }

  /** The ids that a caller sees who follows every cursor, asking for `limit` at a time. */
  function Followed(ids: seq<nat>, after: Option<nat>, limit: nat): seq<nat>
    requires Ascending(ids) && limit > 0
    decreases |Beyond(ids, after)|
  {
    var page := PageOf(ids, after, limit);
    PageFollows(ids, after, limit);
    if page.next == None then page.items else page.items + Followed(ids, page.next, limit)
  }

  /** Following the cursors to the end yields the whole list, whatever the page size. */
  lemma {:induction false} FollowedWhole(ids: seq<nat>, after: Option<nat>, limit: nat)
    requires Ascending(ids) && limit > 0
    ensures Followed(ids, after, limit) == Beyond(ids, after)
    decreases |Beyond(ids, after)|
  {
    PageFollows(ids, after, limit);
    var page := PageOf(ids, after, limit);
    if page.next.Some? {
      FollowedWhole(ids, page.next, limit);
    }
  }
}
