/**
 The recovery pages of the desktop API. A page is read between two reads of the work item's
 revision and kept only if they agree; the store may change at every await, and every change
 raises the revision.
 */
module Snapshots {
  import opened Common
  import opened Paging

  datatype Query = RunsOfItem | ApprovalsOf(run: nat) | InputsOf(run: nat) | TimelineOf(run: nat)

  datatype Row = Row(id: nat, body: string)

  /** One list of the store: ids in order, with their contents. */
  datatype Table = Table(ids: seq<nat>, bodies: map<nat, string>)
  {
    function Get(id: nat): Row { Row(id, if id in bodies then bodies[id] else "") }

    function Rows(selected: seq<nat>): (rows: seq<Row>)
      ensures |rows| == |selected|
    {
      seq(|selected|, i requires 0 <= i < |selected| => Get(selected[i]))
    }
  }

  /** One state of a work item and everything below it. */
  datatype View = View(revision: nat, title: string, tables: map<Query, Table>)
  {
    function TableOf(query: Query): Table {
      if query in tables then tables[query] else Table([], map[])
    }

    predicate Valid() {
      forall query :: query in tables ==> Ascending(tables[query].ids)
    }
  }

  datatype Envelope = Envelope(revision: nat, title: string, items: seq<Row>, next: Option<nat>)

  function EnvelopeOf(view: View, query: Query, after: Option<nat>, limit: nat): Envelope
    requires limit > 0
  {
    var page := PageOf(view.TableOf(query).ids, after, limit);
    Envelope(view.revision, view.title, view.TableOf(query).Rows(page.items), page.next)
  }

  datatype Error = RevisionChanged | Busy | InvalidLimit | NotFound | WrongWorkItem | StoreFailed
  datatype Result<T> = Ok(value: T) | Err(error: Error)

  const SNAPSHOT_RETRIES := 256
  const RECOVERY_PAGE_SIZE := 50
  const MAX_PAGE_SIZE := 200

  // ----- Revisions identify states -----

  /** Every state the work item has been in, oldest first; every change raises the revision. */
  ghost predicate Rising(views: seq<View>) {
    && views != []
    && (forall i :: 0 <= i < |views| ==> views[i].Valid())
    && (forall i, j :: 0 <= i < j < |views| ==> views[i].revision < views[j].revision)
  }

  /** The page is exactly what a query of one single state would have returned. */
  predicate Describes(views: seq<View>, query: Query, after: Option<nat>, limit: nat, envelope: Envelope) {
    limit > 0 && exists i :: 0 <= i < |views| && envelope == EnvelopeOf(views[i], query, after, limit)
  }

  /** The state that the page shows is one of those since `from`. */
  predicate Shows(views: seq<View>, from: int, query: Query, after: Option<nat>, limit: nat, envelope: Envelope) {
    limit > 0 && exists i :: 0 <= i < |views| && from <= i && envelope == EnvelopeOf(views[i], query, after, limit)
  }

  lemma ShownEarlier(views: seq<View>, from: int, earlier: int, query: Query, after: Option<nat>, limit: nat,
                     envelope: Envelope)
    requires Shows(views, from, query, after, limit, envelope) && earlier <= from
    ensures Shows(views, earlier, query, after, limit, envelope)
  {
  }

  lemma ShownBounded(views: seq<View>, from: int, query: Query, after: Option<nat>, limit: nat, envelope: Envelope)
    requires Rising(views) && Shows(views, from, query, after, limit, envelope)
    ensures |envelope.items| <= limit
  {
    var i :| 0 <= i < |views| && from <= i && envelope == EnvelopeOf(views[i], query, after, limit);
    PageFollows(views[i].TableOf(query).ids, after, limit);
  }

  lemma SameState(views: seq<View>, i: nat, j: nat)
    requires Rising(views) && i < |views| && j < |views| && views[i].revision == views[j].revision
    ensures i == j
  {
  }

  // ----- Several pages -----

  /**
   A chain of pages: the first starts at `after`, each continues at the cursor of the one before, and
   `end` is the cursor of the last.
   */
  predicate Chain(views: seq<View>, query: Query, after: Option<nat>, limits: seq<nat>, pages: seq<Envelope>,
                  revision: nat, end: Option<nat>)
    decreases |pages|
  {
    && |limits| == |pages| && pages != []
    && pages[0].revision == revision && Describes(views, query, after, limits[0], pages[0])
    && (if |pages| == 1 then pages[0].next == end
        else pages[0].next.Some?
             && Chain(views, query, pages[0].next, limits[1..], pages[1..], revision, end))
  }

  lemma {:induction false} ChainLater(views: seq<View>, later: seq<View>, query: Query, after: Option<nat>,
                                      limits: seq<nat>, pages: seq<Envelope>, revision: nat, end: Option<nat>)
    requires views <= later && Chain(views, query, after, limits, pages, revision, end)
    ensures Chain(later, query, after, limits, pages, revision, end)
    decreases |pages|
  {
    DescribesLater(views, later, query, after, limits[0], pages[0]);
    if |pages| > 1 {
      ChainLater(views, later, query, pages[0].next, limits[1..], pages[1..], revision, end);
    }
  }

  lemma DescribesLater(views: seq<View>, later: seq<View>, query: Query, after: Option<nat>, limit: nat,
                       envelope: Envelope)
    requires views <= later && Describes(views, query, after, limit, envelope)
    ensures Describes(later, query, after, limit, envelope)
  {
    var i :| 0 <= i < |views| && envelope == EnvelopeOf(views[i], query, after, limit);
    assert later[i] == views[i];
  }

  lemma {:induction false} ChainAppend(views: seq<View>, query: Query, after: Option<nat>, limits: seq<nat>,
                                       pages: seq<Envelope>, revision: nat, end: Option<nat>, limit: nat,
                                       page: Envelope)
    requires Chain(views, query, after, limits, pages, revision, end) && end.Some?
    requires Describes(views, query, end, limit, page) && page.revision == revision
    ensures Chain(views, query, after, limits + [limit], pages + [page], revision, page.next)
    decreases |pages|
  {
    assert (limits + [limit])[1..] == limits[1..] + [limit] && (pages + [page])[1..] == pages[1..] + [page];
    if |pages| > 1 {
      ChainAppend(views, query, pages[0].next, limits[1..], pages[1..], revision, end, limit, page);
    }
  }

  /** A page with a cursor leaves less behind it. */
  lemma {:induction false} PageShrinks(views: seq<View>, at: nat, query: Query, after: Option<nat>, limit: nat,
                                       page: Envelope)
    requires Rising(views) && at < |views| && Describes(views, query, after, limit, page)
    requires page.revision == views[at].revision && page.next.Some?
    ensures |Beyond(views[at].TableOf(query).ids, page.next)| < |Beyond(views[at].TableOf(query).ids, after)|
  {
    var i :| 0 <= i < |views| && page == EnvelopeOf(views[i], query, after, limit);
    SameState(views, i, at);
    assert views[at].Valid();
    PageFollows(views[at].TableOf(query).ids, after, limit);
  }

  function WholeList(view: View, query: Query): seq<Row> { view.TableOf(query).Rows(view.TableOf(query).ids) }

  function Items(pages: seq<Envelope>): seq<Row> {
    if pages == [] then [] else pages[0].items + Items(pages[1..])
  }

  lemma RowsConcat(table: Table, first: seq<nat>, second: seq<nat>)
    ensures table.Rows(first + second) == table.Rows(first) + table.Rows(second)
  {
  }

  /** The next page joins the chain, and the rest of the list gets shorter. */
  lemma {:induction false} PageJoins(views: seq<View>, later: seq<View>, at: nat, query: Query, limits: seq<nat>,
                                     pages: seq<Envelope>,
                  after: Option<nat>, limit: nat, page: Envelope)
    requires views <= later && Rising(later) && at < |later| && after.Some? && page.revision == later[at].revision
    requires Chain(views, query, None, limits, pages, page.revision, after)
    requires Describes(later, query, after, limit, page)
    ensures Chain(later, query, None, limits + [limit], pages + [page], page.revision, page.next)
    ensures page.next.Some? ==>
              |Beyond(later[at].TableOf(query).ids, page.next)| < |Beyond(later[at].TableOf(query).ids, after)|
  {
    ChainLater(views, later, query, None, limits, pages, page.revision, after);
    ChainAppend(later, query, None, limits, pages, page.revision, after, limit, page);
    if page.next.Some? {
      PageShrinks(later, at, query, after, limit, page);
    }
  }

  /** Pages of one revision, followed to the end, are the rest of one state's list. */
  lemma {:induction false} ChainRest(views: seq<View>, query: Query, after: Option<nat>, limits: seq<nat>,
                                     pages: seq<Envelope>, at: nat)
    requires Rising(views) && at < |views|
    requires Chain(views, query, after, limits, pages, views[at].revision, None)
    ensures Items(pages) == views[at].TableOf(query).Rows(Beyond(views[at].TableOf(query).ids, after))
    decreases |pages|
  {
    var table := views[at].TableOf(query);
    var i :| 0 <= i < |views| && pages[0] == EnvelopeOf(views[i], query, after, limits[0]);
    SameState(views, i, at);
    assert views[at].Valid();
    PageFollows(table.ids, after, limits[0]);
    var page := PageOf(table.ids, after, limits[0]);
    if |pages| == 1 {
      assert Items(pages) == pages[0].items + Items(pages[1..]) == pages[0].items;
      assert page.items + [] == page.items;
    } else {
      ChainRest(views, query, pages[0].next, limits[1..], pages[1..], at);
      RowsConcat(table, page.items, Beyond(table.ids, page.next));
    }
  }

  /**
   Multi-page snapshots. Pages fetched with the first page's revision as the expected one all
   describe a single state, and following the cursors to the end yields exactly its whole list.
   */
  lemma {:induction false} SnapshotIsWhole(views: seq<View>, query: Query, limits: seq<nat>, pages: seq<Envelope>)
    requires Rising(views) && pages != [] && Chain(views, query, None, limits, pages, pages[0].revision, None)
    ensures exists at :: 0 <= at < |views| && views[at].revision == pages[0].revision
              && Items(pages) == WholeList(views[at], query)
  {
    var at :| 0 <= at < |views| && pages[0] == EnvelopeOf(views[at], query, None, limits[0]);
    ChainRest(views, query, None, limits, pages, at);
    assert Beyond(views[at].TableOf(query).ids, None) == views[at].TableOf(query).ids;
  }

  // ----- Reading one page -----

  class DesktopApi {
    /** Which work item a run belongs to; this never changes. */
    const owners: map<nat, nat>
    /** Whether store calls may fail. */
    const faulty: bool
    var current: View
    ghost var views: seq<View>
    /** How many store calls have failed. */
    ghost var failures: nat

    ghost predicate Valid()
      reads this
    {
      Rising(views) && views[|views| - 1] == current
    }

    constructor (owners: map<nat, nat>, view: View, faulty: bool)
      requires view.Valid()
      ensures Valid() && current == view && this.owners == owners && this.faulty == faulty
    {
      this.owners, this.faulty, current, views, failures := owners, faulty, view, [view], 0;
    }

    /**
     How reading a page ends. A page shows one single state that the work item was in meanwhile, of the
     expected revision if there is one; giving up means that the work item changed at least once in each
     of the 256 attempts; and a failure is reported exactly if a store call has failed.
     */
    twostate predicate PageRead(query: Query, after: Option<nat>, limit: nat, expected: Option<nat>,
                                new result: Result<Envelope>)
      reads `views, `failures
    {
      && old(views) <= views && old(failures) <= failures && (!faulty ==> failures == old(failures))
      && (result == Err(StoreFailed) <==> failures > old(failures))
      && (result.Ok? ==>
            && 1 <= limit <= MAX_PAGE_SIZE && (expected.Some? ==> result.value.revision == expected.value)
            && Shows(views, |old(views)| - 1, query, after, limit, result.value))
      && (result == Err(Busy) ==> 1 <= limit <= MAX_PAGE_SIZE && |views| >= |old(views)| + 256)
      && (result == Err(RevisionChanged) ==>
            expected.Some? && exists i ::
              0 <= i < |views| && |old(views)| - 1 <= i && views[i].revision != expected.value)
      && (result == Err(InvalidLimit) ==> !(1 <= limit <= MAX_PAGE_SIZE))
      && result != Err(NotFound) && result != Err(WrongWorkItem)
    }

    /** So it does below a run; but the run is looked for first. */
    twostate predicate RunPageRead(item: nat, run: nat, query: Query, after: Option<nat>, limit: nat,
                                   expected: Option<nat>, new result: Result<Envelope>)
      reads `views, `failures
    {
      if run in owners && owners[run] == item then PageRead(query, after, limit, expected, result)
      else
        && old(views) <= views && old(failures) <= failures && (!faulty ==> failures == old(failures))
        && result == Err(if failures > old(failures) then StoreFailed
                         else if run in owners then WrongWorkItem else NotFound)
    }

    /** Others may change anything while a store call is awaited, and the call may fail. */
    method StoreCall() returns (failed: bool)
      requires Valid()
      modifies this
      ensures Valid() && old(views) <= views && (failed ==> faulty)
      ensures failures == old(failures) + if failed then 1 else 0
    {
      Yield();
      failed := *;
      failed := failed && faulty;
      failures := failures + if failed then 1 else 0;
    }

    /** Any number of changes by others. */
    method Yield()
      requires Valid()
      modifies this
      ensures Valid() && old(views) <= views && failures == old(failures)
    {
      var turns: int := *;
      for turn := 0 to if turns < 0 then 0 else turns
        invariant Valid() && old(views) <= views && failures == old(failures)
      {
        var view: View := *;
        if view.Valid() && view.revision > current.revision {
          current, views := view, views + [view];
        }
      }
    }

    /** One page, retried while the work item changes under it. */
    method ReadPage(query: Query, after: Option<nat>, limit: nat, expected: Option<nat>)
      returns (result: Result<Envelope>)
      requires Valid()
      modifies this
      ensures Valid() && PageRead(query, after, limit, expected, result)
    {
      for attempt := 0 to SNAPSHOT_RETRIES
        invariant Valid() && old(views) <= views && |views| >= |old(views)| + attempt && failures == old(failures)
        invariant attempt > 0 ==> 1 <= limit <= MAX_PAGE_SIZE
      {
        var failed := StoreCall();
        if failed {
          return Err(StoreFailed);
        }
        var revision, title := current.revision, current.title;
        ghost var at := |views| - 1;
        if expected.Some? && expected.value != revision {
          return Err(RevisionChanged);
        }
        failed := StoreCall();
        if failed {
          return Err(StoreFailed);
        }
        if !(1 <= limit <= MAX_PAGE_SIZE) {
          return Err(InvalidLimit);
        }
        var page := EnvelopeOf(current, query, after, limit);
        ghost var listed := |views| - 1;
        failed := StoreCall();
        if failed {
          return Err(StoreFailed);
        }
        if current.revision == revision {
          assert views[|views| - 1].revision == views[at].revision;
          SameState(views, |views| - 1, at);
          assert listed == at;
          return Ok(Envelope(revision, title, page.items, page.next));
        }
      }
      return Err(Busy);
    }

    /** The next page joins those read so far. */
    method ReadNext(query: Query, after: Option<nat>, limit: nat, revision: nat, ghost at: nat,
                    ghost limits: seq<nat>, ghost pages: seq<Envelope>) returns (page: Result<Envelope>)
      requires Valid() && at < |views| && views[at].revision == revision && after.Some?
      requires Chain(views, query, None, limits, pages, revision, after)
      modifies this
      ensures Valid() && PageRead(query, after, limit, Some(revision), page)
      ensures page.Ok? ==> Chain(views, query, None, limits + [limit], pages + [page.value], revision, page.value.next)
      ensures page.Ok? && page.value.next.Some? ==>
                |Beyond(views[at].TableOf(query).ids, page.value.next)| < |Beyond(views[at].TableOf(query).ids, after)|
    {
      page := ReadPage(query, after, limit, Some(revision));
      if page.Ok? {
        PageJoins(old(views), views, at, query, limits, pages, after, limit, page.value);
      }
    }

    /**
     A caller who follows the cursors, pinning the revision of the first page. What comes back is the
     whole list as it was in one single state, whatever changes meanwhile.
     */
    method FollowPages(query: Query, limit: nat) returns (result: Result<seq<Row>>)
      requires Valid()
      modifies this
      ensures Valid() && old(views) <= views
      ensures result.Ok? ==>
                exists at :: |old(views)| - 1 <= at < |views| && result.value == WholeList(views[at], query)
      ensures result == Err(StoreFailed) <==> failures > old(failures)
      ensures result == Err(InvalidLimit) ==> !(1 <= limit <= MAX_PAGE_SIZE)
      ensures result == Err(Busy) ==> |views| >= |old(views)| + SNAPSHOT_RETRIES
    {
      var first := ReadPage(query, None, limit, None);
      if first.Err? {
        return Err(first.error);
      }
      var revision, pages, after := first.value.revision, [first.value], first.value.next;
      ghost var limits := [limit];
      ghost var at :| |old(views)| - 1 <= at < |views| && first.value == EnvelopeOf(views[at], query, None, limit);
      ghost var ids := views[at].TableOf(query).ids;
      while after.Some?
        invariant Valid() && old(views) <= views && failures == old(failures)
        invariant |old(views)| - 1 <= at < |views| && views[at].revision == revision
                  && views[at].TableOf(query).ids == ids
        invariant pages != [] && pages[0].revision == revision
        invariant Chain(views, query, None, limits, pages, revision, after)
        decreases after.Some?, |Beyond(ids, after)|
      {
        var page := ReadNext(query, after, limit, revision, at, limits, pages);
        if page.Err? {
          return Err(page.error);
        }
        pages, limits, after := pages + [page.value], limits + [limit], page.value.next;
      }
      SnapshotIsWhole(views, query, limits, pages);
      return Ok(Items(pages));
    }

    /** A page of the work item's runs, of at most 50 rows. */
    method GetWorkItemSnapshotPage(after: Option<nat>, limit: nat, expected: Option<nat>)
      returns (result: Result<Envelope>)
      requires Valid()
      modifies this
      ensures Valid() && PageRead(RunsOfItem, after, if limit < 50 then limit else 50, expected, result)
      ensures result.Ok? ==> |result.value.items| <= 50
    {
      result := ReadPage(RunsOfItem, after, Smaller(limit, RECOVERY_PAGE_SIZE), expected);
      if result.Ok? {
        ShownBounded(views, |old(views)| - 1, RunsOfItem, after, Smaller(limit, RECOVERY_PAGE_SIZE), result.value);
      }
    }

    static function Smaller(a: nat, b: nat): nat { if a < b then a else b }

    /** A page below one run, which must belong to the work item. */
    method RunPage(item: nat, run: nat, query: Query, after: Option<nat>, limit: nat, expected: Option<nat>)
      returns (result: Result<Envelope>)
      requires Valid()
      modifies this
      ensures Valid() && RunPageRead(item, run, query, after, limit, expected, result)
    {
      var failed := StoreCall();
      if failed {
        return Err(StoreFailed);
      }
      if run !in owners {
        return Err(NotFound);
      }
      if owners[run] != item {
        return Err(WrongWorkItem);
      }
      ghost var from := |views| - 1;
      result := ReadPage(query, after, limit, expected);
      if result.Ok? {
        ShownEarlier(views, from, |old(views)| - 1, query, after, limit, result.value);
      }
    }

    method GetRunApprovalPage(item: nat, run: nat, after: Option<nat>, limit: nat, expected: Option<nat>)
      returns (result: Result<Envelope>)
      requires Valid()
      modifies this
      ensures Valid()
      ensures RunPageRead(item, run, ApprovalsOf(run), after, if limit < 50 then limit else 50, expected, result)
      ensures result.Ok? ==> |result.value.items| <= 50
    {
      result := RunPage(item, run, ApprovalsOf(run), after, Smaller(limit, RECOVERY_PAGE_SIZE), expected);
      if result.Ok? {
        ShownBounded(views, |old(views)| - 1, ApprovalsOf(run), after, Smaller(limit, RECOVERY_PAGE_SIZE),
                     result.value);
      }
    }

    method GetPendingUserInputPage(item: nat, run: nat, after: Option<nat>, limit: nat, expected: Option<nat>)
      returns (result: Result<Envelope>)
      requires Valid()
      modifies this
      ensures Valid()
      ensures RunPageRead(item, run, InputsOf(run), after, if limit < 50 then limit else 50, expected, result)
      ensures result.Ok? ==> |result.value.items| <= 50
    {
      result := RunPage(item, run, InputsOf(run), after, Smaller(limit, RECOVERY_PAGE_SIZE), expected);
      if result.Ok? {
        ShownBounded(views, |old(views)| - 1, InputsOf(run), after, Smaller(limit, RECOVERY_PAGE_SIZE), result.value);
      }
    }

    /** The timeline's page size is not capped here, so one above the store's maximum is an error. */
    method GetWorkItemTimelinePageAtRevision(item: nat, run: nat, after: Option<nat>, limit: nat,
                                             expected: Option<nat>) returns (result: Result<Envelope>)
      requires Valid()
      modifies this
      ensures Valid() && RunPageRead(item, run, TimelineOf(run), after, limit, expected, result)
    {
      result := RunPage(item, run, TimelineOf(run), after, limit, expected);
    }
  }
}
