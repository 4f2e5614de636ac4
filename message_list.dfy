/** The transcript list: the flattened pages, the status of its last
    message, and the conditions for paging backwards. */
module MessageList {
  import opened Wrappers
  import opened ChatTypes

  datatype ChatStatus = Submitted | Streaming | Ready | Error

  /** `pages.flat()`: the pages' messages, page after page. */
  function Flatten(pages: Pages): seq<Message> {
    if pages == [] then []
    else Flatten(pages[..|pages| - 1]) + pages[|pages| - 1]
  }

  /** Every message of every page is in the flattened list, and nothing
      else is. */
  lemma {:induction false} FlattenMembers(pages: Pages, m: Message)
    ensures m in Flatten(pages) <==> exists i :: 0 <= i < |pages| && m in pages[i]
    decreases |pages|
  {
    if pages != [] {
      var front := pages[..|pages| - 1];
      FlattenMembers(front, m);
      if m in Flatten(front) {
        var i :| 0 <= i < |front| && m in front[i];
        assert m in pages[i];
      }
      if exists i :: 0 <= i < |pages| && m in pages[i] {
        var i :| 0 <= i < |pages| && m in pages[i];
        if i < |pages| - 1 {
          assert m in front[i];
        }
      }
    }
  }

  /** Flattening respects concatenation of page lists. */
  lemma {:induction false} FlattenAppend(ps: Pages, qs: Pages)
    ensures Flatten(ps + qs) == Flatten(ps) + Flatten(qs)
    decreases |qs|
  {
    if qs == [] {
      assert ps + qs == ps;
    } else {
      var q, last := qs[..|qs| - 1], qs[|qs| - 1];
      assert (ps + qs)[..|ps + qs| - 1] == ps + q;
      assert (ps + qs)[|ps + qs| - 1] == last;
      calc {
        Flatten(ps + qs);
        Flatten(ps + q) + last;
        { FlattenAppend(ps, q); }
        Flatten(ps) + Flatten(q) + last;
        Flatten(ps) + Flatten(qs);
      }
    }
  }

  /** Flattening a single page gives that page. */
  lemma FlattenSingle(page: seq<Message>)
    ensures Flatten([page]) == page
  {
    assert [page][..0] == [];
  }

  /** The flattened list ends with the last page's last message whenever
      the last page is non-empty. */
  lemma FlattenLast(pages: Pages)
    requires LastOfLastPage(pages).Some?
    ensures Flatten(pages) != [] && Flatten(pages)[|Flatten(pages)| - 1] == LastOfLastPage(pages).value
  {
    var last := pages[|pages| - 1];
    assert Flatten(pages) == Flatten(pages[..|pages| - 1]) + last;
  }

  /** `getMessageStatus`. */
  function MessageStatus(list: seq<Message>): (r: ChatStatus)
    ensures r != Error
    ensures (list == [] || list[|list| - 1].role != Assistant) ==> r == Ready
    ensures r == Submitted <==>
              (list != [] && list[|list| - 1].role == Assistant && list[|list| - 1].status == Running &&
               list[|list| - 1].content == "")
    ensures r == Streaming <==>
              (list != [] && list[|list| - 1].role == Assistant && list[|list| - 1].status == Running &&
               list[|list| - 1].content != "")
  {
    if list == [] then Ready
    else
      var last := list[|list| - 1];
      if last.role != Assistant then Ready
      else if last.status == Running && last.content == "" then Submitted
      else if last.status == Running && last.content != "" then Streaming
      else if last.status.Complete? then Ready
      else Ready
  }

  /** The list's status depends only on its last message. */
  lemma StatusOfLastOnly(list: seq<Message>, more: seq<Message>)
    requires more != []
    ensures MessageStatus(list + more) == MessageStatus(more)
  {
    assert (list + more)[|list + more| - 1] == more[|more| - 1];
  }

  /** The sentinel pages backwards only when there is an earlier page, it is
      on screen, and no earlier page is already being fetched. */
  predicate ShouldFetchPrevious(hasPreviousPage: bool, inView: bool, isFetchingPreviousPage: bool) {
    hasPreviousPage && inView && !isFetchingPreviousPage
  }

  /** The "no more messages" label: a settled query with every page
      loaded, and more than one of them. */
  predicate ShowAllLoaded(isSuccess: bool, isFetchingPreviousPage: bool, hasPreviousPage: bool, pages: Option<Pages>) {
    isSuccess && !isFetchingPreviousPage && !hasPreviousPage && |pages.GetOr([])| > 1
  }

  /** The fetch trigger and the "all loaded" label exclude each other: one
      needs an earlier page, the other its absence. */
  lemma FetchAndAllLoadedExclusive(isSuccess: bool, inView: bool, isFetching: bool, hasPrevious: bool, pages: Option<Pages>)
    ensures !(ShouldFetchPrevious(hasPrevious, inView, isFetching) && ShowAllLoaded(isSuccess, isFetching, hasPrevious, pages))
  {
  }
}
