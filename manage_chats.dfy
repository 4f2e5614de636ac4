/** The "manage chats" dialog: the job inboxes of all loaded pages, the
    search filter over their display names, and multi-selection with
    shift-click ranges. */
module ManageChats {
  import opened Wrappers
  import opened Text

  /** One entry of the inbox list; the last message is given by its text. */
  datatype Inbox = Inbox(inboxId: string, customName: Option<string>, lastMessage: Option<string>)

  const JobInboxPrefix := "job_inbox::"

  predicate IsJobInbox(x: Inbox) {
    StartsWith(x.inboxId, JobInboxPrefix)
  }

  /** The job inboxes of `s`, in order. */
  function JobInboxes(s: seq<Inbox>): (r: seq<Inbox>)
    ensures |r| <= |s|
    ensures forall x :: x in r <==> x in s && IsJobInbox(x)
  {
    if s == [] then []
    else
      var rest := JobInboxes(s[1..]);
      assert forall x :: x in s <==> x == s[0] || x in s[1..];
      (if IsJobInbox(s[0]) then [s[0]] else []) + rest
  }

  /** Filtering keeps the order: it distributes over concatenation. */
  lemma {:induction false} JobInboxesAppend(s: seq<Inbox>, t: seq<Inbox>)
    ensures JobInboxes(s + t) == JobInboxes(s) + JobInboxes(t)
  {
    if s == [] {
      assert s + t == t;
    } else {
      assert (s + t)[0] == s[0];
      assert (s + t)[1..] == s[1..] + t;
      JobInboxesAppend(s[1..], t);
    }
  }

  /** `pages.flatMap(page => page.inboxes)`. */
  function AllPages(pages: seq<seq<Inbox>>): seq<Inbox> {
    if pages == [] then [] else pages[0] + AllPages(pages[1..])
  }

  /** `allInboxes`: the job inboxes of every loaded page, page after page;
      nothing before the first page arrives. */
  function AllInboxes(pages: Option<seq<seq<Inbox>>>): (r: seq<Inbox>)
    ensures pages.None? ==> r == []
    ensures forall x :: x in r ==> IsJobInbox(x)
  {
    if pages.None? then [] else JobInboxes(AllPages(pages.value))
  }

  /** An inbox is listed iff some loaded page holds it and it is a job
      inbox. */
  lemma {:induction false} AllInboxesMembers(pages: seq<seq<Inbox>>, x: Inbox)
    ensures x in AllInboxes(Some(pages)) <==> IsJobInbox(x) && exists i :: 0 <= i < |pages| && x in pages[i]
  {
    AllPagesMembers(pages, x);
  }

  lemma {:induction false} AllPagesMembers(pages: seq<seq<Inbox>>, x: Inbox)
    ensures x in AllPages(pages) <==> exists i :: 0 <= i < |pages| && x in pages[i]
  {
    if pages != [] {
      AllPagesMembers(pages[1..], x);
      if x in AllPages(pages[1..]) {
        var i :| 0 <= i < |pages| - 1 && x in pages[1..][i];
        assert x in pages[i + 1];
      }
      if exists i :: 0 <= i < |pages| && x in pages[i] {
        var i :| 0 <= i < |pages| && x in pages[i];
        if i > 0 {
          assert x in pages[1..][i - 1];
        }
      }
    }
  }

  /** A later page's inboxes come after an earlier page's. */
  lemma {:induction false} AllInboxesPageOrder(pages: seq<seq<Inbox>>, page: seq<Inbox>)
    ensures AllInboxes(Some(pages + [page])) == AllInboxes(Some(pages)) + JobInboxes(page)
  {
    AllPagesAppend(pages, page);
    JobInboxesAppend(AllPages(pages), page);
  }

  lemma {:induction false} AllPagesAppend(pages: seq<seq<Inbox>>, page: seq<Inbox>)
    ensures AllPages(pages + [page]) == AllPages(pages) + page
  {
    if pages == [] {
      assert [page][1..] == [];
    } else {
      assert (pages + [page])[1..] == pages[1..] + [page];
      AllPagesAppend(pages[1..], page);
    }
  }

  /** The name the dialog shows and searches: the last message's text for
      an inbox still carrying its id as custom name, else the custom name. */
  function DisplayName(x: Inbox): Option<string> {
    if x.lastMessage.Some? && x.customName == Some(x.inboxId) then x.lastMessage else x.customName
  }

  /** The lower-cased display name contains the lower-cased query. */
  predicate MatchesQuery(x: Inbox, query: string) {
    DisplayName(x).Some? && Includes(Lower(DisplayName(x).value), Lower(query))
  }

  function Matching(s: seq<Inbox>, query: string): (r: seq<Inbox>)
    ensures |r| <= |s|
    ensures forall x :: x in r <==> x in s && MatchesQuery(x, query)
  {
    if s == [] then []
    else
      var rest := Matching(s[1..], query);
      assert forall x :: x in s <==> x == s[0] || x in s[1..];
      (if MatchesQuery(s[0], query) then [s[0]] else []) + rest
  }

  /** The filter distributes over concatenation, so the kept inboxes stay
      in the list's order. */
  lemma {:induction false} MatchingAppend(s: seq<Inbox>, t: seq<Inbox>, query: string)
    ensures Matching(s + t, query) == Matching(s, query) + Matching(t, query)
  {
    if s == [] {
      assert s + t == t;
    } else {
      assert (s + t)[0] == s[0] && (s + t)[1..] == s[1..] + t;
      MatchingAppend(s[1..], t, query);
    }
  }

  /** `filteredInboxes`: everything for a blank query, else the matching
      inboxes in order. The query is lower-cased but not trimmed. */
  function FilteredInboxes(all: seq<Inbox>, searchQuery: string): (r: seq<Inbox>)
    ensures IsBlank(searchQuery) ==> r == all
    ensures !IsBlank(searchQuery) ==> forall x :: x in r <==> x in all && MatchesQuery(x, searchQuery)
  {
    TrimEmptyIffBlank(searchQuery);
    if Trim(searchQuery) == [] then all else Matching(all, searchQuery)
  }

  /** `findIndex` by inbox id: the first position holding `id`, or -1. */
  function FindIndex(s: seq<Inbox>, id: string): (r: int)
    ensures -1 <= r < |s|
    ensures r == -1 <==> forall i :: 0 <= i < |s| ==> s[i].inboxId != id
    ensures r >= 0 ==> s[r].inboxId == id && forall j :: 0 <= j < r ==> s[j].inboxId != id
  {
    if s == [] then -1
    else if s[0].inboxId == id then 0
    else
      var k := FindIndex(s[1..], id);
      assert forall i :: 1 <= i < |s| ==> s[i] == s[1..][i - 1];
      if k == -1 then -1 else k + 1
  }

  /** The ids at positions `lo` up to but excluding `hi`. */
  function IdsBetween(s: seq<Inbox>, lo: int, hi: int): set<string> {
    set i | 0 <= lo <= i < hi <= |s| :: s[i].inboxId
  }

  /** The range loop of a shift-click: adds the ids at positions `start`
      through `end`, inclusive, to `selected`. */
  method AddRange(selected: set<string>, s: seq<Inbox>, start: nat, end: nat) returns (r: set<string>)
    requires start <= end < |s|
    ensures r == selected + IdsBetween(s, start, end + 1)
  {
    r := selected;
    var i := start;
    while i <= end
      invariant start <= i <= end + 1
      invariant r == selected + IdsBetween(s, start, i)
    {
      assert IdsBetween(s, start, i + 1) == IdsBetween(s, start, i) + {s[i].inboxId};
      r := r + {s[i].inboxId};
      i := i + 1;
    }
  }

  /** `lastSelectedId &&`: an anchor counts only when it is a non-empty id. */
  predicate HasAnchor(lastSelectedId: Option<string>) {
    lastSelectedId.Some? && lastSelectedId.value != ""
  }

  /** The selection after a click on `inboxId`. */
  function Toggled(selected: set<string>, lastSelectedId: Option<string>, filtered: seq<Inbox>,
                   inboxId: string, shiftKey: bool): (r: set<string>)
    // A plain click, or a shift-click on a selected id or without an
    // anchor, flips exactly the clicked id.
    ensures !(shiftKey && HasAnchor(lastSelectedId) && inboxId !in selected) ==>
              (inboxId in r <==> inboxId !in selected) && forall k :: k != inboxId ==> (k in r <==> k in selected)
    // A range click removes nothing and adds only listed ids.
    ensures shiftKey && HasAnchor(lastSelectedId) && inboxId !in selected ==>
              selected <= r && forall k :: k in r - selected ==> exists i :: 0 <= i < |filtered| && filtered[i].inboxId == k
  {
    if shiftKey && HasAnchor(lastSelectedId) && inboxId !in selected then
      var current := FindIndex(filtered, inboxId);
      var last := FindIndex(filtered, lastSelectedId.value);
      if current != -1 && last != -1 then
        var start := if current < last then current else last;
        var end := if current < last then last else current;
        selected + IdsBetween(filtered, start, end + 1)
      else selected
    else if inboxId in selected then selected - {inboxId}
    else selected + {inboxId}
  }

  /** A range click with both ends listed selects the whole range between
      them, both ends included, whichever end comes first. */
  lemma RangeClickSelectsRange(selected: set<string>, anchor: string, filtered: seq<Inbox>, inboxId: string)
    requires anchor != "" && inboxId !in selected
    requires FindIndex(filtered, inboxId) != -1 && FindIndex(filtered, anchor) != -1
    ensures var a, b := FindIndex(filtered, anchor), FindIndex(filtered, inboxId);
      var r := Toggled(selected, Some(anchor), filtered, inboxId, true);
      && inboxId in r && anchor in r
      && (forall i :: (a <= i <= b || b <= i <= a) ==> filtered[i].inboxId in r)
      && (forall k :: k in r - selected ==>
            exists i :: (a <= i <= b || b <= i <= a) && filtered[i].inboxId == k)
  {
    var a, b := FindIndex(filtered, anchor), FindIndex(filtered, inboxId);
    var lo := if b < a then b else a;
    var hi := if b < a then a else b;
    forall i | lo <= i <= hi
      ensures filtered[i].inboxId in IdsBetween(filtered, lo, hi + 1)
    {
    }
  }

  /** A range click with an end missing from the filtered list changes
      nothing. */
  lemma RangeClickMissingEnd(selected: set<string>, anchor: string, filtered: seq<Inbox>, inboxId: string)
    requires anchor != "" && inboxId !in selected
    requires FindIndex(filtered, inboxId) == -1 || FindIndex(filtered, anchor) == -1
    ensures Toggled(selected, Some(anchor), filtered, inboxId, true) == selected
  {
  }

  /** The ids of a list. */
  function IdsOf(s: seq<Inbox>): (r: set<string>)
    ensures forall k :: k in r <==> exists i :: 0 <= i < |s| && s[i].inboxId == k
  {
    set i | 0 <= i < |s| :: s[i].inboxId
  }

  /** `allSelected`: a non-empty list whose every id is selected. */
  predicate AllSelected(filtered: seq<Inbox>, selected: set<string>) {
    |filtered| > 0 && forall x :: x in filtered ==> x.inboxId in selected
  }

  /** Select-all makes the "all selected" box checked for a non-empty
      list, and deselect-all unchecks it. */
  lemma SelectAllChecksBox(filtered: seq<Inbox>)
    ensures AllSelected(filtered, IdsOf(filtered)) <==> |filtered| > 0
    ensures !AllSelected(filtered, {})
  {
    if |filtered| > 0 {
      forall x | x in filtered ensures x.inboxId in IdsOf(filtered) {
        var i :| 0 <= i < |filtered| && filtered[i] == x;
      }
      assert filtered[0] in filtered;
    } else {
      assert filtered == [];
    }
  }

  /** The inboxes a bulk delete is sent for: none without a session or a
      selection. */
  function DeleteRequest(hasAuth: bool, selected: set<string>): (r: Option<set<string>>)
    ensures r.Some? <==> hasAuth && selected != {}
    ensures r.Some? ==> r.value == selected
  {
    if !hasAuth || |selected| == 0 then None else Some(selected)
  }

  /** The dialog's state. */
  class Selection {
    var searchQuery: string
    var selected: set<string>
    var lastSelectedId: Option<string>
    var deleteConfirmOpen: bool

    constructor ()
      ensures searchQuery == "" && selected == {} && lastSelectedId == None && !deleteConfirmOpen
    {
      searchQuery, selected, lastSelectedId, deleteConfirmOpen := "", {}, None, false;
    }

    /** `handleToggleSelect`: the new selection, and the clicked id becomes
        the anchor. */
    method ToggleSelect(filtered: seq<Inbox>, inboxId: string, shiftKey: bool)
      modifies this
      ensures selected == Toggled(old(selected), old(lastSelectedId), filtered, inboxId, shiftKey)
      ensures lastSelectedId == Some(inboxId)
      ensures searchQuery == old(searchQuery) && deleteConfirmOpen == old(deleteConfirmOpen)
    {
      var next := selected;
      var isSelecting := inboxId !in next;
      if shiftKey && lastSelectedId.Some? && lastSelectedId.value != "" && isSelecting {
        var current := FindIndex(filtered, inboxId);
        var last := FindIndex(filtered, lastSelectedId.value);
        if current != -1 && last != -1 {
          var start := if current < last then current else last;
          var end := if current < last then last else current;
          next := AddRange(next, filtered, start, end);
        }
      } else {
        if inboxId in next {
          next := next - {inboxId};
        } else {
          next := next + {inboxId};
        }
      }
      selected := next;
      lastSelectedId := Some(inboxId);
    }

    /** `handleSelectAll`. */
    method SelectAll(filtered: seq<Inbox>)
      modifies this
      ensures selected == IdsOf(filtered)
      ensures searchQuery == old(searchQuery) && lastSelectedId == old(lastSelectedId) && deleteConfirmOpen == old(deleteConfirmOpen)
    {
      selected := IdsOf(filtered);
    }

    /** `handleDeselectAll`. */
    method DeselectAll()
      modifies this
      ensures selected == {}
      ensures searchQuery == old(searchQuery) && lastSelectedId == old(lastSelectedId) && deleteConfirmOpen == old(deleteConfirmOpen)
    {
      selected := {};
    }

    /** The dialog closed: query, selection and confirmation are reset; the
        shift-click anchor is kept. */
    method Close()
      modifies this
      ensures searchQuery == "" && selected == {} && !deleteConfirmOpen
      ensures lastSelectedId == old(lastSelectedId)
    {
      searchQuery := "";
      selected := {};
      deleteConfirmOpen := false;
    }

    /** A bulk delete went through: the selection is emptied and the
        confirmation closed. */
    method DeleteSucceeded()
      modifies this
      ensures selected == {} && !deleteConfirmOpen
      ensures searchQuery == old(searchQuery) && lastSelectedId == old(lastSelectedId)
    {
      selected := {};
      deleteConfirmOpen := false;
    }
  }
}
