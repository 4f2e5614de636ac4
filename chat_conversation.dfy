/** The conversation page: the optimistic assistant placeholder that is
    added while the reply to the user's last message is pending, and the
    "loading" indicator read from the cache. */
module ChatConversation {
  import opened Wrappers
  import opened ChatTypes
  import opened MessageList

  /** The trigger of the placeholder effect: a settled query whose
      messages are non-empty, odd in number and end with the user's. */
  predicate ShouldInsertPlaceholder(isSuccess: bool, content: seq<Message>) {
    isSuccess && |content| > 0 && |content| % 2 == 1 && content[|content| - 1].role == User
  }

  /** The updater has work to do: there are pages and the last message is
      not the assistant's (an empty last page counts as such). */
  predicate PlaceholderDue(cache: Option<Pages>) {
    && cache.Some? && cache.value != []
    && !(LastOfLastPage(cache.value).Some? && LastOfLastPage(cache.value).value.role == Assistant)
  }

  /** The cache updater: no pages, or a last page ending with an assistant
      message, leave the cache alone; otherwise `placeholder` is appended
      to the last page, and only there. */
  function PlaceholderInserted(cache: Option<Pages>, placeholder: Message): (r: Option<Pages>)
    ensures cache.None? || cache.value == [] ==> r == cache
    ensures LastOfLastPage(cache.GetOr([])).Some? && LastOfLastPage(cache.GetOr([])).value.role == Assistant ==> r == cache
    ensures r != cache <==> PlaceholderDue(cache)
    ensures PlaceholderDue(cache) ==>
      && r.Some?
      && var before, after := cache.value, r.value;
      && |after| == |before| > 0
      && (forall i :: 0 <= i < |before| - 1 ==> after[i] == before[i])
      && after[|after| - 1] == before[|before| - 1] + [placeholder]
  {
    if cache.None? || cache.value == [] then cache
    else
      var pages := cache.value;
      var last := pages[|pages| - 1];
      if last != [] && last[|last| - 1].role == Assistant then cache
      else Some(pages[|pages| - 1 := last + [placeholder]])
  }

  /** With an assistant placeholder, as the generator's name promises, the
      updater is idempotent: the second run finds the placeholder last. */
  lemma PlaceholderIdempotent(cache: Option<Pages>, placeholder: Message)
    requires placeholder.role == Assistant
    ensures PlaceholderInserted(PlaceholderInserted(cache, placeholder), placeholder) == PlaceholderInserted(cache, placeholder)
  {
    var once := PlaceholderInserted(cache, placeholder);
    if once != cache {
      assert LastOfLastPage(once.value) == Some(placeholder);
    }
  }

  /** The flattened transcript grows by exactly the placeholder. */
  lemma PlaceholderAppendsToTranscript(cache: Option<Pages>, placeholder: Message)
    requires PlaceholderDue(cache)
    ensures Flatten(PlaceholderInserted(cache, placeholder).value) == Flatten(cache.value) + [placeholder]
  {
    var pages := cache.value;
    var n := |pages| - 1;
    var after := PlaceholderInserted(cache, placeholder).value;
    assert after[..n] == pages[..n];
    assert Flatten(after) == Flatten(after[..n]) + after[n];
  }

  /** A fresh placeholder (assistant, running, no text yet) puts the
      transcript into the `Submitted` status. */
  lemma PlaceholderSubmits(cache: Option<Pages>, placeholder: Message)
    requires PlaceholderDue(cache)
    requires placeholder.role == Assistant && placeholder.status == Running && placeholder.content == ""
    ensures MessageStatus(Flatten(PlaceholderInserted(cache, placeholder).value)) == Submitted
  {
    PlaceholderAppendsToTranscript(cache, placeholder);
  }

  /** `isLoadingMessage`. */
  function IsLoadingMessage(inboxId: string, cache: Option<Pages>): (r: bool)
    ensures r <==>
      && inboxId != ""
      && cache.Some? && LastOfLastPage(cache.value).Some?
      && LastOfLastPage(cache.value).value.role == Assistant
      && LastOfLastPage(cache.value).value.status == Running
  {
    if inboxId == "" || cache.None? then false
    else
      match LastOfLastPage(cache.value)
      case None => false
      case Some(m) => m.role == Assistant && m.status == Running
  }

  /** Once the running placeholder is in, the page shows the loading
      indicator for any open inbox. */
  lemma PlaceholderShowsLoading(inboxId: string, cache: Option<Pages>, placeholder: Message)
    requires inboxId != "" && PlaceholderDue(cache)
    requires placeholder.role == Assistant && placeholder.status == Running
    ensures IsLoadingMessage(inboxId, PlaceholderInserted(cache, placeholder))
  {
    var after := PlaceholderInserted(cache, placeholder).value;
    assert after[|after| - 1][|after[|after| - 1]| - 1] == placeholder;
  }
}
