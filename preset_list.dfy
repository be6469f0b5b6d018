/**
 * The preset list page: one page of presets at a time, fetched with a
 * skip and a limit derived from the page number and the page size.
 */
module PresetList {
  import opened Wrappers
  import opened Domain
  import opened Browser
  import opened Pagination
  import Api

  /** The listing offset of a page. */
  function Skip(page: int, pageSize: int): int
  {
    (page - 1) * pageSize
  }

  /**
   * A page reachable with the pager is never refused as a malformed
   * request: it is either a window of the listing starting at the page's
   * offset or the "No presets found" 404 past the end.
   */
  lemma {:induction false} ListingRequestValid(presets: seq<Preset>, page: int, pageSize: int)
    requires page >= 1 && OfferedSize(pageSize)
    ensures var r := Api.Page(presets, Skip(page, pageSize), pageSize, "No presets found");
      r != Failure(Api.ValidationError)
      && (r.Failure? <==> |presets| <= Skip(page, pageSize))
      && (r.Success? ==> forall k :: 0 <= k < |r.value| ==> r.value[k] == presets[Skip(page, pageSize) + k])
  {
    assert Skip(page, pageSize) >= 0 by {
      assert page - 1 >= 0 && pageSize > 0;
    }
  }

  class PresetListView {
    var presets: seq<Preset>
    var pageSize: int
    var currentPage: int
    var loading: bool
    var createOpen: bool
    /** The (skip, limit) of every listing request, oldest first. */
    var fetches: seq<(int, int)>

    /** The pager's state is one the pager can reach, and every request made used a valid window. */
    predicate Valid()
      reads this
    {
      currentPage >= 1 && OfferedSize(pageSize)
      && forall k :: 0 <= k < |fetches| ==> fetches[k].0 >= 0 && OfferedSize(fetches[k].1)
    }

    /** The mount effect has run: page 1 of ten. */
    constructor (first: Reply<seq<Preset>>)
      ensures Valid() && pageSize == 10 && currentPage == 1 && !createOpen && !loading
      ensures fetches == [(0, 10)] && presets == if first.Ok? then first.body else []
    {
      presets := [];
      pageSize := 10;
      currentPage := 1;
      loading := false;
      createOpen := false;
      fetches := [];
      new;
      FetchPage(currentPage, pageSize, first);
    }

    /**
     * `fetchPresetsWithPagination`: request one window; a successful reply
     * replaces the list wholesale, anything else (including the 404 body,
     * which is not a list) leaves it; loading is cleared either way.
     */
    method Fetch(skip: int, limit: int, reply: Reply<seq<Preset>>)
      modifies this
      ensures fetches == old(fetches) + [(skip, limit)]
      ensures presets == if reply.Ok? then reply.body else old(presets)
      ensures !loading
      ensures pageSize == old(pageSize) && currentPage == old(currentPage) && createOpen == old(createOpen)
      ensures old(Valid()) && skip >= 0 && OfferedSize(limit) ==> Valid()
    {
      loading := true;
      fetches := fetches + [(skip, limit)];
      if reply.Ok? {
        presets := reply.body;
      }
      loading := false;
    }

    /** `fetchPresets`: the window of page `page` at size `size`. */
    method FetchPage(page: int, size: int, reply: Reply<seq<Preset>>)
      modifies this
      ensures fetches == old(fetches) + [(Skip(page, size), size)]
      ensures presets == if reply.Ok? then reply.body else old(presets)
      ensures !loading
      ensures pageSize == old(pageSize) && currentPage == old(currentPage) && createOpen == old(createOpen)
      ensures old(Valid()) && page >= 1 && OfferedSize(size) ==> Valid()
    {
      if page >= 1 && OfferedSize(size) {
        assert Skip(page, size) >= 0 by {
          assert page - 1 >= 0 && size > 0;
        }
      }
      Fetch(Skip(page, size), size, reply);
    }

    /**
     * `handlePageSizeChange`: the handler's own fetch still sees the old page
     * and size; the effect then fetches page 1 at the new size, if page or
     * size changed.
     */
    method ChangePageSize(choice: SizeChoice, stale: Reply<seq<Preset>>, renewed: Reply<seq<Preset>>)
      requires Valid()
      modifies this
      ensures Valid() && pageSize == Size(choice) && currentPage == 1 && createOpen == old(createOpen)
      ensures var changed := Size(choice) != old(pageSize) || old(currentPage) != 1;
        fetches == old(fetches) + [(Skip(old(currentPage), old(pageSize)), old(pageSize))]
                   + (if changed then [(0, Size(choice))] else [])
    {
      var page, size := currentPage, pageSize;
      pageSize := Size(choice);
      currentPage := 1;
      FetchPage(page, size, stale);
      if pageSize != size || page != 1 {
        FetchPage(currentPage, pageSize, renewed);
      }
    }

    /** Previous: ignored on page 1, otherwise one page back and a fetch. */
    method PressPrevious(reply: Reply<seq<Preset>>)
      requires Valid()
      modifies this
      ensures Valid() && pageSize == old(pageSize) && createOpen == old(createOpen)
      ensures PreviousDisabled(old(currentPage)) ==> currentPage == 1 && fetches == old(fetches) && presets == old(presets)
      ensures !PreviousDisabled(old(currentPage)) ==>
        currentPage == old(currentPage) - 1 && fetches == old(fetches) + [(Skip(currentPage, pageSize), pageSize)]
    {
      if !PreviousDisabled(currentPage) {
        currentPage := PreviousPage(currentPage);
        FetchPage(currentPage, pageSize, reply);
      }
    }

    /** Next: ignored when the page shown is not full, otherwise one page on and a fetch. */
    method PressNext(reply: Reply<seq<Preset>>)
      requires Valid()
      modifies this
      ensures Valid() && pageSize == old(pageSize) && createOpen == old(createOpen)
      ensures NextDisabled(|old(presets)|, pageSize) ==>
        currentPage == old(currentPage) && fetches == old(fetches) && presets == old(presets)
      ensures !NextDisabled(|old(presets)|, pageSize) ==>
        currentPage == old(currentPage) + 1 && fetches == old(fetches) + [(Skip(currentPage, pageSize), pageSize)]
    {
      if !NextDisabled(|presets|, pageSize) {
        currentPage := NextPage(currentPage);
        FetchPage(currentPage, pageSize, reply);
      }
    }

    method OpenCreate()
      modifies this
      ensures createOpen
      ensures presets == old(presets) && pageSize == old(pageSize) && currentPage == old(currentPage)
      ensures loading == old(loading) && fetches == old(fetches)
    {
      createOpen := true;
    }

    /** `handlePresetCreatedSuccessfully`: close the form and fetch the current page again. */
    method PresetCreated(reply: Reply<seq<Preset>>)
      requires Valid()
      modifies this
      ensures Valid() && !createOpen && pageSize == old(pageSize) && currentPage == old(currentPage)
      ensures fetches == old(fetches) + [(Skip(currentPage, pageSize), pageSize)]
      ensures presets == if reply.Ok? then reply.body else old(presets)
    {
      createOpen := false;
      FetchPage(currentPage, pageSize, reply);
    }
  }
}
