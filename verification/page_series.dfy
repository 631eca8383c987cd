/** Traversal of a page series (section 2.2.18 of [MS-ONE]): the series'
    root object declares an ordered list of page object spaces, and each is
    looked up in the store and parsed into a page, in declared order,
    stopping at the first failure.

    The store, the root-node parser and the page parser are not part of
    this model: the store is two partial maps, the parsers are parameters. */
module PageSeriesParse {
  import opened Shared

  /** The part of a page-series node the traversal reads. */
  datatype PageSeriesNode = PageSeriesNode(pageSpaces: seq<ExGuid>)

  /** The store: the objects of the root object space, and the object
      spaces, each by id. */
  datatype Store<Obj, Space> = Store(dataRoot: map<ExGuid, Obj>, objectSpaces: map<ExGuid, Space>)

  datatype PageSeries<Page> = PageSeries(pages: seq<Page>) {

    /** The pages of the series, as stored. */
    function Pages(): (r: seq<Page>)
      ensures PageSeries(r) == this
    {
      pages
    }
  }

  const PageSeriesMissing := MalformedOneNoteData("page series object is missing")
  const PageSpaceMissing := MalformedOneNoteData("page space is missing")

  /** One step of the fused map: look the page space up, then parse it. */
  function LoadPage<Obj, Space, Page>(id: ExGuid, store: Store<Obj, Space>, parsePage: Space -> Result<Page>): (r: Result<Page>)
    ensures id !in store.objectSpaces ==> r == Err(PageSpaceMissing)
    ensures id in store.objectSpaces ==> r == parsePage(store.objectSpaces[id])
  {
    if id in store.objectSpaces then parsePage(store.objectSpaces[id]) else Err(PageSpaceMissing)
  }

  /** Loads the pages of `ids` in order; the first failing step's error is
      the result. */
  function CollectPages<Obj, Space, Page>(ids: seq<ExGuid>, store: Store<Obj, Space>, parsePage: Space -> Result<Page>)
    : (r: Result<seq<Page>>)
    ensures r.Ok? <==> forall i :: 0 <= i < |ids| ==> LoadPage(ids[i], store, parsePage).Ok?
    ensures r.Ok? ==>
              && |r.value| == |ids|
              && forall i :: 0 <= i < |ids| ==>
                   && ids[i] in store.objectSpaces
                   && parsePage(store.objectSpaces[ids[i]]) == Ok(r.value[i])
    ensures r.Err? ==>
              exists k :: 0 <= k < |ids|
                && (forall j :: 0 <= j < k ==> LoadPage(ids[j], store, parsePage).Ok?)
                && LoadPage(ids[k], store, parsePage) == Err(r.error)
    decreases |ids|
  {
    if |ids| == 0 then Ok([])
    else
      match LoadPage(ids[0], store, parsePage)
      case Err(e) => Err(e)
      case Ok(page) =>
        match CollectPages(ids[1..], store, parsePage)
        case Err(e) =>
          ghost var k :| 0 <= k < |ids[1..]|
            && (forall j :: 0 <= j < k ==> LoadPage(ids[1..][j], store, parsePage).Ok?)
            && LoadPage(ids[1..][k], store, parsePage) == Err(e);
          assert LoadPage(ids[k + 1], store, parsePage) == Err(e);
          Err(e)
        case Ok(pages) => Ok([page] + pages)
  }

  /** When step `k` is the first to fail, the traversal's error is that
      step's error. */
  lemma FirstFailureDecides<Obj, Space, Page>(ids: seq<ExGuid>, store: Store<Obj, Space>,
                                              parsePage: Space -> Result<Page>, k: nat)
    requires k < |ids|
    requires forall j :: 0 <= j < k ==> LoadPage(ids[j], store, parsePage).Ok?
    requires LoadPage(ids[k], store, parsePage).Err?
    ensures CollectPages(ids, store, parsePage) == Err(LoadPage(ids[k], store, parsePage).error)
  {
    var r := CollectPages(ids, store, parsePage);
    assert r.Err?;
    var k' :| 0 <= k' < |ids|
      && (forall j :: 0 <= j < k' ==> LoadPage(ids[j], store, parsePage).Ok?)
      && LoadPage(ids[k'], store, parsePage) == Err(r.error);
    // an earlier k' would have to pass, a later one would need step k to pass
    assert k' == k;
  }

  /** Short-circuit: when step `k` is the first to fail, that step's error
      is the result, and neither the ids after `k` nor what the store holds
      for them is consulted. */
  lemma CollectStopsAtFirstFailure<Obj, Space, Page>(
    ids: seq<ExGuid>, store: Store<Obj, Space>, ids': seq<ExGuid>, store': Store<Obj, Space>,
    parsePage: Space -> Result<Page>, k: nat)
    requires k < |ids| && k < |ids'| && ids[..k + 1] == ids'[..k + 1]
    requires forall j :: 0 <= j < k ==> LoadPage(ids[j], store, parsePage).Ok?
    requires LoadPage(ids[k], store, parsePage).Err?
    requires forall j :: 0 <= j <= k ==> LoadPage(ids[j], store', parsePage) == LoadPage(ids[j], store, parsePage)
    ensures CollectPages(ids, store, parsePage) == Err(LoadPage(ids[k], store, parsePage).error)
    ensures CollectPages(ids', store', parsePage) == CollectPages(ids, store, parsePage)
  {
    forall j | 0 <= j <= k
      ensures LoadPage(ids'[j], store', parsePage) == LoadPage(ids[j], store, parsePage)
    {
      assert ids'[j] == ids'[..k + 1][j] == ids[..k + 1][j] == ids[j];
    }
    FirstFailureDecides(ids, store, parsePage, k);
    FirstFailureDecides(ids', store', parsePage, k);
  }

  /** Parses the page series whose root object is `id`. */
  function Parse<Obj, Space, Page>(id: ExGuid, store: Store<Obj, Space>,
                                   parseNode: Obj -> Result<PageSeriesNode>, parsePage: Space -> Result<Page>)
    : (r: Result<PageSeries<Page>>)
    ensures id !in store.dataRoot ==> r == Err(PageSeriesMissing)
    ensures id in store.dataRoot && parseNode(store.dataRoot[id]).Err? ==> r == Err(parseNode(store.dataRoot[id]).error)
    ensures id in store.dataRoot && parseNode(store.dataRoot[id]).Ok? ==>
              var spaces := parseNode(store.dataRoot[id]).value.pageSpaces;
              && (spaces == [] ==> r == Ok(PageSeries([])))
              && (r.Ok? <==> forall i :: 0 <= i < |spaces| ==> LoadPage(spaces[i], store, parsePage).Ok?)
              && (forall i :: 0 <= i < |spaces| && LoadPage(spaces[i], store, parsePage).Err?
                    && (forall j :: 0 <= j < i ==> LoadPage(spaces[j], store, parsePage).Ok?)
                    ==> r == Err(LoadPage(spaces[i], store, parsePage).error))
              && (forall i :: 0 <= i < |spaces| && spaces[i] !in store.objectSpaces
                    && (forall j :: 0 <= j < i ==> LoadPage(spaces[j], store, parsePage).Ok?)
                    ==> r == Err(PageSpaceMissing))
    ensures r.Ok? ==>
              && id in store.dataRoot
              && parseNode(store.dataRoot[id]).Ok?
              && var spaces := parseNode(store.dataRoot[id]).value.pageSpaces;
              && |r.value.Pages()| == |spaces|
              && forall i :: 0 <= i < |spaces| ==>
                   && spaces[i] in store.objectSpaces
                   && parsePage(store.objectSpaces[spaces[i]]) == Ok(r.value.Pages()[i])
  {
    if id !in store.dataRoot then Err(PageSeriesMissing)
    else
      match parseNode(store.dataRoot[id])
      case Err(e) => Err(e)
      case Ok(node) =>
        match CollectPages(node.pageSpaces, store, parsePage)
        case Err(e) =>
          FirstFailureIsResult(node.pageSpaces, store, parsePage);
          FirstMissingSpace(node.pageSpaces, store, parsePage);
          Err(e)
        case Ok(pages) => Ok(PageSeries(pages))
  }

  /** Whichever step fails first, with every earlier step succeeding, its
      error ends the traversal unchanged. */
  lemma FirstFailureIsResult<Obj, Space, Page>(ids: seq<ExGuid>, store: Store<Obj, Space>, parsePage: Space -> Result<Page>)
    ensures forall i :: 0 <= i < |ids| && LoadPage(ids[i], store, parsePage).Err?
              && (forall j :: 0 <= j < i ==> LoadPage(ids[j], store, parsePage).Ok?)
              ==> CollectPages(ids, store, parsePage) == Err(LoadPage(ids[i], store, parsePage).error)
  {
    forall i | 0 <= i < |ids| && LoadPage(ids[i], store, parsePage).Err?
               && (forall j :: 0 <= j < i ==> LoadPage(ids[j], store, parsePage).Ok?)
      ensures CollectPages(ids, store, parsePage) == Err(LoadPage(ids[i], store, parsePage).error)
    {
      FirstFailureDecides(ids, store, parsePage, i);
    }
  }

  /** A page space absent from the store, reached with every earlier step
      succeeding, ends the traversal with the missing-space error. */
  lemma FirstMissingSpace<Obj, Space, Page>(ids: seq<ExGuid>, store: Store<Obj, Space>, parsePage: Space -> Result<Page>)
    ensures forall i :: 0 <= i < |ids| && ids[i] !in store.objectSpaces
              && (forall j :: 0 <= j < i ==> LoadPage(ids[j], store, parsePage).Ok?)
              ==> CollectPages(ids, store, parsePage) == Err(PageSpaceMissing)
  {
    forall i | 0 <= i < |ids| && ids[i] !in store.objectSpaces
               && (forall j :: 0 <= j < i ==> LoadPage(ids[j], store, parsePage).Ok?)
      ensures CollectPages(ids, store, parsePage) == Err(PageSpaceMissing)
    {
      FirstFailureDecides(ids, store, parsePage, i);
    }
  }
}
