/** The template list page: which blocks it shows for a given state of the
    `getTemplates` query, and where its cards lead. */
module TemplatesPage {
  import opened Wrappers
  import opened TemplateTypes
  import opened TemplateCard
  import Catalog
  import TemplateRenderer

  datatype QueryError = QueryError(message: string)

  /** The query hook's result: the data (absent until it has loaded), the
      loading flag and the error (absent unless the query failed). */
  datatype QueryResult = QueryResult(
    data: Option<seq<Template>>,
    isLoading: bool,
    error: Option<QueryError>)

  /** The blocks of the page, in page order: the loading skeletons, the
      failure notice with its message, the "No templates available yet"
      notice, and the grid of cards. Each is shown or not on its own
      condition, so several can be shown at once. */
  datatype PageView = PageView(
    skeletons: nat,
    failure: Option<string>,
    emptyNotice: bool,
    cards: Option<seq<CardView>>)

  /** Number of skeleton blocks shown while loading. */
  const SkeletonCount := 3

  /** `templates.map((template) => <TemplateCard ... />)` */
  function Cards(ts: seq<Template>): (cs: seq<CardView>)
    ensures |cs| == |ts|
    ensures forall i | 0 <= i < |ts| :: cs[i] == Card(ts[i])
  {
    seq(|ts|, i requires 0 <= i < |ts| => Card(ts[i]))
  }

  /** `TemplatesComponent` */
  function View(q: QueryResult): (v: PageView)
    ensures v.skeletons == if q.isLoading then SkeletonCount else 0
    ensures v.failure.Some? <==> q.error.Some?
    ensures v.failure.Some? ==> v.failure.value == q.error.value.message
    ensures v.emptyNotice <==> !q.isLoading && q.error.None? && q.data == Some([])
    ensures v.cards.Some? <==>
      !q.isLoading && q.error.None? && q.data.Some? && |q.data.value| > 0
    ensures v.cards.Some? ==> v.cards.value == Cards(q.data.value)
  {
    var settled := !q.isLoading && q.error.None? && q.data.Some?;
    PageView(
      if q.isLoading then SkeletonCount else 0,
      if q.error.Some? then Some(q.error.value.message) else None,
      settled && |q.data.value| == 0,
      if settled && |q.data.value| > 0 then Some(Cards(q.data.value)) else None)
  }

  /** The empty notice and the card grid never appear together, and neither
      appears while loading or after an error. */
  lemma EmptyAndListExclusive(q: QueryResult)
    ensures !(View(q).emptyNotice && View(q).cards.Some?)
    ensures View(q).emptyNotice || View(q).cards.Some? ==>
      View(q).skeletons == 0 && View(q).failure.None?
  {
  }

  /** The page's conditions do not exclude loading together with an error:
      given both, it shows the skeletons and the failure notice at once.
      Whether the query library ever reports that combination is outside
      this model. */
  lemma LoadingAndFailureTogether()
    ensures var v := View(QueryResult(None, true, Some(QueryError("timeout"))));
      v.skeletons == SkeletonCount && v.failure == Some("timeout")
  {
  }

  /** Before any data has arrived and with no error, nothing but the
      skeletons (if loading) is shown. */
  lemma NoDataShowsNoList(q: QueryResult)
    requires q.data.None?
    ensures !View(q).emptyNotice && View(q).cards.None?
  {
  }

  /** Once the seed catalog has loaded, the page shows one card per seed
      template, in seed order; every card's link names that template's id,
      the lookup of that id finds exactly that template, and its preview
      goes down the lazy path. */
  lemma SeedCatalogNavigation()
    ensures var v := View(QueryResult(Some(Catalog.GetTemplates()), false, None));
      && v.skeletons == 0 && v.failure.None? && !v.emptyNotice
      && v.cards.Some? && |v.cards.value| == |Catalog.Seed|
      && forall i | 0 <= i < |Catalog.Seed| ::
           && v.cards.value[i].title == Catalog.Seed[i].name
           && v.cards.value[i].link == LinkPrefix + Catalog.Seed[i].id
           && Catalog.GetTemplateById(v.cards.value[i].link[|LinkPrefix|..]) == Success(Catalog.Seed[i])
           && TemplateRenderer.IsLazy(TemplateRenderer.Render(Catalog.Seed[i]))
  {
    var v := View(QueryResult(Some(Catalog.GetTemplates()), false, None));
    TemplateRenderer.RegistryKeys();
    forall i | 0 <= i < |Catalog.Seed|
      ensures Catalog.GetTemplateById(v.cards.value[i].link[|LinkPrefix|..]) == Success(Catalog.Seed[i])
      ensures TemplateRenderer.IsLazy(TemplateRenderer.Render(Catalog.Seed[i]))
    {
      Catalog.GetByOwnId(Catalog.Seed[i]);
    }
  }
}
