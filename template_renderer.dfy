/** Preview resolution: a registry from template id to a deferred loader, and
    the renderer that either goes down the lazy path (loading skeleton, then
    the loaded component) or shows the "coming soon" placeholder. */
module TemplateRenderer {
  import opened Wrappers
  import opened TemplateTypes

  /** A deferred loader `() => import(modulePath)`, kept as an opaque token:
      what the import yields is outside the model. */
  datatype Loader = Import(modulePath: string)

  /** `templateRegistry`: the three template ids that have an implementation. */
  const Registry: map<string, Loader> := map[
    "minimal-modern" := Import("@/templates/minimal-modern"),
    "bold-animated" := Import("@/templates/bold-animated"),
    "elegant-gradient" := Import("@/templates/elegant-gradient")]

  /** What the placeholder shows: the name, the description and, when the
      template has a non-empty tag list, the whole list in order. */
  datatype PlaceholderView = PlaceholderView(
    name: string,
    description: string,
    tags: Option<seq<string>>)

  /** One observable state of the preview area. */
  datatype Frame =
    | LoadingSkeleton           // the Suspense fallback
    | Loaded(component: Loader) // the component the loader produced
    | Placeholder(view: PlaceholderView)

  /** `TemplatePlaceholder` */
  function PlaceholderOf(t: Template): (v: PlaceholderView)
    ensures v.name == t.name && v.description == t.description
    ensures v.tags.Some? <==> HasTags(t)
    ensures v.tags.Some? ==> v.tags.value == t.tags.value
  {
    PlaceholderView(t.name, t.description, if HasTags(t) then t.tags else None)
  }

  /** `TemplateRenderer`: the sequence of frames shown for `t`, from the first
      render until the view settles. A registered id gives the skeleton and
      then the loaded component; any other id gives the placeholder at once. */
  function Render(t: Template): (frames: seq<Frame>)
    ensures 0 < |frames| <= 2
    ensures frames[0].LoadingSkeleton? <==> t.id in Registry
    ensures !frames[|frames| - 1].LoadingSkeleton?
    ensures frames[|frames| - 1].Loaded? <==> t.id in Registry
    ensures frames[|frames| - 1].Loaded? ==> frames[|frames| - 1].component == Registry[t.id]
    ensures frames[|frames| - 1].Placeholder? ==> frames[|frames| - 1].view == PlaceholderOf(t)
    ensures t.id !in Registry ==> frames == [Placeholder(PlaceholderOf(t))]
  {
    if t.id in Registry then [LoadingSkeleton, Loaded(Registry[t.id])]
    else [Placeholder(PlaceholderOf(t))]
  }

  /** True when the frames go down the lazy path. */
  predicate IsLazy(frames: seq<Frame>)
  {
    |frames| > 0 && frames[0].LoadingSkeleton?
  }

  /** The registry's key set is exactly the three implemented templates. */
  lemma RegistryKeys()
    ensures Registry.Keys == {"minimal-modern", "bold-animated", "elegant-gradient"}
  {
  }

  /** Each registered id loads the template module of the same name. */
  lemma RegistryLoadsOwnModule()
    ensures forall id | id in Registry :: Registry[id].modulePath == "@/templates/" + id
  {
  }

  /** Every render ends in a terminal frame, which is the only non-skeleton
      frame; the skeleton is shown at most once, and only first. */
  lemma RenderSettles(t: Template)
    ensures |Render(t)| > 0
    ensures !Render(t)[|Render(t)| - 1].LoadingSkeleton?
    ensures forall i | 0 <= i < |Render(t)| :: Render(t)[i].LoadingSkeleton? <==> i < |Render(t)| - 1
    ensures |Render(t)| <= 2
  {
  }

  /** Registered ids take the lazy path: the skeleton, then the component of
      that id's loader. */
  lemma RegisteredGoesLazy(t: Template)
    requires t.id in Registry
    ensures IsLazy(Render(t))
    ensures Render(t) == [LoadingSkeleton, Loaded(Registry[t.id])]
  {
  }

  /** Unregistered ids go straight to the placeholder, with no skeleton frame,
      and the placeholder shows the template's own name, description and tags. */
  lemma UnregisteredGoesToPlaceholder(t: Template)
    requires t.id !in Registry
    ensures !IsLazy(Render(t))
    ensures forall i | 0 <= i < |Render(t)| :: !Render(t)[i].LoadingSkeleton?
    ensures Render(t) == [Placeholder(PlaceholderView(t.name, t.description,
              if HasTags(t) then t.tags else None))]
  {
  }

  /** Which path is taken depends on the id alone, and on the lazy path the
      frames depend on nothing else either. */
  lemma RenderDependsOnId(t1: Template, t2: Template)
    requires t1.id == t2.id
    ensures IsLazy(Render(t1)) == IsLazy(Render(t2))
    ensures IsLazy(Render(t1)) ==> Render(t1) == Render(t2)
    ensures IsLazy(Render(t1)) <==> t1.id in Registry
  {
  }
}
