/** The template query service: a fixed seed list of templates and the two
    read-only procedures `getTemplates` and `getTemplateById`. */
module Catalog {
  import opened Wrappers
  import opened TemplateTypes

  /** Stand-in source text carried by every seed entry. */
  const PlaceholderCode := "// Template code will be added in Phase 5"

  const MinimalModern := Template(
    "minimal-modern",
    "Minimal Modern Waitlist",
    "A clean, minimalistic landing page template perfect for waitlist signups",
    None,
    Some("minimal"),
    Some(["minimal", "modern", "waitlist"]),
    PlaceholderCode,
    None,
    Some(Seo(
      "Minimal Modern Waitlist - Landing Page Template",
      "A clean, minimalistic landing page template perfect for waitlist signups",
      Some(["waitlist", "landing page", "minimal", "modern"]))))

  const BoldAnimated := Template(
    "bold-animated",
    "Bold Animated Waitlist",
    "A bold, eye-catching template with smooth animations",
    None,
    Some("bold"),
    Some(["bold", "animated", "waitlist"]),
    PlaceholderCode,
    None,
    Some(Seo(
      "Bold Animated Waitlist - Landing Page Template",
      "A bold, eye-catching template with smooth animations",
      Some(["waitlist", "landing page", "bold", "animated"]))))

  const ElegantGradient := Template(
    "elegant-gradient",
    "Elegant Gradient Waitlist",
    "An elegant template with beautiful gradient overlays",
    None,
    Some("elegant"),
    Some(["elegant", "gradient", "waitlist"]),
    PlaceholderCode,
    None,
    Some(Seo(
      "Elegant Gradient Waitlist - Landing Page Template",
      "An elegant template with beautiful gradient overlays",
      Some(["waitlist", "landing page", "elegant", "gradient"]))))

  /** The seed list, in declaration order. It is never mutated. */
  const Seed: seq<Template> := [MinimalModern, BoldAnimated, ElegantGradient]

  /** No two entries of `ts` share an id. */
  predicate DistinctIds(ts: seq<Template>)
  {
    forall i, j | 0 <= i < j < |ts| :: ts[i].id != ts[j].id
  }

  /** `ts.find((t) => t.id === id)`: the first entry whose id is exactly `id`
      (case-sensitive string equality), or nothing. */
  function Find(ts: seq<Template>, id: string): (r: Option<Template>)
    ensures r.None? <==> forall j | 0 <= j < |ts| :: ts[j].id != id
    ensures r.Some? ==>
      exists i | 0 <= i < |ts| :: ts[i] == r.value && ts[i].id == id &&
        forall j | 0 <= j < i :: ts[j].id != id
  {
    if ts == [] then None
    else if ts[0].id == id then Some(ts[0])
    else
      var r := Find(ts[1..], id);
      assert r.Some? ==>
        exists i | 1 <= i < |ts| :: ts[i] == r.value && ts[i].id == id &&
          forall j | 0 <= j < i :: ts[j].id != id;
      r
  }

  /** The message of the Error thrown for a missing id. */
  function NotFoundMessage(id: string): string
  {
    "Template with id \"" + id + "\" not found"
  }

  /** `getTemplates`: the whole seed list, three entries with distinct ids
      in seed order, each of which `getTemplateById` finds. */
  function GetTemplates(): (r: seq<Template>)
    ensures |r| == 3 && DistinctIds(r)
    ensures [r[0].id, r[1].id, r[2].id] == ["minimal-modern", "bold-animated", "elegant-gradient"]
    ensures forall i | 0 <= i < |r| :: GetTemplateById(r[i].id) == Success(r[i])
  {
    Seed
  }

  /** `getTemplateById`: the first seed entry with exactly this id, or the
      not-found error. Any string is accepted, the empty one included. */
  function GetTemplateById(id: string): (r: Result<Template, string>)
    ensures r.Success? ==>
      r.value.id == id &&
      exists i | 0 <= i < |Seed| :: Seed[i] == r.value && forall j | 0 <= j < i :: Seed[j].id != id
    ensures r.Failure? <==> forall j | 0 <= j < |Seed| :: Seed[j].id != id
    ensures r.Failure? ==> r.error == NotFoundMessage(id)
  {
    match Find(Seed, id)
    case None => Failure(NotFoundMessage(id))
    case Some(t) => Success(t)
  }

  /** `getTemplates` returns the seed unchanged: three entries, in seed order. */
  lemma GetTemplatesIsSeed()
    ensures GetTemplates() == Seed
    ensures |GetTemplates()| == 3
    ensures [GetTemplates()[0].id, GetTemplates()[1].id, GetTemplates()[2].id]
         == ["minimal-modern", "bold-animated", "elegant-gradient"]
  {
  }

  /** The error message names the missing id unambiguously: distinct ids
      give distinct messages. */
  lemma NotFoundMessageInjective(a: string, b: string)
    requires NotFoundMessage(a) == NotFoundMessage(b)
    ensures a == b
  {
    var prefix := "Template with id \"";
    assert |prefix| == 18;
    assert |NotFoundMessage(a)| == |a| + 29;
    assert |a| == |b|;
    assert a == NotFoundMessage(a)[18..18 + |a|];
    assert b == NotFoundMessage(b)[18..18 + |b|];
  }

  /** The seed ids are pairwise distinct. */
  lemma SeedIdsDistinct()
    ensures DistinctIds(Seed)
  {
  }

  /** In a catalog with distinct ids, looking up an entry's id finds exactly
      that entry. */
  lemma FindOwnId(ts: seq<Template>, k: nat)
    requires DistinctIds(ts)
    requires k < |ts|
    ensures Find(ts, ts[k].id) == Some(ts[k])
  {
    var r := Find(ts, ts[k].id);
    assert r.Some?;
    var i :| 0 <= i < |ts| && ts[i] == r.value && ts[i].id == ts[k].id &&
      forall j | 0 <= j < i :: ts[j].id != ts[k].id;
    assert i == k;
  }

  /** Every seed entry is retrieved by its own id, unchanged. */
  lemma GetByOwnId(t: Template)
    requires t in Seed
    ensures GetTemplateById(t.id) == Success(t)
  {
    SeedIdsDistinct();
    var k :| 0 <= k < |Seed| && Seed[k] == t;
    FindOwnId(Seed, k);
  }

  /** The empty id is looked up like any other and is not found; there is no
      separate invalid-input outcome. */
  lemma EmptyIdNotFound()
    ensures GetTemplateById("") == Failure("Template with id \"\" not found")
  {
    assert forall j | 0 <= j < |Seed| :: |Seed[j].id| > 0;
    assert NotFoundMessage("") == "Template with id \"\" not found";
  }

  /** Comparison is case-sensitive: a differently cased id is not found. */
  lemma LookupIsCaseSensitive()
    ensures GetTemplateById("Minimal-Modern") == Failure(NotFoundMessage("Minimal-Modern"))
    ensures GetTemplateById("minimal-modern") == Success(MinimalModern)
  {
    GetByOwnId(MinimalModern);
  }
}
