/** The catalog card shown for one template on the list page. */
module TemplateCard {
  import opened Wrappers
  import opened TemplateTypes

  /** The route prefix of a template's detail page. */
  const LinkPrefix := "/templates/"

  datatype Image = Image(src: string, alt: string)

  /** What a card displays: title, description, the preview image if any,
      the tag block if any, and the target of its "View Template" link. */
  datatype CardView = CardView(
    title: string,
    description: string,
    image: Option<Image>,
    tags: Option<seq<string>>,
    link: string)

  /** Maximum number of tags a card shows. */
  const MaxCardTags := 3

  /** JavaScript `s.slice(0, n)`: the first `n` elements, or all of them when
      there are fewer. */
  function SliceFromStart<T>(s: seq<T>, n: nat): (r: seq<T>)
    ensures |r| <= n && r <= s
    ensures |s| <= n ==> r == s
    ensures n <= |s| ==> |r| == n
  {
    if |s| <= n then s else s[..n]
  }

  /** `TemplateCard` */
  function Card(t: Template): (c: CardView)
    ensures c.title == t.name && c.description == t.description
    ensures c.image.Some? <==> t.previewImage.Some? && t.previewImage.value != ""
    ensures c.image.Some? ==> c.image.value == Image(t.previewImage.value, t.name)
    ensures c.tags.Some? <==> HasTags(t)
    ensures c.tags.Some? ==>
      && 0 < |c.tags.value| <= MaxCardTags
      && c.tags.value <= t.tags.value
      && (|t.tags.value| <= MaxCardTags ==> c.tags.value == t.tags.value)
      && (MaxCardTags <= |t.tags.value| ==> |c.tags.value| == MaxCardTags)
    ensures |c.link| >= |LinkPrefix| && c.link[..|LinkPrefix|] == LinkPrefix
    ensures c.link[|LinkPrefix|..] == t.id
  {
    CardView(
      t.name,
      t.description,
      if t.previewImage.Some? && t.previewImage.value != "" then Some(Image(t.previewImage.value, t.name)) else None,
      if HasTags(t) then Some(SliceFromStart(t.tags.value, MaxCardTags)) else None,
      LinkPrefix + t.id)
  }
}
