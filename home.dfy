/** The carousel of the public home page (`home` in frontend/views.py). */
module Home {
  import opened Wrappers
  import opened Objets

  const DescriptionLimit: nat := 120
  const Ellipsis: string := "..."

  function Min(a: int, b: int): int {
    if a <= b then a else b
  }

  /**
   * A slide's description: empty when the item has none, otherwise its first
   * 120 characters followed by "..." (appended even when nothing was cut).
   */
  function SlideDescription(description: Option<string>): (r: string)
    ensures r == [] <==> description.None? || description.value == []
    ensures r != [] ==>
              && description.Some?
              && var d := description.value;
                 && |r| == Min(|d|, DescriptionLimit) + |Ellipsis|
                 && r[..|r| - |Ellipsis|] == d[..Min(|d|, DescriptionLimit)]
                 && r[|r| - |Ellipsis|..] == Ellipsis
    ensures r != [] && |description.value| <= DescriptionLimit ==> r == description.value + Ellipsis
  {
    if description.None? || description.value == [] then []
    else
      var d := description.value;
      var kept := if |d| <= DescriptionLimit then d else d[..DescriptionLimit];
      kept + Ellipsis
  }

  datatype Slide =
    | ItemSlide(titre: string, description: string, etat: string, etatType: string)
    | DefaultSlide(url: string, titre: string, description: string, etatType: string)

  /** A slide for a lost or claimed item. */
  function PerduReclameSlide(o: Objet): Slide {
    ItemSlide(o.nom, SlideDescription(o.description), GetEtatDisplay(o.etat),
              if o.etat == Perdu then "perdu" else "reclame")
  }

  /** A slide for a found item. */
  function TrouveSlide(o: Objet): Slide {
    ItemSlide(o.nom, SlideDescription(o.description), GetEtatDisplay(o.etat), "trouve")
  }

  /** The three placeholder slides shown when there is no item at all. */
  const DefaultSlides: seq<Slide> := [
    DefaultSlide("/static/frontend/images/head2.jpg", "Aucun objet", "Slide par défaut", "default"),
    DefaultSlide("/static/frontend/images/head1.jpg", "Aucun objet", "Slide par défaut", "default"),
    DefaultSlide("/static/frontend/images/head3.jpg", "Aucun objet", "Slide par défaut", "default")
  ]

  /**
   * The carousel: a slide per lost-or-claimed item, then a slide per found
   * item, each titled with the item's name and typed by its state; the
   * placeholders only when both lists are empty.
   */
  function HomeSlides(perdusReclames: seq<Objet>, trouves: seq<Objet>): (slides: seq<Slide>)
    ensures perdusReclames == [] && trouves == [] ==> slides == DefaultSlides
    ensures perdusReclames != [] || trouves != [] ==>
              && |slides| == |perdusReclames| + |trouves|
              && (forall k :: 0 <= k < |slides| ==> slides[k].ItemSlide?)
              && (forall k :: 0 <= k < |perdusReclames| ==>
                    && slides[k].titre == perdusReclames[k].nom
                    && slides[k].description == SlideDescription(perdusReclames[k].description)
                    && slides[k].etat == GetEtatDisplay(perdusReclames[k].etat)
                    && (slides[k].etatType == "perdu" <==> perdusReclames[k].etat == Perdu)
                    && slides[k].etatType in {"perdu", "reclame"})
              && (forall k :: 0 <= k < |trouves| ==>
                    && slides[|perdusReclames| + k].titre == trouves[k].nom
                    && slides[|perdusReclames| + k].description == SlideDescription(trouves[k].description)
                    && slides[|perdusReclames| + k].etat == GetEtatDisplay(trouves[k].etat)
                    && slides[|perdusReclames| + k].etatType == "trouve")
  {
    var items := seq(|perdusReclames|, k requires 0 <= k < |perdusReclames| => PerduReclameSlide(perdusReclames[k]))
               + seq(|trouves|, k requires 0 <= k < |trouves| => TrouveSlide(trouves[k]));
    if items == [] then DefaultSlides else items
  }
}
