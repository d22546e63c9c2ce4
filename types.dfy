/** The records the client exchanges with the generative service and keeps
    in its state (types.ts). */
module Types {
  import opened Wrappers

  datatype UITheme = UITheme(
    theme_name: string,
    primary_hex: string,
    secondary_hex: string,
    css_gradient: string,
    text_color: string)

  datatype SearchResult = SearchResult(title: string, url: string)

  datatype ConceptDetails = ConceptDetails(
    fabrication: string,
    silhouette_structure: string,
    color_theory: string,
    muse_character: string)

  /** A generated concept. The three enrichment fields are optional and are
      filled in after the concept itself is shown. */
  datatype FashionConcept = FashionConcept(
    concept_name: string,
    rationale: string,
    visual_prompt: string,
    design_dna_tags: seq<string>,
    concept_details: ConceptDetails,
    ui_theme: UITheme,
    generated_image: Option<string>,
    shopping_items: Option<seq<SearchResult>>,
    mood_board_images: Option<seq<string>>)

  /** A browser `File`: only its identity matters to the model. */
  datatype File = File(name: string, mimeType: string, bytes: seq<bv8>)

  /** The three upload slots of the mixer. */
  datatype Slot = Texture | Silhouette | Color

  /** One optional value per slot; `ImageState` and `PreviewState` are its two instances. */
  datatype Slots<T> = Slots(texture: Option<T>, silhouette: Option<T>, color: Option<T>)
  {
    function Get(slot: Slot): Option<T>
    {
      match slot
      case Texture => texture
      case Silhouette => silhouette
      case Color => color
    }

    /** `{ ...prev, [slot]: v }` */
    function With(slot: Slot, v: T): (r: Slots<T>)
      ensures r.Get(slot) == Some(v)
      ensures forall other :: other != slot ==> r.Get(other) == Get(other)
    {
      match slot
      case Texture => this.(texture := Some(v))
      case Silhouette => this.(silhouette := Some(v))
      case Color => this.(color := Some(v))
    }
  }

  type ImageState = Slots<File>
  type PreviewState = Slots<string>

  const EmptySlots: Slots<File> := Slots(None, None, None)
  const EmptyPreviews: Slots<string> := Slots(None, None, None)
}
