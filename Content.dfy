/** The content model shared by the public site and the admin panel: the two
    entity kinds and the browser's local storage that persists them. */
module Content {
  import opened Wrappers

  /** One picture of the gallery. */
  datatype Image = Image(id: string, src: string, alt: string, category: string)

  /** The colour theme of a pricing card. */
  datatype Color = Amber | Neutral

  /** One pricing package. `price` is whatever integer the editor parsed. */
  datatype Plan = Plan(
    id: string,
    name: string,
    price: int,
    description: string,
    features: seq<string>,
    notIncluded: seq<string>,
    popular: bool,
    color: Color)

  function ImageId(i: Image): string { i.id }

  function PlanId(p: Plan): string { p.id }

  /** The sentinel value a successful login stores under the auth key. */
  const AuthFlag := "authenticated"

  /** The browser's local storage, restricted to the three keys the site uses:
      `gallery` is "framesoflife_gallery", `pricing` is "framesoflife_pricing" and
      `auth` is "framesoflife_auth". Each field is the (decoded) value under its
      key, or `None` when the key is absent; JSON encoding and decoding are taken
      to be the identity. */
  class LocalStorage {
    var gallery: Option<seq<Image>>
    var pricing: Option<seq<Plan>>
    var auth: Option<string>

    /** A store in which none of the keys has been written yet. */
    constructor ()
      ensures gallery == None && pricing == None && auth == None
    {
      gallery, pricing, auth := None, None, None;
    }
  }
}
