/** The shared content context: an in-memory copy of both collections that loads
    from local storage once and writes each collection through on update. */
module CmsContext {
  import opened Wrappers
  import opened Content

  const OutsideProviderError := "useCMS must be used within a CMSProvider"

  class Provider {
    const store: LocalStorage
    var galleryImages: seq<Image>
    var pricingPlans: seq<Plan>

    /** Both collections start empty. */
    constructor (store: LocalStorage)
      ensures this.store == store
      ensures galleryImages == [] && pricingPlans == []
    {
      this.store := store;
      galleryImages, pricingPlans := [], [];
    }

    /** The mount effect: each collection independently adopts its stored value
        when its key is present and is otherwise left as it was; nothing is
        written and no defaults are seeded. */
    method Mount()
      modifies this
      ensures galleryImages == old(store.gallery).GetOr(old(galleryImages))
      ensures pricingPlans == old(store.pricing).GetOr(old(pricingPlans))
    {
      if store.gallery.Some? {
        galleryImages := store.gallery.value;
      }
      if store.pricing.Some? {
        pricingPlans := store.pricing.value;
      }
    }

    /** Sets the gallery and writes it under the gallery key; pricing is untouched. */
    method UpdateGalleryImages(images: seq<Image>)
      modifies this`galleryImages, store`gallery
      ensures galleryImages == images && store.gallery == Some(images)
    {
      galleryImages := images;
      store.gallery := Some(images);
    }

    /** Sets the pricing plans and writes them under the pricing key; the gallery
        is untouched. */
    method UpdatePricingPlans(plans: seq<Plan>)
      modifies this`pricingPlans, store`pricing
      ensures pricingPlans == plans && store.pricing == Some(plans)
    {
      pricingPlans := plans;
      store.pricing := Some(plans);
    }
  }

  /** `useCMS`: the enclosing provider, or the error it throws when there is none. */
  function UseCMS(context: Option<Provider>): (r: Result<Provider, string>)
    ensures r.Success? <==> context.Some?
    ensures r.Success? ==> r.value == context.value
    ensures r.Failure? ==> r.error == OutsideProviderError
  {
    match context
    case Some(p) => Success(p)
    case None => Failure(OutsideProviderError)
  }

  /** Writing one collection through the context and mounting a fresh context on
      the same store reads back the same collection, in the same order. */
  method ScenarioRoundTrip(store: LocalStorage, images: seq<Image>)
    modifies store
  {
    var context := new Provider(store);
    context.UpdateGalleryImages(images);
    var reloaded := new Provider(store);
    reloaded.Mount();
    assert reloaded.galleryImages == images;
  }
}
