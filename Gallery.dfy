/** The public gallery section: reads the stored images (or its own defaults) and
    keeps the source of the image shown enlarged in the lightbox. */
module Gallery {
  import opened Wrappers
  import opened Content
  import AdminGallery

  /** The section's own copy of the default images. */
  const DefaultImages: seq<Image> := [
    Image("1", "https://images.unsplash.com/photo-1519741497674-611481863552?ixlib=rb-1.2.1&auto=format&fit=crop&w=1350&q=80",
          "Wedding photography", "Wedding"),
    Image("2", "https://images.unsplash.com/photo-1551316679-9c6ae9dec224?ixlib=rb-1.2.1&auto=format&fit=crop&w=1350&q=80",
          "Portrait photography", "Portrait"),
    Image("3", "https://images.unsplash.com/photo-1469594292607-7bd90f8d3ba4?ixlib=rb-1.2.1&auto=format&fit=crop&w=1350&q=80",
          "Landscape photography", "Landscape"),
    Image("4", "https://images.unsplash.com/photo-1515934751635-c81c6bc9a2d8?ixlib=rb-1.2.1&auto=format&fit=crop&w=1350&q=80",
          "Urban photography", "Urban"),
    Image("5", "https://images.unsplash.com/photo-1566737236500-c8ac43014a67?ixlib=rb-1.2.1&auto=format&fit=crop&w=1350&q=80",
          "Travel photography", "Travel"),
    Image("6", "https://images.unsplash.com/photo-1484723091739-30a097e8f929?ixlib=rb-1.2.1&auto=format&fit=crop&w=1350&q=80",
          "Food photography", "Food")
  ]

  /** The public defaults and the admin editor's defaults are the same six images,
      so a reset store looks the same from both sides. */
  lemma DefaultsMatchAdmin()
    ensures DefaultImages == AdminGallery.DefaultImages
  {
  }

  class GallerySection {
    const store: LocalStorage
    /** The source of the enlarged image, if one was clicked. */
    var selectedImage: Option<string>
    var images: seq<Image>

    /** The lightbox renders when the selection is a non-empty string (the
        condition is a truthiness test, so an empty source shows nothing). */
    function LightboxShown(): (shown: bool)
      reads this
      ensures shown ==> selectedImage.Some?
      ensures selectedImage == Some("") ==> !shown
      ensures forall src :: selectedImage == Some(src) && |src| > 0 ==> shown
    {
      selectedImage.Some? && selectedImage.value != ""
    }

    constructor (store: LocalStorage)
      ensures this.store == store
      ensures selectedImage == None && images == []
    {
      this.store := store;
      selectedImage, images := None, [];
    }

    /** The mount effect: the stored list verbatim, or the defaults; the store is
        only read. */
    method Mount()
      modifies this`images
      ensures old(store.gallery).Some? ==> images == old(store.gallery).value
      ensures old(store.gallery).None? ==> images == DefaultImages
    {
      images := store.gallery.GetOr(DefaultImages);
    }

    /** Clicking an image selects its source. */
    method SelectImage(image: Image)
      modifies this`selectedImage
      ensures selectedImage == Some(image.src)
      ensures LightboxShown() <==> image.src != ""
    {
      selectedImage := Some(image.src);
    }

    /** Clicking the backdrop or the close button clears the selection. */
    method CloseLightbox()
      modifies this`selectedImage
      ensures selectedImage == None && !LightboxShown()
    {
      selectedImage := None;
    }
  }
}
