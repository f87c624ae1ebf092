/** The admin gallery editor: the image list, the add form's three draft fields,
    the inline edit slot, and the write-back of the whole list to local storage. */
module AdminGallery {
  import opened Wrappers
  import opened Content
  import opened Collections
  import opened Text

  /** The six images the editor seeds an empty store with. */
  const DefaultImages: seq<Image> := [
    Image("1", "https://images.unsplash.com/photo-1519741497674-611481863552?ixlib=rb-1.2.1&auto=format&fit=crop&w=1350&q=80",
          "Wedding photography", "Wedding"),
    Image("2", "https://images.unsplash.com/photo-1551316679-9c6ae9dec224?ixlib=rb-1.2.1&auto=format&fit=crop&w=1350&q=80",
          "Portrait photography", "Portrait"),
    Image("3", "https://images.unsplash.com/photo-1469594292607-7bd90f8d3ba4?ixlib=rb-1.2.1&auto=format&fit=crop&w=1350&q=80",
          "Landscape photography", "Landscape"),
    Image("4", "https://images.unsplash.com/photo-1515934751635-c81c6bc9a2d8?ixlib=rb-1.2.1&auto=format&fit=crop&w=1350&q=80",
          "Urban photography", "Urban"),
    Image("5", "https://images.unsplash.com/photo-1566737236500-c8ac43014a67?ixlib=rb-1.2.1&auto=format&fit=crop&w=1350&q=80",
          "Travel photography", "Travel"),
    Image("6", "https://images.unsplash.com/photo-1484723091739-30a097e8f929?ixlib=rb-1.2.1&auto=format&fit=crop&w=1350&q=80",
          "Food photography", "Food")
  ]

  /** The seeded defaults carry the identifiers "1" to "6", one each. */
  lemma DefaultImagesIds()
    ensures |DefaultImages| == 6
    ensures forall k :: 0 <= k < 6 ==> DefaultImages[k].id == DecimalString(k + 1)
    ensures UniqueIds(DefaultImages, ImageId)
  {
  }

  /** The add button is enabled, and adding does something, only when the URL,
      the alt text and the category are all non-empty. */
  function DraftComplete(url: string, alt: string, category: string): (ok: bool)
    ensures ok <==> forall field :: field in [url, alt, category] ==> |field| > 0
  {
    url != "" && alt != "" && category != ""
  }

  class GalleryEditor {
    const store: LocalStorage
    var images: seq<Image>
    /** The image whose inline edit form is open, holding the edits so far. */
    var editingImage: Option<Image>
    var newImageUrl: string
    var newImageAlt: string
    var newImageCategory: string
    var showAddForm: bool

    /** The store's gallery entry mirrors the list. */
    ghost predicate Persisted()
      reads this, store
    {
      store.gallery == Some(images)
    }

    /** The state of the first render, before the mount effect has run. */
    constructor (store: LocalStorage)
      ensures this.store == store
      ensures images == [] && editingImage == None
      ensures newImageUrl == "" && newImageAlt == "" && newImageCategory == ""
      ensures !showAddForm
    {
      this.store := store;
      images, editingImage := [], None;
      newImageUrl, newImageAlt, newImageCategory := "", "", "";
      showAddForm := false;
    }

    /** The mount effect: adopt the stored list verbatim, or seed the defaults
        when the key is absent; in both cases the store then holds the list. */
    method Mount()
      modifies this`images, store`gallery
      ensures old(store.gallery).Some? ==> images == old(store.gallery).value
      ensures old(store.gallery).None? ==> images == DefaultImages
      ensures Persisted()
    {
      images := store.gallery.GetOr(DefaultImages);
      store.gallery := Some(images);
    }

    predicate AddEnabled()
      reads this
    {
      DraftComplete(newImageUrl, newImageAlt, newImageCategory)
    }

    method OpenAddForm()
      modifies this`showAddForm
      ensures showAddForm
    {
      showAddForm := true;
    }

    /** The close icon and the Cancel button of the add form: the draft is kept. */
    method CloseAddForm()
      modifies this`showAddForm
      ensures !showAddForm
    {
      showAddForm := false;
    }

    method SetNewImageUrl(v: string)
      modifies this`newImageUrl
      ensures newImageUrl == v
    {
      newImageUrl := v;
    }

    method SetNewImageAlt(v: string)
      modifies this`newImageAlt
      ensures newImageAlt == v
    {
      newImageAlt := v;
    }

    method SetNewImageCategory(v: string)
      modifies this`newImageCategory
      ensures newImageCategory == v
    {
      newImageCategory := v;
    }

    /** Adds the drafted image with the timestamp identifier of `now`, at the end.
        An incomplete draft changes nothing. */
    method AddImage(now: nat)
      modifies this`images, this`newImageUrl, this`newImageAlt, this`newImageCategory,
               this`showAddForm, store`gallery
      ensures !old(AddEnabled()) ==> unchanged(this) && unchanged(store)
      ensures old(AddEnabled()) ==>
        && images == old(images) + [Image(DecimalString(now), old(newImageUrl), old(newImageAlt), old(newImageCategory))]
        && newImageUrl == "" && newImageAlt == "" && newImageCategory == ""
        && !showAddForm
        && Persisted()
    {
      if !AddEnabled() {
        return;
      }
      var image := Image(DecimalString(now), newImageUrl, newImageAlt, newImageCategory);
      images := images + [image];
      newImageUrl, newImageAlt, newImageCategory := "", "", "";
      showAddForm := false;
      store.gallery := Some(images);
    }

    /** Removes every image with identifier `id`. */
    method DeleteImage(id: string)
      modifies this`images, store`gallery
      ensures images == RemoveById(old(images), ImageId, id)
      ensures Persisted()
    {
      images := RemoveById(images, ImageId, id);
      store.gallery := Some(images);
    }

    /** Opens the inline edit form on a copy of `image`. */
    method EditImage(image: Image)
      modifies this`editingImage
      ensures editingImage == Some(image)
    {
      editingImage := Some(image);
    }

    // The inline edit form's inputs exist only while an image is being edited.

    method SetEditingSrc(v: string)
      requires editingImage.Some?
      modifies this`editingImage
      ensures editingImage == Some(old(editingImage).value.(src := v))
    {
      editingImage := Some(editingImage.value.(src := v));
    }

    method SetEditingAlt(v: string)
      requires editingImage.Some?
      modifies this`editingImage
      ensures editingImage == Some(old(editingImage).value.(alt := v))
    {
      editingImage := Some(editingImage.value.(alt := v));
    }

    method SetEditingCategory(v: string)
      requires editingImage.Some?
      modifies this`editingImage
      ensures editingImage == Some(old(editingImage).value.(category := v))
    {
      editingImage := Some(editingImage.value.(category := v));
    }

    /** Saves the inline edit: every image with the edited identifier becomes the
        edited image, and the edit form closes. Without an open edit nothing happens. */
    method UpdateImage()
      modifies this`images, this`editingImage, store`gallery
      ensures old(editingImage).None? ==> unchanged(this) && unchanged(store)
      ensures old(editingImage).Some? ==>
        && images == ReplaceById(old(images), ImageId, old(editingImage).value)
        && editingImage == None
        && Persisted()
    {
      if editingImage.None? {
        return;
      }
      images := ReplaceById(images, ImageId, editingImage.value);
      editingImage := None;
      store.gallery := Some(images);
    }

    /** The inline form's Cancel button: drops the edit without touching the list. */
    method CancelEdit()
      modifies this`editingImage
      ensures editingImage == None
    {
      editingImage := None;
    }
  }

  /** A session that starts from a stored empty list: adding one complete image
      gives a list and a store entry of exactly that image, and deleting it by its
      identifier empties both again. */
  method ScenarioAddThenDelete(now: nat)
  {
    var store := new LocalStorage();
    store.gallery := Some([]);
    var editor := new GalleryEditor(store);
    editor.Mount();
    editor.OpenAddForm();
    editor.SetNewImageUrl("http://x/1.jpg");
    editor.SetNewImageAlt("Test");
    editor.SetNewImageCategory("Wedding");
    editor.AddImage(now);
    var added := Image(DecimalString(now), "http://x/1.jpg", "Test", "Wedding");
    assert editor.images == [added] && store.gallery == Some([added]);
    editor.DeleteImage(added.id);
    assert editor.images == [] && store.gallery == Some([]);
  }
}
