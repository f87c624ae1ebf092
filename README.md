# Frames of Life: content model

This project models the client-side content model of a photography business
website. It covers two ordered collections, gallery images and pricing plans,
which browser local storage persists as whole lists. It also models the admin
login gate, the two admin editors, the shared content context, the public read
paths and the enquiry dialog.

Module layout:

- `Wrappers`: `Option` (an absent storage key) and `Result` (a thrown error).
- `Collections`: the list transforms the editors use. Delete is a filter by id and
  update is a replace by id (a `map`). Add is an append. The plan lists use a
  one-element `splice`. Lemmas relate these operations to one another and to a
  lookup by id.
- `Text`: `String.prototype.includes` and `Number.prototype.toString` for the
  timestamps used as identifiers. Decimal parsing is the inverse of the latter.
- `Content`: the `Image` and `Plan` entities and the `LocalStorage` class. This
  class has one field per storage key: gallery, pricing and the auth flag.
- `AdminGallery`, `AdminPricing`, `AdminPanel`, `CmsContext`, `Gallery`, `Pricing`,
  `EnquiryForm`: one module per component. Each component's state is a class whose
  handlers are methods. A handler's `modifies` clause names exactly the state
  fields it sets and the storage keys it writes. Its `ensures` clauses give the new
  state in terms of the old state and the pure functions above.

The two admin editors maintain one invariant, `Persisted()`: the storage entry
equals the in-memory list. `Mount` establishes it. Every handler that changes the
list re-establishes it, and every other handler leaves the list and the store
alone. The public `Gallery` and `Pricing` sections and the context's `Mount`
have no storage key in their `modifies` clauses, so the verifier checks that
they only read the store.

The pricing editor has a quirk, and the model keeps it as written. "Add New
Package" creates a draft whose identifier is the decimal text of the current
time, so it never contains `"new-"` (`Text.TimestampLacksNewMarker`). The save
handler branches on that substring. So saving a new package takes the
replace-by-id branch, and the list stays the same unless a plan already has that
identifier (`AdminPricing.SaveNewPackageKeepsPlans`). The append branch is
reachable only by a draft whose identifier contains `"new-"`. The editor never
creates such a draft itself. A plan with such an identifier can come only from
data already in the store, through Edit.

The model follows the code in these points:

- The colour theme is `amber` or `neutral` (not "accent").
- The pricing editor's save does not check that any field is non-empty. A price
  may be any integer, including a negative one.
- The public lightbox opens only when the selected source is non-empty: the code
  tests the selection's truthiness, not whether it is non-null.
- The context's mount (`CmsContext.Provider.Mount`) seeds no defaults. It leaves a
  collection empty when its key is absent.
- With an absent gallery key, mounting the gallery editor seeds the six defaults.
  Adding one image gives a list of length one only when the store already holds
  an empty list. `AdminGallery.ScenarioAddThenDelete` walks that session.

The editors do not enforce unique identifiers. Mount adopts the stored list as it
is (src/admin/AdminGallery.tsx:24 and src/admin/AdminPricing.tsx:26), and two
timestamp identifiers taken in the same millisecond are equal. Uniqueness is
therefore proved per operation from a unique input: delete keeps it
(`Collections.RemoveByIdKeepsUnique`), update keeps it
(`Collections.ReplaceByIdKeepsIds`) and an append keeps it when the new id is
fresh (`Collections.AppendFresh`).

Client scenarios (methods with asserts and no postcondition) show what callers can
prove from the contracts alone:

- `AdminGallery.ScenarioAddThenDelete`
- `AdminPricing.ScenarioAddPackageThenSave`
- `AdminPanel.ScenarioLogin`
- `CmsContext.ScenarioRoundTrip`
- `EnquiryForm.ScenarioSubmit`

## Model

| member | source | states |
|---|---|---|
| Collections.RemoveById | src/admin/AdminGallery.tsx:92-94 | the filtered list holds no entity with the deleted id, only entities of the input, and is never longer |
| Collections.RemoveByIdKeepsOthers | src/admin/AdminPricing.tsx:138-140 | every entity with another id survives the delete |
| Collections.RemoveByIdAbsent | src/admin/AdminGallery.tsx:93 | deleting an id that no entity carries leaves the list unchanged |
| Collections.RemoveByIdConcat | src/admin/AdminPricing.tsx:139 | the delete works element by element and keeps the relative order: filtering `xs + ys` is filtering each part |
| Collections.RemoveByIdIdempotent | src/admin/AdminGallery.tsx:93 | deleting the same id twice is deleting it once |
| Collections.RemoveByIdNotFound | src/admin/AdminGallery.tsx:92-94 | after a delete, looking the id up finds nothing |
| Collections.RemoveByIdKeepsUnique | src/admin/AdminGallery.tsx:92-94 | deleting from a list with unique ids leaves a list with unique ids |
| Collections.RemoveByIdShrinksByOne | src/admin/AdminPricing.tsx:138-140 | with unique ids, deleting a present id shrinks the list by exactly one |
| Collections.ReplaceById | src/admin/AdminGallery.tsx:103-105 | the update keeps the list's length |
| Collections.ReplaceByIdAt | src/admin/AdminPricing.tsx:122-124 | position k holds the edited entity exactly when the entity there had its id, and is untouched otherwise |
| Collections.ReplaceByIdKeepsIds | src/admin/AdminGallery.tsx:103-105 | the update keeps every position's id, so it keeps ids unique |
| Collections.ReplaceByIdAbsent | src/admin/AdminPricing.tsx:122-124 | updating with an id that no entity carries leaves the list unchanged |
| Collections.ReplaceByIdFound | src/admin/AdminGallery.tsx:103-105 | after updating a present id, looking it up yields the edited entity |
| Collections.ReplaceByIdIdempotent | src/admin/AdminGallery.tsx:103-105 | updating twice with the same entity is updating once |
| Collections.RemoveAfterReplace | src/admin/AdminPricing.tsx:138-140 | deleting an id after updating it is the same as deleting it directly |
| Collections.AppendFresh | src/admin/AdminGallery.tsx:78-85 | appending an entity with a fresh id keeps ids unique, and a lookup of that id finds the entity |
| Collections.SpliceStart | src/admin/AdminPricing.tsx:161-162 | the start index `splice` uses: a negative index counts back from the end and stops at 0, an index in range is kept, and the result never exceeds the length |
| Collections.SpliceOne | src/admin/AdminPricing.tsx:184-185 | `splice(start, 1)` removes one element when the clamped start is in range and none otherwise, and never adds an element (the multiset only shrinks) |
| Collections.SpliceOneInRange | src/admin/AdminPricing.tsx:161-162 | `splice(i, 1)` at an in-range index removes exactly element i: earlier elements stay, later ones move down by one, and the multiset loses only that element |
| Collections.SpliceOneNegative | src/admin/AdminPricing.tsx:184-185 | a negative index counts from the end, and one before the start removes the first element |
| Collections.SpliceOnePastEnd | src/admin/AdminPricing.tsx:184-185 | an index at or past the end removes nothing |
| Text.Includes | src/admin/AdminPricing.tsx:120 | the empty pattern is always included, a string includes itself, and an included pattern is never longer than the string |
| Text.IncludesIff | src/admin/AdminPricing.tsx:120 | the left-to-right scan reports a substring exactly when some position holds an occurrence |
| Text.DecimalString | src/admin/AdminPricing.tsx:103 | a timestamp's decimal text is non-empty and made only of digits |
| Text.ParseDecimalString | src/admin/AdminGallery.tsx:79 | reading a timestamp's decimal text back gives the timestamp |
| Text.DecimalStringInjective | src/admin/AdminGallery.tsx:79 | distinct timestamps give distinct ids |
| Text.DigitsIncludeNoLetters | src/admin/AdminPricing.tsx:120 | a digit string never includes a pattern that holds a non-digit |
| Text.TimestampLacksNewMarker | src/admin/AdminPricing.tsx:103 | a timestamp id never includes "new-" |
| AdminGallery.DraftComplete | src/admin/AdminGallery.tsx:76 | the draft is complete exactly when the URL, the alt text and the category are all non-empty (the same test disables the add button at line 215) |
| AdminGallery.DefaultImagesIds | src/admin/AdminGallery.tsx:27-64 | the seeded defaults are six images with ids "1" to "6", all distinct |
| AdminGallery.GalleryEditor.constructor | src/admin/AdminGallery.tsx:13-18 | the first render has no images, no edit slot, empty draft fields and a hidden add form |
| AdminGallery.GalleryEditor.Mount | src/admin/AdminGallery.tsx:21-73 | a present key is adopted verbatim; an absent key gives the six defaults; the store then holds the list |
| AdminGallery.GalleryEditor.OpenAddForm | src/admin/AdminGallery.tsx:117 | shows the add form and changes nothing else |
| AdminGallery.GalleryEditor.CloseAddForm | src/admin/AdminGallery.tsx:208 | hides the add form and keeps the draft fields (also the close icon at line 130) |
| AdminGallery.GalleryEditor.SetNewImageUrl | src/admin/AdminGallery.tsx:146 | sets the URL draft field only |
| AdminGallery.GalleryEditor.SetNewImageAlt | src/admin/AdminGallery.tsx:162 | sets the alt-text draft field only |
| AdminGallery.GalleryEditor.SetNewImageCategory | src/admin/AdminGallery.tsx:174 | sets the category draft field only |
| AdminGallery.GalleryEditor.AddImage | src/admin/AdminGallery.tsx:75-90 | an incomplete draft changes nothing; a complete one appends one image with the draft's fields and the timestamp id, clears the draft, hides the form and persists the list |
| AdminGallery.GalleryEditor.DeleteImage | src/admin/AdminGallery.tsx:92-94 | the list becomes the filter of the old list by the id, and is persisted |
| AdminGallery.GalleryEditor.EditImage | src/admin/AdminGallery.tsx:96-98 | opens the edit slot on the given image and changes nothing else |
| AdminGallery.GalleryEditor.SetEditingSrc | src/admin/AdminGallery.tsx:244 | changes only the source of the image being edited |
| AdminGallery.GalleryEditor.SetEditingAlt | src/admin/AdminGallery.tsx:256 | changes only the alt text of the image being edited |
| AdminGallery.GalleryEditor.SetEditingCategory | src/admin/AdminGallery.tsx:267 | changes only the category of the image being edited |
| AdminGallery.GalleryEditor.UpdateImage | src/admin/AdminGallery.tsx:100-108 | with no edit open, nothing changes; otherwise the images with the edited id are replaced, the slot is emptied and the list is persisted |
| AdminGallery.GalleryEditor.CancelEdit | src/admin/AdminGallery.tsx:278 | empties the edit slot without touching the list or the store |
| AdminPricing.DefaultPlansIds | src/admin/AdminPricing.tsx:29-90 | the seeded defaults are three plans with ids "1", "2" and "3", all distinct |
| AdminPricing.NewPackageDraft | src/admin/AdminPricing.tsx:101-111 | the new-package draft's timestamp id does not include "new-" |
| AdminPricing.SavedPlans | src/admin/AdminPricing.tsx:117-132 | a draft whose id includes "new-" is appended as the last plan, with its id replaced by the timestamp's decimal text, and the old plans stay in front; any other draft keeps the length |
| AdminPricing.SaveExistingReplaces | src/admin/AdminPricing.tsx:120-124 | saving a draft without "new-" puts it in place of each plan with its id and keeps every other plan |
| AdminPricing.SaveNewPackageKeepsPlans | src/admin/AdminPricing.tsx:103-124 | saving the "Add New Package" draft leaves the plans unchanged unless its timestamp id is already taken |
| AdminPricing.WithFeature | src/admin/AdminPricing.tsx:150-153 | there is a draft afterwards exactly when there was one before; it keeps its id and its not-included list, and it holds the new feature unless the input was empty |
| AdminPricing.WithNotIncluded | src/admin/AdminPricing.tsx:173-176 | the same for the not-included list, keeping the id and the features |
| AdminPricing.WithFeatureAppends | src/admin/AdminPricing.tsx:147-156 | no draft or an empty input changes nothing; otherwise exactly one feature is appended at the end and no other draft field changes |
| AdminPricing.WithNotIncludedAppends | src/admin/AdminPricing.tsx:170-179 | the same for the not-included list |
| AdminPricing.PricingEditor.constructor | src/admin/AdminPricing.tsx:16-20 | the first render has no plans, no draft, a hidden form and empty list inputs |
| AdminPricing.PricingEditor.Mount | src/admin/AdminPricing.tsx:23-99 | a present key is adopted verbatim; an absent key gives the three defaults; the store then holds the list |
| AdminPricing.PricingEditor.AddPlan | src/admin/AdminPricing.tsx:101-115 | opens the form on the new-package draft with the timestamp id |
| AdminPricing.PricingEditor.EditPlan | src/admin/AdminPricing.tsx:142-145 | opens the form on a copy of the plan |
| AdminPricing.PricingEditor.SaveNewPlan | src/admin/AdminPricing.tsx:117-136 | with no draft, nothing changes; otherwise the list becomes `SavedPlans` of the old list, the draft is dropped, the form is hidden and the list is persisted |
| AdminPricing.PricingEditor.CancelEdit | src/admin/AdminPricing.tsx:213-216 | drops the draft and hides the form, and never changes the plans (also the Cancel button at lines 372-375) |
| AdminPricing.PricingEditor.DeletePlan | src/admin/AdminPricing.tsx:138-140 | the list becomes the filter of the old list by the id, and is persisted |
| AdminPricing.PricingEditor.SetName | src/admin/AdminPricing.tsx:232 | changes only the draft's name |
| AdminPricing.PricingEditor.SetPrice | src/admin/AdminPricing.tsx:244 | changes only the draft's price, to any integer |
| AdminPricing.PricingEditor.SetDescription | src/admin/AdminPricing.tsx:255 | changes only the draft's description |
| AdminPricing.PricingEditor.SetPopular | src/admin/AdminPricing.tsx:266 | changes only the draft's popular flag |
| AdminPricing.PricingEditor.SetColor | src/admin/AdminPricing.tsx:280 | changes only the draft's colour theme |
| AdminPricing.PricingEditor.SetNewFeature | src/admin/AdminPricing.tsx:311 | sets the feature input only |
| AdminPricing.PricingEditor.SetNewNotIncluded | src/admin/AdminPricing.tsx:350 | sets the not-included input only |
| AdminPricing.PricingEditor.AddFeature | src/admin/AdminPricing.tsx:147-156 | no draft or an empty input changes nothing; otherwise the feature is appended to the draft and the input is cleared |
| AdminPricing.PricingEditor.RemoveFeature | src/admin/AdminPricing.tsx:158-168 | with a draft, its features become the `splice(index, 1)` of the old ones and no other field changes |
| AdminPricing.PricingEditor.AddNotIncluded | src/admin/AdminPricing.tsx:170-179 | no draft or an empty input changes nothing; otherwise the item is appended to `notIncluded` and the input is cleared |
| AdminPricing.PricingEditor.RemoveNotIncluded | src/admin/AdminPricing.tsx:181-191 | with a draft, its not-included list becomes the `splice(index, 1)` of the old one and no other field changes |
| AdminPanel.ViewOf | src/admin/AdminPanel.tsx:44-178 | the login view shows exactly when not authenticated; otherwise exactly the active tab's editor shows |
| AdminPanel.Panel.constructor | src/admin/AdminPanel.tsx:9-13 | the panel starts on the gallery tab, logged out, with empty inputs and no error |
| AdminPanel.Panel.Mount | src/admin/AdminPanel.tsx:16-21 | logs in when the stored flag is "authenticated" and never writes the store |
| AdminPanel.Panel.SetUsername | src/admin/AdminPanel.tsx:73 | sets the username input only |
| AdminPanel.Panel.SetPassword | src/admin/AdminPanel.tsx:87 | sets the password input only |
| AdminPanel.Panel.Login | src/admin/AdminPanel.tsx:23-33 | admin/password stores the flag, logs in and clears the error; any other pair sets the fixed error text and leaves the login state and the store unchanged |
| AdminPanel.Panel.Logout | src/admin/AdminPanel.tsx:35-38 | removes the stored flag and returns to the login view |
| AdminPanel.Panel.SelectTab | src/admin/AdminPanel.tsx:160-170 | sets the active tab, so that the matching editor is the one shown |
| CmsContext.Provider.constructor | src/utils/cmsContext.tsx:31-32 | both collections start empty |
| CmsContext.Provider.Mount | src/utils/cmsContext.tsx:35-45 | each collection adopts its stored value when the key is present and otherwise keeps its value; the store is not written |
| CmsContext.Provider.UpdateGalleryImages | src/utils/cmsContext.tsx:47-50 | sets the gallery and its storage key to the same list and touches nothing else |
| CmsContext.Provider.UpdatePricingPlans | src/utils/cmsContext.tsx:52-55 | sets the plans and their storage key to the same list and touches nothing else |
| CmsContext.UseCMS | src/utils/cmsContext.tsx:69-74 | succeeds with the provider exactly when there is one, and otherwise fails with the fixed message |
| Gallery.DefaultsMatchAdmin | src/components/Gallery.tsx:21-60 | the public defaults equal the admin editor's defaults element for element |
| Gallery.GallerySection.constructor | src/components/Gallery.tsx:12-13 | no selection and no images |
| Gallery.GallerySection.Mount | src/components/Gallery.tsx:16-62 | a present key is adopted verbatim, otherwise the defaults are shown; the store is only read |
| Gallery.GallerySection.LightboxShown | src/components/Gallery.tsx:103 | the lightbox shows only with a selection, never for an empty source, and always for a non-empty one |
| Gallery.GallerySection.SelectImage | src/components/Gallery.tsx:82 | selects the clicked image's source; the lightbox shows exactly when that source is non-empty |
| Gallery.GallerySection.CloseLightbox | src/components/Gallery.tsx:104-111 | clears the selection and hides the lightbox |
| Pricing.DefaultsMatchAdmin | src/components/Pricing.tsx:16-77 | the public defaults equal the admin editor's defaults field for field |
| Pricing.OnePopularDefault | src/components/Pricing.tsx:34-75 | among the defaults, exactly the plan with id "2" is popular, and it is the only amber one |
| Pricing.PricingSection.constructor | src/components/Pricing.tsx:16-77 | the section starts with the three default plans |
| Pricing.PricingSection.Mount | src/components/Pricing.tsx:80-85 | a present key replaces the plans, otherwise they stay; the store is only read |
| EnquiryForm.With | src/components/EnquiryForm.tsx:23 | the named field of the updated form holds the new value |
| EnquiryForm.WithGet | src/components/EnquiryForm.tsx:21-24 | setting a field changes that field and no other one |
| EnquiryForm.Dialog.constructor | src/components/EnquiryForm.tsx:9-19 | all six fields are empty, and the form is neither submitting nor submitted |
| EnquiryForm.Dialog.HandleChange | src/components/EnquiryForm.tsx:21-24 | the form becomes the old form with the named field set |
| EnquiryForm.Dialog.HandleSubmit | src/components/EnquiryForm.tsx:26-29 | marks the form as submitting, which disables submit, and schedules the first timer; the form data is unchanged |
| EnquiryForm.Dialog.ConfirmTimerFires | src/components/EnquiryForm.tsx:31-35 | the first timer ends submitting, shows the confirmation and schedules the second timer |
| EnquiryForm.Dialog.CloseTimerFires | src/components/EnquiryForm.tsx:37-39 | the second timer invokes the close callback once |
| EnquiryForm.Dialog.CloseButton | src/components/EnquiryForm.tsx:52-53 | the close button invokes the close callback without cancelling pending timers |

## Left out

- Rendering (JSX, styling, icons) and the static sections (navigation, hero, services, footer) are presentation only.
- Application plumbing is left out: the scroll listener, the `admin=true` query parameter and React bootstrap.
- The panel's "exit admin" navigation is browser I/O. It assigns `window.location` and does not touch the stored auth flag.
- JSON encoding and decoding are taken to be the identity. Malformed stored JSON, which would throw, is not modelled. Neither is a failing storage write.
- `Date.now()` is a parameter `now: nat`. An identifier is its decimal text.
- `parseInt(...) || 0` on the price input is a library call. The price setter takes whatever integer it produced.
- React semantics are not modelled. Mount is one atomic step. In the code, the mount effect is declared first (src/admin/AdminGallery.tsx:21, src/admin/AdminPricing.tsx:23), so it runs first: it seeds and writes the defaults when the key is absent (lines 66 and 92) and writes nothing when it adopts the stored list. The persist effect (line 71 and line 97) then writes "[]" from the first render's empty state. Its next run, after the state update, writes the adopted or seeded list back. The model keeps only that final state. StrictMode double effects and setState batching are not modelled either.
- The 1500 ms and 3000 ms timer delays are not modelled. Only the order of the two callbacks is, as events. The submitted form is logged to the console, which is I/O.
- DOM behaviour is not modelled: the placeholder image on load errors, and HTML `required` and `type="email"` validation.
