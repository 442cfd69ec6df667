# Listing front end: filters, pagination, gallery and admin helpers in Dafny

This project models the logic of a real-estate listing front end written in
TypeScript/Next.js. The rest of that application is rendering and HTTP
plumbing. Each core source file becomes one Dafny module, in its own form:

- `EnumTranslation` (`enum_translation.dfy`) holds the fixed table between
  the API's property-type codes and the Portuguese labels. The table is
  asymmetric: `COMMERCIAL` has a label, but `Comercial` has no way back.
- `FiltersSchema` (`filters_schema.dfy`) models the zod schema of the
  filter form: seven optional strings. Its price transform inserts a comma
  in front of every trailing group of three digits, as the regular
  expression `\B(?=(\d{3})+(?!\d))` does.
- `FiltersDrawer` (`filters_drawer.dfy`) covers the filter drawer:
  - the query its submit builds;
  - the select-to-clear financing toggle;
  - the reset;
  - the decoding of the URL query back into the form;
  - the form state as a class whose methods update it field by field.
- `HomePage` (`home_page.dfy`) covers the home page search. Its encoder
  differs from the drawer's. The module also has the digit-only price
  input, the search by listing code and the translation of the fetched type
  list.
- `Pagination` (`pagination.dfy`) is the page bar. It is a class with the
  current page, plus pure functions for buttons, clicks and click sequences.
- `ImageSlider` (`image_slider.dfy`) is the gallery. It is a class with the
  current image, the thumbnail offset and the open flag, plus the cyclic
  index functions.
- `YoutubePlayer` (`youtube_player.dfy`) extracts the video id from a URL.
- `OptionArray` (`option_array.dfy`) maps strings to select options.
- `NewListing` (`new_listing.dfy`) is the admin "new listing" page:
  - CEP (Brazilian postcode) formatting;
  - the uploaded images and the cover, as a class;
  - the submit payload;
  - the token gate.
- `ListingsDashboard` (`listings_dashboard.dfy`) is the admin table:
  - the accent- and case-insensitive search;
  - the in-place sort by views on an array;
  - the reload;
  - the token gate and its fallback.
- Shared modules:
  - `Wrappers` has `Option`;
  - `Text` has the JavaScript string operations used: `replace` with the
    patterns involved, `includes`, `split`, `toString` and `parseInt`;
  - `Query` has query objects and their serialisation into the URL;
  - `Sequences` has `filter` and the subsequence order;
  - `ServerGate` has the admin pages' token check.

The router, the HTTP client, toasts and cookies are not modelled. What the
code hands to them appears as values: query maps, payloads and redirect
results. What it receives from them appears as parameters: fetched counts,
upload results and whether a delete request succeeded. `priceMask` is not
part of this model. It is passed in as an arbitrary function
`mask: string -> string`.

Three behaviours of the code are worth stating up front:

- The type table is asymmetric: `Comercial` reverses to `null`.
- Sent keys can be empty. The drawer sends `type: null` for `Comercial`.
  The home page tests `financing !== ''`, so a `financing` that reaches its
  `onSubmit` as `undefined` is sent as `financeable: undefined`.
- Fetch responses are not checked for staleness, so no such check is
  modelled.

## Model

| member | source | states |
|---|---|---|
| `EnumTranslation.Translate` | src/utils/translateEnumProperty.ts:1-12 | a label exactly for the four codes with a case (otherwise `undefined`), and the label is never empty |
| `EnumTranslation.ReverseTranslate` | src/utils/translateEnumProperty.ts:14-25 | a code exactly for `Casa`, `Apartamento`, `Terreno`; `null` for everything else including `Comercial` and `undefined`; where defined, translating the code back gives the label |
| `EnumTranslation.TranslateTable` | src/utils/translateEnumProperty.ts:2-11 | HOUSE→Casa, APARTMENT→Apartamento, LAND→Terreno, COMMERCIAL→Comercial |
| `EnumTranslation.ReverseTable` | src/utils/translateEnumProperty.ts:15-23 | Casa→HOUSE, Apartamento→APARTMENT, Terreno→LAND, `Comercial` and `undefined` → `null` |
| `EnumTranslation.CodeRoundTrip` | src/utils/translateEnumProperty.ts:1-25 | code→label→code gives the code back exactly for the known codes other than COMMERCIAL |
| `EnumTranslation.CommercialRoundTripFails` | src/utils/translateEnumProperty.ts:9-23 | COMMERCIAL has a label, but that label reverses to `null` |
| `EnumTranslation.LabelRoundTrip` | src/utils/translateEnumProperty.ts:3-21 | label→code→label gives the label back exactly for the three reversible labels |
| `EnumTranslation.TranslateInjective` | src/utils/translateEnumProperty.ts:2-11 | distinct known codes have distinct labels |
| `OptionArray.TransformToOptionArray` | src/utils/tranformToOptionArray.ts:1-5 | same length as the input; option i has title and value both equal to input i |
| `OptionArray.TransformConcat` | src/utils/tranformToOptionArray.ts:2-4 | mapping distributes over concatenation, so order is kept |
| `OptionArray.TitlesReadBack` | src/utils/tranformToOptionArray.ts:3 | reading back the titles, or the values, gives the input |
| `FiltersSchema.GroupThousands` | src/schemas/defaultFiltersSchema.ts:12 | the transform only inserts commas: deleting commas from its output gives what deleting them from the input gives; one extra character per matching position; the first and last characters are kept |
| `FiltersSchema.GroupFromLength` | src/schemas/defaultFiltersSchema.ts:12 | the output of the rewrite from position i has the input's remaining length plus the number of commas placed |
| `FiltersSchema.GroupFromKeepsCharacters` | src/schemas/defaultFiltersSchema.ts:12 | the rewrite from position i keeps every non-comma character in order |
| `FiltersSchema.TransformPrice` | src/schemas/defaultFiltersSchema.ts:9-20 | an undefined price stays undefined; a defined one only gains commas |
| `FiltersSchema.Parse` | src/schemas/defaultFiltersSchema.ts:3-20 | every field optional; the five plain fields pass through; prices stay defined exactly when they were |
| `FiltersSchema.SamePriceTransform` | src/schemas/defaultFiltersSchema.ts:9-20 | `minPrice` and `maxPrice` go through the same transform |
| `FiltersSchema.DigitRunCommas` | src/schemas/defaultFiltersSchema.ts:12 | a run of n ≥ 1 digits gets exactly (n − 1) / 3 commas, none in front, and deleting them gives the digits back |
| `FiltersSchema.UnchangedIffShortRuns` | src/schemas/defaultFiltersSchema.ts:12 | on a string of digits and dots the transform is the identity exactly when no digit run is longer than three |
| `FiltersSchema.DotGroupedUnchanged` | src/schemas/defaultFiltersSchema.ts:12 | "350.000" passes through unchanged |
| `FiltersSchema.DigitGroupsFrom` | src/schemas/defaultFiltersSchema.ts:12 | inside a digit run, the rewrite from position i ≥ 1 has (m + m / 3) characters for the m digits left, with a comma exactly at every fourth position counted from the end |
| `FiltersSchema.DigitGroupsWhole` | src/schemas/defaultFiltersSchema.ts:12 | the same for the whole run: n + (n − 1) / 3 characters, commas exactly at every fourth position from the end |
| `FiltersSchema.DigitGrouping` | src/schemas/defaultFiltersSchema.ts:12 | for n ≥ 1 digits the transform keeps the digits in order and places commas exactly at every fourth position from the end, so every group after the first has three digits and the first has one to three |
| `FiltersSchema.FourDigitsChanged` | src/schemas/defaultFiltersSchema.ts:12 | "1234" does not |
| `Query.StrippedPrice` | src/components/filtersDrawer.tsx:68-69 | a price with every dot removed, `''` when undefined |
| `Query.UrlValue` | src/components/filtersDrawer.tsx:73-85 | strings are written as they are, the page number as its decimal digits, `null` and `undefined` as empty |
| `Query.PresentAfterUrl` | src/components/filtersDrawer.tsx:114-138 | a key reads back as truthy exactly when it was sent with a value not written as empty, and then it reads back as that written value |
| `FiltersDrawer.TypeValue` | src/components/filtersDrawer.tsx:70 | the `type` value is the code of a reversible label, `null` otherwise |
| `FiltersDrawer.DrawerQuery` | src/components/filtersDrawer.tsx:65-88 | `page` is always 1; each of code, minPrice, maxPrice, financeable, city, type, neighborhood is present exactly when its field is truthy (prices: after dot removal); no other key |
| `FiltersDrawer.DrawerQueryValues` | src/components/filtersDrawer.tsx:68-84 | each present key carries its field as typed, the price without dots, or for `type` the code of the label (`null` when it has none) |
| `FiltersDrawer.NoEmptyStrings` | src/components/filtersDrawer.tsx:77-83 | no key of a submitted query carries the empty string |
| `FiltersDrawer.Toggle` | src/components/filtersDrawer.tsx:90-94 | choosing the selected option clears financing to `''`, any other choice selects it |
| `FiltersDrawer.ToggleTwice` | src/components/filtersDrawer.tsx:90-94 | two clicks on one option restore the selection exactly when it was that option or empty |
| `FiltersDrawer.ResetFormEncodesToResetQuery` | src/components/filtersDrawer.tsx:96-109 | the reset form would submit exactly the reset query `{page: 1}` |
| `FiltersDrawer.Decode` | src/components/filtersDrawer.tsx:114-138 | a field is set only when its key is truthy in the URL (type through `Translate`, prices through the mask, `financeable` into financing); otherwise it keeps its value; `code` is never decoded |
| `FiltersDrawer.ResetQueryDecodesToNoChange` | src/components/filtersDrawer.tsx:106-109 | navigating to `{page: 1}` leaves the form as it is |
| `FiltersDrawer.DrawerRoundTrip` | src/components/filtersDrawer.tsx:65-138 | for a form whose filled fields survive the trip, submitting and decoding restores every filled field and keeps the rest (and `code`) from the prior form |
| `FiltersDrawer.CommercialLostOnRoundTrip` | src/components/filtersDrawer.tsx:70-82 | the label `Comercial` is submitted as `type: null` and decoding leaves the prior type in place |
| `FiltersDrawer.Drawer.constructor` | src/components/filtersDrawer.tsx:45-52 | the form starts with every field undefined |
| `FiltersDrawer.Drawer.HandleInputChange` | src/components/filtersDrawer.tsx:56-63 | the typed value loses its dots, goes through the mask and is stored in that price field only |
| `FiltersDrawer.Drawer.HandleChangeFinanceable` | src/components/filtersDrawer.tsx:90-94 | financing becomes `Toggle` of its old value, nothing else changes |
| `FiltersDrawer.Drawer.ResetFilters` | src/components/filtersDrawer.tsx:96-112 | the form becomes the reset form (code undefined, the rest `''`) and the query is `{page: 1}` |
| `FiltersDrawer.Drawer.OnSubmit` | src/components/filtersDrawer.tsx:65-88 | the query is `DrawerQuery` of the schema-parsed form, with `page` 1 |
| `FiltersDrawer.Drawer.SetFilterValues` | src/components/filtersDrawer.tsx:114-138 | the form becomes `Decode` of the old form and the URL query |
| `HomePage.HomeQuery` | src/pages/index.tsx:91-111 | `page` always 1; code, prices, city, type as in the drawer; `financeable` whenever financing is not exactly `''` (as `undefined` when `financing` is `undefined`); never `neighborhood` |
| `HomePage.HomeQueryValues` | src/pages/index.tsx:93-108 | values as in the drawer, except that an `undefined` financing is sent as `financeable: undefined` |
| `HomePage.HomeMatchesDrawer` | src/pages/index.tsx:91-111 | the two encoders agree exactly when no neighbourhood is filled in and financing is defined |
| `HomePage.UndefinedFinancingIgnored` | src/pages/index.tsx:106 | an `undefined` financing reaches the URL as an empty `financeable`, which decoding ignores |
| `HomePage.SearchByCode` | src/pages/index.tsx:66-89 | navigates with a query holding only `code` exactly when the lookup returned a non-empty list; a thrown request only logs; otherwise the error toast |
| `HomePage.TranslateTypes` | src/pages/index.tsx:123-127 | same length and order as the fetched codes, each through `Translate` |
| `HomePage.KnownTypesAllLabelled` | src/pages/index.tsx:123-127 | a list of known codes translates to labels only |
| `HomePage.HomeSearch.HandleInputChange` | src/pages/index.tsx:56-64 | every non-digit is dropped before the mask; only that price field changes |
| `HomePage.HomeSearch.OnSubmit` | src/pages/index.tsx:91-111 | the query is `HomeQuery` of the parsed form and has no `neighborhood` |
| `HomePage.HomeSearch.SearchCode` | src/pages/index.tsx:66-89 | the outcome is `SearchByCode` of the parsed form's code |
| `Pagination.PageButtons` | src/components/pagination/index.tsx:30 | one button per page, button i showing i + 1 |
| `Pagination.PageButtonsAscending` | src/components/pagination/index.tsx:30 | the page buttons are in strictly ascending order |
| `Pagination.ExactlyOneHighlighted` | src/components/pagination/index.tsx:35-37 | with the page in range exactly one page button is highlighted |
| `Pagination.ClickStaysInRange` | src/components/pagination/index.tsx:23-48 | one click on a rendered button keeps 1 ≤ page ≤ totalPages |
| `Pagination.RunStaysInRange` | src/components/pagination/index.tsx:23-48 | any sequence of clicks on rendered buttons keeps 1 ≤ page ≤ totalPages |
| `Pagination.NoPagesNextEnabled` | src/components/pagination/index.tsx:47-48 | with zero pages, next is enabled on page 1 and leads to page 2 |
| `Pagination.PaginationBar.constructor` | src/components/pagination/index.tsx:13 | the current page starts at 1 |
| `Pagination.PaginationBar.HandlePageChange` | src/components/pagination/index.tsx:15-18 | the page becomes p and the parent is told p |
| `Pagination.PaginationBar.Press` | src/components/pagination/index.tsx:22-52 | a disabled button (previous on page 1, next on the last page) does nothing and notifies nobody; an enabled one moves to its target and notifies it; rendered buttons keep the page in range |
| `ImageSlider.NextIndex` | src/components/imageSliderShow/index.tsx:58-62 | for an index in range: stays in range and equals (i + 1) mod n |
| `ImageSlider.PrevIndex` | src/components/imageSliderShow/index.tsx:52-56 | for an index in range: stays in range and equals (i − 1 + n) mod n |
| `ImageSlider.PrevUndoesNext` | src/components/imageSliderShow/index.tsx:52-62 | previous undoes next and next undoes previous |
| `ImageSlider.NextTimesIsModular` | src/components/imageSliderShow/index.tsx:58-62 | k presses of next move the index to (i + k) mod n |
| `ImageSlider.FullCircle` | src/components/imageSliderShow/index.tsx:58-62 | n presses of next come back to the same image |
| `ImageSlider.EmptyGalleryLeavesRange` | src/components/imageSliderShow/index.tsx:52-62 | with no images, next gives 1 and previous gives −1 |
| `ImageSlider.ThumbnailOffset` | src/components/imageSliderShow/index.tsx:75 | the offset of an image is at most −3 |
| `ImageSlider.ThumbnailOffsetInjective` | src/components/imageSliderShow/index.tsx:47-76 | distinct images have distinct offsets, and image 0 has the closing value −3 |
| `ImageSlider.BadgeCountNonNegative` | src/components/imageSliderShow/index.tsx:172-177 | when the badge is shown, the number of further images `totalImages − 5` is not negative, and is 0 exactly for five images |
| `ImageSlider.Gallery.constructor` | src/components/imageSliderShow/index.tsx:31-32 | image 0, offset −3, closed: the strip starts in step |
| `ImageSlider.Gallery.HandleOpen` | src/components/imageSliderShow/index.tsx:42-45 | the current image becomes i and the modal opens |
| `ImageSlider.Gallery.HandleClose` | src/components/imageSliderShow/index.tsx:47-50 | the offset goes back to −3 and the modal closes; the strip is in step afterwards only for image 0 |
| `ImageSlider.Gallery.HandlePrev` | src/components/imageSliderShow/index.tsx:52-56 | the index becomes `PrevIndex`, staying in range |
| `ImageSlider.Gallery.HandleNext` | src/components/imageSliderShow/index.tsx:58-62 | the index becomes `NextIndex`, staying in range |
| `ImageSlider.Gallery.SyncThumbnail` | src/components/imageSliderShow/index.tsx:69-79 | with the strip mounted and a thumbnail at the current index, the offset becomes −3 − 6·index; otherwise it stays |
| `YoutubePlayer.ExtractVideoId` | src/components/youtubePlayer/index.tsx:9-13 | a shorts URL gives its fifth '/'-piece (undefined if there is none); other URLs give an id free of '&' and '=', or fail when there is no '=' |
| `YoutubePlayer.IdFollowsFirstEquals` | src/components/youtubePlayer/index.tsx:13 | the id starts right after the first '=' and runs to the next '&' or '=' or to the end |
| `NewListing.FormatZip` | src/pages/admin/anuncios/novo/index.tsx:348-358 | only digits remain, with a '-' after the fifth once there are more than five; removing the '-' gives the digits |
| `NewListing.LookupIffEightDigits` | src/pages/admin/anuncios/novo/index.tsx:354-356 | the address lookup fires exactly when eight digits were typed |
| `NewListing.FormatZipIdempotent` | src/pages/admin/anuncios/novo/index.tsx:348-358 | formatting a formatted value again changes nothing |
| `NewListing.WithoutId` | src/pages/admin/anuncios/novo/index.tsx:226-228 | exactly the images with another public id remain, in their order, each with as many copies as before |
| `Sequences.FilterMultiset` | src/pages/admin/anuncios/novo/index.tsx:226-228 | `filter` keeps every copy of an element that passes and none of one that fails |
| `NewListing.FindIndex` | src/pages/admin/anuncios/novo/index.tsx:265-267 | the first position holding the id, or −1 exactly when none does |
| `NewListing.ChosenCoverConsistent` | src/pages/admin/anuncios/novo/index.tsx:264-270 | choosing an image on screen gives a cover whose index holds its id |
| `NewListing.CoverAfterDelete` | src/pages/admin/anuncios/novo/index.tsx:218-220 | the cover is cleared exactly when it is the deleted image, otherwise kept as it was |
| `NewListing.StaleCoverAfterDelete` | src/pages/admin/anuncios/novo/index.tsx:214-230 | deleting an image in front of the cover leaves a cover index that no longer names it |
| `NewListing.CoverAfterDeleteFixed` | src/pages/admin/anuncios/novo/index.tsx:218-230 | the cover is cleared exactly when it is the deleted image, and otherwise keeps its id |
| `NewListing.CoverFixedStaysConsistent` | src/pages/admin/anuncios/novo/index.tsx:218-230 | re-locating the cover after a delete keeps it consistent |
| `NewListing.DeletePath` | src/pages/admin/anuncios/novo/index.tsx:222-224 | the request path is `upload/` and the third '/'-piece of the id, or `undefined` |
| `NewListing.OptionalNumber` | src/pages/admin/anuncios/novo/index.tsx:158-167 | `null` exactly for an empty field, otherwise `parseInt` without dots |
| `NewListing.MergeFeatures` | src/pages/admin/anuncios/novo/index.tsx:177-184 | every default key and every chosen key; chosen values win, the rest keep the default |
| `NewListing.UnsetFeaturesOff` | src/pages/admin/anuncios/novo/index.tsx:56-67 | an amenity not ticked is sent as false |
| `NewListing.BuildPayload` | src/pages/admin/anuncios/novo/index.tsx:149-185 | image URLs in order; the cover's index; `financeable` exactly for `'true'`; video URL `null` exactly when empty; the four optional numbers read without dots and `null` exactly when empty; bedroom, bathroom, parking spaces and realtor id parsed as typed, never `null`; the price parsed without dots; feature maps over the default keys |
| `NewListing.PriceIgnoresDots` | src/pages/admin/anuncios/novo/index.tsx:169 | a digits-and-dots price is sent as the number its digits spell |
| `NewListing.OptionalNumberIgnoresDots` | src/pages/admin/anuncios/novo/index.tsx:158-167 | a filled digits-and-dots area, condo price or IPTU is sent as the number its digits spell |
| `Text.ParseIntStops` | src/pages/admin/anuncios/novo/index.tsx:155-157 | `parseInt` of digits followed by a non-digit reads only the digits in front |
| `NewListing.RawNumberStopsAtDot` | src/pages/admin/anuncios/novo/index.tsx:155-157 | a bedroom, bathroom, parking or realtor field with a dot is sent as the digits before the first dot |
| `NewListing.RawAndStrippedDiffer` | src/pages/admin/anuncios/novo/index.tsx:155-168 | "1.000" is sent as 1 in a raw field and as 1000 in an area field |
| `NewListing.PayloadCoverInRange` | src/pages/admin/anuncios/novo/index.tsx:152-153 | a consistent cover is sent as an index into the images sent |
| `NewListing.ImageUploads.constructor` | src/pages/admin/anuncios/novo/index.tsx:88-89 | no images and no cover |
| `NewListing.ImageUploads.AppendUploaded` | src/pages/admin/anuncios/novo/index.tsx:125 | the uploaded items go after the existing ones; the cover stays consistent |
| `NewListing.ImageUploads.DeleteImage` | src/pages/admin/anuncios/novo/index.tsx:214-253 | the cover is cleared first when it is the image; the list loses exactly that id when the request succeeds and is unchanged otherwise |
| `NewListing.ImageUploads.SetMainImage` | src/pages/admin/anuncios/novo/index.tsx:264-270 | the cover becomes the id with its first position, consistent when the id is on screen |
| `NewListing.ImageUploads.SubmitDisabled` | src/pages/admin/anuncios/novo/index.tsx:689 | disabled exactly while no cover is set |
| `NewListing.ImageUploads.Submit` | src/pages/admin/anuncios/novo/index.tsx:149-188 | the posted payload is `BuildPayload` of the form, images and cover |
| `NewListing.ServerSideProps` | src/pages/admin/anuncios/novo/index.tsx:702-718 | no token: temporary redirect to `/`; otherwise empty props |
| `ServerGate.Gate` | src/pages/admin/anuncios/index.tsx:143-154 | a missing or empty token redirects temporarily to `/`; otherwise the props pass through |
| `ListingsDashboard.Lower` | src/pages/admin/anuncios/index.tsx:76 | the result is never an upper-case letter; only upper-case letters change |
| `ListingsDashboard.FoldIdempotent` | src/pages/admin/anuncios/index.tsx:75-83 | normalising twice is normalising once |
| `ListingsDashboard.FoldIgnoresCase` | src/pages/admin/anuncios/index.tsx:75-83 | upper-casing a text does not change its normalised form |
| `ListingsDashboard.FoldDropsMarks` | src/pages/admin/anuncios/index.tsx:78 | a combining mark anywhere is ignored |
| `ListingsDashboard.AccentedCapitalFolds` | src/pages/admin/anuncios/index.tsx:75-83 | "SÃO" and "sao" normalise alike |
| `ListingsDashboard.FilterRows` | src/pages/admin/anuncios/index.tsx:71-108 | the rows themselves for an empty input; otherwise exactly the rows whose title, id or realtor name contains the input after normalisation, each with all its copies; always a subsequence of the rows |
| `ListingsDashboard.EmptyInputMatchesAll` | src/pages/admin/anuncios/index.tsx:72 | every row matches the empty input, so the shortcut agrees with filtering |
| `ListingsDashboard.SearchIgnoresCase` | src/pages/admin/anuncios/index.tsx:73-106 | a search typed in capitals finds the same rows |
| `ListingsDashboard.SortByViews` | src/pages/admin/anuncios/index.tsx:128-134 | in place: views never increase down the array, and the rows are a permutation of the old ones |
| `ListingsDashboard.DisplayedRows` | src/pages/admin/anuncios/index.tsx:126-134 | the shown rows are the search result, reordered, most viewed first |
| `ListingsDashboard.ServerSideProps` | src/pages/admin/anuncios/index.tsx:143-176 | no token: temporary redirect to `/`; otherwise the fetched rows, `null` when the fetch failed |
| `ListingsDashboard.FailedFetchGivesNull` | src/pages/admin/anuncios/index.tsx:168-174 | a signed-in visit whose fetch fails hands the page `null` data |
| `ListingsDashboard.Dashboard.constructor` | src/pages/admin/anuncios/index.tsx:20-22 | data from the props, empty search, not loading |
| `ListingsDashboard.Dashboard.SetFilterInput` | src/pages/admin/anuncios/index.tsx:123 | the search text changes, nothing else |
| `ListingsDashboard.Dashboard.GetData` | src/pages/admin/anuncios/index.tsx:24-36 | on success the rows are replaced wholesale by the response; on failure they stay; loading ends |
| `ListingsDashboard.Dashboard.Render` | src/pages/admin/anuncios/index.tsx:55-134 | `null` data crashes the table; otherwise the search result, most viewed first |
| `ListingsDashboard.Dashboard.RenderFixed` | src/pages/admin/anuncios/index.tsx:55-134 | with `null` read as no rows the table always renders: empty for `null`, otherwise as `Render` |

## Left out

- HTTP requests are left out: the listing API, the upload service and the
  viacep address lookup. So are `router.push`, toasts and cookie parsing.
  Their inputs and results are values and parameters of the model.
- `priceMask` and `verifyAndAddPlus` are not part of this model. The mask is
  an arbitrary function parameter, and the round trip assumes it rebuilds
  the submitted price.
- The query's serialisation into the URL is done by the Next.js router,
  which is not part of this model. `Query.ToUrl` assumes the router writes `null` and `undefined` as empty
  values.
- Pinch-zoom scaling in the gallery is left out: floating point and
  `Math.hypot`.
- `handleChangeImage` in the gallery is left out. It sets the index the way
  `handleOpen` does, without opening the modal.
- Price and date formatting in the admin table are left out:
  `Intl.NumberFormat` and `toLocaleDateString`.
- `ListingsDashboard.Fold` handles only Latin-1 and the combining marks.
  Lower-casing and NFD decomposition of other scripts are not modelled.
- `Text.ParseInt` does not model hexadecimal prefixes, digits beyond the
  safe-integer range or white space outside ASCII, NBSP and BOM.
- `HomePage.SearchByCode` covers only the decision. The lookup's request
  and its response are the `CodeLookup` parameter.
- `NewListing.BuildPayload` leaves out the fields `onSubmit` passes through
  unchanged or looks up:
  - the `PropertyType`/`PropertySubtype` enum lookups (the enum file is not
    part of this model);
  - the viacep address;
  - the text fields.
- `handleFormatThousands` on the new-listing page is left out. It is the
  same digit-strip-then-mask step as `HomeSearch.HandleInputChange`.
- The order of rows with equal views after the sort is not modelled. The
  comparator never answers 0, so JavaScript leaves that order to the
  engine. `SortByViews` promises only the ordering and the permutation.
- Whether the home page's `financing` ever reaches `onSubmit` as
  `undefined` depends on the select component it is registered on, which is
  not part of this model. The model covers both `undefined` and `''`.
- Loading flags and `Promise.all` joins are left out, and so are request
  races.
- `Pagination.PaginationBar` models `totalPages` as fixed. The prop can
  change while the current page stays.

## Findings

| source | as written | input that shows it | evidently intended | confidence | as-written member | corrected member |
|---|---|---|---|---|---|---|
| src/pages/admin/anuncios/novo/index.tsx:214-230 | deleting an image clears the cover only when the cover is that image; the stored cover index is never updated | images `a`, `b` with cover `b` at index 1; delete `a`: the list is `[b]` and `ad_image_cover` is still 1 | the cover index follows the cover to its new position | not executed | `NewListing.StaleCoverAfterDelete` | `NewListing.CoverAfterDeleteFixed` |
| src/pages/admin/anuncios/index.tsx:128-174 | a failed server fetch gives `propertiesData: null`, `data?.map` yields `undefined`, and `.sort` on it throws | a signed-in visit whose `/properties` request fails | the table renders empty | not executed | `ListingsDashboard.Dashboard.Render` | `ListingsDashboard.Dashboard.RenderFixed` |

For the first row, `NewListing.CoverFixedStaysConsistent` proves that the
corrected cover still names its image after any delete. For the second
row, `ListingsDashboard.FailedFetchGivesNull` shows that the `null` data
can be reached.
