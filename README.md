# Movie browser: wishlist store and catalog URL helpers

This is a Dafny model of the two parts of the movie-browsing app that hold logic of their own.

- **The wishlist store** (`Wishlist`, `wishlist_store.dfy`). The store keeps the user's wishlisted movie ids as an ordered list. Its operations keep the list free of duplicates. The class `WishlistStore` holds the list in the field `movieIds`. It also holds the browser storage it writes to, in the field `storage`. After every change the store writes its list under the key `"wishlist-storage"`. `AddMovie` appends an id only when it is absent. `RemoveMovie` drops every occurrence of an id, even from a list that holds duplicates. `IsInWishlist` tests membership. `ClearWishlist` empties the list. `AddMovie` is stated against the pure function `Added` and `RemoveMovie` against `Removed`. `IsInWishlist` and `ClearWishlist` state membership and the empty list directly. The properties are proved as lemmas about `Added` and `Removed`: the no-duplicates invariant, insertion order, idempotence, and add-then-remove.
- **The catalog URL helpers** (`MovieApi`, `movie_api.dfy`). This covers the endpoint paths `/movie/<category>?page=<n>` (page 1 by default) and `/movie/<id>`. It also covers the image URLs `https://image.tmdb.org/t/p/<size><path>`. An image URL is null when the path is null or empty. The path is appended as given, so no slash is added or removed. Posters use size `w500`, which is also the default, and backdrops use `w1280`. Each string builder is paired with a parser that reads it back. Each endpoint builder's contract states that its path parses back to all of its inputs, so distinct inputs give distinct paths, and the two kinds of endpoint never coincide. The image URL reads back only its path, and only when the size is known. It is therefore injective only at a fixed size. Across sizes two requests can give the same URL: path `00/x` at size `w5` and path `/x` at size `w500` both give `https://image.tmdb.org/t/p/w500/x`.
- **Integer printing** (`NumberFormat`, `number_format.dfy`). This is how a template literal prints an integer page number or movie id: a minus sign for negatives, then decimal digits without leading zeros. It has a parser, and the round trip is proved.
- **Optional values** (`Optional`, `optional.dfy`). The `Option` type stands for TypeScript's `string | null`.

The client method `ScenarioAddRemoveClear` runs the sequence of the store's test at `mytheresa/src/stores/__tests__/wishlistStore.test.ts:196-223`: add 1, 2 and 3, remove 2, add 4 and 5, then clear. Its first half, up to the remove, is the method `ScenarioAddThreeRemoveOne`. `ScenarioEdgeIds` adds the ids 0 and -1. `ScenarioInjectedDuplicates` removes an id from a list that holds it several times, as in the test at lines 114-124 of the same file. The scenarios rely on the methods' contracts together with the lemmas about `Added` and `Removed` (`RemovedMiddleExample`, `InjectedDuplicatesExample`).

The store keeps an array and appends to it, so the model keeps an ordered sequence rather than a set.

## Model

| member | source | states |
|---|---|---|
| `Wishlist.WishlistStore.constructor` | mytheresa/src/stores/wishlistStore.ts:15 | a new store has an empty list, which is duplicate-free, and nothing is written to storage yet |
| `Wishlist.WishlistStore.AddMovie` | mytheresa/src/stores/wishlistStore.ts:17-23 | if the id is already present the list is unchanged, otherwise the list is the old list followed by the id; a duplicate-free list stays duplicate-free; the new list is written under `"wishlist-storage"` and no other storage key changes |
| `Wishlist.WishlistStore.RemoveMovie` | mytheresa/src/stores/wishlistStore.ts:25-29 | for any list, duplicates included, the new list is the old one with every occurrence of the id filtered out; an absent id leaves the list unchanged; the no-duplicates invariant is kept; the new list is written to storage |
| `Wishlist.WishlistStore.IsInWishlist` | mytheresa/src/stores/wishlistStore.ts:31-33 | returns true exactly when the id is in the list, for any integer id including 0 and negatives; it changes nothing |
| `Wishlist.WishlistStore.ClearWishlist` | mytheresa/src/stores/wishlistStore.ts:35-37 | from any state the list becomes empty, so no id is in it; the empty list is written to storage |
| `Wishlist.Added` | mytheresa/src/stores/wishlistStore.ts:18-22 | after an add, the id is in the list; the members are exactly the old ones plus the id; the old list is a prefix of the new one, so insertion order is kept; the list grows by at most one; a duplicate-free list stays duplicate-free |
| `Wishlist.Removed` | mytheresa/src/stores/wishlistStore.ts:26-28 | the id no longer occurs; the members are exactly the old ones other than the id; the multiset of ids loses every copy of the id and nothing else; a duplicate-free list stays duplicate-free |
| `Wishlist.RemovedConcat` | mytheresa/src/stores/wishlistStore.ts:27 | filtering distributes over concatenation, so the ids that remain keep their relative order |
| `Wishlist.RemovedAbsent` | mytheresa/src/stores/wishlistStore.ts:27 | removing an id that is absent, including from an empty list, returns the list unchanged |
| `Wishlist.RemovedTwice` | mytheresa/src/stores/wishlistStore.ts:27 | removing the same id twice gives the same list as removing it once |
| `Wishlist.AddedTwice` | mytheresa/src/stores/wishlistStore.ts:19-21 | adding the same id twice gives the same list as adding it once |
| `Wishlist.AddThenRemove` | mytheresa/src/stores/wishlistStore.ts:17-29 | an add followed by a remove of the same id gives the same list as the remove alone; if the id was absent before, the original list comes back |
| `Wishlist.AddAll` | mytheresa/src/stores/__tests__/wishlistStore.test.ts:225-233 | after any series of adds, the list holds exactly the old ids and the added ids, keeps the old list as its prefix, and has each id once if it started duplicate-free |
| `Wishlist.AddAllFresh` | mytheresa/src/stores/wishlistStore.ts:17-23 | adding new, distinct ids one at a time appends them in the order they were added |
| `Wishlist.InsertionOrderExample` | mytheresa/src/stores/__tests__/wishlistStore.test.ts:225-233 | adding 5, 1, 3, 2, 4 to an empty list gives [5, 1, 3, 2, 4] |
| `Wishlist.InjectedDuplicatesExample` | mytheresa/src/stores/__tests__/wishlistStore.test.ts:114-124 | removing 1 from [1, 2, 1, 3, 1] gives [2, 3] |
| `Wishlist.RemovedMiddleExample` | mytheresa/src/stores/__tests__/wishlistStore.test.ts:209-211 | removing 2 from [1, 2, 3] gives [1, 3] |
| `NumberFormat.NatToDecimal` | mytheresa/src/services/movieApi.ts:32 | a non-negative number prints as a non-empty run of digits with no leading zero, except for 0 itself |
| `NumberFormat.IntToString` | mytheresa/src/services/movieApi.ts:36 | an integer prints as a non-empty string that starts with a minus sign exactly when the integer is negative |
| `NumberFormat.DecimalRoundTrip` | mytheresa/src/services/movieApi.ts:32 | reading back the printed digits of a non-negative number gives the number |
| `NumberFormat.IntToStringRoundTrip` | mytheresa/src/services/movieApi.ts:32-36 | parsing the printed form of any integer gives the integer back |
| `NumberFormat.IntToStringInjective` | mytheresa/src/services/movieApi.ts:32-36 | distinct integers print differently |
| `NumberFormat.IntToStringFirstChar` | mytheresa/src/services/movieApi.ts:36 | a printed integer starts with a digit or a minus sign |
| `MovieApi.CategoryName` | mytheresa/src/types/movie.ts:36 | each of the three categories `popular`, `now_playing` and `top_rated` is a non-empty word of lower-case letters and underscores that starts with a letter, so it never holds a `/` or a `?` |
| `MovieApi.MoviesByCategoryEndpoint` | mytheresa/src/services/movieApi.ts:31-33 | the path starts with `/movie/<category>?page=`, and parsing it gives back exactly the category and the page, for every category and every integer page; `CategoryEndpointExamples` pins the default page 1 |
| `MovieApi.MovieDetailsEndpoint` | mytheresa/src/services/movieApi.ts:35-37 | the path starts with `/movie/`, and parsing it gives back exactly the movie id, for every integer id |
| `MovieApi.CategoryPrefixesDiffer` | mytheresa/src/services/movieApi.ts:32 | the path of one category never starts the endpoint of another category |
| `MovieApi.CategoryEndpointInjective` | mytheresa/src/services/movieApi.ts:31-33 | different (category, page) pairs request different paths |
| `MovieApi.DetailsEndpointInjective` | mytheresa/src/services/movieApi.ts:35-37 | different movie ids request different paths |
| `MovieApi.EndpointsDisjoint` | mytheresa/src/services/movieApi.ts:31-37 | a details path is never equal to a category path |
| `MovieApi.CategoryEndpointExamples` | mytheresa/src/services/movieApi.ts:31-33 | the page defaults to 1, so popular is `/movie/popular?page=1`; page 2 of top rated is `/movie/top_rated?page=2` |
| `MovieApi.DetailsEndpointExamples` | mytheresa/src/services/movieApi.ts:35-37 | details for 42 and -1 are `/movie/42` and `/movie/-1` |
| `MovieApi.ImageUrl` | mytheresa/src/services/movieApi.ts:39-42 | the result is null exactly when the path is null or empty; otherwise it starts with `https://image.tmdb.org/t/p/<size>`, its length is that prefix plus the path, and stripping the prefix gives back the path exactly, so nothing is inserted or removed |
| `MovieApi.ImageUrlInjective` | mytheresa/src/services/movieApi.ts:41 | at one size, different non-empty paths give different URLs |
| `MovieApi.ImageUrlSizeAmbiguous` | mytheresa/src/services/movieApi.ts:41 | across sizes the URL does not determine the request: path `00/x` at size `w5` and path `/x` at size `w500` give the same URL |
| `MovieApi.PosterUrl` | mytheresa/src/services/movieApi.ts:44-46 | null exactly for a null or empty path; otherwise a `w500` image URL from which the path reads back |
| `MovieApi.BackdropUrl` | mytheresa/src/services/movieApi.ts:48-50 | null exactly for a null or empty path; otherwise a `w1280` image URL from which the path reads back |
| `MovieApi.ImageSizes` | mytheresa/src/services/movieApi.ts:39-50 | the default size is `w500`, the poster URL is the image URL at the default size, and the backdrop URL is the image URL at `w1280` |
| `MovieApi.ImageUrlWithSlashExample` | mytheresa/src/services/__tests__/movieApi.test.ts:176-179 | `/example.jpg` at the default size gives `https://image.tmdb.org/t/p/w500/example.jpg` |
| `MovieApi.ImageUrlWithoutSlashExample` | mytheresa/src/services/__tests__/movieApi.test.ts:201-204 | `poster.jpg` gives `https://image.tmdb.org/t/p/w500poster.jpg`, so no slash is inserted |
| `MovieApi.BackdropUrlExample` | mytheresa/src/services/__tests__/movieApi.test.ts:220-223 | the backdrop of `/backdrop.jpg` is `https://image.tmdb.org/t/p/w1280/backdrop.jpg` |

## Left out

- The fetch wrapper (`mytheresa/src/services/movieApi.ts:8-29`) is not modelled. It covers the request to the catalog's base URL, the headers, the bearer key, the status check, JSON decoding and the logging of errors. All of it is network I/O.
- Hydration of the persisted store is not modelled. When the store is created, the library reads the stored snapshot back, and the model skips that step, so a store always starts empty. The snapshot is modelled as the id list itself, not as its serialised text. The library's version field and storage failures are not modelled either.
- Wishlist.WishlistStore.constructor: does not read an earlier snapshot from `storage`, because hydration belongs to the persistence library, whose code is not part of this model.
- Direct state injection through the store library's `setState`, as the store's tests use it, is modelled only by assigning the public `movieIds` field.
- Movie ids and page numbers are JavaScript numbers. The model uses unbounded integers, so it does not capture the loss of precision above 2^53 or non-integer values.
- NumberFormat.IntToString: covers only the plain decimal form. JavaScript prints integers of magnitude 10^21 or more in exponent notation, and the model leaves that form out.
- The React Query hooks, the route and page components, the server bootstrap, the test helpers and the type declarations are not part of this model. They are UI, library glue or I/O.
