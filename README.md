# Fiver.Api.HATEOAS — a Dafny model of the movies controller

This project models the hypermedia response shaping and the request
decisions of the movies API:

- the **`ContentTypeOf` action constraint**, which admits a request only when
  its `Content-Type` header names the expected media type, ignoring case;
- the **link builders** of `MoviesController`: the navigation links of a page
  of movies (`self`, `previous-page`, `next-page`, `create-movie`) and the
  four action links of one movie (`self`, `update-movie`,
  `update-partial-movie`, `delete-movie`);
- the **representation choice**: an `Accept` header equal, character for
  character, to `application/vnd.fiver.hateoas+json` selects the output
  wrapped with links; anything else, an absent header included, selects the
  flat output;
- the **field mappings** between the domain movie, its input projection and
  its two output shapes;
- the **six handlers** (`GET /movies`, `GET /movies/{id}`, `POST`, `PUT`,
  `PATCH`, `DELETE`) as methods of a controller class over a movie store
  held as a map from Id to movie, with the order of their checks and the
  guarantee that the store is written only on the success path.

Modules, one per part of the program:

| file | module | models |
|---|---|---|
| `wrappers.dfy` | `Wrappers` | `Option`, standing in for a nullable reference |
| `content_type_of.dfy` | `ContentTypeOf` | `Lib/ContentTypeOf.cs` |
| `models.dfy` | `Models` | `Movie`, `MovieInputModel`, `MovieOutputModel`, `LinkInfo`, `LinksWrapper`, `LinksWrapperList`, `PagedList` |
| `links.dfy` | `Links` | the "Links" region of `MoviesController.cs` |
| `mappings.dfy` | `Mappings` | the "Mappings" region of `MoviesController.cs` |
| `movie_service.dfy` | `MovieService` | the `IMovieService` store, as a class over a map |
| `movies_controller.dfy` | `MoviesController` | the `Accept` branch and the handlers of `MoviesController.cs` |

Collaborators the controller cannot see are parameters: the routing
layer's URL generator is a function `UrlHelper` from a route name and route
values to a URL; model validation is a predicate `isValid` on the input
projection; a JSON Patch document is the function it applies to the input
projection (`None` when the body is missing); the clock reading stamped
into `LastReadAt` is a parameter `now`.

Points where the code's behaviour is easy to mistake, modelled as written:

- the `Accept` comparison is case-sensitive (`string.Equals` with the
  default ordinal comparison), while the `Content-Type` constraint ignores
  case;
- link relations are spelled as the code spells them (`create-movie`,
  `update-movie`, `update-partial-movie`, `delete-movie`);
- `POST` files the movie under the Id carried by the request body; no Id is
  assigned by the controller;
- `PATCH` does not compare the patched Id with the path Id: the patched movie
  is written under its patched Id (see `UpdatePatch` below).

## Model

| member | source | states |
|---|---|---|
| ContentTypeOf.ContentTypeOf.constructor | Fiver.Api.HATEOAS/Lib/ContentTypeOf.cs:8-15 | the expected media type is the one given at construction (a `const`, never changed afterwards) and `Order` is 0 |
| ContentTypeOf.ContentTypeOf.Accept | Fiver.Api.HATEOAS/Lib/ContentTypeOf.cs:17-27 | an absent `Content-Type` header is refused; a present one is accepted iff its upper-cased form equals the upper-cased expected type |
| ContentTypeOf.EqualsOrdinalIgnoreCase | Fiver.Api.HATEOAS/Lib/ContentTypeOf.cs:24-26 | the character-by-character case-insensitive comparison holds iff the two upper-cased strings are equal |
| ContentTypeOf.EqualsOrdinalIgnoreCaseSymmetric | Fiver.Api.HATEOAS/Lib/ContentTypeOf.cs:24-26 | the comparison gives the same answer with its arguments swapped |
| ContentTypeOf.CaseVariantAccepted | Fiver.Api.HATEOAS/Lib/ContentTypeOf.cs:24-26 | a header that spells the expected type with any of its letters in the other case is accepted |
| ContentTypeOf.ExactHeaderAccepted | Fiver.Api.HATEOAS/Lib/ContentTypeOf.cs:24-26 | a header identical to the expected type is accepted |
| ContentTypeOf.DifferentLengthRefused | Fiver.Api.HATEOAS/Lib/ContentTypeOf.cs:24-26 | a header of another length than the expected type is refused |
| Links.CollectionLinks | Fiver.Api.HATEOAS/Controllers/MoviesController.cs:149-187 | the page links start with `self`/GET at the current page number and size and end with `create-movie`/POST; `previous-page` is present iff `HasPreviousPage` (second, at the previous page number) and `next-page` iff `HasNextPage` (just before create, at the next page number), both at the current page size; the length is 2 plus the number of true flags |
| Links.GetLinksList | Fiver.Api.HATEOAS/Controllers/MoviesController.cs:149-187 | appending the links one by one yields exactly `CollectionLinks` |
| Links.ItemLinks | Fiver.Api.HATEOAS/Controllers/MoviesController.cs:189-222 | exactly four links with relations self, update-movie, update-partial-movie, delete-movie and methods GET, PUT, PATCH, DELETE, in that order, each pointing at the route serving its relation with the movie's own Id |
| Links.GetLinksModel | Fiver.Api.HATEOAS/Controllers/MoviesController.cs:189-222 | appending the links one by one yields exactly `ItemLinks` |
| Links.ItemLinksDependOnlyOnId | Fiver.Api.HATEOAS/Controllers/MoviesController.cs:189-222 | two movies with the same Id get the same links |
| Mappings.ToOutputModelDefault | Fiver.Api.HATEOAS/Controllers/MoviesController.cs:243-253 | the flat output carries Id, Title, ReleaseYear and Summary unchanged, the read time, and no links |
| Mappings.ToOutputModelLinks | Fiver.Api.HATEOAS/Controllers/MoviesController.cs:255-269 | the wrapped value equals the flat output field for field, and the attached links are the movie's item links |
| Mappings.SelectDefault | Fiver.Api.HATEOAS/Controllers/MoviesController.cs:228-231 | one flat output per movie, same length, same order |
| Mappings.SelectLinks | Fiver.Api.HATEOAS/Controllers/MoviesController.cs:233-241 | one wrapped output per movie, same length, same order, each with that movie's own links |
| Mappings.ToOutputModelDefaultList | Fiver.Api.HATEOAS/Controllers/MoviesController.cs:228-231 | the flat page output lists the page's movies in order, each carrying its fields and no links |
| Mappings.ToOutputModelLinksList | Fiver.Api.HATEOAS/Controllers/MoviesController.cs:233-241 | the linked page output lists the page's movies in order, each with its item links, and carries the page's collection links |
| Mappings.ToDomainModel | Fiver.Api.HATEOAS/Controllers/MoviesController.cs:271-280 | the domain movie copies Id, Title, ReleaseYear and Summary from the input projection unchanged; `ToInputModel` is its inverse in both directions (see the next two rows) |
| Mappings.ToInputModel | Fiver.Api.HATEOAS/Controllers/MoviesController.cs:282-291 | the input projection copies Id, Title, ReleaseYear and Summary from the movie unchanged, and mapping it back to the domain gives the movie again |
| Mappings.InputRoundTrip | Fiver.Api.HATEOAS/Controllers/MoviesController.cs:271-291 | mapping an input projection to the domain and back gives the projection again |
| MoviesController.RenderItem | Fiver.Api.HATEOAS/Controllers/MoviesController.cs:55-64 | the linked body is chosen iff the `Accept` header is exactly the hypermedia media type; otherwise the body is flat and link-free; either way it carries the movie's flat projection, and the linked body carries the item links |
| MoviesController.RenderList | Fiver.Api.HATEOAS/Controllers/MoviesController.cs:35-44 | the same choice for a page: the linked body iff the exact media type, else flat and link-free; both carry the same projections in order; the linked body carries the collection links and each movie's item links |
| MoviesController.NegotiationIsCaseSensitive | Fiver.Api.HATEOAS/Controllers/MoviesController.cs:35-44 | every `Accept` value that differs from the media type in letter case only gets the flat body, for a movie and for a page, although a `ContentTypeOf` constraint for that media type accepts it (the exact match at lines 35, 55 and 82 against the case-insensitive one at Lib/ContentTypeOf.cs:24-26) |
| MoviesController.MoviesController.constructor | Fiver.Api.HATEOAS/Controllers/MoviesController.cs:18-24 | the controller keeps the store and URL generator it is given |
| MoviesController.MoviesController.GetMovies | Fiver.Api.HATEOAS/Controllers/MoviesController.cs:26-45 | the answer is Ok with the page rendered for the `Accept` header |
| MoviesController.MoviesController.GetMovie | Fiver.Api.HATEOAS/Controllers/MoviesController.cs:47-65 | an Id the store lacks gives NotFound; otherwise Ok with the stored movie rendered for the `Accept` header |
| MoviesController.MoviesController.Create | Fiver.Api.HATEOAS/Controllers/MoviesController.cs:67-92 | a missing body gives BadRequest, then an invalid model gives Unprocessable, both leaving the store unchanged; otherwise the movie is stored under its Id and the answer is Created at route GetMovie with that Id and the movie rendered for the `Accept` header; the store invariant is kept |
| MoviesController.MoviesController.Update | Fiver.Api.HATEOAS/Controllers/MoviesController.cs:94-110 | a missing body or an Id mismatch gives BadRequest whether or not the Id exists; then an unknown Id gives NotFound; then an invalid model gives Unprocessable; only NoContent writes the store, replacing the movie under that Id |
| MoviesController.MoviesController.UpdatePatch | Fiver.Api.HATEOAS/Controllers/MoviesController.cs:112-134 | a missing patch gives BadRequest, then an unknown Id NotFound, then an invalid patched projection Unprocessable, all with the store unchanged; otherwise the patched movie is written under its own Id; under the store invariant, a patch that leaves the projection as it was leaves the store as it was |
| MoviesController.MoviesController.Delete | Fiver.Api.HATEOAS/Controllers/MoviesController.cs:136-145 | an unknown Id gives NotFound with the store unchanged; otherwise NoContent and exactly that Id is removed |
| MovieService.MovieService.GetMovie | Fiver.Api.HATEOAS/OtherLayers/IMovieService.cs:8 | returns the movie stored under the Id, or nothing when there is none; under the store invariant the movie carries that Id |
| MovieService.MovieService.MovieExists | Fiver.Api.HATEOAS/OtherLayers/IMovieService.cs:12 | true iff a movie is stored under the Id |
| MovieService.MovieService.AddMovie | Fiver.Api.HATEOAS/OtherLayers/IMovieService.cs:9 | the movie is stored under its own Id, nothing else changes, and the store invariant is kept |
| MovieService.MovieService.UpdateMovie | Fiver.Api.HATEOAS/OtherLayers/IMovieService.cs:10 | the movie replaces whatever was stored under its Id, nothing else changes, and the store invariant is kept |
| MovieService.MovieService.DeleteMovie | Fiver.Api.HATEOAS/OtherLayers/IMovieService.cs:11 | exactly the given Id is removed and the store invariant is kept |

## Left out

- Process start-up, dependency injection, output and input formatter media types, the camelCase JSON settings and the exception handler that answers 500: framework configuration in `Startup.cs`.
- URL generation and the routing table: `UrlHelper` is an uninterpreted function parameter; links carry whatever it returns.
- Action selection: the `ContentTypeOf("application/vnd.fiver.movie.input+json")` constraint on `POST` is modelled by the `ContentTypeOf` class, but the framework's choice of whether to dispatch to `Create` at all is not; `Create` is modelled as already selected.
- The `Content-Type` header lookup is reduced to one optional string: the framework's case-insensitive header names and the joining of several header values are not modelled.
- ContentTypeOf.ContentTypeOf.Accept: ignores case for ASCII letters only; the culture-invariant upper-casing of other letters that ordinal case-insensitive comparison also performs is not modelled.
- How the store builds a page (`GetMovies(pagingParams)`, the page flags and neighbouring page numbers) and the `X-Pagination` header serialisation: the store's implementation is not part of this model, so `GetMovies` takes the page the store returned.
- The store's implementation behind `IMovieService` is abstracted as a map from Id to movie; any Id assignment or duplicate handling it might do is not modelled.
- JSON Patch application is the function the patch applies; the patch vocabulary and the exception raised by an inapplicable patch (which reaches the 500 handler) are not modelled.
- Model validation (`ModelState.IsValid`, `TryValidateModel`) is a predicate parameter; the validation attributes of `MovieInputModel` are not part of this model, and neither are the validation details an Unprocessable answer carries.
- `LastReadAt` is one clock reading per response, passed in as `now`: the code reads the clock once per movie, so movies on one page may carry different times, while the model stamps them all with the same `now`.
- `Title` and `Summary` are nullable references in the code; here they are plain strings, which cannot be null (the field copies behave the same either way).
- Movies are values here: aliasing between the movie handed to the store and the one rendered in the answer is not modelled.
- The unused `MovieListOutputModel` and `MovieInfo` types; `LinksWrapperList`, declared in two files, is modelled once.
