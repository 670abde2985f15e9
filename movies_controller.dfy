/**
  The movies controller: the representation choice driven by the `Accept`
  header, and the decision logic of the six request handlers over the
  movie store.
*/
module MoviesController {

  import opened Wrappers
  import opened Models
  import opened Links
  import opened Mappings
  import opened MovieService
  import opened ContentTypeOf

  /** The media type a client names in `Accept` to receive links. */
  const HateoasMediaType: string := "application/vnd.fiver.hateoas+json"

  /**
    The linked representation is chosen when the `Accept` header is exactly
    the hypermedia media type: case-sensitive, one value, no quality
    parameters; an absent header never matches.
  */
  predicate WantsLinks(acceptHeader: Option<string>)
  {
    acceptHeader == Some(HateoasMediaType)
  }

  /** A response body in one of the two representations. */
  datatype Body =
    | FlatItem(item: MovieOutputModel)
    | LinkedItem(wrapped: LinksWrapper<MovieOutputModel>)
    | FlatList(items: seq<MovieOutputModel>)
    | LinkedList(page: LinksWrapperList<MovieOutputModel>)

  /** What a handler answers. */
  datatype ActionResult =
    | Ok(body: Body)
    | CreatedAtRoute(routeName: string, routeValues: RouteValues, body: Body)
    | NoContent
    | BadRequest
    | NotFound
    | Unprocessable

  /** The movie projections a body carries, whatever links surround them. */
  function Content(b: Body): seq<MovieOutputModel>
  {
    match b
    case FlatItem(item) => [item]
    case LinkedItem(wrapped) => [wrapped.Value]
    case FlatList(items) => items
    case LinkedList(page) => seq(|page.Values|, i requires 0 <= i < |page.Values| => page.Values[i].Value)
  }

  /** A body in the flat representation, with no link anywhere in it. */
  predicate LinkFree(b: Body)
  {
    (b.FlatItem? || b.FlatList?) && forall i :: 0 <= i < |Content(b)| ==> Content(b)[i].Links == None
  }

  /** The body for one movie under the given `Accept` header. */
  function RenderItem(acceptHeader: Option<string>, m: Movie, url: UrlHelper, now: DateTime): (b: Body)
    ensures b.LinkedItem? <==> WantsLinks(acceptHeader)
    ensures !WantsLinks(acceptHeader) ==> LinkFree(b)
    ensures Content(b) == [ToOutputModelDefault(m, now)]
    ensures b.LinkedItem? ==> b.wrapped.Links == ItemLinks(m, url)
  {
    if WantsLinks(acceptHeader) then LinkedItem(ToOutputModelLinks(m, url, now))
    else FlatItem(ToOutputModelDefault(m, now))
  }

  /** The body for a page of movies under the given `Accept` header. */
  function RenderList(acceptHeader: Option<string>, model: PagedList, url: UrlHelper, now: DateTime): (b: Body)
    ensures b.LinkedList? <==> WantsLinks(acceptHeader)
    ensures !WantsLinks(acceptHeader) ==> LinkFree(b)
    ensures Content(b) == SelectDefault(model.List, now)
    ensures b.LinkedList? ==>
      && b.page.Links == CollectionLinks(model, url)
      && |b.page.Values| == |model.List|
      && forall i :: 0 <= i < |model.List| ==> b.page.Values[i].Links == ItemLinks(model.List[i], url)
  {
    if WantsLinks(acceptHeader) then
      var page := ToOutputModelLinksList(model, url, now);
      assert Content(LinkedList(page)) == SelectDefault(model.List, now);
      LinkedList(page)
    else FlatList(ToOutputModelDefaultList(model, now))
  }

  /**
    Only the exact spelling selects links: every header that differs from
    the media type in letter case alone gets the flat body, for a movie and
    for a page, although the `ContentTypeOf` constraint for that media type
    would accept it.
  */
  lemma NegotiationIsCaseSensitive(h: string, c: ContentTypeOf, m: Movie, model: PagedList, url: UrlHelper, now: DateTime)
    requires EqualsOrdinalIgnoreCase(h, HateoasMediaType) && h != HateoasMediaType
    requires c.expectedContentType == HateoasMediaType
    ensures RenderItem(Some(h), m, url, now).FlatItem?
    ensures RenderList(Some(h), model, url, now).FlatList?
    ensures c.Accept(Some(h))
  {
  }

  class MoviesController {

    const service: MovieService
    const urlHelper: UrlHelper

    constructor (service: MovieService, urlHelper: UrlHelper)
      ensures this.service == service && this.urlHelper == urlHelper
    {
      this.service := service;
      this.urlHelper := urlHelper;
    }

    /**
      GET on the collection. `model` is the page the store returned for the
      request's paging parameters.
    */
    method GetMovies(model: PagedList, acceptHeader: Option<string>, now: DateTime) returns (r: ActionResult)
      ensures r == Ok(RenderList(acceptHeader, model, urlHelper, now))
    {
      if acceptHeader == Some(HateoasMediaType) {
        var outputModel := ToOutputModelLinksList(model, urlHelper, now);
        r := Ok(LinkedList(outputModel));
      } else {
        var outputModel := ToOutputModelDefaultList(model, now);
        r := Ok(FlatList(outputModel));
      }
    }

    /** GET on one movie: NotFound unless the store has it. */
    method GetMovie(id: int, acceptHeader: Option<string>, now: DateTime) returns (r: ActionResult)
      ensures id !in service.movies ==> r == NotFound
      ensures id in service.movies ==> r == Ok(RenderItem(acceptHeader, service.movies[id], urlHelper, now))
    {
      var model := service.GetMovie(id);
      if model.None? {
        return NotFound;
      }
      if acceptHeader == Some(HateoasMediaType) {
        var outputModel := ToOutputModelLinks(model.value, urlHelper, now);
        r := Ok(LinkedItem(outputModel));
      } else {
        var outputModel := ToOutputModelDefault(model.value, now);
        r := Ok(FlatItem(outputModel));
      }
    }

    /**
      POST on the collection. A missing body is refused before validation;
      the store is written only when both checks pass.
    */
    method Create(inputModel: Option<MovieInputModel>, acceptHeader: Option<string>,
                  isValid: MovieInputModel -> bool, now: DateTime) returns (r: ActionResult)
      modifies service
      ensures inputModel.None? ==> r == BadRequest
      ensures inputModel.Some? && !isValid(inputModel.value) ==> r == Unprocessable
      ensures inputModel.Some? && isValid(inputModel.value) ==>
        var m := ToDomainModel(inputModel.value);
        && service.movies == old(service.movies)[m.Id := m]
        && r == CreatedAtRoute("GetMovie", ById(m.Id), RenderItem(acceptHeader, m, urlHelper, now))
      ensures !r.CreatedAtRoute? ==> service.movies == old(service.movies)
      ensures old(service.Valid()) ==> service.Valid()
    {
      if inputModel.None? {
        return BadRequest;
      }
      if !isValid(inputModel.value) {
        return Unprocessable;
      }
      var model := ToDomainModel(inputModel.value);
      service.AddMovie(model);
      if acceptHeader == Some(HateoasMediaType) {
        var outputModel := ToOutputModelLinks(model, urlHelper, now);
        r := CreatedAtRoute("GetMovie", ById(outputModel.Value.Id), LinkedItem(outputModel));
      } else {
        var outputModel := ToOutputModelDefault(model, now);
        r := CreatedAtRoute("GetMovie", ById(outputModel.Id), FlatItem(outputModel));
      }
    }

    /**
      PUT on one movie. A missing body or an Id that differs from the path
      is refused first, then an unknown Id, then an invalid model; only the
      last path writes the store.
    */
    method Update(id: int, inputModel: Option<MovieInputModel>, isValid: MovieInputModel -> bool)
      returns (r: ActionResult)
      modifies service
      ensures inputModel.None? || inputModel.value.Id != id ==> r == BadRequest
      ensures inputModel.Some? && inputModel.value.Id == id && id !in old(service.movies) ==> r == NotFound
      ensures inputModel.Some? && inputModel.value.Id == id && id in old(service.movies) ==>
        if isValid(inputModel.value) then
          r == NoContent && service.movies == old(service.movies)[id := ToDomainModel(inputModel.value)]
        else r == Unprocessable
      ensures r != NoContent ==> service.movies == old(service.movies)
      ensures old(service.Valid()) ==> service.Valid()
    {
      if inputModel.None? || id != inputModel.value.Id {
        return BadRequest;
      }
      var found := service.MovieExists(id);
      if !found {
        return NotFound;
      }
      if !isValid(inputModel.value) {
        return Unprocessable;
      }
      var model := ToDomainModel(inputModel.value);
      service.UpdateMovie(model);
      r := NoContent;
    }

    /**
      PATCH on one movie. `patch` is the patch document (`None` when the body
      is missing), seen as the change it makes to the movie's input
      projection. The patched projection is validated again before it is
      written back under its own, possibly patched, Id.
    */
    method UpdatePatch(id: int, patch: Option<MovieInputModel -> MovieInputModel>,
                       isValid: MovieInputModel -> bool) returns (r: ActionResult)
      modifies service
      ensures patch.None? ==> r == BadRequest
      ensures patch.Some? && id !in old(service.movies) ==> r == NotFound
      ensures patch.Some? && id in old(service.movies) ==>
        var patched := patch.value(ToInputModel(old(service.movies)[id]));
        if isValid(patched) then
          r == NoContent && service.movies == old(service.movies)[patched.Id := ToDomainModel(patched)]
        else r == Unprocessable
      ensures r != NoContent ==> service.movies == old(service.movies)
      ensures old(service.Valid()) ==> service.Valid()
      // a patch that leaves the projection as it was writes back the same movie
      ensures old(service.Valid()) && patch.Some? && id in old(service.movies)
        && patch.value(ToInputModel(old(service.movies)[id])) == ToInputModel(old(service.movies)[id])
        ==> service.movies == old(service.movies)
    {
      if patch.None? {
        return BadRequest;
      }
      var model := service.GetMovie(id);
      if model.None? {
        return NotFound;
      }
      var inputModel := ToInputModel(model.value);
      inputModel := patch.value(inputModel);
      if !isValid(inputModel) {
        return Unprocessable;
      }
      var updated := ToDomainModel(inputModel);
      service.UpdateMovie(updated);
      r := NoContent;
    }

    /** DELETE on one movie: NotFound unless the store has it, else removed. */
    method Delete(id: int) returns (r: ActionResult)
      modifies service
      ensures id !in old(service.movies) ==> r == NotFound && service.movies == old(service.movies)
      ensures id in old(service.movies) ==> r == NoContent && service.movies == old(service.movies) - {id}
      ensures old(service.Valid()) ==> service.Valid()
    {
      var found := service.MovieExists(id);
      if !found {
        return NotFound;
      }
      service.DeleteMovie(id);
      r := NoContent;
    }
  }
}
