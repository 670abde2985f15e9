/**
  The controller's field-by-field mappings between the domain movie, its
  input projection and its two output shapes (flat, and wrapped with links).
*/
module Mappings {

  import opened Wrappers
  import opened Models
  import opened Links

  /** `o` shows exactly the four stored fields of `m`. */
  predicate Carries(o: MovieOutputModel, m: Movie)
  {
    o.Id == m.Id && o.Title == m.Title && o.ReleaseYear == m.ReleaseYear && o.Summary == m.Summary
  }

  /** The flat output of one movie: its fields, the read time, and no links. */
  function ToOutputModelDefault(m: Movie, now: DateTime): (o: MovieOutputModel)
    ensures Carries(o, m)
    ensures o.Links == None && o.LastReadAt == now
  {
    MovieOutputModel(None, m.Id, m.Title, m.ReleaseYear, m.Summary, now)
  }

  /**
    The linked output of one movie. Its value is field for field the flat
    output; only the attached links differ.
  */
  function ToOutputModelLinks(m: Movie, url: UrlHelper, now: DateTime): (w: LinksWrapper<MovieOutputModel>)
    ensures w.Value == ToOutputModelDefault(m, now)
    ensures w.Links == ItemLinks(m, url)
  {
    LinksWrapper(
      MovieOutputModel(None, m.Id, m.Title, m.ReleaseYear, m.Summary, now),
      ItemLinks(m, url))
  }

  /** The flat outputs of `movies`, one per movie, in order. */
  function SelectDefault(movies: seq<Movie>, now: DateTime): (r: seq<MovieOutputModel>)
    ensures |r| == |movies|
    ensures forall i :: 0 <= i < |movies| ==> r[i] == ToOutputModelDefault(movies[i], now)
  {
    if movies == [] then []
    else [ToOutputModelDefault(movies[0], now)] + SelectDefault(movies[1..], now)
  }

  /** The linked outputs of `movies`, one per movie, in order. */
  function SelectLinks(movies: seq<Movie>, url: UrlHelper, now: DateTime): (r: seq<LinksWrapper<MovieOutputModel>>)
    ensures |r| == |movies|
    ensures forall i :: 0 <= i < |movies| ==>
      r[i].Value == ToOutputModelDefault(movies[i], now) && r[i].Links == ItemLinks(movies[i], url)
  {
    if movies == [] then []
    else [ToOutputModelLinks(movies[0], url, now)] + SelectLinks(movies[1..], url, now)
  }

  /** The flat output of a page: its movies only; the page's own links are dropped. */
  function ToOutputModelDefaultList(model: PagedList, now: DateTime): (r: seq<MovieOutputModel>)
    ensures |r| == |model.List|
    ensures forall i :: 0 <= i < |r| ==> Carries(r[i], model.List[i]) && r[i].Links == None
  {
    SelectDefault(model.List, now)
  }

  /**
    The linked output of a page: each movie wrapped with its own links, and
    the page's navigation links around the whole.
  */
  function ToOutputModelLinksList(model: PagedList, url: UrlHelper, now: DateTime): (r: LinksWrapperList<MovieOutputModel>)
    ensures |r.Values| == |model.List|
    ensures forall i :: 0 <= i < |r.Values| ==>
      Carries(r.Values[i].Value, model.List[i]) && r.Values[i].Links == ItemLinks(model.List[i], url)
    ensures r.Links == CollectionLinks(model, url)
  {
    LinksWrapperList(SelectLinks(model.List, url, now), CollectionLinks(model, url))
  }

  /** The domain movie an input projection describes, field for field. */
  function ToDomainModel(input: MovieInputModel): (m: Movie)
    ensures m.Id == input.Id && m.Title == input.Title
    ensures m.ReleaseYear == input.ReleaseYear && m.Summary == input.Summary
  {
    Movie(input.Id, input.Title, input.ReleaseYear, input.Summary)
  }

  /** The input projection of a stored movie, field for field; mapping it back gives the movie again. */
  function ToInputModel(m: Movie): (input: MovieInputModel)
    ensures input.Id == m.Id && input.Title == m.Title
    ensures input.ReleaseYear == m.ReleaseYear && input.Summary == m.Summary
    ensures ToDomainModel(input) == m
  {
    MovieInputModel(m.Id, m.Title, m.ReleaseYear, m.Summary)
  }

  /** Projecting an input model to the domain and back loses nothing. */
  lemma InputRoundTrip(input: MovieInputModel)
    ensures ToInputModel(ToDomainModel(input)) == input
  {
  }
}
