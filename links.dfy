/**
  Hypermedia link building for the movies collection and for one movie.
  Each link list is built by successive appends, as the controller does;
  the functions beside the methods state what the finished lists are.
*/
module Links {

  import opened Models

  /** Some link in `links` carries relation `rel`. */
  predicate HasRel(links: seq<LinkInfo>, rel: string)
  {
    exists i :: 0 <= i < |links| && links[i].Rel == rel
  }

  /** The relations of `links`, in order. */
  function Rels(links: seq<LinkInfo>): (rs: seq<string>)
    ensures |rs| == |links|
    ensures forall i :: 0 <= i < |links| ==> rs[i] == links[i].Rel
  {
    seq(|links|, i requires 0 <= i < |links| => links[i].Rel)
  }

  /** The HTTP methods of `links`, in order. */
  function Methods(links: seq<LinkInfo>): (ms: seq<string>)
    ensures |ms| == |links|
    ensures forall i :: 0 <= i < |links| ==> ms[i] == links[i].Method
  {
    seq(|links|, i requires 0 <= i < |links| => links[i].Method)
  }

  /** The named route that serves the action a movie link relation announces. */
  function RouteOfRel(rel: string): string
  {
    if rel == "self" then "GetMovie"
    else if rel == "update-movie" then "UpdateMovie"
    else if rel == "update-partial-movie" then "UpdatePatchMovie"
    else if rel == "delete-movie" then "DeleteMovie"
    else ""
  }

  /** The link to the page with number `pageNumber`, at the current page size. */
  function PageLink(model: PagedList, url: UrlHelper, pageNumber: int, rel: string): (l: LinkInfo)
  {
    LinkInfo(url("GetMovies", Paging(pageNumber, model.PageSize)), rel, "GET")
  }

  /** The link to create a movie by posting to the collection. */
  function CreateLink(url: UrlHelper): (l: LinkInfo)
  {
    LinkInfo(url("CreateMovie", NoValues), "create-movie", "POST")
  }

  /** The links of a page of the collection: self, the optional neighbours, create. */
  function CollectionLinks(model: PagedList, url: UrlHelper): (r: seq<LinkInfo>)
    ensures |r| == 2 + (if model.HasPreviousPage then 1 else 0) + (if model.HasNextPage then 1 else 0)
    ensures r[0] == PageLink(model, url, model.PageNumber, "self")
    ensures r[|r| - 1] == CreateLink(url)
    ensures HasRel(r, "previous-page") <==> model.HasPreviousPage
    ensures HasRel(r, "next-page") <==> model.HasNextPage
    ensures model.HasPreviousPage ==> r[1] == PageLink(model, url, model.PreviousPageNumber, "previous-page")
    ensures model.HasNextPage ==> r[|r| - 2] == PageLink(model, url, model.NextPageNumber, "next-page")
  {
    var r := [PageLink(model, url, model.PageNumber, "self")]
      + (if model.HasPreviousPage then [PageLink(model, url, model.PreviousPageNumber, "previous-page")] else [])
      + (if model.HasNextPage then [PageLink(model, url, model.NextPageNumber, "next-page")] else [])
      + [CreateLink(url)];
    assert forall i :: 0 <= i < |r| && r[i].Rel == "previous-page" ==> i == 1 && model.HasPreviousPage;
    assert forall i :: 0 <= i < |r| && r[i].Rel == "next-page" ==> i == |r| - 2 && model.HasNextPage;
    assert model.HasPreviousPage ==> r[1].Rel == "previous-page";
    assert model.HasNextPage ==> r[|r| - 2].Rel == "next-page";
    r
  }

  /** The four action links of one movie: read, replace, patch, delete. */
  function ItemLinks(m: Movie, url: UrlHelper): (r: seq<LinkInfo>)
    ensures Rels(r) == ["self", "update-movie", "update-partial-movie", "delete-movie"]
    ensures Methods(r) == ["GET", "PUT", "PATCH", "DELETE"]
    ensures forall i :: 0 <= i < |r| ==> r[i].Href == url(RouteOfRel(r[i].Rel), ById(m.Id))
  {
    [ LinkInfo(url("GetMovie", ById(m.Id)), "self", "GET"),
      LinkInfo(url("UpdateMovie", ById(m.Id)), "update-movie", "PUT"),
      LinkInfo(url("UpdatePatchMovie", ById(m.Id)), "update-partial-movie", "PATCH"),
      LinkInfo(url("DeleteMovie", ById(m.Id)), "delete-movie", "DELETE") ]
  }

  /** A movie's links are decided by its Id alone, not by its other fields. */
  lemma ItemLinksDependOnlyOnId(m1: Movie, m2: Movie, url: UrlHelper)
    requires m1.Id == m2.Id
    ensures ItemLinks(m1, url) == ItemLinks(m2, url)
  {
  }

  /** Builds the collection links of `model` one append at a time. */
  method GetLinksList(model: PagedList, url: UrlHelper) returns (links: seq<LinkInfo>)
    ensures links == CollectionLinks(model, url)
  {
    links := [];
    links := links + [LinkInfo(url("GetMovies", Paging(model.PageNumber, model.PageSize)), "self", "GET")];
    if model.HasPreviousPage {
      links := links + [LinkInfo(url("GetMovies", Paging(model.PreviousPageNumber, model.PageSize)), "previous-page", "GET")];
    }
    if model.HasNextPage {
      links := links + [LinkInfo(url("GetMovies", Paging(model.NextPageNumber, model.PageSize)), "next-page", "GET")];
    }
    links := links + [LinkInfo(url("CreateMovie", NoValues), "create-movie", "POST")];
  }

  /** Builds the links of movie `m` one append at a time. */
  method GetLinksModel(m: Movie, url: UrlHelper) returns (links: seq<LinkInfo>)
    ensures links == ItemLinks(m, url)
  {
    links := [];
    links := links + [LinkInfo(url("GetMovie", ById(m.Id)), "self", "GET")];
    links := links + [LinkInfo(url("UpdateMovie", ById(m.Id)), "update-movie", "PUT")];
    links := links + [LinkInfo(url("UpdatePatchMovie", ById(m.Id)), "update-partial-movie", "PATCH")];
    links := links + [LinkInfo(url("DeleteMovie", ById(m.Id)), "delete-movie", "DELETE")];
  }
}
