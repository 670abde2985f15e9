/**
  The values the movies API passes around: the domain record, its input
  and output projections, hypermedia links and their wrappers, and the
  page of movies the service hands back for a collection read.
*/
module Models {

  import opened Wrappers

  /** A point in time; the output models stamp the moment they were read. */
  type DateTime = int

  /** A movie as the service stores it. */
  datatype Movie = Movie(Id: int, Title: string, ReleaseYear: int, Summary: string)

  /** The request-body projection used by create, full update and patch. */
  datatype MovieInputModel = MovieInputModel(Id: int, Title: string, ReleaseYear: int, Summary: string)

  /** One hypermedia link: where it points, what it means, which verb to use. */
  datatype LinkInfo = LinkInfo(Href: string, Rel: string, Method: string)

  /**
    The response projection of a movie. The controller never fills `Links`
    (it stays null), so links reach a client only through a wrapper.
  */
  datatype MovieOutputModel = MovieOutputModel(
    Links: Option<seq<LinkInfo>>,
    Id: int,
    Title: string,
    ReleaseYear: int,
    Summary: string,
    LastReadAt: DateTime)

  /** A value together with the links that apply to it. */
  datatype LinksWrapper<T> = LinksWrapper(Value: T, Links: seq<LinkInfo>)

  /** A list of wrapped values together with the links of the list itself. */
  datatype LinksWrapperList<T> = LinksWrapperList(Values: seq<LinksWrapper<T>>, Links: seq<LinkInfo>)

  /**
    One page of movies as the service returns it. How the flags and the
    neighbouring page numbers are computed is the service's business; here
    they are given.
  */
  datatype PagedList = PagedList(
    List: seq<Movie>,
    PageNumber: int,
    PageSize: int,
    HasPreviousPage: bool,
    HasNextPage: bool,
    PreviousPageNumber: int,
    NextPageNumber: int)

  /** The route parameters a link is built from. */
  datatype RouteValues =
    | Paging(PageNumber: int, PageSize: int)
    | ById(id: int)
    | NoValues

  /**
    The routing layer's URL generator: from a route name and its
    parameters to an absolute URL.
  */
  type UrlHelper = (string, RouteValues) -> string
}
