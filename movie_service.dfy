/**
  The movie store behind the controller, reduced to the operations the
  controller calls. Its real implementation is not part of this model: the
  store is a map from Id to movie.
*/
module MovieService {

  import opened Wrappers
  import opened Models

  class MovieService {

    /** The stored movies, by Id. */
    var movies: map<int, Movie>

    /** Every movie is filed under its own Id. */
    ghost predicate Valid()
      reads this
    {
      forall id :: id in movies ==> movies[id].Id == id
    }

    constructor (movies: map<int, Movie>)
      ensures this.movies == movies
    {
      this.movies := movies;
    }

    /** The movie stored under `id`, or `None` (a null reference) when there is none. */
    method GetMovie(id: int) returns (r: Option<Movie>)
      ensures r.Some? <==> id in movies
      ensures r.Some? ==> r.value == movies[id]
      ensures Valid() && r.Some? ==> r.value.Id == id
    {
      if id in movies {
        r := Some(movies[id]);
      } else {
        r := None;
      }
    }

    /** Whether a movie is stored under `id`. */
    method MovieExists(id: int) returns (r: bool)
      ensures r <==> id in movies
    {
      r := id in movies;
    }

    /** Stores `item` under its own Id. */
    method AddMovie(item: Movie)
      modifies this
      ensures movies == old(movies)[item.Id := item]
      ensures old(Valid()) ==> Valid()
    {
      movies := movies[item.Id := item];
    }

    /** Overwrites the movie stored under `item`'s Id. */
    method UpdateMovie(item: Movie)
      modifies this
      ensures movies == old(movies)[item.Id := item]
      ensures old(Valid()) ==> Valid()
    {
      movies := movies[item.Id := item];
    }

    /** Removes the movie stored under `id`. */
    method DeleteMovie(id: int)
      modifies this
      ensures movies == old(movies) - {id}
      ensures old(Valid()) ==> Valid()
    {
      movies := movies - {id};
    }
  }
}
