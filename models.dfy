/**
 * Record shapes of the catalogue API and of the episode-rating API, reduced
 * to the fields the modelled code reads.
 */
module Models {
  import opened Wrappers

  /** A character; `episode` lists the URLs of the episodes it appears in. */
  datatype Character = Character(id: int, name: string, episode: seq<string>)

  /** A location; `residents` lists the URLs of the characters who live there. */
  datatype Location = Location(id: int, name: string, typeName: string, dimension: string, residents: seq<string>)

  /** An episode; `code` is its `SxxEyy` code and `characters` the URLs of its cast. */
  datatype Episode = Episode(id: int, name: string, code: string, characters: seq<string>)

  /** The `info` part of a list response; `pages` is the number of pages for the query. */
  datatype PageInfo = PageInfo(count: int, pages: int)

  /** One page of a server-paginated list. */
  datatype ApiResponse<T> = ApiResponse(info: PageInfo, results: seq<T>)

  /** One episode as the rating service describes it. */
  datatype TmdbEpisode = TmdbEpisode(
    id: int,
    name: string,
    overview: string,
    voteAverage: real,
    voteCount: int,
    airDate: string,
    episodeNumber: int,
    seasonNumber: int,
    stillPath: Option<string>,
    runtime: int)

  /** One season as the rating service describes it. */
  datatype TmdbSeason = TmdbSeason(
    id: int,
    name: string,
    overview: string,
    episodes: seq<TmdbEpisode>,
    seasonNumber: int,
    posterPath: Option<string>)
}
