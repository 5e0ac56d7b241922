/** The domain entities the crawler produces.  Their PHP classes are not
    part of this model; each is a value built once by a factory and never
    changed afterwards.  Where a value reaches a constructor whose parameter
    types are not known here (Dimension, Coordinate, User), it is held as
    the decoded JSON value it was. */
module Model {
  import opened Basics
  import opened PhpJson

  /** A hashtag and the number of posts carrying it (0 when unknown). */
  datatype Tag = Tag(name: string, count: int)

  datatype Coordinate = Coordinate(latitude: Json, longitude: Json)

  datatype Location = Location(id: int, name: string, slug: string, coordinate: Option<Coordinate>)

  datatype Dimension = Dimension(width: Json, height: Json)

  /** The arguments of `UserFactory::create`, by position.  The first five
      are always passed; each trailing optional one is `None` when the call
      leaves it out. */
  datatype User = User(
    id: int,
    username: Json,
    profilePicUrl: Json,
    fullName: Json,
    isPrivate: Json,
    isVerified: Option<Json>,
    biography: Option<Json>,
    externalUrl: Option<Json>,
    followerCount: Option<Json>,
    followingCount: Option<Json>,
    postCount: Option<Json>)

  /** A post: exactly one of the two classes `Photo` and `Video`.  A video
      additionally has a thumbnail and a view count.  `takenAt` is the Unix
      time the post's `DateTime` is built from. */
  datatype Media =
    | Photo(
        id: int, code: string, url: string, dimension: Dimension, takenAt: int, owner: User,
        tags: seq<Tag>, likes: int, comments: int, isAd: bool, caption: Json, location: Option<Location>)
    | Video(
        id: int, code: string, url: string, thumb: string, views: int, dimension: Dimension,
        takenAt: int, owner: User, tags: seq<Tag>, likes: int, comments: int, isAd: bool,
        caption: Json, location: Option<Location>)
}
