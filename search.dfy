/** `InstagramCrawler::loadSearch`: the blended search response split into
    three ordered lists, hashtags, places and users, each built by its own
    `foreach`.  A hashtag or place whose fields have the wrong type stops
    the whole search with a `TypeError`; a user never does, since the user
    factory is not part of this model and receives its arguments as they
    are. */
module TopSearch {
  import opened Basics
  import opened PhpJson
  import opened Model
  import LocationFactory

  /** `['tags' => ..., 'locations' => ..., 'users' => ...]`. */
  datatype SearchResult = SearchResult(tags: seq<Tag>, locations: seq<Location>, users: seq<User>)

  /** `new Tag($t['hashtag']['name'], $t['hashtag']['media_count'])`. */
  function SearchTag(t: Json): (r: Result<Tag>)
    ensures var h := Field(t, "hashtag");
      r.Ok? <==> Field(h, "name").JStr? && Field(h, "media_count").JInt?
    ensures r.Ok? ==>
      var h := Field(t, "hashtag");
      Field(h, "name") == JStr(r.value.name) && Field(h, "media_count") == JInt(r.value.count)
  {
    var h := Field(t, "hashtag");
    if !Field(h, "name").JStr? then Err(TypeError("name"))
    else if !Field(h, "media_count").JInt? then Err(TypeError("count"))
    else Ok(Tag(Field(h, "name").s, Field(h, "media_count").i))
  }

  /** `LocationFactory::create` on a place: the `pk` goes to the `int` id
      without a cast, so it must already be an integer. */
  function SearchPlace(p: Json): (r: Result<Location>)
    ensures var place := Field(p, "place");
      r.Ok? <==>
        Field(Field(place, "location"), "pk").JInt? && Field(place, "title").JStr? && Field(place, "slug").JStr?
    ensures r.Ok? ==>
      var place := Field(p, "place");
      var loc := Field(place, "location");
      && Field(loc, "pk") == JInt(r.value.id)
      && Field(place, "title") == JStr(r.value.name)
      && Field(place, "slug") == JStr(r.value.slug)
      && (r.value.coordinate.Some? <==> Truthy(Field(loc, "lat")) && Truthy(Field(loc, "lng")))
      && (r.value.coordinate.Some? ==> r.value.coordinate.value == Coordinate(Field(loc, "lat"), Field(loc, "lng")))
  {
    var place := Field(p, "place");
    var loc := Field(place, "location");
    if !Field(loc, "pk").JInt? then Err(TypeError("id"))
    else if !Field(place, "title").JStr? then Err(TypeError("name"))
    else if !Field(place, "slug").JStr? then Err(TypeError("slug"))
    else Ok(LocationFactory.Create(Field(loc, "pk").i, Field(place, "title").s, Field(place, "slug").s,
                                   Field(loc, "lat"), Field(loc, "lng")))
  }

  /** `UserFactory::create` with seven positional arguments.  The seventh
      slot, which a profile fetch fills with the biography, receives the
      follower count here. */
  function SearchUser(u: Json): (user: User)
    ensures var v := Field(u, "user");
      && user.id == ToInt(Field(v, "pk"))
      && user.username == Field(v, "username") && user.profilePicUrl == Field(v, "profile_pic_url")
      && user.fullName == Field(v, "full_name") && user.isPrivate == Field(v, "is_private")
      && user.isVerified == Some(Field(v, "is_verified"))
    ensures user.biography == Some(Field(Field(u, "user"), "follower_count"))
    ensures user.followerCount.None? && user.externalUrl.None?
    ensures user.followingCount.None? && user.postCount.None?
  {
    var v := Field(u, "user");
    User(ToInt(Field(v, "pk")), Field(v, "username"), Field(v, "profile_pic_url"), Field(v, "full_name"),
         Field(v, "is_private"), Some(Field(v, "is_verified")), Some(Field(v, "follower_count")),
         None, None, None, None)
  }

  function SearchUsers(users: seq<Json>): (r: seq<User>)
    ensures |r| == |users|
    ensures forall i :: 0 <= i < |users| ==> r[i].username == Field(Field(users[i], "user"), "username")
  {
    seq(|users|, i requires 0 <= i < |users| => SearchUser(users[i]))
  }

  /** What `loadSearch($response)` returns. */
  function SearchOf(response: Json): (r: Result<SearchResult>)
    ensures !IsArray(response) ==> r == Err(TypeError("response"))
    ensures r.Ok? ==>
      && |r.value.tags| == |Elements(Field(response, "hashtags"))|
      && |r.value.locations| == |Elements(Field(response, "places"))|
      && |r.value.users| == |Elements(Field(response, "users"))|
  {
    if !IsArray(response) then Err(TypeError("response"))
    else
      var tags :- MapAll(SearchTag, Elements(Field(response, "hashtags")));
      var locations :- MapAll(SearchPlace, Elements(Field(response, "places")));
      Ok(SearchResult(tags, locations, SearchUsers(Elements(Field(response, "users")))))
  }

  /** The `foreach` over `$response['hashtags']`. */
  method LoadTags(hashtags: seq<Json>) returns (r: Result<seq<Tag>>)
    ensures r == MapAll(SearchTag, hashtags)
  {
    var tags: seq<Tag> := [];
    for i := 0 to |hashtags|
      invariant MapAll(SearchTag, hashtags[..i]) == Ok(tags)
    {
      MapAllStep(SearchTag, hashtags, i, tags);
      var t := SearchTag(hashtags[i]);
      if t.Err? {
        return Err(t.error);
      }
      tags := tags + [t.value];
    }
    assert hashtags[..|hashtags|] == hashtags;
    return Ok(tags);
  }

  /** The `foreach` over `$response['places']`. */
  method LoadPlaces(places: seq<Json>) returns (r: Result<seq<Location>>)
    ensures r == MapAll(SearchPlace, places)
  {
    var locations: seq<Location> := [];
    for i := 0 to |places|
      invariant MapAll(SearchPlace, places[..i]) == Ok(locations)
    {
      MapAllStep(SearchPlace, places, i, locations);
      var p := SearchPlace(places[i]);
      if p.Err? {
        return Err(p.error);
      }
      locations := locations + [p.value];
    }
    assert places[..|places|] == places;
    return Ok(locations);
  }

  /** The `foreach` over `$response['users']`. */
  method LoadUsers(entries: seq<Json>) returns (users: seq<User>)
    ensures users == SearchUsers(entries)
  {
    users := [];
    for i := 0 to |entries|
      invariant |users| == i
      invariant forall k :: 0 <= k < i ==> users[k] == SearchUser(entries[k])
    {
      users := users + [SearchUser(entries[i])];
    }
  }

  /** `loadSearch(array $response)`: the three loops in order; the first
      failure ends the search. */
  method LoadSearch(response: Json) returns (r: Result<SearchResult>)
    ensures r == SearchOf(response)
  {
    if !IsArray(response) {
      return Err(TypeError("response"));
    }
    var tags := LoadTags(Elements(Field(response, "hashtags")));
    if tags.Err? {
      return Err(tags.error);
    }
    var locations := LoadPlaces(Elements(Field(response, "places")));
    if locations.Err? {
      return Err(locations.error);
    }
    var users := LoadUsers(Elements(Field(response, "users")));
    return Ok(SearchResult(tags.value, locations.value, users));
  }

  // ---------------------------------------------------------------------
  // What a search result is.

  /** A search succeeds exactly when the response is an array and every
      hashtag and every place has well-typed fields; then each list has
      one entry per entry of the response, in the response's order. */
  lemma SearchShape(response: Json)
    ensures SearchOf(response).Ok? <==>
      IsArray(response) &&
      AllOk(SearchTag, Elements(Field(response, "hashtags"))) &&
      AllOk(SearchPlace, Elements(Field(response, "places")))
    ensures SearchOf(response).Ok? ==>
      var s := SearchOf(response).value;
      var hashtags := Elements(Field(response, "hashtags"));
      var places := Elements(Field(response, "places"));
      var users := Elements(Field(response, "users"));
      && |s.tags| == |hashtags| && |s.locations| == |places| && |s.users| == |users|
      && (forall i :: 0 <= i < |hashtags| ==> SearchTag(hashtags[i]) == Ok(s.tags[i]))
      && (forall i :: 0 <= i < |places| ==> SearchPlace(places[i]) == Ok(s.locations[i]))
      && (forall i :: 0 <= i < |users| ==> s.users[i] == SearchUser(users[i]))
  {
    MapAllOk(SearchTag, Elements(Field(response, "hashtags")));
    MapAllOk(SearchPlace, Elements(Field(response, "places")));
  }

  /** A response without any of the three lists is an empty search, not an
      error. */
  lemma EmptyResponse()
    ensures SearchOf(JObj(map[])) == Ok(SearchResult([], [], []))
  {
    var response := JObj(map[]);
    assert Elements(Field(response, "hashtags")) == [];
    assert Elements(Field(response, "places")) == [];
    assert Elements(Field(response, "users")) == [];
    assert MapAll(SearchTag, []) == Ok([]);
    assert MapAll(SearchPlace, []) == Ok([]);
    assert SearchUsers([]) == [];
  }

  /** A searched user carries its follower count where a biography belongs,
      and no follower count of its own. */
  lemma SearchUserSlots(response: Json, i: nat)
    requires SearchOf(response).Ok? && i < |Elements(Field(response, "users"))|
    ensures var u := SearchOf(response).value.users[i];
      var entry := Field(Elements(Field(response, "users"))[i], "user");
      u.biography == Some(Field(entry, "follower_count")) && u.followerCount == None
  {
    SearchShape(response);
  }
}
