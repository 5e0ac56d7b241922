/** `InstagramCrawler`: the listing fetches, which normalise a list of post
    nodes and replace the held result set, and the two projections that
    read that set back.

    Each fetch receives the decoded body of its HTTP response as a
    parameter, together with the value of the `instagram.async` setting
    and, for the asynchronous path, what settling the per-post requests
    yielded.  A fetch that throws leaves the held set as it was, because
    `$this->result` is assigned only after the loop has finished. */
module Crawler {
  import opened Basics
  import opened PhpJson
  import opened Model
  import opened Endpoints
  import opened Normalizer
  import MediaFactory
  import LocationFactory
  import TagFactory
  import TopSearch

  /** One entry of `Promise\settle(...)->wait()`: the decoded body of a
      response that arrived, or a request that failed. */
  datatype Settled = Fulfilled(body: Json) | Rejected

  /** `['graphql']['shortcode_media']` of a post's detail response. */
  function DetailNode(body: Json): (node: Json)
    ensures node != JNull ==> HasKey(body, "graphql") && HasKey(Field(body, "graphql"), "shortcode_media")
    ensures HasKey(body, "graphql") && HasKey(body.fields["graphql"], "shortcode_media") ==>
      node == body.fields["graphql"].fields["shortcode_media"]
  {
    Field(Field(body, "graphql"), "shortcode_media")
  }

  // The edge lists of the three listing responses.

  function TagEdges(body: Json): (edges: Json)
    ensures edges != JNull ==>
      var g := Field(body, "graphql");
      && HasKey(body, "graphql") && HasKey(g, "hashtag")
      && HasKey(Field(g, "hashtag"), "edge_hashtag_to_media") && HasKey(Field(Field(g, "hashtag"), "edge_hashtag_to_media"), "edges")
    ensures HasKey(body, "graphql") && HasKey(body.fields["graphql"], "hashtag") ==>
      var page := body.fields["graphql"].fields["hashtag"];
      HasKey(page, "edge_hashtag_to_media") && HasKey(page.fields["edge_hashtag_to_media"], "edges") ==>
        edges == page.fields["edge_hashtag_to_media"].fields["edges"]
  {
    Field(Field(Field(Field(body, "graphql"), "hashtag"), "edge_hashtag_to_media"), "edges")
  }

  function LocationEdges(body: Json): (edges: Json)
    ensures edges != JNull ==>
      var g := Field(body, "graphql");
      && HasKey(body, "graphql") && HasKey(g, "location")
      && HasKey(Field(g, "location"), "edge_location_to_media") && HasKey(Field(Field(g, "location"), "edge_location_to_media"), "edges")
    ensures HasKey(body, "graphql") && HasKey(body.fields["graphql"], "location") ==>
      var page := body.fields["graphql"].fields["location"];
      HasKey(page, "edge_location_to_media") && HasKey(page.fields["edge_location_to_media"], "edges") ==>
        edges == page.fields["edge_location_to_media"].fields["edges"]
  {
    Field(Field(Field(Field(body, "graphql"), "location"), "edge_location_to_media"), "edges")
  }

  function UserEdges(body: Json): (edges: Json)
    ensures edges != JNull ==>
      var g := Field(body, "graphql");
      && HasKey(body, "graphql") && HasKey(g, "user")
      && HasKey(Field(g, "user"), "edge_owner_to_timeline_media") && HasKey(Field(Field(g, "user"), "edge_owner_to_timeline_media"), "edges")
    ensures HasKey(body, "graphql") && HasKey(body.fields["graphql"], "user") ==>
      var page := body.fields["graphql"].fields["user"];
      HasKey(page, "edge_owner_to_timeline_media") && HasKey(page.fields["edge_owner_to_timeline_media"], "edges") ==>
        edges == page.fields["edge_owner_to_timeline_media"].fields["edges"]
  {
    Field(Field(Field(Field(body, "graphql"), "user"), "edge_owner_to_timeline_media"), "edges")
  }

  /** `$node['node']` of every edge, in order. */
  function EdgeNodes(edges: Json): (nodes: seq<Json>)
    ensures |nodes| == |Elements(edges)|
    ensures forall i :: 0 <= i < |nodes| && HasKey(Elements(edges)[i], "node") ==>
      nodes[i] == Elements(edges)[i].fields["node"]
    ensures forall i :: 0 <= i < |nodes| && !HasKey(Elements(edges)[i], "node") ==> nodes[i] == JNull
  {
    var items := Elements(edges);
    seq(|items|, i requires 0 <= i < |items| => Field(items[i], "node"))
  }

  /** The `foreach` that collects `$nodeArrays`. */
  method UnwrapEdges(edges: Json) returns (nodes: seq<Json>)
    ensures nodes == EdgeNodes(edges)
  {
    var items := Elements(edges);
    nodes := [];
    for i := 0 to |items|
      invariant |nodes| == i
      invariant forall k :: 0 <= k < i ==> nodes[k] == Field(items[k], "node")
    {
      nodes := nodes + [Field(items[i], "node")];
    }
  }

  /** The codes the asynchronous location fetch requests:
      `array_column($body['location']['media']['nodes'], 'code')`, which
      throws unless that path holds an array. */
  function LocationAsyncCodes(body: Json): (r: Result<seq<Json>>)
    ensures r.Ok? <==> IsArray(Field(Field(Field(body, "location"), "media"), "nodes"))
    ensures r.Ok? ==> r.value == Column(Elements(Field(Field(Field(body, "location"), "media"), "nodes")), "code")
  {
    var nodes := Field(Field(Field(body, "location"), "media"), "nodes");
    if IsArray(nodes) then Ok(Column(Elements(nodes), "code")) else Err(TypeError("array"))
  }

  /** Every node normalised, or the first failure. */
  function LoadAll(nodes: seq<Json>): (r: Result<seq<Media>>)
    ensures r.Ok? <==> AllOk(LoadMedia, nodes)
    ensures r.Ok? ==> |r.value| == |nodes| && forall i :: 0 <= i < |nodes| ==> LoadMedia(nodes[i]) == Ok(r.value[i])
  {
    MapAllOk(LoadMedia, nodes);
    MapAll(LoadMedia, nodes)
  }

  /** The detail nodes of the fulfilled outcomes, in order. */
  function FulfilledNodes(settled: seq<Settled>): (nodes: seq<Json>)
    ensures |nodes| <= |settled|
    decreases |settled|
  {
    if settled == [] then []
    else
      var init := FulfilledNodes(settled[..|settled| - 1]);
      match settled[|settled| - 1]
      case Fulfilled(body) => init + [DetailNode(body)]
      case Rejected => init
  }

  /** What the settle loop produces: a successful batch holds one post per
      fulfilled outcome, in order, the k-th being the normalised detail node
      of the k-th fulfilled outcome, and it fails exactly when one of those
      nodes does not normalise. */
  function LoadSettled(settled: seq<Settled>): (r: Result<seq<Media>>)
    ensures var idx := FulfilledIndices(settled);
      r.Ok? <==> forall k :: 0 <= k < |idx| ==> LoadMedia(DetailNode(settled[idx[k]].body)).Ok?
    ensures r.Ok? ==>
      var idx := FulfilledIndices(settled);
      && |r.value| == |idx|
      && forall k :: 0 <= k < |idx| ==> LoadMedia(DetailNode(settled[idx[k]].body)) == Ok(r.value[k])
  {
    FulfilledNodesByIndex(settled);
    LoadAll(FulfilledNodes(settled))
  }

  /** The positions of the fulfilled outcomes, increasing. */
  function FulfilledIndices(settled: seq<Settled>): (idx: seq<nat>)
    ensures forall k :: 0 <= k < |idx| ==> idx[k] < |settled| && settled[idx[k]].Fulfilled?
    ensures forall k, l :: 0 <= k < l < |idx| ==> idx[k] < idx[l]
    ensures forall i :: 0 <= i < |settled| && settled[i].Fulfilled? ==> i in idx
    decreases |settled|
  {
    if settled == [] then []
    else
      var n := |settled| - 1;
      var init := FulfilledIndices(settled[..n]);
      assert forall k :: 0 <= k < |init| ==> settled[..n][init[k]] == settled[init[k]];
      if settled[n].Fulfilled? then init + [n] else init
  }

  /** The settle loop keeps exactly the fulfilled outcomes, in their
      original order: the k-th node it normalises is the detail node of
      the k-th fulfilled outcome. */
  lemma {:induction false} FulfilledNodesByIndex(settled: seq<Settled>)
    ensures var idx := FulfilledIndices(settled);
      |FulfilledNodes(settled)| == |idx| &&
      forall k :: 0 <= k < |idx| ==> FulfilledNodes(settled)[k] == DetailNode(settled[idx[k]].body)
    decreases |settled|
  {
    if settled != [] {
      var n := |settled| - 1;
      FulfilledNodesByIndex(settled[..n]);
      FulfilledLastOutcome(settled);
      var idx := FulfilledIndices(settled[..n]);
      var nodes := FulfilledNodes(settled[..n]);
      forall k | 0 <= k < |idx|
        ensures FulfilledNodes(settled)[k] == DetailNode(settled[FulfilledIndices(settled)[k]].body)
      {
        assert settled[..n][idx[k]] == settled[idx[k]];
        assert FulfilledIndices(settled)[k] == idx[k];
        assert FulfilledNodes(settled)[k] == nodes[k];
      }
    }
  }

  /** The last outcome adds its position and its node, or neither. */
  lemma FulfilledLastOutcome(settled: seq<Settled>)
    requires settled != []
    ensures var n := |settled| - 1;
      && (settled[n].Fulfilled? ==>
            && FulfilledIndices(settled) == FulfilledIndices(settled[..n]) + [n]
            && FulfilledNodes(settled) == FulfilledNodes(settled[..n]) + [DetailNode(settled[n].body)])
      && (settled[n].Rejected? ==>
            && FulfilledIndices(settled) == FulfilledIndices(settled[..n])
            && FulfilledNodes(settled) == FulfilledNodes(settled[..n]))
  {
  }

  /** The loop over settle outcomes distributes over concatenation. */
  lemma {:induction false} FulfilledNodesAppend(a: seq<Settled>, b: seq<Settled>)
    ensures FulfilledNodes(a + b) == FulfilledNodes(a) + FulfilledNodes(b)
    decreases |b|
  {
    if b == [] {
      assert a + b == a;
    } else {
      var n := |b| - 1;
      FulfilledNodesAppend(a, b[..n]);
      DropLastOfConcat(a, b);
      FulfilledLastOutcome(a + b);
      FulfilledLastOutcome(b);
    }
  }

  /** When every request failed, the held set becomes empty rather than
      staying as it was. */
  lemma {:induction false} AllRejected(settled: seq<Settled>)
    requires forall i :: 0 <= i < |settled| ==> settled[i] == Rejected
    ensures LoadSettled(settled) == Ok([])
    decreases |settled|
  {
    if settled != [] {
      var n := |settled| - 1;
      assert forall i :: 0 <= i < n ==> settled[..n][i] == settled[i];
      AllRejected(settled[..n]);
    }
  }

  /** An edge without a `node` entry hands `null` to `loadMedia(array)`, so
      the whole listing fails. */
  lemma MissingNodeFails(edges: Json, i: nat)
    requires i < |Elements(edges)| && !HasKey(Elements(edges)[i], "node")
    ensures LoadAll(EdgeNodes(edges)).Err?
  {
    assert EdgeNodes(edges)[i] == JNull;
    MapAllOk(LoadMedia, EdgeNodes(edges));
  }

  /** The outcomes up to and including position `i`: what the settle loop
      has collected after that iteration. */
  lemma FulfilledNodesLast(settled: seq<Settled>, i: nat)
    requires i < |settled|
    ensures settled[i].Rejected? ==> FulfilledNodes(settled[..i + 1]) == FulfilledNodes(settled[..i])
    ensures settled[i].Fulfilled? ==>
      FulfilledNodes(settled[..i + 1]) == FulfilledNodes(settled[..i]) + [DetailNode(settled[i].body)]
  {
    assert settled[..i + 1][..i] == settled[..i];
  }

  /** One iteration of the settle loop: a rejected outcome leaves the list
      as it is, and a fulfilled one whose node normalises appends the post. */
  lemma SettleStep(settled: seq<Settled>, i: nat, list: seq<Media>)
    requires i < |settled| && LoadSettled(settled[..i]) == Ok(list)
    ensures settled[i].Rejected? ==> LoadSettled(settled[..i + 1]) == Ok(list)
    ensures settled[i].Fulfilled? && LoadMedia(DetailNode(settled[i].body)).Ok? ==>
      LoadSettled(settled[..i + 1]) == Ok(list + [LoadMedia(DetailNode(settled[i].body)).value])
  {
    FulfilledNodesLast(settled, i);
    if settled[i].Fulfilled? {
      MapAllSnoc(LoadMedia, FulfilledNodes(settled[..i]), DetailNode(settled[i].body), list);
    }
  }

  /** A fulfilled outcome whose node fails to normalise fails the whole
      batch, whatever comes after it. */
  lemma SettleFailure(settled: seq<Settled>, i: nat, list: seq<Media>)
    requires i < |settled| && LoadSettled(settled[..i]) == Ok(list)
    requires settled[i].Fulfilled? && LoadMedia(DetailNode(settled[i].body)).Err?
    ensures LoadSettled(settled) == Err(LoadMedia(DetailNode(settled[i].body)).error)
  {
    FulfilledNodesSplit(settled, i);
    MapAllErrAt(LoadMedia, FulfilledNodes(settled[..i]), DetailNode(settled[i].body),
                FulfilledNodes(settled[i + 1..]), list);
  }

  /** The nodes of a batch around a fulfilled outcome at position `i`. */
  lemma FulfilledNodesSplit(settled: seq<Settled>, i: nat)
    requires i < |settled| && settled[i].Fulfilled?
    ensures FulfilledNodes(settled) ==
      FulfilledNodes(settled[..i]) + [DetailNode(settled[i].body)] + FulfilledNodes(settled[i + 1..])
  {
    FulfilledNodesLast(settled, i);
    FulfilledNodesAppend(settled[..i + 1], settled[i + 1..]);
    Rejoin(settled, i + 1);
  }

  /** One iteration of `getMedias`: the node's post is appended, or its
      failure is the failure of the whole list. */
  lemma LoadStep(nodes: seq<Json>, i: nat, list: seq<Media>)
    requires i < |nodes| && LoadAll(nodes[..i]) == Ok(list)
    ensures LoadMedia(nodes[i]).Ok? ==> LoadAll(nodes[..i + 1]) == Ok(list + [LoadMedia(nodes[i]).value])
    ensures LoadMedia(nodes[i]).Err? ==> LoadAll(nodes) == Err(LoadMedia(nodes[i]).error)
  {
    MapAllStep(LoadMedia, nodes, i, list);
  }

  // ---------------------------------------------------------------------
  // The projections.

  /** One entry of `returnSimpleResult()`: `id`, `username`, `image_url`,
      `url`, `comments`, `likes`, `tags`, `type`, and `thumb` for videos only. */
  datatype Row = Row(
    id: int, username: Json, imageUrl: string, url: string, comments: int, likes: int,
    tags: seq<string>, kind: string, thumb: Option<string>)

  /** The row of one post. */
  function SimpleRow(m: Media): (row: Row)
    ensures row.id == m.owner.id && row.username == m.owner.username
    ensures row.imageUrl == m.url && row.comments == m.comments && row.likes == m.likes
    ensures PostCodeOf(row.url) == Some(m.code)
    ensures row.tags == MediaFactory.TagNames(m.tags)
    ensures row.kind == "video" <==> m.Video?
    ensures row.kind == "photo" <==> m.Photo?
    ensures row.thumb.Some? <==> m.Video?
    ensures m.Video? ==> row.thumb == Some(m.thumb)
  {
    PostUrlRoundTrip(m.code);
    Row(m.owner.id, m.owner.username, m.url, PostUrl(m.code), m.comments, m.likes,
        MediaFactory.TagNames(m.tags), if m.Video? then "video" else "photo",
        if m.Video? then Some(m.thumb) else None)
  }

  /** Two rows with the same `url` come from posts with the same code. */
  lemma RowUrlDeterminesCode(m1: Media, m2: Media)
    requires SimpleRow(m1).url == SimpleRow(m2).url
    ensures m1.code == m2.code
  {
    assert PostCodeOf(SimpleRow(m1).url) == Some(m1.code);
    assert PostCodeOf(SimpleRow(m2).url) == Some(m2.code);
  }

  // ---------------------------------------------------------------------
  // Single-object fetches: they return a value and leave the held set alone.

  /** `getMedia($code)`: the detail node, normalised. */
  function GetMedia(body: Json): (r: Result<Media>)
    ensures r == LoadMedia(DetailNode(body))
    ensures r.Ok? ==> (r.value.Video? <==> Truthy(Field(DetailNode(body), "is_video")))
    ensures !DetailNode(body).JObj? && !DetailNode(body).JArr? ==> r.Err?
  {
    LoadMedia(DetailNode(body))
  }

  /** `getUser($username)`: every argument slot of the user factory filled
      from the profile. */
  function GetUser(body: Json): (u: User)
    ensures var p := Field(Field(body, "graphql"), "user");
      && u.id == ToInt(Field(p, "id"))
      && u.username == Field(p, "username") && u.profilePicUrl == Field(p, "profile_pic_url")
      && u.fullName == Field(p, "full_name") && u.isPrivate == Field(p, "is_private")
      && u.isVerified == Some(Field(p, "is_verified"))
      && u.externalUrl == Some(Field(p, "external_url"))
      && u.biography == Some(Field(p, "biography"))
      && u.followerCount == Some(Field(Field(p, "edge_followed_by"), "count"))
      && u.followingCount == Some(Field(Field(p, "edge_follow"), "count"))
      && u.postCount == Some(Field(Field(p, "edge_owner_to_timeline_media"), "count"))
  {
    var p := Field(Field(body, "graphql"), "user");
    User(ToInt(Field(p, "id")), Field(p, "username"), Field(p, "profile_pic_url"), Field(p, "full_name"),
         Field(p, "is_private"), Some(Field(p, "is_verified")), Some(Field(p, "biography")),
         Some(Field(p, "external_url")), Some(Field(Field(p, "edge_followed_by"), "count")),
         Some(Field(Field(p, "edge_follow"), "count")),
         Some(Field(Field(p, "edge_owner_to_timeline_media"), "count")))
  }

  /** `getLocation($id)`: unlike a post's location, name and slug have no
      default, and the coordinate is passed along. */
  function GetLocation(body: Json): (r: Result<Location>)
    ensures var l := Field(body, "location");
      r.Ok? <==> Field(l, "name").JStr? && Field(l, "slug").JStr?
    ensures r.Ok? ==>
      var l := Field(body, "location");
      && r.value.id == ToInt(Field(l, "id"))
      && Field(l, "name") == JStr(r.value.name) && Field(l, "slug") == JStr(r.value.slug)
      && (r.value.coordinate.Some? <==> Truthy(Field(l, "lat")) && Truthy(Field(l, "lng")))
      && (r.value.coordinate.Some? ==> r.value.coordinate.value == Coordinate(Field(l, "lat"), Field(l, "lng")))
  {
    var l := Field(body, "location");
    var name :- AsString(Field(l, "name"), "name");
    var slug :- AsString(Field(l, "slug"), "slug");
    Ok(LocationFactory.Create(ToInt(Field(l, "id")), name, slug, Field(l, "lat"), Field(l, "lng")))
  }

  /** `getTag($name)`: the hashtag's name and post count. */
  function GetTag(body: Json): (r: Result<Tag>)
    ensures var h := Field(Field(body, "graphql"), "hashtag");
      r.Ok? <==> Field(h, "name").JStr? && Field(Field(h, "edge_hashtag_to_media"), "count").JInt?
    ensures r.Ok? ==>
      var h := Field(Field(body, "graphql"), "hashtag");
      Field(h, "name") == JStr(r.value.name) && Field(Field(h, "edge_hashtag_to_media"), "count") == JInt(r.value.count)
  {
    var h := Field(Field(body, "graphql"), "hashtag");
    var name :- AsString(Field(h, "name"), "name");
    var count :- AsInt(Field(Field(h, "edge_hashtag_to_media"), "count"), "count");
    Ok(TagFactory.Create(name, count))
  }

  /** A searched user and a profile user fill the seventh factory slot
      differently: follower count in one, biography in the other. */
  lemma SeventhSlotDiffers(searchEntry: Json, profileBody: Json)
    ensures TopSearch.SearchUser(searchEntry).biography == Some(Field(Field(searchEntry, "user"), "follower_count"))
    ensures GetUser(profileBody).biography == Some(Field(Field(Field(profileBody, "graphql"), "user"), "biography"))
    ensures TopSearch.SearchUser(searchEntry).followerCount.None? && GetUser(profileBody).followerCount.Some?
  {
  }

  // ---------------------------------------------------------------------
  // The listing fetches, as specifications.

  /** What a tag or user listing fetch yields. */
  function ListingOf(edges: Json, async: bool, settled: seq<Settled>): (r: Result<seq<Media>>)
    ensures !async ==> (r.Ok? <==> AllOk(LoadMedia, EdgeNodes(edges)))
    ensures !async && r.Ok? ==> |r.value| == |Elements(edges)|
    ensures async && r.Ok? ==> |r.value| == |FulfilledIndices(settled)|
  {
    if async then LoadSettled(settled) else LoadAll(EdgeNodes(edges))
  }

  /** What a location listing fetch yields: the asynchronous branch reads
      a different path of the response, before any edge list. */
  function LocationListingOf(body: Json, async: bool, settled: seq<Settled>): (r: Result<seq<Media>>)
    ensures async && !IsArray(Field(Field(Field(body, "location"), "media"), "nodes")) ==> r == Err(TypeError("array"))
    ensures async && r.Ok? ==> |r.value| == |FulfilledIndices(settled)|
    ensures !async ==> (r.Ok? <==> AllOk(LoadMedia, EdgeNodes(LocationEdges(body))))
    ensures !async && r.Ok? ==> |r.value| == |Elements(LocationEdges(body))|
  {
    if async then
      var _ :- LocationAsyncCodes(body);
      LoadSettled(settled)
    else LoadAll(EdgeNodes(LocationEdges(body)))
  }

  /** The crawler and the result set of its last successful listing fetch. */
  class InstagramCrawler {
    /** `$this->result`: `None` until a listing fetch has succeeded. */
    var result: Option<seq<Media>>

    constructor()
      ensures result == None
    {
      result := None;
    }

    /** The held posts as `foreach` sees them: none before the first fetch. */
    function Held(): (held: seq<Media>)
      reads this
      ensures result.None? ==> held == []
      ensures result.Some? ==> held == result.value
    {
      if result.Some? then result.value else []
    }

    /** `getMedias($medias)`: every node normalised in order; the list
        replaces the held set. */
    method GetMedias(nodes: seq<Json>) returns (error: Option<Failure>)
      modifies this
      ensures LoadAll(nodes).Ok? ==> error == None && result == Some(LoadAll(nodes).value)
      ensures LoadAll(nodes).Err? ==> error == Some(LoadAll(nodes).error) && result == old(result)
      ensures error == None <==> AllOk(LoadMedia, nodes)
      ensures error == None ==>
        && result.Some? && |result.value| == |nodes|
        && forall i :: 0 <= i < |nodes| ==> LoadMedia(nodes[i]) == Ok(result.value[i])
    {
      var list: seq<Media> := [];
      for i := 0 to |nodes|
        invariant LoadAll(nodes[..i]) == Ok(list)
        invariant result == old(result)
      {
        LoadStep(nodes, i, list);
        var m := LoadMedia(nodes[i]);
        if m.Err? {
          MapAllOk(LoadMedia, nodes);
          return Some(m.error);
        }
        list := list + [m.value];
      }
      assert nodes[..|nodes|] == nodes;
      MapAllOk(LoadMedia, nodes);
      result := Some(list);
      return None;
    }

    /** The part of `getMediaAsync($codes)` after settling: one outcome per
        code; rejected outcomes are skipped, fulfilled ones normalised in
        order, and the list replaces the held set. */
    method GetMediaAsync(codes: seq<Json>, settled: seq<Settled>) returns (error: Option<Failure>)
      requires |settled| == |codes|
      modifies this
      ensures LoadSettled(settled).Ok? ==> error == None && result == Some(LoadSettled(settled).value)
      ensures LoadSettled(settled).Err? ==> error == Some(LoadSettled(settled).error) && result == old(result)
      ensures error == None ==>
        var idx := FulfilledIndices(settled);
        && result.Some? && |result.value| == |idx|
        && forall k :: 0 <= k < |idx| ==> LoadMedia(DetailNode(settled[idx[k]].body)) == Ok(result.value[k])
    {
      var list: seq<Media> := [];
      for i := 0 to |settled|
        invariant LoadSettled(settled[..i]) == Ok(list)
        invariant result == old(result)
      {
        SettleStep(settled, i, list);
        if settled[i].Fulfilled? {
          var m := LoadMedia(DetailNode(settled[i].body));
          if m.Err? {
            SettleFailure(settled, i, list);
            return Some(m.error);
          }
          list := list + [m.value];
        }
      }
      assert settled[..|settled|] == settled;
      result := Some(list);
      return None;
    }

    /** `getMediaByTag($name)`. */
    method GetMediaByTag(name: string, body: Json, async: bool, settled: seq<Settled>)
      returns (request: Request, error: Option<Failure>)
      requires async ==> |settled| == |Column(EdgeNodes(TagEdges(body)), "shortcode")|
      modifies this
      ensures request == GetRequest(TagPath(name))
      ensures var r := ListingOf(TagEdges(body), async, settled);
        && (r.Ok? ==> error == None && result == Some(r.value))
        && (r.Err? ==> error == Some(r.error) && result == old(result))
    {
      request := GetRequest(TagPath(name));
      var nodes := UnwrapEdges(TagEdges(body));
      if async {
        error := GetMediaAsync(Column(nodes, "shortcode"), settled);
      } else {
        error := GetMedias(nodes);
      }
    }

    /** `getMediaByLocation($id)`: the asynchronous branch takes its codes
        from `location.media.nodes` instead of the edge list. */
    method GetMediaByLocation(id: int, body: Json, async: bool, settled: seq<Settled>)
      returns (request: Request, error: Option<Failure>)
      requires async && LocationAsyncCodes(body).Ok? ==> |settled| == |LocationAsyncCodes(body).value|
      modifies this
      ensures request == GetRequest(LocationPath(id))
      ensures var r := LocationListingOf(body, async, settled);
        && (r.Ok? ==> error == None && result == Some(r.value))
        && (r.Err? ==> error == Some(r.error) && result == old(result))
    {
      request := GetRequest(LocationPath(id));
      if async {
        var codes := LocationAsyncCodes(body);
        if codes.Err? {
          return request, Some(codes.error);
        }
        error := GetMediaAsync(codes.value, settled);
        return;
      }
      var nodes := UnwrapEdges(LocationEdges(body));
      error := GetMedias(nodes);
    }

    /** `getMediaByUser($username)`. */
    method GetMediaByUser(username: string, body: Json, async: bool, settled: seq<Settled>)
      returns (request: Request, error: Option<Failure>)
      requires async ==> |settled| == |Column(EdgeNodes(UserEdges(body)), "shortcode")|
      modifies this
      ensures request == GetRequest(UserPath(username))
      ensures var r := ListingOf(UserEdges(body), async, settled);
        && (r.Ok? ==> error == None && result == Some(r.value))
        && (r.Err? ==> error == Some(r.error) && result == old(result))
    {
      request := GetRequest(UserPath(username));
      var nodes := UnwrapEdges(UserEdges(body));
      if async {
        error := GetMediaAsync(Column(nodes, "shortcode"), settled);
      } else {
        error := GetMedias(nodes);
      }
    }

    /** `search($query)`: the request it sends and the result of
        `loadSearch`; the held set is not touched. */
    method Search(query: string, body: Json) returns (request: Request, r: Result<TopSearch.SearchResult>)
      ensures request == SearchRequest(query)
      ensures r == TopSearch.SearchOf(body)
    {
      request := SearchRequest(query);
      r := TopSearch.LoadSearch(body);
    }

    /** `returnSimpleResult()`: one row per held post, in order. */
    method ReturnSimpleResult() returns (rows: seq<Row>)
      ensures |rows| == |Held()|
      ensures forall i :: 0 <= i < |rows| ==> rows[i] == SimpleRow(Held()[i])
    {
      var held := Held();
      rows := [];
      for i := 0 to |held|
        invariant |rows| == i
        invariant forall k :: 0 <= k < i ==> rows[k] == SimpleRow(held[k])
      {
        var m := held[i];
        var names: seq<string> := [];
        for j := 0 to |m.tags|
          invariant |names| == j
          invariant forall k :: 0 <= k < j ==> names[k] == m.tags[k].name
        {
          names := names + [m.tags[j].name];
        }
        assert names == MediaFactory.TagNames(m.tags);
        var row := if m.Video? then
            Row(m.owner.id, m.owner.username, m.url, BaseUri + MediaPath(m.code), m.comments, m.likes,
                names, "video", Some(m.thumb))
          else
            Row(m.owner.id, m.owner.username, m.url, BaseUri + MediaPath(m.code), m.comments, m.likes,
                names, "photo", None);
        rows := rows + [row];
      }
    }

    /** `returnFullResult()`: the held set itself.  Before the first
        successful fetch `$this->result` is `null`, which the `array` return
        type rejects. */
    method ReturnFullResult() returns (r: Result<seq<Media>>)
      ensures result.Some? ==> r == Ok(result.value)
      ensures result.None? ==> r == Err(TypeError("return"))
    {
      if result.Some? {
        return Ok(result.value);
      }
      return Err(TypeError("return"));
    }
  }
}
