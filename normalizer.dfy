/** `InstagramCrawler::loadMedia`: one decoded post node, whichever endpoint
    it came from, to a `Photo` or a `Video`.

    Reading a key the node lacks gives `null`, which `??` replaces by a
    default.  The file runs under `declare(strict_types=1)`, so a value of
    the wrong type reaching a typed parameter of a factory (a `null` that
    stands for a missing required key included) throws a `TypeError`: here
    an `Err` naming that parameter. */
module Normalizer {
  import opened Basics
  import opened PhpJson
  import opened Model
  import MediaFactory
  import LocationFactory

  /** Passing `v` to a `string` parameter. */
  function AsString(v: Json, parameter: string): (r: Result<string>)
    ensures r.Ok? <==> v.JStr?
    ensures r.Ok? ==> r.value == v.s
    ensures r.Err? ==> r.error == TypeError(parameter)
  {
    if v.JStr? then Ok(v.s) else Err(TypeError(parameter))
  }

  /** Passing `v` to an `int` parameter (no coercion under strict types). */
  function AsInt(v: Json, parameter: string): (r: Result<int>)
    ensures r.Ok? <==> v.JInt?
    ensures r.Ok? ==> r.value == v.i
    ensures r.Err? ==> r.error == TypeError(parameter)
  {
    if v.JInt? then Ok(v.i) else Err(TypeError(parameter))
  }

  /** Passing `v` to a `bool` parameter. */
  function AsBool(v: Json, parameter: string): (r: Result<bool>)
    ensures r.Ok? <==> v.JBool?
    ensures r.Ok? ==> r.value == v.b
    ensures r.Err? ==> r.error == TypeError(parameter)
  {
    if v.JBool? then Ok(v.b) else Err(TypeError(parameter))
  }

  // The node's paths, named once.

  /** The like count: read through `edge_media_preview_like`, with no
      default, so a missing object or count reads as null. */
  function LikeCount(node: Json): (r: Json)
    ensures r != JNull ==>
      HasKey(node, "edge_media_preview_like") && HasKey(Field(node, "edge_media_preview_like"), "count")
    ensures !HasKey(node, "edge_media_preview_like") ==> r == JNull
    ensures HasKey(node, "edge_media_preview_like") && HasKey(node.fields["edge_media_preview_like"], "count") ==>
      r == node.fields["edge_media_preview_like"].fields["count"]
  {
    Field(Field(node, "edge_media_preview_like"), "count")
  }

  /** The comment count under `edge_media_to_comment`, 0 when it is
      missing or null. */
  function CommentCount(node: Json): (r: Json)
    ensures r != JNull
    ensures !HasKey(node, "edge_media_to_comment") ==> r == JInt(0)
    ensures Field(Field(node, "edge_media_to_comment"), "count") == JNull ==> r == JInt(0)
    ensures HasKey(Field(node, "edge_media_to_comment"), "count") && Field(node, "edge_media_to_comment").fields["count"] != JNull ==>
      r == Field(node, "edge_media_to_comment").fields["count"]
  {
    Coalesce(Field(Field(node, "edge_media_to_comment"), "count"), JInt(0))
  }

  /** The text of the first caption edge, null when there is no caption
      edge or it carries no text. */
  function CaptionText(node: Json): (r: Json)
    ensures r != JNull ==>
      var edges := Field(Field(node, "edge_media_to_caption"), "edges");
      && HasKey(node, "edge_media_to_caption")
      && HasKey(Field(node, "edge_media_to_caption"), "edges")
      && HasKey(Field(Index(edges, 0), "node"), "text")
    ensures Field(Field(node, "edge_media_to_caption"), "edges") == JArr([]) ==> r == JNull
    ensures var edges := Field(Field(node, "edge_media_to_caption"), "edges");
      edges.JArr? && edges.items != [] && HasKey(edges.items[0], "node") && HasKey(edges.items[0].fields["node"], "text") ==>
        r == edges.items[0].fields["node"].fields["text"]
  {
    Field(Field(Index(Field(Field(node, "edge_media_to_caption"), "edges"), 0), "node"), "text")
  }

  /** The advertisement flag, false when missing or null. */
  function IsAd(node: Json): (r: Json)
    ensures r != JNull
    ensures Field(node, "is_ad") == JNull ==> r == JBool(false)
    ensures HasKey(node, "is_ad") && node.fields["is_ad"] != JNull ==> r == node.fields["is_ad"]
  {
    Coalesce(Field(node, "is_ad"), JBool(false))
  }

  /** The video address, "" when missing or null. */
  function VideoUrl(node: Json): (r: Json)
    ensures r != JNull
    ensures Field(node, "video_url") == JNull ==> r == JStr("")
    ensures HasKey(node, "video_url") && node.fields["video_url"] != JNull ==> r == node.fields["video_url"]
  {
    Coalesce(Field(node, "video_url"), JStr(""))
  }

  /** The post's location: present whenever the node has a `location` key,
      even one holding `null`; its name and slug default to "". */
  function LoadLocation(node: Json): (r: Result<Option<Location>>)
    ensures r.Ok? ==> (r.value.Some? <==> HasKey(node, "location"))
    ensures r.Ok? && r.value.Some? ==> r.value.value.coordinate.None?
    ensures r.Ok? && r.value.Some? ==>
      var loc := Field(node, "location");
      && r.value.value.id == ToInt(Field(loc, "id"))
      && Coalesce(Field(loc, "name"), JStr("")) == JStr(r.value.value.name)
      && Coalesce(Field(loc, "slug"), JStr("")) == JStr(r.value.value.slug)
    ensures r.Err? <==>
      && HasKey(node, "location")
      && var loc := Field(node, "location");
         !(Coalesce(Field(loc, "name"), JStr("")).JStr? && Coalesce(Field(loc, "slug"), JStr("")).JStr?)
  {
    if !HasKey(node, "location") then Ok(None)
    else
      var loc := Field(node, "location");
      var name :- AsString(Coalesce(Field(loc, "name"), JStr("")), "name");
      var slug :- AsString(Coalesce(Field(loc, "slug"), JStr("")), "slug");
      Ok(Some(LocationFactory.Create(ToInt(Field(loc, "id")), name, slug)))
  }

  /** The post's owner, with "" for a missing name or picture and `false`
      for a missing privacy flag. */
  function LoadOwner(node: Json): (u: User)
    ensures var o := Field(node, "owner");
      && u.id == ToInt(Field(o, "id"))
      && (Field(o, "username") == JNull ==> u.username == JStr(""))
      && (Field(o, "profile_pic_url") == JNull ==> u.profilePicUrl == JStr(""))
      && (Field(o, "full_name") == JNull ==> u.fullName == JStr(""))
      && (Field(o, "is_private") == JNull ==> u.isPrivate == JBool(false))
    ensures var o := Field(node, "owner");
      && (Field(o, "username") != JNull ==> u.username == Field(o, "username"))
      && (Field(o, "profile_pic_url") != JNull ==> u.profilePicUrl == Field(o, "profile_pic_url"))
      && (Field(o, "full_name") != JNull ==> u.fullName == Field(o, "full_name"))
      && (Field(o, "is_private") != JNull ==> u.isPrivate == Field(o, "is_private"))
    ensures u.isVerified.None? && u.biography.None? && u.externalUrl.None?
    ensures u.followerCount.None? && u.followingCount.None? && u.postCount.None?
  {
    var o := Field(node, "owner");
    User(ToInt(Field(o, "id")),
         Coalesce(Field(o, "username"), JStr("")),
         Coalesce(Field(o, "profile_pic_url"), JStr("")),
         Coalesce(Field(o, "full_name"), JStr("")),
         Coalesce(Field(o, "is_private"), JBool(false)),
         None, None, None, None, None, None)
  }

  /** `loadMedia(array $media)`. */
  function LoadMedia(node: Json): (r: Result<Media>)
    ensures r.Ok? ==> (r.value.Video? <==> Truthy(Field(node, "is_video")))
    ensures !IsArray(node) ==> r.Err?
    ensures !Field(node, "shortcode").JStr? ==> r.Err?
    ensures !Field(node, "display_url").JStr? ==> r.Err?
    ensures !IsArray(Field(node, "dimensions")) ==> r.Err?
    ensures !Field(node, "taken_at_timestamp").JInt? ==> r.Err?
    ensures !LikeCount(node).JInt? ==> r.Err?
    ensures Truthy(Field(node, "is_video")) && !Field(node, "video_view_count").JInt? ==> r.Err?
  {
    if !IsArray(node) then Err(TypeError("media"))
    else
      var location :- LoadLocation(node);
      var user := LoadOwner(node);
      var id := ToInt(Field(node, "id"));
      if Truthy(Field(node, "is_video")) then
        var code :- AsString(Field(node, "shortcode"), "code");
        var url :- AsString(VideoUrl(node), "url");
        var thumb :- AsString(Field(node, "display_url"), "thumb");
        var views :- AsInt(Field(node, "video_view_count"), "views");
        var dimension := Field(node, "dimensions");
        if !IsArray(dimension) then Err(TypeError("dimension"))
        else
          var created :- AsInt(Field(node, "taken_at_timestamp"), "created");
          var likes :- AsInt(LikeCount(node), "likes");
          var comments :- AsInt(CommentCount(node), "comments");
          var ad :- AsBool(IsAd(node), "ad");
          MediaFactory.CreateVideo(id, code, url, thumb, views, dimension, created, user,
                                   likes, comments, ad, CaptionText(node), location)
      else
        var code :- AsString(Field(node, "shortcode"), "code");
        var url :- AsString(Field(node, "display_url"), "url");
        var dimension := Field(node, "dimensions");
        if !IsArray(dimension) then Err(TypeError("dimension"))
        else
          var created :- AsInt(Field(node, "taken_at_timestamp"), "created");
          var likes :- AsInt(LikeCount(node), "likes");
          var comments :- AsInt(CommentCount(node), "comments");
          var ad :- AsBool(IsAd(node), "ad");
          MediaFactory.CreatePhoto(id, code, url, dimension, created, user,
                                   likes, comments, ad, CaptionText(node), location)
  }

  /** What a normalised post holds, field by field: the fields both kinds
      share. */
  lemma LoadMediaCommonFields(node: Json)
    requires LoadMedia(node).Ok?
    ensures var m := LoadMedia(node).value;
      && m.id == ToInt(Field(node, "id"))
      && Field(node, "shortcode") == JStr(m.code)
      && m.owner == LoadOwner(node)
      && m.dimension == Dimension(Field(Field(node, "dimensions"), "width"), Field(Field(node, "dimensions"), "height"))
      && Field(node, "taken_at_timestamp") == JInt(m.takenAt)
      && LikeCount(node) == JInt(m.likes)
      && CommentCount(node) == JInt(m.comments)
      && IsAd(node) == JBool(m.isAd)
      && m.caption == CaptionText(node)
      && m.tags == MediaFactory.CaptionTags(CaptionText(node)).value
      && LoadLocation(node) == Ok(m.location)
  {
  }

  /** A video's address is `video_url` (or ""), its thumbnail the display
      image, and its view count `video_view_count`; a photo's address is
      the display image. */
  lemma LoadMediaKindFields(node: Json)
    requires LoadMedia(node).Ok?
    ensures var m := LoadMedia(node).value;
      && (m.Video? ==>
            && VideoUrl(node) == JStr(m.url)
            && Field(node, "display_url") == JStr(m.thumb)
            && Field(node, "video_view_count") == JInt(m.views))
      && (m.Photo? ==> Field(node, "display_url") == JStr(m.url))
  {
  }

  /** A node that satisfies every type demand is normalised.  Together with
      the failure clauses of `LoadMedia` this pins down exactly when
      normalisation fails. */
  lemma LoadMediaSucceeds(node: Json)
    requires IsArray(node)
    requires !HasKey(node, "location") ||
      (Coalesce(Field(Field(node, "location"), "name"), JStr("")).JStr? &&
       Coalesce(Field(Field(node, "location"), "slug"), JStr("")).JStr?)
    requires Field(node, "shortcode").JStr? && Field(node, "display_url").JStr?
    requires Truthy(Field(node, "is_video")) ==> VideoUrl(node).JStr? && Field(node, "video_view_count").JInt?
    requires IsArray(Field(node, "dimensions")) && Field(node, "taken_at_timestamp").JInt?
    requires LikeCount(node).JInt? && CommentCount(node).JInt? && IsAd(node).JBool?
    requires !Truthy(CaptionText(node)) || CaptionText(node).JStr?
    ensures LoadMedia(node).Ok?
  {
  }
}
