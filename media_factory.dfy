/** src/Factory/MediaFactory.php: the two post constructors and hashtag
    extraction from the caption. */
module MediaFactory {
  import opened Basics
  import opened PhpJson
  import opened Model
  import opened Hashtags
  import TagFactory

  /** The names of a list of tags, in order. */
  function TagNames(tags: seq<Tag>): (names: seq<string>)
    ensures |names| == |tags|
    ensures forall i :: 0 <= i < |tags| ==> names[i] == tags[i].name
  {
    seq(|tags|, i requires 0 <= i < |tags| => tags[i].name)
  }

  /** `extractHashtags($caption)`: one `Tag` with count 0 per distinct
      captured name, in order of first occurrence. */
  function ExtractHashtags(caption: string): (tags: seq<Tag>)
    ensures TagNames(tags) == Dedup(Captures(caption))
    ensures forall i :: 0 <= i < |tags| ==> tags[i] == TagFactory.Create(tags[i].name)
  {
    var names := Dedup(Captures(caption));
    seq(|names|, i requires 0 <= i < |names| => TagFactory.Create(names[i]))
  }

  /** The tags a post gets from its caption (`$caption ? ... : []`).  A
      truthy caption that is not a string cannot be passed to
      `extractHashtags(string $caption)`. */
  function CaptionTags(caption: Json): (r: Result<seq<Tag>>)
    ensures !Truthy(caption) ==> r == Ok([])
    ensures Truthy(caption) && caption.JStr? ==> r == Ok(ExtractHashtags(caption.s))
    ensures Truthy(caption) && !caption.JStr? ==> r.Err?
  {
    if !Truthy(caption) then Ok([])
    else if caption.JStr? then Ok(ExtractHashtags(caption.s))
    else Err(TypeError("caption"))
  }

  /** `createPhoto(...)`.  The PHP signature demands an array `$dimension`. */
  function CreatePhoto(
    id: int, code: string, url: string, dimension: Json, created: int, user: User,
    likes: int := 0, comments: int := 0, ad: bool := false, caption: Json := JNull,
    location: Option<Location> := None): (r: Result<Media>)
    requires IsArray(dimension)
    ensures r.Ok? <==> CaptionTags(caption).Ok?
    ensures r.Ok? ==> r.value.Photo?
    ensures r.Ok? ==>
      && r.value.id == id && r.value.code == code && r.value.url == url
      && r.value.owner == user && r.value.likes == likes && r.value.comments == comments
      && r.value.isAd == ad && r.value.caption == caption && r.value.location == location
    ensures r.Ok? ==>
      && r.value.dimension == Dimension(Field(dimension, "width"), Field(dimension, "height"))
      && r.value.takenAt == created
    ensures r.Ok? ==> r.value.tags == CaptionTags(caption).value
  {
    var tags :- CaptionTags(caption);
    Ok(Photo(id, code, url, Dimension(Field(dimension, "width"), Field(dimension, "height")), created, user,
             tags, likes, comments, ad, caption, location))
  }

  /** `createVideo(...)`: a photo's fields plus the thumbnail and view count. */
  function CreateVideo(
    id: int, code: string, url: string, thumb: string, views: int, dimension: Json, created: int,
    user: User, likes: int := 0, comments: int := 0, ad: bool := false, caption: Json := JNull,
    location: Option<Location> := None): (r: Result<Media>)
    requires IsArray(dimension)
    ensures r.Ok? <==> CaptionTags(caption).Ok?
    ensures r.Ok? ==> r.value.Video? && r.value.thumb == thumb && r.value.views == views
    ensures r.Ok? ==>
      && r.value.id == id && r.value.code == code && r.value.url == url
      && r.value.owner == user && r.value.likes == likes && r.value.comments == comments
      && r.value.isAd == ad && r.value.caption == caption && r.value.location == location
    ensures r.Ok? ==>
      && r.value.dimension == Dimension(Field(dimension, "width"), Field(dimension, "height"))
      && r.value.takenAt == created
    ensures r.Ok? ==> r.value.tags == CaptionTags(caption).value
  {
    var tags :- CaptionTags(caption);
    Ok(Video(id, code, url, thumb, views, Dimension(Field(dimension, "width"), Field(dimension, "height")),
             created, user, tags, likes, comments, ad, caption, location))
  }

  // ---------------------------------------------------------------------
  // What the tag list of a post is.

  /** Tag names are distinct, non-empty, each the text after some `#` of the
      caption, and every tag has count 0. */
  lemma ExtractedTagsWellFormed(caption: string)
    ensures NoDuplicates(TagNames(ExtractHashtags(caption)))
    ensures forall i :: 0 <= i < |ExtractHashtags(caption)| ==>
      ExtractHashtags(caption)[i].count == 0 &&
      |ExtractHashtags(caption)[i].name| > 0 &&
      exists k :: TextAfterHash(caption, k, ExtractHashtags(caption)[i].name)
  {
    var tags := ExtractHashtags(caption);
    var caps := Captures(caption);
    forall i | 0 <= i < |tags|
      ensures |tags[i].name| > 0 && exists k :: TextAfterHash(caption, k, tags[i].name)
    {
      assert tags[i].name in Dedup(caps);
      var j :| 0 <= j < |caps| && caps[j] == tags[i].name;
      CapturesAreHashtags(caption, j);
    }
  }

  /** Every match of the pattern is represented, exactly once, in
      order of first occurrence. */
  lemma ExtractedTagsCoverMatches(caption: string)
    ensures forall x :: x in TagNames(ExtractHashtags(caption)) <==> x in Captures(caption)
    ensures forall i, j :: 0 <= i < j < |ExtractHashtags(caption)| ==>
      FirstIndex(Captures(caption), ExtractHashtags(caption)[i].name)
        < FirstIndex(Captures(caption), ExtractHashtags(caption)[j].name)
  {
    DedupKeepsFirstOccurrenceOrder(Captures(caption));
  }

  /** A caption gets tags exactly when some `#` in it is followed by a
      non-blank character; in particular a caption without `#` has none. */
  lemma ExtractedTagsEmptyIff(caption: string)
    ensures ExtractHashtags(caption) == [] <==> !exists k :: HashThenText(caption, k)
  {
    ScanNonEmptyIff(caption, 0);
    var tags := ExtractHashtags(caption);
    if Captures(caption) != [] {
      assert Captures(caption)[0] in Dedup(Captures(caption));
      assert |TagNames(tags)| > 0;
    }
  }

  /** Greedy `\S*`: in `#a#b` only the last `#` of the run starts a tag. */
  lemma GreedyRunExample()
    ensures TagNames(ExtractHashtags("#a#b")) == ["b"]
  {
    var s := "#a#b";
    assert RunEnd(s, 0) == 4;
    assert s[3..4] == "b";
    assert GroupAt(s, 2, 4) == Some(Hit(2, "b", 4));
    assert !Usable(s, 3, 4) && Usable(s, 2, 4);
    assert HashFrom(s, 0, 4, 4) == Some(Hit(2, "b", 4));
    assert Scan(s, 0) == [Hit(2, "b", 4)];
  }

  /** Case matters and repeats collapse: "#x #X #x" gives the tags x and X. */
  lemma CaseSensitiveExample()
    ensures TagNames(ExtractHashtags("#x #X #x")) == ["x", "X"]
  {
    ThreeWordCaptures();
    ThreeWordsDedup();
  }

  lemma ThreeWordsDedup()
    ensures Dedup(["x", "X", "x"]) == ["x", "X"]
  {
    assert ["x", "X", "x"][..2] == ["x", "X"];
    assert ["x", "X"][..1] == ["x"];
    assert ["x"][..0] == [];
  }

  /** The scanner on "#x #X #x" finds all three words. */
  lemma ThreeWordCaptures()
    ensures Captures("#x #X #x") == ["x", "X", "x"]
  {
    ThreeWordsFrom0();
  }

  lemma ThreeWordsFrom0()
    ensures Scan("#x #X #x", 0) == [Hit(0, "x", 2), Hit(3, "X", 5), Hit(6, "x", 8)]
  {
    var s := "#x #X #x";
    assert s[0] == '#' && s[1] == 'x' && IsSpace(s[2]);
    assert IsRun(s, 0, 2);
    LoneHashRun(s, 0, 2);
    assert s[1..2] == "x";
    ThreeWordsFrom2();
  }

  lemma ThreeWordsFrom2()
    ensures Scan("#x #X #x", 2) == [Hit(3, "X", 5), Hit(6, "x", 8)]
  {
    ThreeWordsFrom3();
    assert IsSpace("#x #X #x"[2]);
  }

  lemma ThreeWordsFrom3()
    ensures Scan("#x #X #x", 3) == [Hit(3, "X", 5), Hit(6, "x", 8)]
  {
    var s := "#x #X #x";
    ThreeWordsFrom6();
    LoneHashRun(s, 3, 5);
    assert s[4..5] == "X";
    assert Scan(s, 5) == Scan(s, 6);
  }

  lemma ThreeWordsFrom6()
    ensures Scan("#x #X #x", 6) == [Hit(6, "x", 8)]
  {
    var s := "#x #X #x";
    LoneHashRun(s, 6, 8);
    assert s[7..8] == "x";
    assert Scan(s, 8) == [];
  }

  /** The same caption gives a photo and a video the same tags: both
      fail together or both carry the same list. */
  lemma PhotoAndVideoShareTags(
    id: int, code: string, url: string, thumb: string, views: int, dimension: Json, created: int,
    user: User, likes: int, comments: int, ad: bool, caption: Json, location: Option<Location>)
    requires IsArray(dimension)
    ensures var p := CreatePhoto(id, code, url, dimension, created, user, likes, comments, ad, caption, location);
      var v := CreateVideo(id, code, url, thumb, views, dimension, created, user, likes, comments, ad, caption, location);
      (p.Ok? <==> v.Ok?) && (p.Ok? ==> p.value.tags == v.value.tags)
  {
  }
}
