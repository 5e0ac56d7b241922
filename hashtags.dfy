/** The matching half of `MediaFactory::extractHashtags`: what
    `preg_match_all('/\S*#((?:\[[^\]]+\]|\S+))/i', $caption, $matches)`
    collects in `$matches[1]`, and the `array_unique` that follows.

    How PCRE runs this pattern, spelled out:
    - a match attempt at position p lets `\S*` take the whole run of
      non-blank characters starting at p (up to `e`, the next blank or the
      end), then backs off one character at a time until it stands before a
      `#` after which the group matches, so the LAST suitable `#` of the run
      wins (`#a#b` captures only `b`);
    - the group first tries `\[[^\]]+\]` (a `[`, at least one character that
      is not `]`, blanks included, then the first `]`), and otherwise `\S+`,
      which runs to `e`;
    - an attempt that fails at p fails at every later start inside the same
      run, so the scan skips to `e`; after a match the scan resumes where the
      match ended.
    The `/i` flag is irrelevant: the pattern has no letters. */
module Hashtags {
  import opened Basics

  /** PCRE's `\s` outside UTF mode: space, \t, \n, \v, \f, \r. */
  predicate IsSpace(c: char)
    ensures IsSpace(c) <==> c == ' ' || '\t' <= c <= '\r'
    ensures c == '#' || c == '[' || c == ']' ==> !IsSpace(c)
  {
    c == ' ' || c == '\t' || c == '\n' || c == '\U{000B}' || c == '\U{000C}' || c == '\r'
  }

  /** `e` ends a run of non-blank characters that covers [from, e). */
  predicate IsRun(s: string, from: nat, e: nat) {
    from <= e <= |s| &&
    (e == |s| || IsSpace(s[e])) &&
    forall i :: from <= i < e ==> !IsSpace(s[i])
  }

  /** Where the run of non-blank characters starting at `p` ends. */
  function RunEnd(s: string, p: nat): (e: nat)
    requires p <= |s|
    ensures IsRun(s, p, e)
    decreases |s| - p
  {
    if p == |s| || IsSpace(s[p]) then p else RunEnd(s, p + 1)
  }

  /** The first `]` at or after `i`, if any. */
  function CloseBracket(s: string, i: nat): (j: Option<nat>)
    requires i <= |s|
    ensures j.Some? ==> i <= j.value < |s| && s[j.value] == ']'
    ensures j.Some? ==> forall k :: i <= k < j.value ==> s[k] != ']'
    ensures j.None? ==> forall k :: i <= k < |s| ==> s[k] != ']'
    decreases |s| - i
  {
    if i == |s| then None
    else if s[i] == ']' then Some(i)
    else CloseBracket(s, i + 1)
  }

  /** One match: the position of its `#`, the captured group, and the
      position where the match ends. */
  datatype Hit = Hit(hash: nat, name: string, end: nat)

  /** A match of the pattern whose `#` stands at `hash`. */
  predicate IsHit(s: string, h: Hit) {
    h.hash + 1 < h.end <= |s| &&
    s[h.hash] == '#' &&
    !IsSpace(s[h.hash + 1]) &&
    h.name == s[h.hash + 1..h.end]
  }

  /** The group `(?:\[[^\]]+\]|\S+)` tried right after the `#` at `k`, where
      `e` ends the run the `#` is in. */
  function GroupAt(s: string, k: nat, e: nat): (h: Option<Hit>)
    requires k < e && IsRun(s, k, e) && s[k] == '#'
    ensures h.Some? <==> k + 1 < e
    ensures h.Some? ==> h.value.hash == k && IsHit(s, h.value)
    ensures h.Some? && s[k + 1] != '[' ==> h.value.end == e
    ensures k + 1 < e && s[k + 1] == '[' && CloseBracket(s, k + 2).Some? && CloseBracket(s, k + 2).value > k + 2 ==>
      h.Some? && h.value.end == CloseBracket(s, k + 2).value + 1
    ensures k + 1 < e && s[k + 1] == '[' && (CloseBracket(s, k + 2).None? || CloseBracket(s, k + 2).value == k + 2) ==>
      h.Some? && h.value.end == e
  {
    var g := k + 1;
    if g < |s| && s[g] == '[' && CloseBracket(s, g + 1).Some? && CloseBracket(s, g + 1).value > g + 1 then
      var j := CloseBracket(s, g + 1).value;
      Some(Hit(k, s[g..j + 1], j + 1))
    else if g < e then Some(Hit(k, s[g..e], e))
    else None
  }

  /** A `#` at `k` that the group can follow inside the run ending at `e`. */
  predicate Usable(s: string, k: nat, e: nat)
    requires k < |s|
  {
    s[k] == '#' && k + 1 < e
  }

  /** The backtracking of greedy `\S*` from an attempt at `p`: the `#`
      positions below `hi` are tried from right to left. */
  function HashFrom(s: string, p: nat, hi: nat, e: nat): (h: Option<Hit>)
    requires p <= hi <= e && IsRun(s, p, e)
    ensures h.Some? ==> p <= h.value.hash < hi && Usable(s, h.value.hash, e)
    ensures h.Some? ==> h == GroupAt(s, h.value.hash, e)
    ensures h.Some? ==> forall k :: h.value.hash < k < hi ==> !Usable(s, k, e)
    ensures h.None? ==> forall k :: p <= k < hi ==> !Usable(s, k, e)
    decreases hi - p
  {
    if hi == p then None
    else if Usable(s, hi - 1, e) then GroupAt(s, hi - 1, e)
    else HashFrom(s, p, hi - 1, e)
  }

  /** All matches from position `p` on, left to right, as `preg_match_all`
      finds them. */
  function Scan(s: string, p: nat): (r: seq<Hit>)
    requires p <= |s|
    ensures forall i :: 0 <= i < |r| ==> p <= r[i].hash && IsHit(s, r[i])
    ensures forall i :: 0 < i < |r| ==> r[i - 1].end <= r[i].hash
    decreases |s| - p
  {
    if p == |s| then []
    else if IsSpace(s[p]) then Scan(s, p + 1)
    else
      var e := RunEnd(s, p);
      var h := HashFrom(s, p, e, e);
      if h.None? then Scan(s, e) else [h.value] + Scan(s, h.value.end)
  }

  /** A run that starts with its only `#`, followed by a word that does not
      open with `[`, yields that word. */
  lemma LoneHashRun(s: string, k: nat, e: nat)
    requires k + 1 < e && IsRun(s, k, e) && s[k] == '#' && s[k + 1] != '['
    requires forall i :: k < i < e ==> s[i] != '#'
    ensures Scan(s, k) == [Hit(k, s[k + 1..e], e)] + Scan(s, e)
  {
    assert RunEnd(s, k) == e by { RunEndUnique(s, k, e); }
    assert Usable(s, k, e);
  }

  /** The run end is determined by its start. */
  lemma {:induction false} RunEndUnique(s: string, p: nat, e: nat)
    requires p <= |s| && IsRun(s, p, e)
    ensures RunEnd(s, p) == e
    decreases |s| - p
  {
    if p < e {
      RunEndUnique(s, p + 1, e);
    }
  }

  /** `$matches[1]`: the captured groups of all matches, in order. */
  function Captures(s: string): (names: seq<string>)
    ensures |names| == |Scan(s, 0)|
    ensures forall i :: 0 <= i < |names| ==> names[i] == Scan(s, 0)[i].name
  {
    var hits := Scan(s, 0);
    seq(|hits|, i requires 0 <= i < |hits| => hits[i].name)
  }

  /** A `#` followed by a non-blank character. */
  predicate HashThenText(s: string, k: int) {
    0 <= k && k + 1 < |s| && s[k] == '#' && !IsSpace(s[k + 1])
  }

  /** `name` is the text that directly follows the `#` at `k`. */
  predicate TextAfterHash(s: string, k: int, name: string) {
    HashThenText(s, k) && k + 1 + |name| <= |s| && s[k + 1..k + 1 + |name|] == name
  }

  /** The scan finds something exactly when some `#` from `p` on is
      directly followed by a non-blank character. */
  lemma ScanNonEmptyIff(s: string, p: nat)
    requires p <= |s|
    ensures Scan(s, p) != [] <==> exists k :: p <= k && HashThenText(s, k)
  {
    var r := Scan(s, p);
    if r != [] {
      assert p <= r[0].hash && HashThenText(s, r[0].hash);
    }
    if k :| p <= k && HashThenText(s, k) {
      ScanFindsHash(s, p, k);
    }
  }

  lemma {:induction false} ScanFindsHash(s: string, p: nat, k: nat)
    requires p <= k && HashThenText(s, k)
    ensures Scan(s, p) != []
    decreases |s| - p
  {
    if IsSpace(s[p]) {
      ScanFindsHash(s, p + 1, k);
    } else {
      var e := RunEnd(s, p);
      if HashFrom(s, p, e, e).None? {
        if k < e {
          assert Usable(s, k, e);
        }
        ScanFindsHash(s, e, k);
      }
    }
  }

  /** Every captured name is non-empty and is the text right after a `#`. */
  lemma CapturesAreHashtags(s: string, i: nat)
    requires i < |Captures(s)|
    ensures |Captures(s)[i]| > 0
    ensures exists k :: TextAfterHash(s, k, Captures(s)[i])
  {
    var h := Scan(s, 0)[i];
    assert TextAfterHash(s, h.hash, h.name);
  }

  /** The bracket alternative spans blanks and stops at the first `]`:
      "#[a b] c" captures "[a b]". */
  lemma BracketExample()
    ensures Captures("#[a b] c") == ["[a b]"]
  {
    var s := "#[a b] c";
    assert RunEnd(s, 0) == 3 by { RunEndUnique(s, 0, 3); }
    assert CloseBracket(s, 2) == Some(5);
    assert s[1..6] == "[a b]";
    assert !Usable(s, 2, 3) && !Usable(s, 1, 3) && Usable(s, 0, 3);
    assert HashFrom(s, 0, 3, 3) == Some(Hit(0, "[a b]", 6));
    assert RunEnd(s, 7) == 8;
    assert HashFrom(s, 7, 8, 8) == None;
    assert Scan(s, 6) == [];
    assert Scan(s, 0) == [Hit(0, "[a b]", 6)];
  }

  /** An empty bracket pair falls back to `\S+`: "#[]x" captures "[]x". */
  lemma EmptyBracketExample()
    ensures Captures("#[]x") == ["[]x"]
  {
    var s := "#[]x";
    assert RunEnd(s, 0) == 4 by { RunEndUnique(s, 0, 4); }
    assert CloseBracket(s, 2) == Some(2);
    assert s[1..4] == "[]x";
    assert !Usable(s, 3, 4) && !Usable(s, 2, 4) && !Usable(s, 1, 4) && Usable(s, 0, 4);
    assert HashFrom(s, 0, 4, 4) == Some(Hit(0, "[]x", 4));
    assert Scan(s, 0) == [Hit(0, "[]x", 4)];
  }

  // ---------------------------------------------------------------------
  // `array_values(array_unique(...))`: exact string comparison, first
  // occurrence kept, survivors renumbered in order.

  predicate NoDuplicates(xs: seq<string>) {
    forall i, j :: 0 <= i < j < |xs| ==> xs[i] != xs[j]
  }

  function Dedup(xs: seq<string>): (r: seq<string>)
    ensures NoDuplicates(r)
    ensures forall x :: x in r <==> x in xs
    ensures |r| <= |xs|
    decreases |xs|
  {
    if xs == [] then []
    else
      var init := Dedup(xs[..|xs| - 1]);
      var last := xs[|xs| - 1];
      if last in init then init else init + [last]
  }

  /** Where `x` first occurs in `xs`. */
  function FirstIndex(xs: seq<string>, x: string): (k: nat)
    requires x in xs
    ensures k < |xs| && xs[k] == x
    ensures forall i :: 0 <= i < k ==> xs[i] != x
    decreases |xs|
  {
    if xs[0] == x then 0 else 1 + FirstIndex(xs[1..], x)
  }

  lemma FirstIndexInPrefix(xs: seq<string>, n: nat, x: string)
    requires n <= |xs| && x in xs[..n]
    ensures FirstIndex(xs, x) == FirstIndex(xs[..n], x)
  {
    var k := FirstIndex(xs[..n], x);
    assert xs[k] == x;
    var f := FirstIndex(xs, x);
    assert f <= k;
    assert xs[..n][f] == x;
  }

  /** The survivors keep the order of their first occurrences. */
  lemma {:induction false} DedupKeepsFirstOccurrenceOrder(xs: seq<string>)
    ensures forall i, j :: 0 <= i < j < |Dedup(xs)| ==>
      FirstIndex(xs, Dedup(xs)[i]) < FirstIndex(xs, Dedup(xs)[j])
    decreases |xs|
  {
    if xs != [] {
      var n := |xs| - 1;
      var init := Dedup(xs[..n]);
      DedupKeepsFirstOccurrenceOrder(xs[..n]);
      forall y | y in init
        ensures FirstIndex(xs, y) == FirstIndex(xs[..n], y) && FirstIndex(xs, y) < n
      {
        FirstIndexInPrefix(xs, n, y);
      }
      if xs[n] !in init {
        assert xs[n] !in xs[..n];
        assert FirstIndex(xs, xs[n]) == n;
      }
    }
  }

  /** Only an element's first occurrence is kept: the element at `i` is in
      the result, and at a position given by the elements first seen
      before it. */
  lemma {:induction false} DedupPosition(xs: seq<string>, i: nat)
    requires i < |xs| && xs[i] !in xs[..i]
    ensures exists j :: 0 <= j < |Dedup(xs)| && Dedup(xs)[j] == xs[i] && j == |Dedup(xs[..i])|
    decreases |xs|
  {
    var n := |xs| - 1;
    if i < n {
      assert xs[..n][..i] == xs[..i];
      DedupPosition(xs[..n], i);
      var j :| 0 <= j < |Dedup(xs[..n])| && Dedup(xs[..n])[j] == xs[i] && j == |Dedup(xs[..i])|;
      assert Dedup(xs)[j] == xs[i];
    } else {
      assert xs[..n] == xs[..i];
      assert Dedup(xs)[|Dedup(xs[..i])|] == xs[i];
    }
  }
}
