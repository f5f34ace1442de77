/**
 * The producer-tools panel's text generators and editable tables: the
 * hashtag generator (a pool of base, genre and filler tags, shuffled and cut
 * to 25), the YouTube SEO generator, the split sheet's party list and the
 * price chart's rows.
 */
module ProducerTools {
  import opened Numeric
  import opened Text

  // ---------------------------------------------------------------------
  // Hashtags
  // ---------------------------------------------------------------------

  const BaseTags: seq<string> :=
    ["#producer", "#beatmaker", "#flstudio", "#typebeat", "#musicproducer", "#beats", "#instrumental"]

  /** Genre keys in the order the generator looks for them, each with its four tags. */
  const Genres: seq<(string, seq<string>)> := [
    ("trap", ["#trapbeat", "#trapmusic", "#808", "#hiphopbeat"]),
    ("lofi", ["#lofi", "#lofihiphop", "#chill", "#studybeats"]),
    ("drill", ["#drillbeat", "#ukdrill", "#nydrill", "#hardbeats"]),
    ("r&b", ["#rnbbeat", "#smooth", "#soul", "#rnb"])
  ]

  const Extras: seq<string> :=
    ["#newmusic", "#upcomingartist", "#studio", "#beatstars", "#sellingbeats", "#rapper", "#artist"]

  /** How many tags the generator keeps. */
  const PickCount: nat := 25

  predicate Distinct(s: seq<string>) {
    forall i, j :: 0 <= i < j < |s| ==> s[i] != s[j]
  }

  predicate Disjoint(a: seq<string>, b: seq<string>) {
    forall x :: x in a ==> x !in b
  }

  lemma DistinctAppend(a: seq<string>, b: seq<string>)
    requires Distinct(a) && Distinct(b) && Disjoint(a, b)
    ensures Distinct(a + b)
  {
    forall i, j | 0 <= i < j < |a + b| ensures (a + b)[i] != (a + b)[j] {
      if j < |a| {
        assert (a + b)[i] == a[i] && (a + b)[j] == a[j];
      } else if i >= |a| {
        assert (a + b)[i] == b[i - |a|] && (a + b)[j] == b[j - |a|];
      } else {
        assert (a + b)[i] == a[i] && (a + b)[j] == b[j - |a|];
        assert a[i] in a;
      }
    }
  }

  /** The tags of the first `n` genres whose key occurs in `lower`, in genre order. */
  function MatchedTags(lower: string, n: nat): (r: seq<string>)
    requires n <= |Genres|
    ensures |r| % 4 == 0 && |r| <= 4 * n
  {
    if n == 0 then []
    else MatchedTags(lower, n - 1) + (if Contains(lower, Genres[n - 1].0) then Genres[n - 1].1 else [])
  }

  /** How many of the first `n` genre keys occur in `lower`. */
  function MatchCount(lower: string, n: nat): (c: nat)
    requires n <= |Genres|
    ensures c <= n
  {
    if n == 0 then 0 else MatchCount(lower, n - 1) + (if Contains(lower, Genres[n - 1].0) then 1 else 0)
  }

  /** `generateHashtags`'s pool: base tags, the matched genres' tags in key order, then the fillers. */
  function Pool(input: string): (pool: seq<string>)
  {
    BaseTags + MatchedTags(ToLower(input), |Genres|) + Extras
  }

  lemma {:induction false} MatchedTagsFrom(lower: string, n: nat, x: string)
    requires n <= |Genres|
    requires x in MatchedTags(lower, n)
    ensures exists g :: 0 <= g < n && Contains(lower, Genres[g].0) && x in Genres[g].1
  {
    var prev := MatchedTags(lower, n - 1);
    if x in prev {
      MatchedTagsFrom(lower, n - 1, x);
    } else {
      assert Contains(lower, Genres[n - 1].0) && x in Genres[n - 1].1;
    }
  }

  lemma {:induction false} MatchedTagsHas(lower: string, n: nat, g: nat)
    requires g < n <= |Genres|
    requires Contains(lower, Genres[g].0)
    ensures forall x :: x in Genres[g].1 ==> x in MatchedTags(lower, n)
  {
    if g < n - 1 {
      MatchedTagsHas(lower, n - 1, g);
    }
  }

  lemma {:induction false} MatchedLength(lower: string, n: nat)
    requires n <= |Genres|
    ensures |MatchedTags(lower, n)| == 4 * MatchCount(lower, n)
  {
    if n > 0 {
      MatchedLength(lower, n - 1);
    }
  }

  /** The genre tag lists are pairwise disjoint and free of repeats. */
  lemma GenreListsDistinct()
    ensures forall g :: 0 <= g < |Genres| ==> Distinct(Genres[g].1)
    ensures forall g, h :: 0 <= g < h < |Genres| ==> Disjoint(Genres[g].1, Genres[h].1)
  {
  }

  lemma {:induction false} MatchedTagsDistinct(lower: string, n: nat)
    requires n <= |Genres|
    ensures Distinct(MatchedTags(lower, n))
  {
    if n > 0 {
      MatchedTagsDistinct(lower, n - 1);
      var prev := MatchedTags(lower, n - 1);
      var next: seq<string> := if Contains(lower, Genres[n - 1].0) then Genres[n - 1].1 else [];
      GenreListsDistinct();
      forall x | x in prev ensures x !in next {
        MatchedTagsFrom(lower, n - 1, x);
      }
      DistinctAppend(prev, next);
    }
  }

  /** The base tags and fillers repeat nothing and share nothing with each other or any genre. */
  lemma FixedListsDistinct()
    ensures Distinct(BaseTags) && Distinct(Extras) && Disjoint(BaseTags, Extras)
    ensures forall g :: 0 <= g < |Genres| ==> Disjoint(Genres[g].1, BaseTags) && Disjoint(Genres[g].1, Extras)
  {
    BaseTagsDistinct();
    ExtrasDistinct();
    BaseExtrasDisjoint();
    GenreApart(0);
    GenreApart(1);
    GenreApart(2);
    GenreApart(3);
  }

  lemma BaseTagsDistinct()
    ensures Distinct(BaseTags)
  {
  }

  lemma ExtrasDistinct()
    ensures Distinct(Extras)
  {
  }

  lemma BaseExtrasDisjoint()
    ensures Disjoint(BaseTags, Extras)
  {
  }

  lemma GenreApart(g: nat)
    requires g < |Genres|
    ensures Disjoint(Genres[g].1, BaseTags) && Disjoint(Genres[g].1, Extras)
  {
  }

  /** No tag enters the pool twice. */
  lemma PoolDistinct(input: string)
    ensures Distinct(Pool(input))
  {
    var lower := ToLower(input);
    var m := MatchedTags(lower, |Genres|);
    MatchedTagsDistinct(lower, |Genres|);
    FixedListsDistinct();
    forall x | x in m ensures x !in BaseTags && x !in Extras {
      MatchedTagsFrom(lower, |Genres|, x);
    }
    DistinctAppend(BaseTags, m);
    DistinctAppend(BaseTags + m, Extras);
  }

  /**
   * The pool holds the base tags first and the fillers last, 14 tags plus
   * four per matched genre, and a genre's tags are in it exactly when its
   * key occurs in the lower-cased input.
   */
  lemma PoolSpec(input: string)
    ensures var pool := Pool(input);
      && pool[..|BaseTags|] == BaseTags
      && pool[|pool| - |Extras|..] == Extras
      && |pool| == |BaseTags| + |Extras| + 4 * MatchCount(ToLower(input), |Genres|)
      && forall g :: 0 <= g < |Genres| ==>
           (Contains(ToLower(input), Genres[g].0) <==> forall x :: x in Genres[g].1 ==> x in pool)
  {
    var lower := ToLower(input);
    var m := MatchedTags(lower, |Genres|);
    var pool := Pool(input);
    MatchedLength(lower, |Genres|);
    forall g | 0 <= g < |Genres|
      ensures Contains(lower, Genres[g].0) <==> forall x :: x in Genres[g].1 ==> x in pool
    {
      if Contains(lower, Genres[g].0) {
        MatchedTagsHas(lower, |Genres|, g);
      } else {
        GenreTagAbsent(lower, g);
      }
    }
  }

  /** The first tag of an unmatched genre is nowhere in the pool. */
  lemma GenreTagAbsent(lower: string, g: nat)
    requires g < |Genres| && !Contains(lower, Genres[g].0)
    ensures Genres[g].1[0] !in BaseTags + MatchedTags(lower, |Genres|) + Extras
  {
    var x := Genres[g].1[0];
    FixedListsDistinct();
    assert x in Genres[g].1;
    if x in MatchedTags(lower, |Genres|) {
      MatchedTagsFrom(lower, |Genres|, x);
      GenreListsDistinct();
    }
  }

  /** `perm` reorders `0 .. n-1`: it is what the random-comparator sort did to the pool. */
  predicate IsPermutation(perm: seq<nat>, n: nat) {
    && |perm| == n
    && (forall i :: 0 <= i < n ==> perm[i] < n)
    && (forall i, j :: 0 <= i < j < n ==> perm[i] != perm[j])
  }

  /** The first `min(25, |pool|)` tags of the shuffled pool, joined by spaces. */
  function PickTags(pool: seq<string>, perm: seq<nat>): (picked: seq<string>)
    requires IsPermutation(perm, |pool|)
    ensures |picked| <= PickCount && |picked| <= |pool|
    ensures |picked| == PickCount || |picked| == |pool|
    ensures forall i :: 0 <= i < |picked| ==> picked[i] in pool
  {
    var shuffled := seq(|pool|, i requires 0 <= i < |pool| => pool[perm[i]]);
    shuffled[..if |pool| < PickCount then |pool| else PickCount]
  }

  /** Picked tags are distinct whenever the pool is. */
  lemma PickDistinct(pool: seq<string>, perm: seq<nat>)
    requires IsPermutation(perm, |pool|) && Distinct(pool)
    ensures Distinct(PickTags(pool, perm))
  {
    var picked := PickTags(pool, perm);
    forall i, j | 0 <= i < j < |picked| ensures picked[i] != picked[j] {
      assert picked[i] == pool[perm[i]] && picked[j] == pool[perm[j]];
      assert perm[i] != perm[j];
    }
  }

  /**
   * `generateHashtags`: the displayed text. Splitting it at its spaces gives
   * back the picked tags, one piece per tag.
   */
  function GenerateHashtags(input: string, perm: seq<nat>): (text: string)
    requires IsPermutation(perm, |Pool(input)|)
    ensures SplitOn(text, ' ') == PickTags(Pool(input), perm)
  {
    var picked := PickTags(Pool(input), perm);
    PickedHaveNoSpace(input, perm);
    SplitJoin(picked, ' ');
    Join(picked, [' '])
  }

  /** No tag the generator can pick contains a space, and at least one is picked. */
  lemma PickedHaveNoSpace(input: string, perm: seq<nat>)
    requires IsPermutation(perm, |Pool(input)|)
    ensures var picked := PickTags(Pool(input), perm);
      && |picked| >= 1
      && forall i :: 0 <= i < |picked| ==> ' ' !in picked[i]
  {
    var pool := Pool(input);
    var picked := PickTags(pool, perm);
    PoolSpec(input);
    forall i | 0 <= i < |picked| ensures ' ' !in picked[i] {
      PoolTagHasNoSpace(input, picked[i]);
    }
  }

  lemma PoolTagHasNoSpace(input: string, x: string)
    requires x in Pool(input)
    ensures ' ' !in x
  {
    var lower := ToLower(input);
    var m := MatchedTags(lower, |Genres|);
    assert x in BaseTags || x in m || x in Extras;
    FixedTagsHaveNoSpace();
    if x in m {
      MatchedTagsFrom(lower, |Genres|, x);
      GenreTagsHaveNoSpace();
    }
  }

  lemma FixedTagsHaveNoSpace()
    ensures forall x :: x in BaseTags ==> ' ' !in x
    ensures forall x :: x in Extras ==> ' ' !in x
  {
  }

  lemma GenreTagsHaveNoSpace()
    ensures forall g, x :: 0 <= g < |Genres| && x in Genres[g].1 ==> ' ' !in x
  {
    forall g, x | 0 <= g < |Genres| && x in Genres[g].1 ensures ' ' !in x {
      if g == 0 {
      } else if g == 1 {
      } else if g == 2 {
      } else {
      }
    }
  }

  /**
   * The output lists 25 distinct pool tags once at least three genres match
   * (a pool of 26 or 30), and otherwise distinct tags as many as the pool has.
   */
  lemma HashtagCount(input: string, perm: seq<nat>)
    requires IsPermutation(perm, |Pool(input)|)
    ensures var picked := PickTags(Pool(input), perm);
      && Distinct(picked)
      && (MatchCount(ToLower(input), |Genres|) >= 3 <==> |picked| == PickCount)
      && |picked| >= 14
  {
    PoolSpec(input);
    PoolDistinct(input);
    PickDistinct(Pool(input), perm);
  }

  /** A plain description matches no genre; "Dark Trap" matches only trap. */
  lemma PoolExamples()
    ensures |Pool("")| == 14
    ensures Pool("Dark Trap") == BaseTags + Genres[0].1 + Extras
  {
    assert MatchedTags("", |Genres|) == [] by {
      forall g | 0 <= g < |Genres| ensures !Contains("", Genres[g].0) {
      }
    }
    var lower := ToLower("Dark Trap");
    assert lower == "dark trap";
    assert OccursAt(lower, "trap", 5);
    assert !Contains(lower, "lofi") && !Contains(lower, "drill") && !Contains(lower, "r&b") by {
      forall i | 0 <= i <= |lower| - 4 ensures !OccursAt(lower, "lofi", i) {
        assert lower[i..i + 4][0] == lower[i];
      }
      forall i | 0 <= i <= |lower| - 5 ensures !OccursAt(lower, "drill", i) {
        assert lower[i..i + 5][2] == lower[i + 2];
      }
      forall i | 0 <= i <= |lower| - 3 ensures !OccursAt(lower, "r&b", i) {
        assert lower[i..i + 3][1] == lower[i + 1];
      }
    }
  }

  // ---------------------------------------------------------------------
  // YouTube SEO
  // ---------------------------------------------------------------------

  datatype SeoInput = SeoInput(topic: string, artist: string, genre: string)

  datatype SeoOutput = SeoOutput(titles: seq<string>, tags: string, desc: string)

  /** `s || fallback`: an empty field takes the default. */
  function OrDefault(s: string, fallback: string): (r: string)
    ensures s != "" ==> r == s
    ensures s == "" ==> r == fallback
  {
    if s == "" then fallback else s
  }

  const DefaultTopic: string := "Type Beat"
  const DefaultArtist: string := "Unknown Artist"

  /** The five title templates, each as the parts of its template literal. */
  function TitleParts(t: string, a: string, g: string): (ps: seq<seq<string>>)
    ensures |ps| == 5
  {
    [
      ["FREE ", a, " Type Beat - \"", t, "\" | ", g, " Instrumental 2024"],
      ["\"", t, "\" - ", a, " Style Instrumental | Hard ", g, " Beat"],
      ["[FREE] ", a, " x ", g, " Type Beat - ", t],
      ["HARD ", g, " Beat 2024 - \"", t, "\" (", a, " Type Beat)"],
      [g, " Instrumental - \"", t, "\" | Inspired by ", a]
    ]
  }

  function Titles(t: string, a: string, g: string): (ts: seq<string>)
    ensures |ts| == 5
  {
    var ps := TitleParts(t, a, g);
    seq(5, i requires 0 <= i < 5 => Concat(ps[i]))
  }

  function SeoTags(t: string, a: string, g: string): string {
    Concat([a, " type beat, ", g, " beat, free beat, instrumental 2024, ", t, ", ", a,
      " style instrumental, hard beats, beatstars, new music, producer"])
  }

  /** The artist hashtag of the description: the artist with every white-space character removed. */
  function ArtistHashtag(a: string): (h: string)
    ensures |h| >= 1 && h[0] == '#'
    ensures forall i :: 1 <= i < |h| ==> !IsJsWhitespace(h[i])
  {
    "#" + RemoveWhitespace(a)
  }

  /** The description up to its closing hashtag line; it opens with a line break. */
  function DescHead(t: string, a: string, g: string): (h: string)
    ensures |h| >= 2 && h[0] == '\n' && !IsJsWhitespace(h[1])
  {
    ['\n', '\U{1F3B9}'] + " Buy 1 Get 1 FREE: https://[YOUR-STORE-LINK]\n" + Concat([
      "\U{2795} Subscribe for more beats: https://youtube.com/[YOUR-CHANNEL]\n\nTitle: ", t,
      "\nBPM: [BPM]\nKey: [KEY]\n\nIn the style of ", a, ", this ", g,
      " instrumental brings a unique vibe...\n\nSocials:\nIG: @[YOUR-IG]\nTwitter: @[YOUR-TWITTER]\n\n"])
  }

  /** The closing line marks the artist and the "TypeBeat" tag before the genre's tag. */
  function DescMark(a: string): string {
    ArtistHashtag(a) + " #TypeBeat #"
  }

  /** The whole description template, untrimmed; it ends with the genre and an indented line break. */
  function DescTemplate(t: string, a: string, g: string): string {
    DescHead(t, a, g) + DescMark(a) + (g + "\n        ")
  }

  /** `generateSEO`. */
  function GenerateSeo(input: SeoInput): (out: SeoOutput)
    ensures |out.titles| == 5
  {
    var t := OrDefault(input.topic, DefaultTopic);
    var a := OrDefault(input.artist, DefaultArtist);
    SeoOutput(Titles(t, a, input.genre), SeoTags(t, a, input.genre), Trim(DescTemplate(t, a, input.genre)))
  }

  /**
   * Every title names the artist and the topic, with the defaults standing in
   * for empty fields.
   */
  lemma TitlesMention(input: SeoInput)
    ensures var out := GenerateSeo(input);
      var t := OrDefault(input.topic, DefaultTopic);
      var a := OrDefault(input.artist, DefaultArtist);
      forall i :: 0 <= i < 5 ==> Contains(out.titles[i], a) && Contains(out.titles[i], t)
  {
    var t := OrDefault(input.topic, DefaultTopic);
    var a := OrDefault(input.artist, DefaultArtist);
    forall i | 0 <= i < 5 ensures Contains(Titles(t, a, input.genre)[i], a) && Contains(Titles(t, a, input.genre)[i], t) {
      TitleMentions(t, a, input.genre, i);
    }
  }

  lemma TitleMentions(t: string, a: string, g: string, i: nat)
    requires i < 5
    ensures Contains(Titles(t, a, g)[i], a) && Contains(Titles(t, a, g)[i], t)
  {
    var ps := TitleParts(t, a, g)[i];
    var ia := [1, 3, 1, 5, 4][i];
    var it := [3, 1, 5, 3, 2][i];
    assert ps[ia] == a && ps[it] == t;
    ConcatContains(ps, ia);
    ConcatContains(ps, it);
  }

  /** Empty fields take the defaults in the titles, the tag line and the description. */
  lemma SeoDefaults(g: string)
    ensures GenerateSeo(SeoInput("", "", g)) ==
      SeoOutput(Titles("Type Beat", "Unknown Artist", g), SeoTags("Type Beat", "Unknown Artist", g),
        Trim(DescTemplate("Type Beat", "Unknown Artist", g)))
  {
  }

  /**
   * Trimming the description never reaches the closing line's artist and
   * "TypeBeat" tags: the white-space-free artist hashtag is always there.
   */
  lemma DescKeepsHashtags(input: SeoInput)
    ensures var a := OrDefault(input.artist, DefaultArtist);
      Contains(GenerateSeo(input).desc, DescMark(a))
  {
    var t := OrDefault(input.topic, DefaultTopic);
    var a := OrDefault(input.artist, DefaultArtist);
    var g := input.genre;
    var full := DescTemplate(t, a, g);
    assert GenerateSeo(input).desc == Trim(full);
    TemplateTrimStart(t, a, g);
    MarkInBody(t, a, g);
    TrimEndKeepsMark(full[1..], |DescHead(t, a, g)| - 1, DescMark(a));
  }

  /** A mark ending in a visible character survives `trimEnd`. */
  lemma TrimEndKeepsMark(body: string, at: nat, mark: string)
    requires 0 < |mark| && at + |mark| <= |body|
    requires body[at..at + |mark|] == mark && !IsJsWhitespace(mark[|mark| - 1])
    ensures Contains(TrimEnd(body), mark)
  {
    assert body[at + |mark| - 1] == mark[|mark| - 1];
    TrimEndKeeps(body, at + |mark| - 1);
    var trimmed := TrimEnd(body);
    WindowOfPrefix(body, |trimmed|, at, at + |mark|);
    ContainsWitness(trimmed, mark, at);
  }

  /** Only the opening line break is trimmed from the front of the description. */
  lemma TemplateTrimStart(t: string, a: string, g: string)
    ensures TrimStart(DescTemplate(t, a, g)) == DescTemplate(t, a, g)[1..]
  {
    var full := DescTemplate(t, a, g);
    var head := DescHead(t, a, g);
    assert full[0] == '\n' && full[1] == head[1];
    assert TrimStart(full[1..]) == full[1..];
  }

  /** After the opening line break, the closing line's mark follows the head and ends in a '#'. */
  lemma MarkInBody(t: string, a: string, g: string)
    ensures var body := DescTemplate(t, a, g)[1..];
      var at := |DescHead(t, a, g)| - 1;
      var mark := DescMark(a);
      && at + |mark| <= |body|
      && body[at..at + |mark|] == mark
      && body[at + |mark| - 1] == '#'
  {
    var head := DescHead(t, a, g);
    var mark := DescMark(a);
    var full := DescTemplate(t, a, g);
    var at := |head| - 1;
    assert full == head + mark + (g + "\n        ");
    assert full[1..][at..at + |mark|] == full[|head|..|head| + |mark|] == mark;
    assert mark[|mark| - 1] == '#';
  }

  // ---------------------------------------------------------------------
  // Split sheet and price chart
  // ---------------------------------------------------------------------

  datatype Party = Party(name: string, role: string, share: string)

  datatype SplitSheet = SplitSheet(track: string, date: string, parties: seq<Party>)

  const InitialSplit: SplitSheet := SplitSheet("", "", [Party("", "Producer", "50%")])

  /** `addParty`: one blank writer with no share is appended. */
  function AddParty(s: SplitSheet): (r: SplitSheet)
    ensures |r.parties| == |s.parties| + 1
    ensures r.parties[..|s.parties|] == s.parties
    ensures r.parties[|s.parties|] == Party("", "Writer", "0%")
    ensures r.track == s.track && r.date == s.date
  {
    s.(parties := s.parties + [Party("", "Writer", "0%")])
  }

  /** Dropping the last party undoes `addParty`. */
  lemma AddPartyUndone(s: SplitSheet)
    ensures var r := AddParty(s); r.(parties := r.parties[..|r.parties| - 1]) == s
  {
  }

  datatype PriceRow = PriceRow(service: string, price: string, features: string)

  datatype PriceField = Service | Price | Features

  const DefaultPrices: seq<PriceRow> := [
    PriceRow("MP3 Lease", "$29.99", "MP3 File, Non-Exclusive"),
    PriceRow("WAV Lease", "$49.99", "WAV File, High Quality"),
    PriceRow("Trackout", "$99.99", "WAV + Stems, Mix Freedom"),
    PriceRow("Exclusive", "$499.99", "Full Ownership, Unlimited")
  ]

  function FieldOf(r: PriceRow, f: PriceField): string {
    match f
    case Service => r.service
    case Price => r.price
    case Features => r.features
  }

  function SetField(r: PriceRow, f: PriceField, v: string): (n: PriceRow)
    ensures FieldOf(n, f) == v
    ensures forall g :: g != f ==> FieldOf(n, g) == FieldOf(r, g)
  {
    match f
    case Service => r.(service := v)
    case Price => r.(price := v)
    case Features => r.(features := v)
  }

  /** Editing field `f` of row `i` in the chart's side panel. */
  function EditPrice(rows: seq<PriceRow>, i: nat, f: PriceField, v: string): (n: seq<PriceRow>)
    requires i < |rows|
    ensures |n| == |rows|
    ensures FieldOf(n[i], f) == v
    ensures forall g :: g != f ==> FieldOf(n[i], g) == FieldOf(rows[i], g)
    ensures forall j :: 0 <= j < |rows| && j != i ==> n[j] == rows[j]
  {
    rows[i := SetField(rows[i], f, v)]
  }

  /** Typing the old text back restores the chart. */
  lemma EditPriceUndone(rows: seq<PriceRow>, i: nat, f: PriceField, v: string)
    requires i < |rows|
    ensures EditPrice(EditPrice(rows, i, f, v), i, f, FieldOf(rows[i], f)) == rows
  {
    var n := EditPrice(EditPrice(rows, i, f, v), i, f, FieldOf(rows[i], f));
    assert n[i] == rows[i] by {
      match f
      case Service =>
      case Price =>
      case Features =>
    }
  }
}
