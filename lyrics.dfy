/**
 * The lyrics-corpus builder of utils.py: collecting the song links from the
 * site's lyrics menu, deriving a song title from each link, and turning every
 * page whose lyrics could be scraped into a `Document`.
 *
 * HTTP and HTML parsing are oracles: `readMenu(url)` gives the anchors of the
 * `div#mmenu` of the page at `url` (None when the page has no such div), and
 * `scrape(url)` gives what `scrape_lyrics` returns for a song page.
 */
module Lyrics {
  import opened Wrappers
  import opened PyStr
  import opened Documents

  const BaseUrl := "http://www.passionsjustlikemine.com/"
  const LyricsPageUrl := BaseUrl + "lyrics-smiths.htm"

  /** An `<a>` tag of the menu; `href` is None when the tag has no such attribute. */
  datatype Anchor = Anchor(href: Option<string>)

  /** `[a['href'] for a in menu_div.find_all('a', href=True)]`: the hrefs of the tags that have one. */
  function Hrefs(anchors: seq<Anchor>): (r: seq<string>)
    ensures |r| <= |anchors|
    decreases |anchors|
  {
    if anchors == [] then []
    else
      var init := Hrefs(anchors[..|anchors| - 1]);
      var last := anchors[|anchors| - 1];
      if last.href.Some? then init + [last.href.value] else init
  }

  /** Every href of the menu, and nothing else, is collected. */
  lemma {:induction false} HrefsMembers(anchors: seq<Anchor>, h: string)
    ensures h in Hrefs(anchors) <==> exists k :: 0 <= k < |anchors| && anchors[k].href == Some(h)
    decreases |anchors|
  {
    if anchors != [] {
      var front := anchors[..|anchors| - 1];
      HrefsMembers(front, h);
      if exists k :: 0 <= k < |front| && front[k].href == Some(h) {
        var k :| 0 <= k < |front| && front[k].href == Some(h);
        assert anchors[k] == front[k];
      }
      if exists k :: 0 <= k < |anchors| && anchors[k].href == Some(h) {
        var k :| 0 <= k < |anchors| && anchors[k].href == Some(h);
        if k < |front| {
          assert front[k] == anchors[k];
        }
      }
    }
  }

  /**
   * The hrefs of two runs of anchors are the first run's followed by the
   * second's: order and repeats are kept, and an anchor contributes its href
   * when it has one and nothing otherwise.
   */
  lemma {:induction false} HrefsAppend(a: seq<Anchor>, b: seq<Anchor>)
    ensures Hrefs(a + b) == Hrefs(a) + Hrefs(b)
    ensures |b| == 1 ==> Hrefs(b) == HrefOf(b[0])
    decreases |b|
  {
    if b == [] {
      assert a + b == a;
    } else {
      var front, last := b[..|b| - 1], b[|b| - 1];
      HrefsAppend(a, front);
      assert a + b == (a + front) + [last];
      assert b == front + [last];
      HrefsSnoc(a + front, last);
      HrefsSnoc(front, last);
      if |b| == 1 {
        assert front == [];
      }
    }
  }

  /** What one anchor contributes: its href, or nothing. */
  function HrefOf(anchor: Anchor): seq<string>
  {
    if anchor.href.Some? then [anchor.href.value] else []
  }

  lemma HrefsSnoc(anchors: seq<Anchor>, x: Anchor)
    ensures Hrefs(anchors + [x]) == Hrefs(anchors) + HrefOf(x)
  {
    assert (anchors + [x])[..|anchors|] == anchors;
  }

  /** The song links for a parsed menu: `base_url + href` per href, in anchor order; none without the menu. */
  function SongLinks(menu: Option<seq<Anchor>>): (r: seq<string>)
    ensures menu.None? ==> r == []
    ensures menu.Some? ==> |r| == |Hrefs(menu.value)| <= |menu.value|
    ensures forall k :: 0 <= k < |r| ==> |BaseUrl| <= |r[k]| && r[k][..|BaseUrl|] == BaseUrl
  {
    if menu.None? then []
    else
      var hrefs := Hrefs(menu.value);
      seq(|hrefs|, k requires 0 <= k < |hrefs| => BaseUrl + hrefs[k])
  }

  /** `get_song_links`: read the menu of the lyrics page and prefix each href with the base URL. */
  method GetSongLinks(readMenu: string -> Option<seq<Anchor>>) returns (songLinks: seq<string>)
    ensures readMenu(LyricsPageUrl).None? ==> songLinks == []
    ensures readMenu(LyricsPageUrl).Some? ==>
      var hrefs := Hrefs(readMenu(LyricsPageUrl).value);
      |songLinks| == |hrefs| && forall k :: 0 <= k < |hrefs| ==> songLinks[k] == BaseUrl + hrefs[k]
    ensures songLinks == SongLinks(readMenu(LyricsPageUrl))
  {
    songLinks := [];
    var menuDiv := readMenu(LyricsPageUrl);
    if menuDiv.Some? {
      var hrefs := Hrefs(menuDiv.value);
      for i := 0 to |hrefs|
        invariant |songLinks| == i
        invariant forall k :: 0 <= k < i ==> songLinks[k] == BaseUrl + hrefs[k]
      {
        songLinks := songLinks + [BaseUrl + hrefs[i]];
      }
    }
  }

  // ---------------------------------------------------------------------------
  // Song titles
  // ---------------------------------------------------------------------------

  /**
   * `song_url.split('/')[-1].replace('smiths-', '').replace('.htm', '')
   * .replace('-', ' ').title()`. A title holds no `/` (it comes from the last
   * path segment) and no `-` (every hyphen became a space), and is no longer
   * than that segment.
   */
  function SongName(url: string): (r: string)
    ensures '/' !in r && '-' !in r
    ensures |r| <= |LastPiece(url, '/')|
  {
    var segment := LastPiece(url, '/');
    var s1 := Replace(segment, "smiths-", "");
    var s2 := Replace(s1, ".htm", "");
    var s3 := Replace(s2, "-", " ");
    ReplaceCharacters(segment, "smiths-", "");
    ReplaceCharacters(s1, ".htm", "");
    assert "-" == ['-'] && " " == [' '];
    ReplaceCharPointwise(s2, '-', ' ');
    assert forall i :: 0 <= i < |s3| ==> s3[i] != '/' && s3[i] != '-' by {
      forall i | 0 <= i < |s3|
        ensures s3[i] != '/' && s3[i] != '-'
      {
        assert s3[i] in s2 || s3[i] == ' ';
      }
    }
    TitlePointwise(s3);
    Title(s3)
  }

  /**
   * For every song page `smiths-<slug>.htm`: the `smiths-` prefix and the
   * `.htm` extension are removed, then each hyphen of the slug becomes a space
   * before title-casing. The slug holds no `/` (it is the last path segment),
   * no `.` (the extension is the only dot) and no further `smiths-`.
   */
  lemma SongNameOfPage(slug: string)
    requires '/' !in slug && '.' !in slug && NoOccurrence(slug, "smiths-")
    ensures SongName(BaseUrl + "smiths-" + slug + ".htm") == Title(Replace(slug, "-", " "))
  {
    var url := BaseUrl + "smiths-" + slug + ".htm";
    PageSegment(slug);
    DropsPrefix(slug);
    DropsExtension(slug);
    assert LastPiece(url, '/') == "smiths-" + slug + ".htm";
  }

  /** The last path segment of a song URL is the page name. */
  lemma PageSegment(slug: string)
    requires '/' !in slug
    ensures LastPiece(BaseUrl + "smiths-" + slug + ".htm", '/') == "smiths-" + slug + ".htm"
  {
    var page := "smiths-" + slug + ".htm";
    assert BaseUrl + "smiths-" + slug + ".htm" == BaseUrl[..|BaseUrl| - 1] + ['/'] + page;
    assert '/' !in page by {
      assert forall x :: x in page ==> x in "smiths-" || x in slug || x in ".htm";
    }
    LastPieceAfter(BaseUrl[..|BaseUrl| - 1], page, '/');
  }

  /** `.replace('smiths-', '')` removes the leading prefix, the only occurrence. */
  lemma DropsPrefix(slug: string)
    requires '.' !in slug && NoOccurrence(slug, "smiths-")
    ensures Replace("smiths-" + slug + ".htm", "smiths-", "") == slug + ".htm"
  {
    var rest := slug + ".htm";
    assert "smiths-" + slug + ".htm" == "smiths-" + rest;
    ReplaceHit(rest, "smiths-", "");
    assert ".htm"[0] !in "smiths-";
    NoOccurrenceAppend(slug, ".htm", "smiths-");
    ReplaceAbsent(rest, "smiths-", "");
    assert "" + rest == rest;
  }

  /** `.replace('.htm', '')` removes the extension, the only dot. */
  lemma DropsExtension(slug: string)
    requires '.' !in slug
    ensures Replace(slug + ".htm", ".htm", "") == slug
  {
    var ext := ".htm";
    assert ext[0] == '.';
    assert ext + "" == ext;
    ReplaceHit("", ext, "");
    ReplaceSkip(slug, ext, ext, "");
    assert slug + "" == slug;
  }

  /** The page of "How Soon Is Now" yields the title "How Soon Is Now". */
  lemma SongNameExample(url: string)
    requires url == BaseUrl + "smiths-how-soon-is-now.htm"
    ensures SongName(url) == "How Soon Is Now"
  {
    var page := "smiths-how-soon-is-now.htm";
    assert url == BaseUrl[..|BaseUrl| - 1] + ['/'] + page;
    LastPieceAfter(BaseUrl[..|BaseUrl| - 1], page, '/');
    ExampleDropsPrefix(page);
    ExampleDropsExtension("how-soon-is-now.htm");
    ExampleSpacesHyphens("how-soon-is-now");
    ExampleTitle("how soon is now");
  }

  lemma ExampleDropsPrefix(page: string)
    requires page == "smiths-how-soon-is-now.htm"
    ensures Replace(page, "smiths-", "") == "how-soon-is-now.htm"
  {
    var rest := "how-soon-is-now.htm";
    assert page == "smiths-" + rest;
    ReplaceHit(rest, "smiths-", "");
    ExampleKeepsRest(rest);
  }

  lemma ExampleKeepsRest(rest: string)
    requires rest == "how-soon-is-now.htm"
    ensures Replace(rest, "smiths-", "") == rest
  {
    ReplaceNoPair(rest, "smiths-", "");
  }

  lemma ExampleDropsExtension(s: string)
    requires s == "how-soon-is-now.htm"
    ensures Replace(s, ".htm", "") == "how-soon-is-now"
  {
    var p := ".htm";
    assert p[0] == '.';
    assert p + "" == p;
    ReplaceHit("", p, "");
    ReplaceSkip("how-soon-is-now", p, p, "");
    assert s == "how-soon-is-now" + p;
  }

  lemma ExampleSpacesHyphens(s: string)
    requires s == "how-soon-is-now"
    ensures Replace(s, "-", " ") == "how soon is now"
  {
    assert "-" == ['-'] && " " == [' '];
    ReplaceCharPointwise(s, '-', ' ');
  }

  lemma ExampleTitle(s: string)
    requires s == "how soon is now"
    ensures Title(s) == "How Soon Is Now"
  {
    TitlePointwise(s);
    var r := Title(s);
    assert r[0] == TitleCharAt(s, 0) == 'H';
    assert r[1] == TitleCharAt(s, 1) == 'o';
    assert r[2] == TitleCharAt(s, 2) == 'w';
    assert r[3] == TitleCharAt(s, 3) == ' ';
    assert r[4] == TitleCharAt(s, 4) == 'S';
    assert r[5] == TitleCharAt(s, 5) == 'o';
    assert r[6] == TitleCharAt(s, 6) == 'o';
    assert r[7] == TitleCharAt(s, 7) == 'n';
    assert r[8] == TitleCharAt(s, 8) == ' ';
    assert r[9] == TitleCharAt(s, 9) == 'I';
    assert r[10] == TitleCharAt(s, 10) == 's';
    assert r[11] == TitleCharAt(s, 11) == ' ';
    assert r[12] == TitleCharAt(s, 12) == 'N';
    assert r[13] == TitleCharAt(s, 13) == 'o';
    assert r[14] == TitleCharAt(s, 14) == 'w';
  }

  // ---------------------------------------------------------------------------
  // Building the documents
  // ---------------------------------------------------------------------------

  /** `if lyrics:` on what `scrape_lyrics` returned: some text, and not the empty string. */
  predicate HasLyrics(lyrics: Option<string>)
    ensures HasLyrics(lyrics) <==> lyrics != None && lyrics != Some("")
  {
    lyrics.Some? && lyrics.value != ""
  }

  /** The document for one song page. */
  function SongDocument(url: string, lyrics: string): (r: Document)
    ensures r.pageContent == lyrics
    ensures r.metadata.Keys == {"song_name", "url"}
    ensures r.metadata["url"] == url && r.metadata["song_name"] == SongName(url)
  {
    Document(lyrics, map["song_name" := SongName(url), "url" := url])
  }

  /**
   * The positions of the links whose scrape produced lyrics, strictly
   * increasing.
   */
  function KeptIndices(links: seq<string>, scrape: string -> Option<string>): (r: seq<nat>)
    ensures |r| <= |links|
    ensures forall k :: 0 <= k < |r| ==> r[k] < |links| && HasLyrics(scrape(links[r[k]]))
    ensures forall k, m :: 0 <= k < m < |r| ==> r[k] < r[m]
    decreases |links|
  {
    if links == [] then []
    else
      var front := links[..|links| - 1];
      var init := KeptIndices(front, scrape);
      assert forall k :: 0 <= k < |init| ==> links[init[k]] == front[init[k]];
      if HasLyrics(scrape(links[|links| - 1])) then init + [|links| - 1] else init
  }

  /** Every position whose scrape produced lyrics is kept. */
  lemma {:induction false} KeptIndicesComplete(links: seq<string>, scrape: string -> Option<string>, i: nat)
    requires i < |links| && HasLyrics(scrape(links[i]))
    ensures i in KeptIndices(links, scrape)
    decreases |links|
  {
    var front := links[..|links| - 1];
    if i < |front| {
      assert front[i] == links[i];
      KeptIndicesComplete(front, scrape, i);
    }
  }

  /** The documents built link by link: the previous ones, then this link's document when it has lyrics. */
  function SongDocuments(links: seq<string>, scrape: string -> Option<string>): (r: seq<Document>)
    ensures |r| <= |links|
    decreases |links|
  {
    if links == [] then []
    else
      var url := links[|links| - 1];
      var init := SongDocuments(links[..|links| - 1], scrape);
      if HasLyrics(scrape(url)) then init + [SongDocument(url, scrape(url).value)] else init
  }

  /**
   * The documents built link by link are exactly the documents of the kept
   * positions, in order.
   */
  lemma {:induction false} SongDocumentsAreKept(links: seq<string>, scrape: string -> Option<string>)
    ensures var kept := KeptIndices(links, scrape);
            var docs := SongDocuments(links, scrape);
            && |docs| == |kept|
            && forall k :: 0 <= k < |kept| ==> docs[k] == SongDocument(links[kept[k]], scrape(links[kept[k]]).value)
    decreases |links|
  {
    if links != [] {
      var last := |links| - 1;
      var front, url := links[..last], links[last];
      SongDocumentsAreKept(front, scrape);
      var init, docs := KeptIndices(front, scrape), SongDocuments(front, scrape);
      var kept, all := KeptIndices(links, scrape), SongDocuments(links, scrape);
      var extra := if HasLyrics(scrape(url)) then [last] else [];
      assert kept == init + extra;
      assert all == docs + if HasLyrics(scrape(url)) then [SongDocument(url, scrape(url).value)] else [];
      forall k | 0 <= k < |kept|
        ensures all[k] == SongDocument(links[kept[k]], scrape(links[kept[k]]).value)
      {
        if k < |init| {
          assert kept[k] == init[k] && all[k] == docs[k];
          assert links[init[k]] == front[init[k]];
        }
      }
    }
  }

  /**
   * `scrape_lyrics_to_langchain_documents`: one document per song link whose
   * scrape produced lyrics, in link order, holding those lyrics, the link and
   * the title derived from it.
   */
  method ScrapeLyricsToDocuments(readMenu: string -> Option<seq<Anchor>>, scrape: string -> Option<string>)
    returns (documents: seq<Document>)
    ensures var links := SongLinks(readMenu(LyricsPageUrl));
            var kept := KeptIndices(links, scrape);
            && |documents| == |kept| <= |links|
            && forall k :: 0 <= k < |kept| ==>
                 documents[k] == SongDocument(links[kept[k]], scrape(links[kept[k]]).value)
  {
    var songLinks := GetSongLinks(readMenu);
    documents := [];
    for i := 0 to |songLinks|
      invariant documents == SongDocuments(songLinks[..i], scrape)
    {
      var songUrl := songLinks[i];
      var lyrics := scrape(songUrl);
      assert songLinks[..i + 1][..i] == songLinks[..i];
      if lyrics.Some? && lyrics.value != "" {
        documents := documents + [SongDocument(songUrl, lyrics.value)];
      }
    }
    assert songLinks[..|songLinks|] == songLinks;
    SongDocumentsAreKept(songLinks, scrape);
  }
}
