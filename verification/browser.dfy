/** The researcher's browsing step (gpt_researcher/skills/browser.py): scraped pages are
    recorded, and at most two new images are picked, greedily and without repeats, from
    those the scrape found. */
module Browser {
  import opened Json

  /** An image the scraper reports; only its 'url' is read. */
  datatype Image = Image(url: string)

  /** The researcher agent's record of what it has gathered. Its class is not part of this
      model: its `add_research_*` methods are taken to append. */
  class Researcher {
    const verbose: bool
    var sources: seq<Json>
    var images: seq<string>

    constructor (verbose: bool, sources: seq<Json>, images: seq<string>)
      ensures this.verbose == verbose && this.sources == sources && this.images == images
    {
      this.verbose := verbose;
      this.sources := sources;
      this.images := images;
    }

    method AddResearchSources(content: seq<Json>)
      modifies this
      ensures sources == old(sources) + content && images == old(images)
    {
      sources := sources + content;
    }

    method AddResearchImages(added: seq<string>)
      modifies this
      ensures images == old(images) + added && sources == old(sources)
    {
      images := images + added;
    }
  }

  // ---------------------------------------------------------------- the selection rule

  /** The urls of `images`, in order. */
  function Urls(images: seq<Image>): (r: seq<string>)
    ensures |r| == |images|
    ensures forall i :: 0 <= i < |images| ==> r[i] == images[i].url
  {
    if images == [] then [] else [images[0].url] + Urls(images[1..])
  }

  /** What the loop of `select_top_images` returns when it has already picked `chosen`
      and `images` remain: a url is taken when it was neither picked before nor is among
      the `current` research images (md5 digests compared as the urls they come from), and
      the loop stops right after the pick that makes `k`. */
  function Pick(images: seq<Image>, current: seq<string>, k: int, chosen: seq<string>): seq<string>
    decreases |images|
  {
    if images == [] then chosen
    else
      var u := images[0].url;
      if u !in chosen && u !in current then
        var next := chosen + [u];
        if |next| == k then next else Pick(images[1..], current, k, next)
      else Pick(images[1..], current, k, chosen)
  }

  /** `select_top_images(images, k)` against the current research images. */
  function Select(images: seq<Image>, current: seq<string>, k: int): seq<string>
  {
    Pick(images, current, k, [])
  }

  /** The reference the selection is measured against: the scraped urls that are not in
      `seen`, each once, in the order they first appear. */
  function FreshUrls(images: seq<Image>, seen: seq<string>): seq<string>
    decreases |images|
  {
    if images == [] then []
    else if images[0].url in seen then FreshUrls(images[1..], seen)
    else [images[0].url] + FreshUrls(images[1..], seen + [images[0].url])
  }

  /** The first `n` of `s`, or all of `s` when `n <= 0` or `s` is shorter. */
  function Limit(s: seq<string>, n: int): seq<string>
  {
    if 1 <= n <= |s| then s[..n] else s
  }

  /** The loop appends to `chosen` exactly the first `k - |chosen|` fresh urls, or all of
      them when that is not positive (the length test then never succeeds). */
  lemma {:induction false} PickTakesFirst(images: seq<Image>, current: seq<string>, k: int, chosen: seq<string>)
    ensures Pick(images, current, k, chosen) == chosen + Limit(FreshUrls(images, current + chosen), k - |chosen|)
    decreases |images|
  {
    if images == [] {
      assert chosen + [] == chosen;
    } else {
      var u := images[0].url;
      if u !in chosen && u !in current {
        var next := chosen + [u];
        assert current + chosen + [u] == current + next;
        var d := FreshUrls(images[1..], current + next);
        assert FreshUrls(images, current + chosen) == [u] + d;
        if |next| == k {
          assert Limit([u] + d, 1) == [u];
        } else {
          PickTakesFirst(images[1..], current, k, next);
          var n := k - |chosen|;
          if 1 <= n <= |d| + 1 {
            assert ([u] + d)[..n] == [u] + d[..n - 1];
          }
          assert chosen + ([u] + Limit(d, n - 1)) == next + Limit(d, n - 1);
        }
      } else {
        assert u in current + chosen;
        PickTakesFirst(images[1..], current, k, chosen);
      }
    }
  }

  predicate NoDuplicates(s: seq<string>)
  {
    forall i, j :: 0 <= i < j < |s| ==> s[i] != s[j]
  }

  predicate Disjoint(s: seq<string>, current: seq<string>)
  {
    forall i :: 0 <= i < |s| ==> s[i] !in current
  }

  /** `xs` is `ys` with some elements left out, order kept. */
  predicate IsSubsequence(xs: seq<string>, ys: seq<string>)
    decreases |ys|
  {
    xs == [] || (ys != [] && ((xs[0] == ys[0] && IsSubsequence(xs[1..], ys[1..])) || IsSubsequence(xs, ys[1..])))
  }

  /** The loop only ever appends to what it has picked, and what it appends is drawn from
      the scraped urls in their order. */
  lemma {:induction false} PickExtends(images: seq<Image>, current: seq<string>, k: int, chosen: seq<string>)
    ensures var r := Pick(images, current, k, chosen);
      |chosen| <= |r| && r[..|chosen|] == chosen && IsSubsequence(r[|chosen|..], Urls(images))
    decreases |images|
  {
    if images != [] {
      var u := images[0].url;
      var urls := Urls(images);
      assert urls[0] == u && urls[1..] == Urls(images[1..]);
      if u !in chosen && u !in current {
        var next := chosen + [u];
        if |next| != k {
          PickExtends(images[1..], current, k, next);
          var r := Pick(images[1..], current, k, next);
          assert r[..|chosen|] == next[..|chosen|] == chosen;
          assert r[|chosen|..][0] == u && r[|chosen|..][1..] == r[|next|..];
        } else {
          assert next[|chosen|..] == [u];
          assert next[|chosen|..][1..] == [];
        }
      } else {
        PickExtends(images[1..], current, k, chosen);
      }
    }
  }

  /** Picking keeps the picked urls free of repeats and of current research images. */
  lemma {:induction false} PickFresh(images: seq<Image>, current: seq<string>, k: int, chosen: seq<string>)
    requires NoDuplicates(chosen) && Disjoint(chosen, current)
    ensures NoDuplicates(Pick(images, current, k, chosen)) && Disjoint(Pick(images, current, k, chosen), current)
    decreases |images|
  {
    if images != [] {
      var u := images[0].url;
      if u !in chosen && u !in current {
        var next := chosen + [u];
        assert NoDuplicates(next) by {
          forall i, j | 0 <= i < j < |next|
            ensures next[i] != next[j]
          {
            if j == |chosen| {
              assert next[i] == chosen[i];
            }
          }
        }
        if |next| != k {
          PickFresh(images[1..], current, k, next);
        }
      } else {
        PickFresh(images[1..], current, k, chosen);
      }
    }
  }

  /** Starting below `k`, the loop never picks more than `k`. */
  lemma {:induction false} PickBound(images: seq<Image>, current: seq<string>, k: int, chosen: seq<string>)
    requires |chosen| < k
    ensures |Pick(images, current, k, chosen)| <= k
    decreases |images|
  {
    if images != [] {
      var u := images[0].url;
      if u !in chosen && u !in current {
        if |chosen + [u]| != k {
          PickBound(images[1..], current, k, chosen + [u]);
        }
      } else {
        PickBound(images[1..], current, k, chosen);
      }
    }
  }

  /** When the loop ends without reaching `k` picks (always so for `k <= 0`, since the
      length test only runs after a pick), every scraped url was picked or is already a
      research image. */
  lemma {:induction false} PickMaximal(images: seq<Image>, current: seq<string>, k: int, chosen: seq<string>)
    requires k <= |chosen| || |Pick(images, current, k, chosen)| < k
    ensures forall j :: 0 <= j < |images| ==>
              images[j].url in Pick(images, current, k, chosen) || images[j].url in current
    decreases |images|
  {
    if images != [] {
      var u := images[0].url;
      PickExtends(images, current, k, chosen);
      var r := Pick(images, current, k, chosen);
      if u !in chosen && u !in current {
        var next := chosen + [u];
        assert |next| != k;
        PickMaximal(images[1..], current, k, next);
        PickExtends(images[1..], current, k, next);
        assert r[|chosen|] == u;
      } else {
        PickMaximal(images[1..], current, k, chosen);
        if u in chosen {
          assert r[..|chosen|] == chosen;
        }
      }
      forall j | 0 <= j < |images|
        ensures images[j].url in r || images[j].url in current
      {
        if j > 0 {
          assert images[j] == images[1..][j - 1];
        }
      }
    }
  }

  /** `select_top_images(images, k)`: the first `k` fresh urls (all of them for `k <= 0`);
      no url twice, none already among the research images, drawn in order from the
      scraped urls; at most `k` of them for `k >= 1`; and when fewer than `k` are returned
      (or `k <= 0`), every scraped url is returned or is already a research image. */
  lemma SelectProperties(images: seq<Image>, current: seq<string>, k: int)
    ensures var r := Select(images, current, k);
      && r == Limit(FreshUrls(images, current), k)
      && NoDuplicates(r) && Disjoint(r, current)
      && IsSubsequence(r, Urls(images))
      && (k >= 1 ==> |r| <= k)
      && (k <= 0 || |r| < k ==> forall j :: 0 <= j < |images| ==> images[j].url in r || images[j].url in current)
  {
    var r := Select(images, current, k);
    PickTakesFirst(images, current, k, []);
    assert current + [] == current && [] + Limit(FreshUrls(images, current), k) == Limit(FreshUrls(images, current), k);
    PickExtends(images, current, k, []);
    assert r[0..] == r;
    PickFresh(images, current, k, []);
    if k >= 1 {
      PickBound(images, current, k, []);
    }
    if k <= 0 || |r| < k {
      PickMaximal(images, current, k, []);
    }
  }

  /** Adding the selection to research images that hold no repeats keeps them so. */
  lemma SelectionKeepsImagesUnique(images: seq<Image>, current: seq<string>, k: int)
    requires NoDuplicates(current)
    ensures NoDuplicates(current + Select(images, current, k))
  {
    var r := Select(images, current, k);
    SelectProperties(images, current, k);
    var all := current + r;
    forall i, j | 0 <= i < j < |all|
      ensures all[i] != all[j]
    {
      if j >= |current| {
        assert all[j] == r[j - |current|];
        if i < |current| {
          assert all[i] in current;
        } else {
          assert all[i] == r[i - |current|];
        }
      }
    }
  }

  // ---------------------------------------------------------------- the browser manager

  /** A `stream_output("logs", name, message, websocket, ...)` call of `browse_urls`: the
      output's name, the numbers its message reports, in order, and the image urls sent
      along with it (only "scraping_images" sends any). The message text is not modelled. */
  datatype ScrapeLog = ScrapeLog(name: string, counts: seq<int>, images: seq<string>)

  /** The outputs a verbose `browse_urls` streams, given the urls it was asked for, the
      pages and images the scrape found and the images it selected; none when the
      researcher is not verbose. */
  function BrowseLogs(verbose: bool, urls: seq<string>, content: seq<Json>, found: seq<Image>,
                      selected: seq<string>): seq<ScrapeLog>
  {
    if !verbose then []
    else
      [ScrapeLog("scraping_urls", [|urls|], []),
       ScrapeLog("scraping_content", [|content|], []),
       ScrapeLog("scraping_images", [|selected|, |found|], selected),
       ScrapeLog("scraping_complete", [], [])]
  }

  /** A verbose browse streams exactly one output carrying images, and the images it
      carries are exactly those added to the researcher: at most two, out of all found. */
  lemma ImagesLogCarriesSelection(verbose: bool, urls: seq<string>, content: seq<Json>, found: seq<Image>,
                                  current: seq<string>)
    ensures var selected := Select(found, current, 2);
      var logs := BrowseLogs(verbose, urls, content, found, selected);
      && (!verbose ==> logs == [])
      && (verbose ==> |logs| == 4 && logs[0].counts == [|urls|] && logs[1].counts == [|content|])
      && (forall i :: 0 <= i < |logs| && logs[i].images != [] ==> logs[i].name == "scraping_images")
      && (verbose ==> logs[2].images == selected && logs[2].counts == [|selected|, |found|]
                      && |selected| <= 2 && |selected| <= |found|)
  {
    var selected := Select(found, current, 2);
    SelectProperties(found, current, 2);
    SubsequenceLength(selected, Urls(found));
  }

  lemma {:induction false} SubsequenceLength(xs: seq<string>, ys: seq<string>)
    requires IsSubsequence(xs, ys)
    ensures |xs| <= |ys|
    decreases |ys|
  {
    if xs != [] {
      if xs[0] == ys[0] && IsSubsequence(xs[1..], ys[1..]) {
        SubsequenceLength(xs[1..], ys[1..]);
      } else {
        SubsequenceLength(xs, ys[1..]);
      }
    }
  }

  class BrowserManager {
    const researcher: Researcher

    constructor (researcher: Researcher)
      ensures this.researcher == researcher
    {
      this.researcher := researcher;
    }

    /** `select_top_images(images, k)`: one pass that stops as soon as `k` are picked. */
    method SelectTopImages(images: seq<Image>, k: int) returns (unique: seq<string>)
      ensures unique == Select(images, researcher.images, k)
    {
      unique := [];
      var hashes: set<string> := {};
      var current := researcher.images;
      var i := 0;
      while i < |images|
        invariant 0 <= i <= |images|
        invariant hashes == set x | x in unique
        invariant Select(images, current, k) == Pick(images[i..], current, k, unique)
      {
        var url := images[i].url;
        assert images[i..][1..] == images[i + 1..];
        if url !in hashes && url !in current {
          hashes := hashes + {url};
          unique := unique + [url];
          if |unique| == k {
            break;
          }
        }
        i := i + 1;
      }
    }

    /** `browse_urls(urls)`, the scraper given: the scraped pages are added to the
        researcher's sources, and the top two new images to its images; a verbose
        researcher streams the four progress outputs. */
    method BrowseUrls(urls: seq<string>, scrape: seq<string> -> (seq<Json>, seq<Image>))
      returns (content: seq<Json>, logs: seq<ScrapeLog>)
      modifies researcher
      ensures content == scrape(urls).0
      ensures researcher.sources == old(researcher.sources) + content
      ensures researcher.images == old(researcher.images) + Select(scrape(urls).1, old(researcher.images), 2)
      ensures logs == BrowseLogs(researcher.verbose, urls, content, scrape(urls).1,
                                 Select(scrape(urls).1, old(researcher.images), 2))
    {
      logs := [];
      if researcher.verbose {
        logs := logs + [ScrapeLog("scraping_urls", [|urls|], [])];
      }
      var (scraped, images) := scrape(urls);
      researcher.AddResearchSources(scraped);
      var newImages := SelectTopImages(images, 2);
      researcher.AddResearchImages(newImages);
      if researcher.verbose {
        logs := logs + [ScrapeLog("scraping_content", [|scraped|], []),
                        ScrapeLog("scraping_images", [|newImages|, |images|], newImages),
                        ScrapeLog("scraping_complete", [], [])];
      }
      content := scraped;
    }
  }
}
