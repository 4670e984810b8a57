/**
 * The `characters` spider: a listing page (a wiki's `Category:Characters`
 * page) schedules one detail request per member link plus, when there is
 * one, the next listing page; a detail page becomes a `CharacterItem`
 * through ordered fallback chains and a completeness gate.
 *
 * Selector evaluation is not modelled: a page is the record of what each
 * selector returned (`getall()` gives a sequence, `get()` its first element).
 */
module Spider {

  import opened Wrappers
  import opened Text

  // ---------------------------------------------------------------------
  // Anime label (characters_spider.py:38)
  // ---------------------------------------------------------------------

  /**
   * `tag` is what `.split(".")[0].replace("-", " ")` makes of `rest`, the
   * text after the URL's first "//": the characters of `rest` up to (not
   * including) its first "." or "//", each "-" turned into a space.
   */
  ghost predicate LabelOf(rest: string, tag: string) {
    && |tag| <= |rest|
    && (forall m :: 0 <= m < |tag| ==> rest[m] != '.' && !OccursAt(rest, "//", m))
    && (forall m :: 0 <= m < |tag| ==> tag[m] == (if rest[m] == '-' then ' ' else rest[m]))
    && (|tag| == |rest| || rest[|tag|] == '.' || OccursAt(rest, "//", |tag|))
  }

  /**
   * `response.url.split("//")[1].split(".")[0].replace("-", " ")`; `None`
   * where Python raises `IndexError` because the URL holds no "//".
   */
  function AnimeLabel(url: string): (r: Option<string>)
    ensures r.None? <==> forall j :: !OccursAt(url, "//", j)
    ensures r.Some? ==> LabelOf(url[Find(url, "//").value + 2..], r.value)
    ensures r.Some? ==> '-' !in r.value && '.' !in r.value
  {
    match SplitSecond(url, "//")
    case None => None
    case Some(segment) =>
      var host := SplitHead(segment, ".");
      var tag := ReplaceChar(host, '-', ' ');
      ghost var rest := url[Find(url, "//").value + 2..];
      assert LabelOf(rest, tag) by {
        forall m | 0 <= m < |host| ensures rest[m] != '.' && !OccursAt(rest, "//", m) {
          OccursAtOneChar(segment, '.', m);
          assert segment[m] == rest[m];
        }
        if |host| < |segment| {
          OccursAtOneChar(segment, '.', |host|);
          assert segment[|host|] == rest[|host|];
        }
      }
      assert '-' !in tag && '.' !in tag by {
        forall m | 0 <= m < |tag| ensures tag[m] != '-' && tag[m] != '.' {
          assert rest[m] != '.';
        }
      }
      Some(tag)
  }

  // ---------------------------------------------------------------------
  // Listing state (characters_spider.py:36-56)
  // ---------------------------------------------------------------------

  /** What the listing page's selectors returned. */
  datatype ListingPage = ListingPage(
    url: string,
    memberLinks: seq<string>,   // `a.category-page__member-link::attr(href)`, all matches
    nextLinks: seq<string>)     // `a.category-page__pagination-next::attr(href)`, all matches

  /** A follow-up fetch: a detail page carrying `meta={"anime": ...}`, or another listing page. */
  datatype Request = Detail(link: string, anime: string) | Listing(link: string)

  /**
   * `CharactersSpider.parse`: one detail request per member link, in link
   * order, each carrying the page's anime label, then one listing request
   * exactly when the next-page link is present and non-empty. `None` is
   * the `IndexError` of a URL without "//", raised before anything is
   * yielded.
   */
  method Parse(page: ListingPage) returns (requests: Option<seq<Request>>)
    ensures requests.None? <==> AnimeLabel(page.url).None?
    ensures requests.Some? ==>
      |requests.value| == |page.memberLinks| + (if Truthy(First(page.nextLinks)) then 1 else 0)
    ensures requests.Some? ==> forall i :: 0 <= i < |page.memberLinks| ==>
      requests.value[i] == Detail(page.memberLinks[i], AnimeLabel(page.url).value)
    ensures requests.Some? && Truthy(First(page.nextLinks)) ==>
      requests.value[|page.memberLinks|] == Listing(page.nextLinks[0])
  {
    var tag := AnimeLabel(page.url);
    if tag.None? {
      return None;
    }
    var anime := tag.value;
    var scheduled: seq<Request> := [];
    for i := 0 to |page.memberLinks|
      invariant |scheduled| == i
      invariant forall k :: 0 <= k < i ==> scheduled[k] == Detail(page.memberLinks[k], anime)
    {
      scheduled := scheduled + [Detail(page.memberLinks[i], anime)];
    }
    var nextPage := First(page.nextLinks);
    if Truthy(nextPage) {
      scheduled := scheduled + [Listing(nextPage.value)];
    }
    return Some(scheduled);
  }

  // ---------------------------------------------------------------------
  // Joining text fragments (characters_spider.py:76, 82, 100, 106)
  // ---------------------------------------------------------------------

  /** `[p.strip() for p in parts if p.strip()]` */
  function Fragments(parts: seq<string>): (r: seq<string>)
    ensures |r| <= |parts|
    ensures forall k :: 0 <= k < |r| ==> r[k] != "" && NoEdgeSpace(r[k])
    ensures r == [] <==> forall k :: 0 <= k < |parts| ==> IsBlank(parts[k])
  {
    if parts == [] then []
    else
      var s := Strip(parts[0]);
      var rest := Fragments(parts[1..]);
      assert forall k :: 1 <= k < |parts| ==> parts[k] == parts[1..][k - 1];
      (if s == "" then [] else [s]) + rest
  }

  /** The kept fragments are exactly the non-empty strips of the parts. */
  lemma {:induction false} FragmentsAreStrips(parts: seq<string>)
    ensures forall x :: x in Fragments(parts) <==> x != "" && exists k :: 0 <= k < |parts| && x == Strip(parts[k])
  {
    if parts != [] {
      FragmentsAreStrips(parts[1..]);
      assert forall k :: 1 <= k < |parts| ==> parts[k] == parts[1..][k - 1];
      forall x | x != "" && (exists k :: 0 <= k < |parts| && x == Strip(parts[k]))
        ensures x in Fragments(parts)
      {
        var k :| 0 <= k < |parts| && x == Strip(parts[k]);
        if k > 0 {
          assert x == Strip(parts[1..][k - 1]);
        }
      }
    }
  }

  /** `" ".join(ss)` */
  function JoinSpace(ss: seq<string>): (r: string)
    ensures ss == [] ==> r == ""
    ensures (forall k :: 0 <= k < |ss| ==> ss[k] != "" && NoEdgeSpace(ss[k])) ==>
      (r == "" <==> ss == []) && NoEdgeSpace(r)
  {
    if ss == [] then ""
    else if |ss| == 1 then ss[0]
    else
      var rest := JoinSpace(ss[1..]);
      var r := ss[0] + " " + rest;
      assert ss[0] != "" ==> r[0] == ss[0][0];
      assert rest != [] ==> r[|r| - 1] == rest[|rest| - 1];
      r
  }

  /**
   * `" ".join(p.strip() for p in parts if p.strip())`: empty exactly when
   * every fragment is blank, and never with white space at either end.
   */
  function JoinStripped(parts: seq<string>): (r: string)
    ensures r == "" <==> forall k :: 0 <= k < |parts| ==> IsBlank(parts[k])
    ensures NoEdgeSpace(r)
  {
    JoinSpace(Fragments(parts))
  }

  /** Joining an already joined result again changes nothing. */
  lemma JoinStrippedIdempotent(parts: seq<string>)
    ensures JoinStripped([JoinStripped(parts)]) == JoinStripped(parts)
  {
    var j := JoinStripped(parts);
    StripOfClean(j);
    assert Fragments([j]) == (if j == "" then [] else [j]) + Fragments([j][1..]);
  }

  // ---------------------------------------------------------------------
  // Fallback chains (characters_spider.py:69-108)
  // ---------------------------------------------------------------------

  /**
   * An ordered fallback chain: the first non-empty source wins, each later
   * source matters only when every earlier one is empty, and `default` is
   * the result when all are empty.
   */
  function FirstNonEmpty(sources: seq<string>, default: string): (r: string)
    ensures r == default || r in sources
    ensures default != "" ==> r != ""
    ensures (forall k :: 0 <= k < |sources| ==> sources[k] == "") ==> r == default
    ensures forall k :: 0 <= k < |sources| && sources[k] != "" && (forall j :: 0 <= j < k ==> sources[j] == "") ==>
      r == sources[k]
  {
    if sources == [] then default
    else if sources[0] != "" then sources[0]
    else
      var r := FirstNonEmpty(sources[1..], default);
      assert forall k :: 1 <= k < |sources| ==> sources[k] == sources[1..][k - 1];
      r
  }

  lemma FirstNonEmptyOfTwo(a: string, b: string, default: string)
    ensures FirstNonEmpty([a, b], default) == if a != "" then a else if b != "" then b else default
  {
    assert [a, b][1..] == [b];
  }

  lemma FirstNonEmptyOfThree(a: string, b: string, c: string, default: string)
    ensures FirstNonEmpty([a, b, c], default) == if a != "" then a else FirstNonEmpty([b, c], default)
  {
    assert [a, b, c][1..] == [b, c];
  }

  /** What the detail page's selectors returned. */
  datatype DetailPage = DetailPage(
    url: string,
    metaAnime: Option<string>,        // `response.meta.get("anime")`
    titleTexts: seq<string>,          // `span.mw-page-title-main::text`
    genderInfobox: seq<string>,       // infobox `data-source="gender"` value texts
    genderTable: seq<string>,         // legacy table cell after a bold "Gender"
    statusInfobox: string,            // `normalize-space(string(...))` of the status value
    statusCollapsible: seq<string>,   // collapsible content inside the status value
    statusTable: seq<string>,         // legacy table cell after a bold "Status"
    imageSrcs: seq<string>)           // `figure.pi-item img::attr(src)`

  /** The fields of `crawler.items.CharacterItem`. */
  datatype CharacterItem = CharacterItem(
    name: Option<string>,
    anime: Option<string>,
    characterUrl: string,
    gender: string,
    status: string,
    imageUrl: Option<string>,
    scrapedAt: string)

  /** The two gender sources in the order they are tried (lines 71-82). */
  function GenderSources(page: DetailPage): seq<string> {
    [JoinStripped(page.genderInfobox), JoinStripped(page.genderTable)]
  }

  /**
   * The status chain as the source writes it: the `normalize-space` result
   * is tested before it is stripped (line 94) and stripped only afterwards
   * (line 108). When that first value is non-empty it decides the status,
   * which is then its strip, empty when the value is blank; otherwise the
   * two joined sources are tried in turn and "Unknown" ends the chain.
   */
  function StatusAsWritten(page: DetailPage): (r: string)
    ensures NoEdgeSpace(r)
    ensures page.statusInfobox != "" ==> r == Strip(page.statusInfobox)
    ensures page.statusInfobox == "" ==>
      r == FirstNonEmpty([JoinStripped(page.statusCollapsible), JoinStripped(page.statusTable)], "Unknown")
    ensures r == "" <==> page.statusInfobox != "" && IsBlank(page.statusInfobox)
  {
    var rest := [JoinStripped(page.statusCollapsible), JoinStripped(page.statusTable)];
    var status := if page.statusInfobox != "" then page.statusInfobox else FirstNonEmpty(rest, "");
    FirstNonEmptyOfTwo(rest[0], rest[1], "");
    FirstNonEmptyOfTwo(rest[0], rest[1], "Unknown");
    StripOfClean(rest[0]);
    StripOfClean(rest[1]);
    if status != "" then Strip(status) else "Unknown"
  }

  /**
   * The three status sources of the evidently intended chain, in the order
   * they are tried (lines 88-106), with the first one stripped before it is
   * tested.
   */
  function StatusSources(page: DetailPage): seq<string> {
    [Strip(page.statusInfobox), JoinStripped(page.statusCollapsible), JoinStripped(page.statusTable)]
  }

  /**
   * The status the chain evidently intends: the stripped first source when
   * it is not blank, otherwise the later two tried in turn, and "Unknown"
   * when all are empty; never empty itself.
   */
  function StatusIntended(page: DetailPage): (r: string)
    ensures r != "" && NoEdgeSpace(r)
    ensures !IsBlank(page.statusInfobox) ==> r == Strip(page.statusInfobox)
    ensures IsBlank(page.statusInfobox) ==>
      r == FirstNonEmpty([JoinStripped(page.statusCollapsible), JoinStripped(page.statusTable)], "Unknown")
  {
    var sources := StatusSources(page);
    FirstNonEmptyOfThree(sources[0], sources[1], sources[2], "Unknown");
    FirstNonEmptyOfTwo(sources[1], sources[2], "Unknown");
    FirstNonEmpty(sources, "Unknown")
  }

  /**
   * What XPath 1.0 `normalize-space` can return: no XML white space (space,
   * tab, CR, LF) at either end and never two of it in a row.
   */
  predicate XmlNormalized(s: string) {
    && (s != [] ==> s[0] !in " \t\r\n" && s[|s| - 1] !in " \t\r\n")
    && forall i :: 0 <= i < |s| - 1 ==> !(s[i] in " \t\r\n" && s[i + 1] in " \t\r\n")
  }

  /**
   * A status value holding only a no-break space is a possible
   * `normalize-space` result; it passes the emptiness test of line 94, and
   * line 108 strips it to the empty string, so the item's status is "".
   */
  lemma StatusAsWrittenCanBeEmpty(page: DetailPage)
    requires page.statusInfobox == "\U{A0}"
    ensures XmlNormalized(page.statusInfobox)
    ensures StatusAsWritten(page) == ""
  {
    assert IsBlank(page.statusInfobox);
  }

  /**
   * The written chain and the intended one differ exactly on a non-empty
   * blank first source, and there the written one gives the empty status.
   */
  lemma StatusCorrectionOnlyForBlank(page: DetailPage)
    ensures StatusAsWritten(page) != StatusIntended(page) <==> page.statusInfobox != "" && IsBlank(page.statusInfobox)
    ensures StatusAsWritten(page) != StatusIntended(page) ==> StatusAsWritten(page) == ""
  {
    if page.statusInfobox == "" {
      assert IsBlank(page.statusInfobox);
    }
  }

  // ---------------------------------------------------------------------
  // Completeness gate (characters_spider.py:117-126)
  // ---------------------------------------------------------------------

  /**
   * `sum(1 for f in ["name", "gender", "status"] if not item.get(f))`: the
   * number of those three fields left empty, so 0 exactly when all are set.
   */
  function MissingCount(item: CharacterItem): (n: nat)
    ensures n <= 3
    ensures n == 0 <==> Truthy(item.name) && item.gender != "" && item.status != ""
    ensures Truthy(item.name) && item.gender != "" ==> (n == 1 <==> item.status == "")
  {
    (if Truthy(item.name) then 0 else 1)
    + (if item.gender == "" then 1 else 0)
    + (if item.status == "" then 1 else 0)
  }

  /**
   * `item["name"] and missing_count < 3`: with `name` present at most two
   * fields can be missing, so the gate is the name test alone.
   */
  function Emits(item: CharacterItem): (b: bool)
    ensures b <==> Truthy(item.name)
  {
    Truthy(item.name) && MissingCount(item) < 3
  }

  /**
   * `parse_character`: builds the item field by field, runs the gender and
   * status fallback chains as written and yields the item when the gate
   * lets it pass. Gender is never empty; status is empty only for a
   * non-empty blank `normalize-space` value, so at most one field is
   * missing.
   */
  method ParseCharacter(page: DetailPage, now: string) returns (emitted: Option<CharacterItem>)
    ensures emitted.Some? <==> Truthy(First(page.titleTexts))
    ensures emitted.Some? ==> emitted.value == CharacterItem(
      First(page.titleTexts), page.metaAnime, page.url,
      FirstNonEmpty(GenderSources(page), "Unknown"),
      StatusAsWritten(page),
      First(page.imageSrcs), now)
    ensures emitted.Some? ==> MissingCount(emitted.value) <= 1
    ensures emitted.Some? ==>
      (MissingCount(emitted.value) == 1 <==> page.statusInfobox != "" && IsBlank(page.statusInfobox))
  {
    var name := First(page.titleTexts);

    var gender := JoinStripped(page.genderInfobox);
    if gender == "" {
      gender := JoinStripped(page.genderTable);
    }
    gender := if gender != "" then gender else "Unknown";

    var status := page.statusInfobox;
    if status == "" {
      status := JoinStripped(page.statusCollapsible);
    }
    if status == "" {
      status := JoinStripped(page.statusTable);
    }
    status := if status != "" then Strip(status) else "Unknown";

    assert gender == FirstNonEmpty(GenderSources(page), "Unknown") by {
      FirstNonEmptyOfTwo(JoinStripped(page.genderInfobox), JoinStripped(page.genderTable), "Unknown");
    }
    assert status == StatusAsWritten(page) by {
      FirstNonEmptyOfTwo(JoinStripped(page.statusCollapsible), JoinStripped(page.statusTable), "");
    }
    var item := CharacterItem(name, page.metaAnime, page.url, gender, status, First(page.imageSrcs), now);
    if Emits(item) {
      emitted := Some(item);
    } else {
      emitted := None;
    }
  }
}
