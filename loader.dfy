/**
 * `import_json`: the crawl's JSON array is folded into the `characters`
 * table, keyed by the unique `character_url`. Items without a name or a
 * URL are skipped; every other item is upserted (`INSERT ... ON CONFLICT
 * (character_url) DO UPDATE`), and the number of upserts is counted.
 *
 * The table is a map from `character_url` to the rest of the row, so it
 * can hold at most one row per URL, as the UNIQUE constraint demands. The
 * ISO-8601 parser (`datetime.fromisoformat`) is a parameter: `None` stands
 * for the exception it raises on text it cannot read.
 */
module Loader {

  import opened Wrappers
  import Spider

  /** What `datetime.fromisoformat` returns; the model never looks inside. */
  datatype DateTime = DateTime(year: int, month: int, day: int, hour: int, minute: int, second: int, microsecond: int)

  /** One object of the JSON array, as `it.get(...)` reads it (`None` for a missing key or `null`). */
  datatype JsonItem = JsonItem(
    name: Option<string>,
    anime: Option<string>,
    fandom: Option<string>,
    characterUrl: Option<string>,
    gender: Option<string>,
    status: Option<string>,
    imageUrl: Option<string>,
    scrapedAt: Option<string>)

  /** A row of `characters` without its key `character_url` (and without the serial `id`). */
  datatype Row = Row(
    name: string,
    anime: Option<string>,
    fandom: Option<string>,
    gender: Option<string>,
    status: Option<string>,
    imageUrl: Option<string>,
    scrapedAt: Option<DateTime>)

  type Table = map<string, Row>

  /**
   * `parse_dt`: no value for a missing or empty string, the parser's result
   * otherwise, and no value when the parser fails; it never raises.
   */
  function ParseDt(s: Option<string>, fromIso: string -> Option<DateTime>): (r: Option<DateTime>)
    ensures !Truthy(s) ==> r.None?
    ensures Truthy(s) ==> r == fromIso(s.value)
    ensures r.Some? ==> Truthy(s) && fromIso(s.value) == r
  {
    if !Truthy(s) then None else fromIso(s.value)
  }

  /** The test of line 93, negated: the item has a non-empty name and URL. */
  predicate Accepted(it: JsonItem) {
    Truthy(it.name) && Truthy(it.characterUrl)
  }

  /** The values bound to the upsert's parameters (lines 96-105), key aside. */
  function RowOf(it: JsonItem, fromIso: string -> Option<DateTime>): Row
    requires Accepted(it)
  {
    Row(it.name.value, it.anime, it.fandom, it.gender, it.status, it.imageUrl, ParseDt(it.scrapedAt, fromIso))
  }

  /** One pass of the loop body (lines 92-106) on the table. */
  function Step(t: Table, it: JsonItem, fromIso: string -> Option<DateTime>): Table {
    if Accepted(it) then t[it.characterUrl.value := RowOf(it, fromIso)] else t
  }

  /**
   * The table after the loop has run over `items`, starting from `t`: no
   * row is ever deleted.
   */
  function ApplyAll(t: Table, items: seq<JsonItem>, fromIso: string -> Option<DateTime>): (r: Table)
    ensures t.Keys <= r.Keys
  {
    if items == [] then t
    else Step(ApplyAll(t, items[..|items| - 1], fromIso), items[|items| - 1], fromIso)
  }

  /**
   * At most one row is added per accepted item, and a list with no
   * accepted item leaves the table as it was.
   */
  lemma {:induction false} ImportGrowth(t: Table, items: seq<JsonItem>, fromIso: string -> Option<DateTime>)
    ensures |ApplyAll(t, items, fromIso)| <= |t| + CountAccepted(items)
    ensures CountAccepted(items) == 0 ==> ApplyAll(t, items, fromIso) == t
  {
    if items != [] {
      var before := ApplyAll(t, items[..|items| - 1], fromIso);
      var it := items[|items| - 1];
      ImportGrowth(t, items[..|items| - 1], fromIso);
      if Accepted(it) {
        assert before[it.characterUrl.value := RowOf(it, fromIso)].Keys == before.Keys + {it.characterUrl.value};
      }
    }
  }

  /**
   * The final `count`: the number of accepted items, repeated URLs
   * included; 0 exactly when no item is accepted.
   */
  function CountAccepted(items: seq<JsonItem>): (n: nat)
    ensures n <= |items|
    ensures n == 0 <==> forall i :: 0 <= i < |items| ==> !Accepted(items[i])
    ensures n == |items| <==> forall i :: 0 <= i < |items| ==> Accepted(items[i])
  {
    if items == [] then 0
    else
      var init := items[..|items| - 1];
      assert forall i :: 0 <= i < |init| ==> init[i] == items[i];
      CountAccepted(init) + (if Accepted(items[|items| - 1]) then 1 else 0)
  }

  /** The URLs of the accepted items. */
  function AcceptedUrls(items: seq<JsonItem>): set<string> {
    set i | 0 <= i < |items| && Accepted(items[i]) :: items[i].characterUrl.value
  }

  lemma AcceptedUrlsSnoc(items: seq<JsonItem>)
    requires items != []
    ensures var it := items[|items| - 1];
      AcceptedUrls(items) == AcceptedUrls(items[..|items| - 1]) + (if Accepted(it) then {it.characterUrl.value} else {})
  {
    var init := items[..|items| - 1];
    forall u | u in AcceptedUrls(init) ensures u in AcceptedUrls(items) {
      var i :| 0 <= i < |init| && Accepted(init[i]) && init[i].characterUrl.value == u;
      assert items[i] == init[i];
    }
  }

  /** The table's keys afterwards: the old ones and the accepted URLs, nothing else. */
  lemma {:induction false} ImportKeys(t: Table, items: seq<JsonItem>, fromIso: string -> Option<DateTime>)
    ensures ApplyAll(t, items, fromIso).Keys == t.Keys + AcceptedUrls(items)
  {
    if items != [] {
      ImportKeys(t, items[..|items| - 1], fromIso);
      AcceptedUrlsSnoc(items);
    }
  }

  /** A row whose URL no accepted item carries is left as it was. */
  lemma {:induction false} ImportLeavesOthers(t: Table, items: seq<JsonItem>, fromIso: string -> Option<DateTime>, url: string)
    requires url !in AcceptedUrls(items)
    ensures url in ApplyAll(t, items, fromIso) <==> url in t
    ensures url in t ==> ApplyAll(t, items, fromIso)[url] == t[url]
  {
    if items != [] {
      AcceptedUrlsSnoc(items);
      ImportLeavesOthers(t, items[..|items| - 1], fromIso, url);
    }
  }

  /**
   * Last write wins: the row of an accepted item's URL holds that item's
   * values, column by column, when no later accepted item has the same URL.
   */
  lemma {:induction false} ImportLastWriteWins(t: Table, items: seq<JsonItem>, fromIso: string -> Option<DateTime>, i: nat)
    requires i < |items| && Accepted(items[i])
    requires forall j :: i < j < |items| && Accepted(items[j]) ==> items[j].characterUrl != items[i].characterUrl
    ensures var it := items[i]; var table := ApplyAll(t, items, fromIso);
      && it.characterUrl.value in table
      && table[it.characterUrl.value] ==
         Row(it.name.value, it.anime, it.fandom, it.gender, it.status, it.imageUrl, ParseDt(it.scrapedAt, fromIso))
  {
    var init := items[..|items| - 1];
    if i < |items| - 1 {
      assert forall j :: i < j < |init| ==> init[j] == items[j];
      ImportLastWriteWins(t, init, fromIso, i);
    }
  }

  /** Importing onto a table overrides it with what importing onto an empty table gives. */
  lemma {:induction false} ImportAsOverride(t: Table, items: seq<JsonItem>, fromIso: string -> Option<DateTime>)
    ensures ApplyAll(t, items, fromIso) == t + ApplyAll(map[], items, fromIso)
  {
    if items != [] {
      ImportAsOverride(t, items[..|items| - 1], fromIso);
    }
  }

  /** Importing the same list twice leaves the table as importing it once. */
  lemma ImportIdempotent(t: Table, items: seq<JsonItem>, fromIso: string -> Option<DateTime>)
    ensures ApplyAll(ApplyAll(t, items, fromIso), items, fromIso) == ApplyAll(t, items, fromIso)
  {
    var imported := ApplyAll(map[], items, fromIso);
    ImportAsOverride(t, items, fromIso);
    ImportAsOverride(t + imported, items, fromIso);
    assert (t + imported) + imported == t + imported;
  }

  /** Starting from an empty table there are never more rows than upserts. */
  lemma {:induction false} RowsAtMostCount(items: seq<JsonItem>, fromIso: string -> Option<DateTime>)
    ensures |ApplyAll(map[], items, fromIso)| <= CountAccepted(items)
  {
    if items != [] {
      var init := items[..|items| - 1];
      RowsAtMostCount(init, fromIso);
      var before := ApplyAll(map[], init, fromIso);
      var it := items[|items| - 1];
      if Accepted(it) {
        assert before[it.characterUrl.value := RowOf(it, fromIso)].Keys == before.Keys + {it.characterUrl.value};
      }
    }
  }

  /** The count is not the number of rows: one URL twice is two upserts and one row. */
  lemma CountIsNotRows(a: JsonItem, b: JsonItem, fromIso: string -> Option<DateTime>)
    requires Accepted(a) && Accepted(b) && a.characterUrl == b.characterUrl
    ensures CountAccepted([a, b]) == 2
    ensures |ApplyAll(map[], [a, b], fromIso)| == 1
  {
    assert [a, b][..1] == [a];
    assert [a][..0] == [];
    assert CountAccepted([a]) == 1;
    var u := a.characterUrl.value;
    assert ApplyAll(map[], [a], fromIso) == map[u := RowOf(a, fromIso)];
    assert ApplyAll(map[], [a, b], fromIso) == map[u := RowOf(b, fromIso)];
  }

  /** Skipping: appending a rejected item changes neither the table nor the count. */
  lemma ImportSkips(t: Table, items: seq<JsonItem>, it: JsonItem, fromIso: string -> Option<DateTime>)
    requires !Accepted(it)
    ensures ApplyAll(t, items + [it], fromIso) == ApplyAll(t, items, fromIso)
    ensures CountAccepted(items + [it]) == CountAccepted(items)
  {
    assert (items + [it])[..|items|] == items;
  }

  /**
   * How the spider's JSON feed presents an item: every field it sets,
   * `None` exported as `null`. `CharacterItem` has no `fandom` field, so
   * `it.get("fandom")` is always `None`.
   */
  function ToJson(item: Spider.CharacterItem): (r: JsonItem)
    ensures r.fandom.None?
    ensures Accepted(r) <==> Truthy(item.name) && item.characterUrl != ""
  {
    JsonItem(item.name, item.anime, None, Some(item.characterUrl), Some(item.gender), Some(item.status),
             item.imageUrl, Some(item.scrapedAt))
  }

  function ExportAll(items: seq<Spider.CharacterItem>): (r: seq<JsonItem>)
    ensures |r| == |items|
    ensures forall i :: 0 <= i < |items| ==> r[i] == ToJson(items[i])
  {
    seq(|items|, i requires 0 <= i < |items| => ToJson(items[i]))
  }

  /** Loading spider output never puts a value in the `fandom` column. */
  lemma {:induction false} SpiderFeedLeavesFandomNull(
    t: Table, items: seq<Spider.CharacterItem>, fromIso: string -> Option<DateTime>)
    requires forall u :: u in t ==> t[u].fandom.None?
    ensures var table := ApplyAll(t, ExportAll(items), fromIso); forall u :: u in table ==> table[u].fandom.None?
  {
    if items != [] {
      var init := items[..|items| - 1];
      var feed := ExportAll(items);
      assert feed[..|feed| - 1] == ExportAll(init);
      SpiderFeedLeavesFandomNull(t, init, fromIso);
      assert ApplyAll(t, feed, fromIso) == Step(ApplyAll(t, ExportAll(init), fromIso), ToJson(items[|items| - 1]), fromIso);
    }
  }

  /** The `characters` table as the loader sees it. */
  class CharactersTable {
    var rows: Table

    /** A freshly created, empty table (`CREATE TABLE IF NOT EXISTS`). */
    constructor ()
      ensures rows == map[]
    {
      rows := map[];
    }

    /** The upsert statement: insert the row, or overwrite every non-key column of the existing one. */
    method Upsert(url: string, row: Row)
      modifies this
      ensures rows == old(rows)[url := row]
    {
      rows := rows[url := row];
    }

    /** `import_json` on the already parsed JSON array; returns `count`. */
    method ImportJson(items: seq<JsonItem>, fromIso: string -> Option<DateTime>) returns (count: nat)
      modifies this
      ensures rows == ApplyAll(old(rows), items, fromIso)
      ensures count == CountAccepted(items)
    {
      count := 0;
      for i := 0 to |items|
        invariant rows == ApplyAll(old(rows), items[..i], fromIso)
        invariant count == CountAccepted(items[..i])
      {
        assert items[..i + 1][..i] == items[..i];
        var it := items[i];
        if !Truthy(it.name) || !Truthy(it.characterUrl) {
          continue;
        }
        Upsert(it.characterUrl.value, RowOf(it, fromIso));
        count := count + 1;
      }
      assert items[..|items|] == items;
    }
  }
}
