/**
 * The dashboard's data rules: the cleaned gender and status columns, the
 * search matcher, the anime selector list and the filters that narrow the
 * table to the displayed view and to the gallery. A DataFrame is a
 * sequence of rows; a boolean mask is a `Mask` applied by `Filter`.
 */
module Dashboard {

  import opened Wrappers
  import opened Text

  /**
   * The columns of a `characters` row that the dashboard reads. `None` is
   * SQL NULL, and stands as well for any cell that is not a `str`.
   */
  datatype DbRow = DbRow(
    name: Option<string>,
    anime: Option<string>,
    gender: Option<string>,
    status: Option<string>,
    characterUrl: Option<string>,
    imageUrl: Option<string>)

  // ---------------------------------------------------------------------
  // Cleaned columns (main.py:58-66)
  // ---------------------------------------------------------------------

  const MaleSign: char := '\U{2642}'
  const FemaleSign: char := '\U{2640}'

  /**
   * `clean_gender`: "Unknown" for a non-string or blank value; otherwise the
   * value without any gender sign and stripped. The blank test comes first,
   * so a value made only of signs cleans to "" and not to "Unknown".
   */
  function CleanGender(x: Option<string>): (r: string)
    ensures x.None? || IsBlank(x.value) ==> r == "Unknown"
    ensures x.Some? && !IsBlank(x.value) ==> r == Strip(RemoveChar(RemoveChar(x.value, MaleSign), FemaleSign))
    ensures MaleSign !in r && FemaleSign !in r
    ensures NoEdgeSpace(r)
  {
    if x.None? || Strip(x.value) == "" then "Unknown"
    else
      var removed := RemoveChar(RemoveChar(x.value, MaleSign), FemaleSign);
      var r := Strip(removed);
      assert forall k :: 0 <= k < |r| ==> r[k] == removed[StripStart(removed) + k];
      r
  }

  /** A lone sign is not blank, yet it cleans to the empty string. */
  lemma CleanGenderOfSignOnly()
    ensures CleanGender(Some([MaleSign])) == ""
    ensures CleanGender(Some([FemaleSign])) == ""
  {
    assert !IsSpace(MaleSign) && !IsSpace(FemaleSign);
    assert RemoveChar([MaleSign], MaleSign) == [];
    assert RemoveChar([], FemaleSign) == [];
    assert RemoveChar([FemaleSign], MaleSign) == [FemaleSign];
    assert RemoveChar([FemaleSign], FemaleSign) == [];
  }

  /** Cleaning a non-empty cleaned value again changes nothing. */
  lemma CleanGenderStable(x: Option<string>)
    requires CleanGender(x) != ""
    ensures CleanGender(Some(CleanGender(x))) == CleanGender(x)
  {
    var r := CleanGender(x);
    assert !IsSpace(r[0]);
    StripOfClean(r);
  }

  /** `clean_status`: "Unknown" for a non-string or blank value, the stripped value otherwise. */
  function CleanStatus(x: Option<string>): (r: string)
    ensures x.None? || IsBlank(x.value) ==> r == "Unknown"
    ensures x.Some? && !IsBlank(x.value) ==> r == Strip(x.value)
    ensures r != "" && NoEdgeSpace(r)
  {
    if x.None? || Strip(x.value) == "" then "Unknown" else Strip(x.value)
  }

  /** `clean_status` is idempotent. */
  lemma CleanStatusIdempotent(x: Option<string>)
    ensures CleanStatus(Some(CleanStatus(x))) == CleanStatus(x)
  {
    var r := CleanStatus(x);
    assert !IsSpace(r[0]);
    StripOfClean(r);
  }

  // ---------------------------------------------------------------------
  // Search (main.py:45-55)
  // ---------------------------------------------------------------------

  datatype Column = Name | Gender | Status | Anime

  /** The columns `match_row` looks at, in its order. */
  const SearchColumns: seq<Column> := [Name, Gender, Status, Anime]

  /** `row.get(col)` */
  function Cell(row: DbRow, col: Column): Option<string> {
    match col
    case Name => row.name
    case Gender => row.gender
    case Status => row.status
    case Anime => row.anime
  }

  /** `isinstance(v, str) and ql in v.lower()` */
  predicate CellMatches(v: Option<string>, ql: string) {
    v.Some? && IsSubstring(ql, Lower(v.value))
  }

  /** Some searched column holds `ql` in its lower-cased text. */
  predicate RowMatches(row: DbRow, ql: string) {
    exists k :: 0 <= k < |SearchColumns| && CellMatches(Cell(row, SearchColumns[k]), ql)
  }

  /**
   * `match_row`: true exactly when the (already stripped and lower-cased)
   * query is a substring of the lower-cased value of some string-valued
   * column among name, gender, status and anime; other values are ignored.
   */
  method MatchRow(row: DbRow, ql: string) returns (b: bool)
    ensures b <==> RowMatches(row, ql)
    ensures b <==> (exists k :: 0 <= k < |SearchColumns| && Cell(row, SearchColumns[k]).Some? &&
                              HasSubstring(Lower(Cell(row, SearchColumns[k]).value), ql))
  {
    for i := 0 to |SearchColumns|
      invariant forall k :: 0 <= k < i ==> !CellMatches(Cell(row, SearchColumns[k]), ql)
    {
      var v := Cell(row, SearchColumns[i]);
      if v.Some? && IsSubstring(ql, Lower(v.value)) {
        return true;
      }
    }
    return false;
  }

  // ---------------------------------------------------------------------
  // Masks and filtering
  // ---------------------------------------------------------------------

  /** The boolean masks the dashboard applies. */
  datatype Mask =
    | AnimeIn(selection: seq<string>)   // `df_view["anime"].isin(anime_sel)`
    | Mentions(query: string)           // `df_view.apply(match_row, axis=1)`
    | HttpImage                         // `image_url.notna() & image_url.astype(str).str.startswith("http")`

  predicate Keeps(m: Mask, row: DbRow) {
    match m
    case AnimeIn(selection) => row.anime.Some? && row.anime.value in selection
    case Mentions(ql) => RowMatches(row, ql)
    case HttpImage => row.imageUrl.Some? && StartsWith(row.imageUrl.value, "http")
  }

  /** `a` is `b` with some elements left out, the rest in their order. */
  ghost predicate Subsequence(a: seq<DbRow>, b: seq<DbRow>)
    decreases |b|
  {
    if a == [] then true
    else if b == [] then false
    else if a[|a| - 1] == b[|b| - 1] then Subsequence(a[..|a| - 1], b[..|b| - 1])
    else Subsequence(a, b[..|b| - 1])
  }

  lemma {:induction false} SubsequenceDropLast(a: seq<DbRow>, b: seq<DbRow>)
    requires a != [] && Subsequence(a, b)
    ensures Subsequence(a[..|a| - 1], b)
    decreases |b|, 0
  {
    var init := b[..|b| - 1];
    assert init + [b[|b| - 1]] == b;
    if a[|a| - 1] != b[|b| - 1] {
      SubsequenceDropLast(a, init);
    }
    SubsequenceSnoc(a[..|a| - 1], init, b[|b| - 1]);
  }

  lemma {:induction false} SubsequenceSnoc(a: seq<DbRow>, b: seq<DbRow>, x: DbRow)
    requires Subsequence(a, b)
    ensures Subsequence(a, b + [x])
    decreases |b|, 1
  {
    assert (b + [x])[..|b|] == b;
    if a != [] && a[|a| - 1] == x {
      SubsequenceDropLast(a, b);
    }
  }

  /**
   * `df[mask]`: exactly the rows the mask keeps, each as often as it occurs,
   * in their original order.
   */
  function Filter(rows: seq<DbRow>, m: Mask): (r: seq<DbRow>)
    ensures |r| <= |rows|
    ensures forall row :: row in r <==> row in rows && Keeps(m, row)
    ensures forall row :: multiset(r)[row] == if Keeps(m, row) then multiset(rows)[row] else 0
    ensures Subsequence(r, rows)
  {
    if rows == [] then []
    else
      var init := rows[..|rows| - 1];
      var last := rows[|rows| - 1];
      var rest := Filter(init, m);
      assert rows == init + [last];
      if Keeps(m, last) then
        assert (rest + [last])[..|rest|] == rest;
        rest + [last]
      else
        SubsequenceSnoc(rest, init, last);
        rest
  }

  // ---------------------------------------------------------------------
  // The displayed view (main.py:42-55)
  // ---------------------------------------------------------------------

  /** The search pass of the view: `match_row` applied to every row, keeping the matching ones. */
  method KeepMatching(rows: seq<DbRow>, ql: string) returns (kept: seq<DbRow>)
    ensures kept == Filter(rows, Mentions(ql))
  {
    kept := [];
    for i := 0 to |rows|
      invariant kept == Filter(rows[..i], Mentions(ql))
    {
      var m := MatchRow(rows[i], ql);
      assert rows[..i + 1][..i] == rows[..i];
      if m {
        kept := kept + [rows[i]];
      }
    }
    assert rows[..|rows|] == rows;
  }

  /**
   * `df_view`: the rows whose anime is selected (all rows when nothing is
   * selected), then, for a non-blank query, those that match the stripped,
   * lower-cased query; order is kept throughout.
   */
  method View(rows: seq<DbRow>, selection: seq<string>, q: string) returns (view: seq<DbRow>)
    ensures var byAnime := if selection == [] then rows else Filter(rows, AnimeIn(selection));
      view == if IsBlank(q) then byAnime else Filter(byAnime, Mentions(Lower(Strip(q))))
    ensures forall row :: row in view <==>
      && row in rows
      && (selection == [] || Keeps(AnimeIn(selection), row))
      && (IsBlank(q) || RowMatches(row, Lower(Strip(q))))
  {
    view := rows;
    if selection != [] {
      view := Filter(view, AnimeIn(selection));
    }
    if Strip(q) != "" {
      view := KeepMatching(view, Lower(Strip(q)));
    }
  }

  // ---------------------------------------------------------------------
  // The anime selector list (main.py:38)
  // ---------------------------------------------------------------------

  predicate StrictlySorted(s: seq<string>) {
    forall i, j :: 0 <= i < j < |s| ==> StrLess(s[i], s[j])
  }

  /** Puts `a` into its place in the strictly sorted `s`, unless it is there already. */
  function InsertSorted(a: string, s: seq<string>): (r: seq<string>)
    requires StrictlySorted(s)
    ensures StrictlySorted(r)
    ensures forall x :: x in r <==> x in s || x == a
  {
    if s == [] then [a]
    else if a == s[0] then s
    else if StrLess(a, s[0]) then
      assert StrictlySorted([a] + s) by {
        forall j | 1 <= j < |s| { StrLessTransitive(a, s[0], s[j]); }
      }
      [a] + s
    else
      StrLessTotal(a, s[0]);
      var rest := InsertSorted(a, s[1..]);
      assert forall x :: x in rest ==> StrLess(s[0], x);
      [s[0]] + rest
  }

  /**
   * `sorted([a for a in df["anime"].dropna().unique() if a.strip() != ""])`:
   * strictly increasing (so without duplicates), and holding exactly the
   * non-blank anime names that occur in the table.
   */
  function AnimeList(rows: seq<DbRow>): (r: seq<string>)
    ensures StrictlySorted(r)
    ensures forall i, j :: 0 <= i < j < |r| ==> r[i] != r[j]
    ensures forall a :: a in r <==> !IsBlank(a) && exists row :: row in rows && row.anime == Some(a)
  {
    if rows == [] then []
    else
      var init := rows[..|rows| - 1];
      var last := rows[|rows| - 1];
      var rest := AnimeList(init);
      assert forall row :: row in rows <==> row in init || row == last by {
        assert rows == init + [last];
      }
      var r := if last.anime.Some? && !IsBlank(last.anime.value) then InsertSorted(last.anime.value, rest) else rest;
      assert forall i, j :: 0 <= i < j < |r| ==> r[i] != r[j] by {
        forall i, j | 0 <= i < j < |r| ensures r[i] != r[j] {
          StrLessIrreflexive(r[i]);
        }
      }
      r
  }

  // ---------------------------------------------------------------------
  // The gallery (main.py:107-113)
  // ---------------------------------------------------------------------

  function Min(a: nat, b: nat): nat {
    if a < b then a else b
  }

  /**
   * `gallery_df`: the rows of the view with an image URL starting with
   * "http", shuffled (`sample(frac=1)`: any order may come out), and at
   * most `limit` of them.
   */
  method Gallery(view: seq<DbRow>, limit: nat) returns (gallery: seq<DbRow>)
    ensures |gallery| == Min(limit, |Filter(view, HttpImage)|)
    ensures forall row :: row in gallery ==> row.imageUrl.Some? && StartsWith(row.imageUrl.value, "http")
    ensures multiset(gallery) <= multiset(Filter(view, HttpImage))
  {
    gallery := Filter(view, HttpImage);
    var shuffled :| multiset(shuffled) == multiset(gallery);
    var n := Min(limit, |shuffled|);
    assert shuffled == shuffled[..n] + shuffled[n..];
    assert multiset(shuffled) == multiset(shuffled[..n]) + multiset(shuffled[n..]);
    gallery := shuffled[..n];
    assert forall row :: row in gallery ==> row in multiset(shuffled);
  }
}
