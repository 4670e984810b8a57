# Anime characters pipeline — a Dafny model

The repository crawls anime fan wikis for characters, loads them into a
database table and shows them on two pages. This project models the data
rules of those steps and proves properties about them.

- **Spider** (`spider.dfy`) models the `characters` Scrapy spider.
  - A listing page schedules one detail request per member link, each tagged with the anime label taken from the URL.
  - It schedules the next listing page when there is a link to one.
  - A detail page becomes a `CharacterItem` through the gender and status fallback chains and a completeness gate.
  - Selector results are given as plain strings and string sequences.
- **Loader** (`loader.dfy`) models `import_json`.
  - The decoded JSON array is folded into the `characters` table with one upsert per accepted item.
  - The table is a map keyed by `character_url`, held by a class whose method changes it loop pass by loop pass.
- **Dashboard** (`dashboard.dfy`) models the Streamlit dashboard's data rules.
  - `clean_gender` and `clean_status`.
  - The search matcher `match_row`, the anime filter and the view built from both.
  - The sorted anime selector list and the gallery selection.
- **Quiz** (`quiz.dfy`) models the quiz page.
  - Five `if`/`elif` chains add points to a five-axis score table.
  - The table is sorted stably in descending order, and its two leading axes pick a character through a pair table and a per-axis fallback.
  - The page then looks that character up among the database rows.
- **Text** (`text.dfy`) and **Wrappers** (`wrappers.dfy`) hold the Python string operations and the `Option` type used throughout.
  - The string operations are `strip`, `lower`, `split`, `replace`, `in`, `startswith` and `<`.
  - White space is Python's full `str.isspace` set.

The spider's status chain tests its first source before stripping it. The
model follows the code as written (`Spider.StatusAsWritten`, used by
`Spider.ParseCharacter`). The evidently intended chain, which strips first,
is `Spider.StatusIntended` (see "## Findings").

## Model

| member | source | states |
|---|---|---|
| Text.Strip | webapp/app/main.py:66 | The result is a slice of the input, with only white space cut from either side and none left at its edges; it is empty exactly when the input is blank |
| Text.StripIdempotent | webapp/app/main.py:66 | Stripping a stripped string changes nothing |
| Text.LowerChar | webapp/app/main.py:51 | Lower-casing maps an ASCII or Latin-1 capital to the letter 32 code points above it, keeps every other character, and never yields a capital |
| Text.LowerIdempotent | webapp/app/main.py:46 | Lower-casing a lower-cased string changes nothing |
| Text.RemoveChar | webapp/app/main.py:61 | `replace(c, "")` leaves no `c`, keeps every other character that occurs, and leaves a string without `c` unchanged |
| Text.RemoveCharCounts | webapp/app/main.py:61 | Every other character is kept as often as it occurs, so the length drops by the number of `c` |
| Text.ReplaceChar | scrapy/crawler/crawler/spiders/characters_spider.py:38 | `replace(a, b)` keeps the length and changes each `a` to `b` in its place, every other character staying where it is |
| Text.ReplaceCharMembers | scrapy/crawler/crawler/spiders/characters_spider.py:38 | No `a` is left when `a` differs from `b`, and every other character of the input is still there |
| Text.IsSubstring | webapp/app/main.py:51 | The sliding test is true exactly when the pattern occurs at some index of the text |
| Text.SplitSecond | scrapy/crawler/crawler/spiders/characters_spider.py:38 | `split(sep)[1]` is absent exactly when `sep` does not occur; otherwise it is the text after the first `sep` up to the next one |
| Text.StrLessTransitive | webapp/app/main.py:38 | The code-point order used by `sorted` is transitive (with StrLessTotal and StrLessAsymmetric, a strict total order) |
| Spider.AnimeLabel | scrapy/crawler/crawler/spiders/characters_spider.py:38 | No label exactly when the URL contains no "//"; otherwise the label is the text after the first "//" up to the first "." or "//", each "-" turned into a space, so it contains neither "-" nor "." |
| Spider.Parse | scrapy/crawler/crawler/spiders/characters_spider.py:36-56 | One detail request per member link, in link order, each carrying the page's anime label; then one listing request exactly when the next-page link is present and non-empty; nothing when the URL has no "//" |
| Spider.JoinStripped | scrapy/crawler/crawler/spiders/characters_spider.py:76 | The joined fragments are empty exactly when every fragment is blank, and never have white space at either end |
| Spider.JoinStrippedIdempotent | scrapy/crawler/crawler/spiders/characters_spider.py:82 | Joining a join result again returns it unchanged |
| Spider.FirstNonEmpty | scrapy/crawler/crawler/spiders/characters_spider.py:78-84 | A fallback chain returns the first non-empty source, whatever the later ones hold; it returns the default when all are empty, so a non-empty default gives a non-empty result |
| Spider.FirstNonEmptyOfThree | scrapy/crawler/crawler/spiders/characters_spider.py:94-106 | The three-step status chain consults the later two sources only when the first is empty |
| Spider.Fragments | scrapy/crawler/crawler/spiders/characters_spider.py:76 | The kept fragments are non-empty and without edge space, at most one per part, and none at all exactly when every part is blank |
| Spider.FragmentsAreStrips | scrapy/crawler/crawler/spiders/characters_spider.py:76 | The kept fragments are exactly the non-empty strips of the parts |
| Spider.StatusAsWritten | scrapy/crawler/crawler/spiders/characters_spider.py:88-108 | A non-empty `normalize-space` value decides the status as its strip, even when that strip is empty; otherwise the two joined sources are tried in turn, ending in "Unknown"; the status is "" exactly for a non-empty blank first value |
| Spider.StatusIntended | scrapy/crawler/crawler/spiders/characters_spider.py:88-108 | The intended status: the stripped first value when it is not blank, otherwise the later two sources in turn ending in "Unknown"; never empty |
| Spider.StatusCorrectionOnlyForBlank | scrapy/crawler/crawler/spiders/characters_spider.py:88-108 | The written and the intended chains differ exactly on a non-empty blank first value, and there the written one gives "" |
| Spider.MissingCount | scrapy/crawler/crawler/spiders/characters_spider.py:118-119 | Counts the empty fields among name, gender and status: at most 3, 0 exactly when all three are set, and 1 with name and gender set exactly when status is empty |
| Spider.Emits | scrapy/crawler/crawler/spiders/characters_spider.py:117-126 | The gate `name and missing_count < 3` passes exactly when the name is non-empty |
| Spider.ParseCharacter | scrapy/crawler/crawler/spiders/characters_spider.py:58-126 | The item is yielded exactly when the page title is non-empty; its URL is the response URL and its anime the label in `meta`; gender is its fallback chain ending in "Unknown" and status the chain as written; at most one field is missing, and one exactly when the first status value is non-empty and blank |
| Spider.StatusAsWrittenCanBeEmpty | scrapy/crawler/crawler/spiders/characters_spider.py:88-108 | A status value made of one no-break space is a possible `normalize-space` output, and the chain as written turns it into the empty status |
| Loader.ParseDt | webapp/app/import_characters.py:26-32 | No value for a missing or empty string; otherwise exactly the parser's result, which is no value when parsing fails |
| Loader.ApplyAll | webapp/app/import_characters.py:90-106 | The table after the loop never loses a row that was there before |
| Loader.ImportGrowth | webapp/app/import_characters.py:90-106 | At most one row is added per accepted item, and a list with no accepted item leaves the table unchanged |
| Loader.CountAccepted | webapp/app/import_characters.py:90-106 | The count never exceeds the number of items; it is 0 exactly when no item is accepted, and the item count exactly when all are |
| Loader.ToJson | scrapy/crawler/crawler/items.py:4-11 | A spider item in the JSON feed never carries a fandom, and it is accepted exactly when it has a non-empty name and URL |
| Loader.CharactersTable.Upsert | webapp/app/import_characters.py:77-88 | The URL's row is inserted or fully overwritten; every other row stays as it was |
| Loader.CharactersTable.ImportJson | webapp/app/import_characters.py:90-106 | The new table is the old one with each accepted item upserted in list order, and the count is the number of accepted items |
| Loader.ImportKeys | webapp/app/import_characters.py:60 | The keys afterwards are the old keys plus the accepted items' URLs: one row per URL, as the UNIQUE constraint demands |
| Loader.ImportLeavesOthers | webapp/app/import_characters.py:78-88 | A URL that no accepted item carries keeps its presence or absence and its row |
| Loader.ImportLastWriteWins | webapp/app/import_characters.py:80-87 | Every column of a URL's row holds the values of the last accepted item with that URL, with `scraped_at` as `parse_dt` of its string |
| Loader.ImportAsOverride | webapp/app/import_characters.py:78-88 | Importing onto a table is that table overridden by the import onto an empty table |
| Loader.ImportIdempotent | webapp/app/import_characters.py:78-88 | Importing the same list twice gives the same table as importing it once |
| Loader.RowsAtMostCount | webapp/app/import_characters.py:90-106 | Starting from an empty table, there are never more rows than counted upserts |
| Loader.CountIsNotRows | webapp/app/import_characters.py:90-106 | Two accepted items with one URL count 2 but leave a single row |
| Loader.ImportSkips | webapp/app/import_characters.py:93-94 | An item without a name or a URL changes neither the table nor the count |
| Loader.SpiderFeedLeavesFandomNull | webapp/app/import_characters.py:99 | Loading the spider's own feed never puts a value in the `fandom` column |
| Dashboard.CleanGender | webapp/app/main.py:58-61 | "Unknown" for a missing or blank value; otherwise the value without either sign, stripped; the result has neither sign and no edge space |
| Dashboard.CleanGenderOfSignOnly | webapp/app/main.py:59-61 | A value made of a single sign is not blank, yet it cleans to "" rather than "Unknown" |
| Dashboard.CleanGenderStable | webapp/app/main.py:58-61 | Cleaning a non-empty cleaned gender again changes nothing |
| Dashboard.CleanStatus | webapp/app/main.py:63-66 | "Unknown" for a missing or blank value, the stripped value otherwise; never empty and never with edge space |
| Dashboard.CleanStatusIdempotent | webapp/app/main.py:63-66 | Cleaning a cleaned status again changes nothing |
| Dashboard.MatchRow | webapp/app/main.py:48-53 | True exactly when, among name, gender, status and anime, some present value contains the query once lower-cased |
| Dashboard.Filter | webapp/app/main.py:44 | A mask keeps exactly the rows it accepts, each as many times as it occurs, in their original order |
| Dashboard.KeepMatching | webapp/app/main.py:55 | Applying `match_row` to every row keeps exactly the rows the search mask accepts |
| Dashboard.View | webapp/app/main.py:42-55 | A row is in the view exactly when it is in the table, its anime is selected (or nothing is selected), and it matches the stripped, lower-cased query (or the query is blank); order is kept |
| Dashboard.AnimeList | webapp/app/main.py:38 | Strictly sorted, hence no duplicates, and holding exactly the non-blank anime names present in the table |
| Dashboard.Gallery | webapp/app/main.py:107-113 | Every row has an image URL starting with "http", all of them taken from the view, and exactly the smaller of `limit` and the number of such rows are kept |
| Quiz.Gain | webapp/app/pages/1_quiz.py:60-140 | No answer lowers any axis |
| Quiz.GainTotal | webapp/app/pages/1_quiz.py:51-140 | Each listed answer adds 2 points in all, except "Support discret" on the fourth question, which adds 1 |
| Quiz.AnswerQ1 | webapp/app/pages/1_quiz.py:60-67 | Question 1's chain adds the answer's gain to the table |
| Quiz.AnswerQ2 | webapp/app/pages/1_quiz.py:78-86 | Question 2's chain adds the answer's gain to the table |
| Quiz.AnswerQ3 | webapp/app/pages/1_quiz.py:97-104 | Question 3's chain adds the answer's gain to the table |
| Quiz.AnswerQ4 | webapp/app/pages/1_quiz.py:115-122 | Question 4's chain adds the answer's gain to the table |
| Quiz.AnswerQ5 | webapp/app/pages/1_quiz.py:133-140 | Question 5's chain adds the answer's gain to the table |
| Quiz.Tallied | webapp/app/pages/1_quiz.py:42-140 | Starting from zeros, no axis is ever below 0; with listed answers the total is 10, or 9 when the fourth answer is "Support discret" |
| Quiz.TakeQuiz | webapp/app/pages/1_quiz.py:42-140 | Running the five chains in turn gives the tallied table, which has no negative score |
| Quiz.UnlistedAnswerChangesNothing | webapp/app/pages/1_quiz.py:60-67 | An answer outside a question's options leaves every score unchanged |
| Quiz.SortDescending | webapp/app/pages/1_quiz.py:144 | The result is a permutation of the items, ordered by descending score, with ties in dictionary order |
| Quiz.TopAxes | webapp/app/pages/1_quiz.py:144-145 | Two distinct axes: the first is ahead of every other axis, the second ahead of all but the first |
| Quiz.TopAxesScores | webapp/app/pages/1_quiz.py:144-145 | The first axis scores at least the second, and the second at least every other axis |
| Quiz.TiesFollowDictionaryOrder | webapp/app/pages/1_quiz.py:42-48 | With all scores equal, the leading axes are calme then energique, the dictionary's first two |
| Quiz.CharacterFor | webapp/app/pages/1_quiz.py:172-174 | A name is always found: the pair's entry when the pair is listed, the first axis's fallback otherwise; it is one of the names in the two tables |
| Quiz.FallbackPairs | webapp/app/pages/1_quiz.py:147-163 | Exactly five ordered pairs of distinct axes are missing from the pair table |
| Quiz.Pick | webapp/app/pages/1_quiz.py:176-177 | No row exactly when no row has the name; otherwise the first row with that name |
| Quiz.Result | webapp/app/pages/1_quiz.py:144-177 | The row shown is the first row named after the character chosen for the answers' leading axes, and that name is one in the two tables |

## Left out

- Selector evaluation (CSS and XPath, including `normalize-space`) is not modelled: a page is the record of what each selector returned.
- URL resolution by `response.follow` is not modelled, and neither are Scrapy's scheduling and duplicate filter: a request carries the link as extracted.
- The spider's logger call is left out: it does not affect the item.
- `datetime.utcnow().isoformat()` is the parameter `now` of `Spider.ParseCharacter`.
- `datetime.fromisoformat` is the function parameter `fromIso` of the loader; `None` stands for its exception.
- Database and file plumbing is left out:
  - the engine and connection;
  - executing the `CREATE TABLE` DDL, the serial `id` column and the `NOT NULL` constraints;
  - reading the JSON file and the file-existence check;
  - `run_scrapy`'s subprocess;
  - transaction atomicity of `engine.begin()`.
- JSON values and DataFrame cells that are not strings are all modelled as `None`.
  - `isinstance(v, str)` is therefore the `Some?` test.
  - Pandas NaN and SQL NULL are the same `None`.
- Streamlit presentation is left out: widgets, columns, metrics, charts, `st.cache_data` and the `pd.read_sql` loads.
- `fetch_image` is left out: it is network I/O and image decoding.
- Dashboard.Gallery: the `sample(frac=1)` shuffle is any permutation the method may choose, so the model fixes which rows are kept only up to that choice.
- `str.lower()` is modelled for ASCII and Latin-1 capitals only; other Unicode case mappings are left out.
- Quiz.Pick: the `IndexError` that `iloc[0]` raises when no row has the chosen name is the result `None`.
- Quiz.Gain: its own contract states only that no score decreases; the point totals are stated by Quiz.GainTotal and the per-axis entries by Quiz.AnswerQ1 to Quiz.AnswerQ5.
- webapp/app/pages/2_tab_gallery.py is not part of this model; its prefix filter is the one `Dashboard.Gallery` models.
- webapp/app/elastic_utils.py is not part of this model; it only wraps a search client.
- scrapy/crawler/crawler/spiders/test_categories_spider.py is not part of this model; it only prints diagnostics.

## Findings

| source | as written | input that shows it | evidently intended | confidence | as-written member | corrected member |
|---|---|---|---|---|---|---|
| scrapy/crawler/crawler/spiders/characters_spider.py:88-108 | The `normalize-space` status value is tested for emptiness before it is stripped, and it is stripped only afterwards. XPath's `normalize-space` keeps U+00A0, but Python's `strip` removes it. | A status infobox whose value is a single no-break space (U+00A0) | The status falls through to the later sources and ends as "Unknown", never "" | not executed | Spider.StatusAsWrittenCanBeEmpty | Spider.StatusIntended |
