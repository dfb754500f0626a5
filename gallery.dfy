/**
 * The Crackd gallery page: the rows fetched page by page from the `images`
 * table, their keys, the search filter over their descriptions, whether
 * there is more to load, and the state transitions of the initial fetch and
 * of "Load more". The table query itself is a parameter (its outcome).
 */
module Gallery {
  import opened Wrappers
  import opened Text
  import opened Seqs

  /** `PAGE_SIZE` */
  const PageSize: nat := 12

  /** `CARD_COLORS`, one background class per card, in turn. */
  const CardColors: seq<string> := [
    "bg-[#FADADD]", "bg-[#CDEAF7]", "bg-[#D8F5E1]", "bg-[#E6D7FF]",
    "bg-[#FFE5CC]", "bg-[#FFF3B0]", "bg-[#F7D6E0]", "bg-[#D7F0FF]",
    "bg-[#E0F7E9]", "bg-[#EFE0FF]", "bg-[#FFE9D6]", "bg-[#FFF7C2]"
  ]

  /** `row.id`: absent, null, a string or an integer. */
  datatype RowId = Missing | Null | StrId(text: string) | NumId(number: int)

  /**
   * One row of `images`. `description` is `image_description` when it is a
   * string and None otherwise; `url` likewise.
   */
  datatype ImageRow = ImageRow(id: RowId, url: Option<string>, description: Option<string>)

  /** An entry of `rowsByKey`. */
  datatype KeyedRow = KeyedRow(key: string, row: ImageRow, index: nat)

  /** `String(row.id ?? index)` */
  function RowKey(id: RowId, index: nat): (key: string)
    ensures id.StrId? ==> key == id.text
    ensures id.NumId? ==> key == IntToDecimal(id.number)
    ensures id.Missing? || id.Null? ==> key == NatToDecimal(index)
  {
    match id
    case StrId(text) => text
    case NumId(number) => IntToDecimal(number)
    case _ => NatToDecimal(index)
  }

  /** A positional key reads back as the row's index. */
  lemma PositionalKeyIsIndex(id: RowId, index: nat)
    requires id.Missing? || id.Null?
    ensures DecimalValue(RowKey(id, index)) == index
  {
    DecimalRoundTrip(index);
  }

  /** `rows.map((row, index) => ...)` for rows that start at position `offset`. */
  function KeyedFrom(rows: seq<ImageRow>, offset: nat): (keyed: seq<KeyedRow>)
    ensures |keyed| == |rows|
    ensures forall i :: 0 <= i < |rows| ==>
      keyed[i].row == rows[i] && keyed[i].index == offset + i && keyed[i].key == RowKey(rows[i].id, offset + i)
  {
    seq(|rows|, i requires 0 <= i < |rows| => KeyedRow(RowKey(rows[i].id, offset + i), rows[i], offset + i))
  }

  /** `rowsByKey` */
  function RowsByKey(rows: seq<ImageRow>): seq<KeyedRow> {
    KeyedFrom(rows, 0)
  }

  /** Keying rows that were appended continues the numbering where the earlier rows stop. */
  lemma KeyedAppend(rows: seq<ImageRow>, more: seq<ImageRow>, offset: nat)
    ensures KeyedFrom(rows + more, offset) == KeyedFrom(rows, offset) + KeyedFrom(more, offset + |rows|)
  {
    var whole := KeyedFrom(rows + more, offset);
    var parts := KeyedFrom(rows, offset) + KeyedFrom(more, offset + |rows|);
    forall i | 0 <= i < |whole|
      ensures whole[i] == parts[i]
    {
      if i < |rows| {
        assert (rows + more)[i] == rows[i];
      } else {
        assert (rows + more)[i] == more[i - |rows|];
      }
    }
  }

  /** `rowsByKey` of appended rows: the earlier entries, then the new rows keyed from where they stop. */
  lemma RowsByKeyAppend(rows: seq<ImageRow>, more: seq<ImageRow>)
    ensures RowsByKey(rows + more) == RowsByKey(rows) + KeyedFrom(more, |rows|)
  {
    KeyedAppend(rows, more, 0);
  }

  /** Rows without an id are keyed by position, so two of them never share a key. */
  lemma IndexKeysDistinct(rows: seq<ImageRow>, i: nat, j: nat)
    requires i < j < |rows|
    requires rows[i].id.Missing? || rows[i].id.Null?
    requires rows[j].id.Missing? || rows[j].id.Null?
    ensures RowsByKey(rows)[i].key != RowsByKey(rows)[j].key
  {
    DecimalInjective(i, j);
  }

  /** A string id can coincide with the positional key of a row without an id. */
  lemma KeysCanCollide()
    ensures RowKey(StrId("0"), 5) == RowKey(Missing, 0)
  {
  }

  /** The description searched: `image_description` when it is a string, else `""`. */
  function DescriptionText(row: ImageRow): string {
    row.description.GetOr("")
  }

  /** The search query: the search term trimmed and lower-cased. */
  function Query(searchTerm: string): string {
    Lower(Trim(searchTerm))
  }

  /** Whether a keyed row matches a non-empty query. */
  function MatchesQuery(query: string): KeyedRow -> bool {
    (k: KeyedRow) => Contains(Lower(DescriptionText(k.row)), query)
  }

  /** `filteredRows` */
  function FilteredRows(keyed: seq<KeyedRow>, searchTerm: string): (shown: seq<KeyedRow>)
    ensures Query(searchTerm) == [] ==> shown == keyed
    ensures Query(searchTerm) != [] ==> shown == Filter(MatchesQuery(Query(searchTerm)), keyed)
    ensures |shown| <= |keyed|
  {
    var query := Query(searchTerm);
    if query == [] then keyed else Filter(MatchesQuery(query), keyed)
  }

  /** A blank search term shows every row: the query is empty exactly when the term is blank. */
  lemma BlankSearchShowsAll(keyed: seq<KeyedRow>, searchTerm: string)
    requires IsBlank(searchTerm)
    ensures FilteredRows(keyed, searchTerm) == keyed
  {
  }

  /** A row is shown under a non-blank query exactly when its lower-cased description contains the query. */
  lemma FilteredMembership(keyed: seq<KeyedRow>, searchTerm: string, k: KeyedRow)
    requires Query(searchTerm) != []
    ensures k in FilteredRows(keyed, searchTerm) <==>
      k in keyed && Contains(Lower(DescriptionText(k.row)), Query(searchTerm))
  {
    FilterMembership(MatchesQuery(Query(searchTerm)), keyed, k);
  }

  /** Rows with no string description match no non-empty query. */
  lemma NoDescriptionHidden(keyed: seq<KeyedRow>, searchTerm: string, k: KeyedRow)
    requires Query(searchTerm) != [] && k.row.description.None?
    ensures k !in FilteredRows(keyed, searchTerm)
  {
    FilteredMembership(keyed, searchTerm, k);
    assert Lower([]) == [];
    assert !StartsWith([], Query(searchTerm));
  }

  /** Filtering keeps the order of the rows: more rows loaded later are shown after the earlier ones. */
  lemma FilteredAppend(keyed: seq<KeyedRow>, more: seq<KeyedRow>, searchTerm: string)
    ensures FilteredRows(keyed + more, searchTerm) ==
      FilteredRows(keyed, searchTerm) + FilteredRows(more, searchTerm)
  {
    if Query(searchTerm) != [] {
      FilterAppend(MatchesQuery(Query(searchTerm)), keyed, more);
    }
  }

  /** The filtered view is already filtered. */
  lemma FilteredIdempotent(keyed: seq<KeyedRow>, searchTerm: string)
    ensures FilteredRows(FilteredRows(keyed, searchTerm), searchTerm) == FilteredRows(keyed, searchTerm)
  {
    if Query(searchTerm) != [] {
      FilterIdempotent(MatchesQuery(Query(searchTerm)), keyed);
    }
  }

  /** `hasMore`: only a known total with rows still missing. */
  function HasMore(loaded: nat, totalCount: Option<int>): (more: bool)
    ensures more <==> totalCount.Some? && loaded < totalCount.value
  {
    match totalCount
    case Some(total) => loaded < total
    case None => false
  }

  /** An inclusive row range `.range(from, to)`. */
  datatype Range = Range(from: int, to: int)

  /** The number of rows an inclusive range asks for. */
  function RangeSize(r: Range): int {
    r.to - r.from + 1
  }

  /** The range of the page that follows `loaded` rows. */
  function NextPage(loaded: nat): (r: Range)
    ensures r.from == loaded && RangeSize(r) == PageSize
  {
    Range(loaded, loaded + PageSize - 1)
  }

  /** The first page asks for rows 0 through 11. */
  lemma FirstPage()
    ensures NextPage(0) == Range(0, 11)
  {
  }

  /** Consecutive pages meet without a gap or an overlap. */
  lemma PagesAdjacent(loaded: nat)
    ensures NextPage(loaded + PageSize).from == NextPage(loaded).to + 1
  {
  }

  /** `index % CARD_COLORS.length` */
  function CardColorIndex(index: nat): (i: nat)
    ensures i < |CardColors| && i == index % 12
  {
    index % |CardColors|
  }

  /** Colours cycle with period 12, and neighbouring cards never get the same slot. */
  lemma CardColorsCycle(index: nat)
    ensures CardColorIndex(index + 12) == CardColorIndex(index)
    ensures CardColorIndex(index + 1) != CardColorIndex(index)
  {
    var q, r := index / 12, index % 12;
    assert index == 12 * q + r;
    assert index + 12 == 12 * (q + 1) + r;
    if r < 11 {
      assert index + 1 == 12 * q + (r + 1);
    } else {
      assert index + 1 == 12 * (q + 1);
    }
  }

  /** The outcome of one `images` query: an error message, or the data and the count. */
  datatype PageResult =
    | PageFailed(message: string)
    | PageLoaded(data: Option<seq<ImageRow>>, count: Option<int>)

  /** The state of the page that these operations change. */
  class GalleryPage {
    var rows: seq<ImageRow>
    var loading: bool
    var loadingMore: bool
    var error: Option<string>
    var totalCount: Option<int>
    var searchTerm: string

    constructor()
      ensures rows == [] && loading && !loadingMore && error == None
      ensures totalCount == None && searchTerm == ""
    {
      rows := [];
      loading := true;
      loadingMore := false;
      error := None;
      totalCount := None;
      searchTerm := "";
    }

    function Shown(): seq<KeyedRow>
      reads this
    {
      FilteredRows(RowsByKey(rows), searchTerm)
    }

    function MoreToLoad(): bool
      reads this
    {
      HasMore(|rows|, totalCount)
    }

    /** The start of `fetchImages`: the first page is requested. */
    method StartInitialFetch() returns (request: Range)
      modifies this
      ensures request == NextPage(0)
      ensures loading && error == None
      ensures rows == old(rows) && loadingMore == old(loadingMore)
      ensures totalCount == old(totalCount) && searchTerm == old(searchTerm)
    {
      loading := true;
      error := None;
      request := Range(0, PageSize - 1);
    }

    /**
     * The end of `fetchImages`. Nothing happens once the page is unmounted; a
     * failure empties the rows and forgets the total; a success replaces the
     * rows and keeps the count only when it is a number.
     */
    method FinishInitialFetch(result: PageResult, mounted: bool)
      modifies this
      ensures !mounted ==>
        (rows == old(rows) && loading == old(loading) && error == old(error) && totalCount == old(totalCount))
      ensures mounted && result.PageFailed? ==>
        rows == [] && totalCount == None && error == Some(result.message) && !loading
      ensures mounted && result.PageLoaded? ==>
        rows == result.data.GetOr([]) && totalCount == result.count && error == old(error) && !loading
      ensures loadingMore == old(loadingMore) && searchTerm == old(searchTerm)
    {
      if !mounted {
        return;
      }
      match result {
        case PageFailed(message) =>
          error := Some(message);
          rows := [];
          totalCount := None;
        case PageLoaded(data, count) =>
          rows := data.GetOr([]);
          totalCount := count;
      }
      loading := false;
    }

    /**
     * The start of `handleLoadMore`: ignored while a load is running or when
     * nothing is left; otherwise the next page is requested.
     */
    method StartLoadMore() returns (request: Option<Range>)
      modifies this
      ensures old(loadingMore) || !old(MoreToLoad()) ==>
        request == None && loadingMore == old(loadingMore) && error == old(error)
      ensures !old(loadingMore) && old(MoreToLoad()) ==>
        request == Some(NextPage(|rows|)) && loadingMore && error == None
      ensures rows == old(rows) && loading == old(loading)
      ensures totalCount == old(totalCount) && searchTerm == old(searchTerm)
    {
      if loadingMore || !HasMore(|rows|, totalCount) {
        return None;
      }
      loadingMore := true;
      error := None;
      var from := |rows|;
      var to := |rows| + PageSize - 1;
      request := Some(Range(from, to));
    }

    /**
     * The end of `handleLoadMore`: a failure keeps the rows and records the
     * message, a success appends the page after the rows already shown.
     */
    method FinishLoadMore(result: PageResult)
      modifies this
      ensures result.PageFailed? ==> rows == old(rows) && error == Some(result.message)
      ensures result.PageLoaded? ==> rows == old(rows) + result.data.GetOr([]) && error == old(error)
      ensures |old(rows)| <= |rows| && rows[..|old(rows)|] == old(rows)
      ensures !loadingMore
      ensures loading == old(loading) && totalCount == old(totalCount) && searchTerm == old(searchTerm)
    {
      match result {
        case PageFailed(message) =>
          error := Some(message);
        case PageLoaded(data, _) =>
          rows := rows + data.GetOr([]);
      }
      loadingMore := false;
    }

    /** The search box. */
    method SetSearchTerm(term: string)
      modifies this
      ensures searchTerm == term
      ensures rows == old(rows) && loading == old(loading) && loadingMore == old(loadingMore)
      ensures error == old(error) && totalCount == old(totalCount)
    {
      searchTerm := term;
    }
  }

  /**
   * Loading a page only appends to what is shown: the rows shown before stay
   * first, followed by the page's rows that match, keyed from where the
   * earlier rows stop.
   */
  lemma LoadedPageAppendsToShown(rows: seq<ImageRow>, page: seq<ImageRow>, searchTerm: string)
    ensures FilteredRows(RowsByKey(rows + page), searchTerm) ==
      FilteredRows(RowsByKey(rows), searchTerm) + FilteredRows(KeyedFrom(page, |rows|), searchTerm)
  {
    RowsByKeyAppend(rows, page);
    FilteredAppend(RowsByKey(rows), KeyedFrom(page, |rows|), searchTerm);
  }
}
