/**
 * The catalog list page: the query it sends to `GET /books`, the state it keeps, and the
 * five-book sample table it filters locally when the request fails.
 */
module BookList {
  import opened Wrappers
  import opened Text
  import opened Http

  datatype Book = Book(bookId: string, title: string, author: string, category: string, coverUrl: Option<string>)

  /** The sample table shown when the server cannot be reached, in its declared order. */
  const MockBooks: seq<Book> := [
    Book("mock-1", "프론트엔드 실전 핸드북", "김코드", "프로그래밍", None),
    Book("mock-2", "데이터 과학으로 하는 의사결정", "이분석", "데이터", None),
    Book("mock-3", "클린 코드 여정", "박정리", "소프트웨어 공학",
      Some("https://images.unsplash.com/photo-1481627834876-b7833e8f5570?auto=format&fit=crop&w=500&q=80")),
    Book("mock-4", "AI Product Design", "Alice Kim", "UX/UI",
      Some("https://images.unsplash.com/photo-1451187580459-43490279c0fa?auto=format&fit=crop&w=500&q=80")),
    Book("mock-5", "서버리스 첫걸음", "최백엔드", "클라우드",
      Some("https://images.unsplash.com/photo-1498050108023-c5249f4df085?auto=format&fit=crop&w=500&q=80"))
  ]

  /** The category option that stands for "no category constraint". */
  const AllCategories := "전체"

  /** The error text used when the failed response carries no message. */
  const ListErrorText := "도서 목록을 불러오지 못했습니다."

  /** The two arguments of `fetchBooks(keyword, categoryFilter)`; `""` means "no constraint". */
  datatype Criteria = Criteria(keyword: string, category: string)

  predicate MatchesKeyword(b: Book, keyword: string) {
    keyword == "" || Contains(Lower(b.title), Lower(keyword)) || Contains(Lower(b.author), Lower(keyword))
  }

  predicate MatchesCategory(b: Book, category: string) {
    category == "" || Contains(Lower(b.category), Lower(category))
  }

  /** The predicate the failure path hands to `MOCK_BOOKS.filter`. */
  predicate Matches(b: Book, c: Criteria) {
    MatchesKeyword(b, c.keyword) && MatchesCategory(b, c.category)
  }

  /** `books.filter(b => Matches(b, c))`. */
  function FilterBooks(books: seq<Book>, c: Criteria): (r: seq<Book>)
    ensures |r| <= |books|
  {
    if books == [] then []
    else (if Matches(books[0], c) then [books[0]] else []) + FilterBooks(books[1..], c)
  }

  /** The sample books the failure path shows for criteria `c`. */
  function MockFilter(c: Criteria): seq<Book> {
    FilterBooks(MockBooks, c)
  }

  /** `r` is `s` with some elements left out and the rest in their original order. */
  predicate IsSubsequence<T(==)>(r: seq<T>, s: seq<T>)
    decreases |s|
  {
    r == [] || (s != [] && ((r[0] == s[0] && IsSubsequence(r[1..], s[1..])) || IsSubsequence(r, s[1..])))
  }

  /** Filtering never adds or reorders books. */
  lemma {:induction false} FilterIsSubsequence(books: seq<Book>, c: Criteria)
    ensures IsSubsequence(FilterBooks(books, c), books)
    decreases |books|
  {
    if books != [] {
      var r := FilterBooks(books, c);
      FilterIsSubsequence(books[1..], c);
      if Matches(books[0], c) {
        assert r[0] == books[0] && r[1..] == FilterBooks(books[1..], c);
      } else {
        assert r == FilterBooks(books[1..], c);
      }
    }
  }

  /** A book is kept exactly when it is in the list and matches the criteria. */
  lemma {:induction false} FilterMembership(books: seq<Book>, c: Criteria, b: Book)
    ensures b in FilterBooks(books, c) <==> b in books && Matches(b, c)
    decreases |books|
  {
    if books != [] {
      FilterMembership(books[1..], c, b);
      assert books == [books[0]] + books[1..];
    }
  }

  /** When every book matches, the filter returns the whole list. */
  lemma {:induction false} FilterKeepsAll(books: seq<Book>, c: Criteria)
    requires forall b :: b in books ==> Matches(b, c)
    ensures FilterBooks(books, c) == books
    decreases |books|
  {
    if books != [] {
      assert books[0] in books;
      forall b | b in books[1..] ensures Matches(b, c) { assert b in books; }
      FilterKeepsAll(books[1..], c);
      assert [books[0]] + books[1..] == books;
    }
  }

  /** The filter comes out empty exactly when no book of the list matches. */
  lemma FilterEmptyIff(books: seq<Book>, c: Criteria)
    ensures FilterBooks(books, c) == [] <==> forall b :: b in books ==> !Matches(b, c)
  {
    var r := FilterBooks(books, c);
    if r != [] {
      FilterMembership(books, c, r[0]);
    }
    forall b | b in books && Matches(b, c) ensures b in r {
      FilterMembership(books, c, b);
    }
  }

  /** Keywords that lower to the same text select the same books: the test ignores ASCII case. */
  lemma MatchesIgnoresCase(b: Book, k1: string, k2: string, category: string)
    requires Lower(k1) == Lower(k2)
    ensures Matches(b, Criteria(k1, category)) <==> Matches(b, Criteria(k2, category))
  {
    assert |k1| == |Lower(k1)| == |Lower(k2)| == |k2|;
  }

  /** Criteria that every book of `books` matches alike give the same filtered list. */
  lemma {:induction false} FilterAgrees(books: seq<Book>, c1: Criteria, c2: Criteria)
    requires forall b :: b in books ==> (Matches(b, c1) <==> Matches(b, c2))
    ensures FilterBooks(books, c1) == FilterBooks(books, c2)
    decreases |books|
  {
    if books != [] {
      assert books[0] in books;
      forall b | b in books[1..] ensures Matches(b, c1) <==> Matches(b, c2) { assert b in books; }
      FilterAgrees(books[1..], c1, c2);
    }
  }

  /** The filter is case-insensitive in the keyword: two keywords equal once lowered select the same books. */
  lemma FilterIgnoresCase(books: seq<Book>, k1: string, k2: string, category: string)
    requires Lower(k1) == Lower(k2)
    ensures FilterBooks(books, Criteria(k1, category)) == FilterBooks(books, Criteria(k2, category))
  {
    forall b | b in books ensures Matches(b, Criteria(k1, category)) <==> Matches(b, Criteria(k2, category)) {
      MatchesIgnoresCase(b, k1, k2, category);
    }
    FilterAgrees(books, Criteria(k1, category), Criteria(k2, category));
  }

  /** An empty keyword and an empty category show all five sample books, in order. */
  lemma EmptyCriteriaShowsAllMocks()
    ensures MockFilter(Criteria("", "")) == MockBooks
    ensures |MockFilter(Criteria("", ""))| == 5
  {
    FilterKeepsAll(MockBooks, Criteria("", ""));
  }

  /** A lower-case `keyword` whose first letter occurs in `s` in neither case is not included in `Lower(s)`. */
  lemma NotIncludedWithoutFirstLetter(s: string, keyword: string)
    requires keyword != [] && 'a' <= keyword[0] <= 'z'
    requires keyword[0] !in s && (keyword[0] as int - 32) as char !in s
    ensures !Contains(Lower(s), keyword)
  {
    if Contains(Lower(s), keyword) {
      ContainsFirstChar(Lower(s), keyword);
      LowerMember(s, keyword[0]);
    }
  }

  /** The sample books other than mock-4 are written in Hangul only. */
  lemma HangulOnlyMocks()
    ensures forall i :: 0 <= i < |MockBooks| && i != 3 ==> NoAsciiLetter(MockBooks[i].title) && NoAsciiLetter(MockBooks[i].author)
  {
    var m := MockBooks;
    assert NoAsciiLetter(m[0].title) && NoAsciiLetter(m[0].author);
    assert NoAsciiLetter(m[1].title) && NoAsciiLetter(m[1].author);
    assert NoAsciiLetter(m[2].title) && NoAsciiLetter(m[2].author);
    assert NoAsciiLetter(m[4].title) && NoAsciiLetter(m[4].author);
  }

  /** A keyword starting with an ASCII letter misses every book written in Hangul only. */
  lemma AsciiKeywordMissesHangulBook(b: Book, keyword: string)
    requires NoAsciiLetter(b.title) && NoAsciiLetter(b.author)
    requires keyword != [] && IsAsciiLetter(keyword[0])
    ensures !MatchesKeyword(b, keyword)
  {
    NoAsciiLetterMisses(b.title, keyword);
    NoAsciiLetterMisses(b.author, keyword);
  }

  /** The books of `books` that match `c`, when the list holds one book. */
  function Keep(b: Book, c: Criteria): seq<Book> {
    if Matches(b, c) then [b] else []
  }

  lemma FilterStep(books: seq<Book>, c: Criteria, k: nat)
    requires k < |books|
    ensures FilterBooks(books[k..], c) == Keep(books[k], c) + FilterBooks(books[k + 1..], c)
  {
    assert books[k..][1..] == books[k + 1..];
  }

  /** The filter of a five-book list, written out book by book. */
  lemma FilterFiveUnrolled(books: seq<Book>, c: Criteria)
    requires |books| == 5
    ensures FilterBooks(books, c) == Keep(books[0], c) + (Keep(books[1], c) + (Keep(books[2], c)
                                     + (Keep(books[3], c) + Keep(books[4], c))))
  {
    FilterStep(books, c, 0);
    FilterStep(books, c, 1);
    FilterStep(books, c, 2);
    FilterStep(books, c, 3);
    FilterStep(books, c, 4);
    assert books[0..] == books;
    assert books[5..] == [];
  }

  /** An ASCII keyword misses the four Hangul-only sample books. */
  lemma AsciiKeywordMissesHangulMocks(keyword: string)
    requires keyword != [] && IsAsciiLetter(keyword[0])
    ensures forall i :: 0 <= i < |MockBooks| && i != 3 ==> !Matches(MockBooks[i], Criteria(keyword, ""))
  {
    HangulOnlyMocks();
    forall i | 0 <= i < |MockBooks| && i != 3 ensures !Matches(MockBooks[i], Criteria(keyword, "")) {
      AsciiKeywordMissesHangulBook(MockBooks[i], keyword);
    }
  }

  /** "Alice Kim", lowered, includes "kim". */
  lemma KimMatchesMock4()
    ensures Matches(MockBooks[3], Criteria("kim", ""))
  {
    var author := MockBooks[3].author;
    assert Lower("kim") == "kim";
    assert Lower(author)[6..9] == "kim";
    assert OccursAt(Lower(author), "kim", 6);
    ContainsIff(Lower(author), "kim");
  }

  /** The keyword "kim" without a category selects only mock-4, whose author is "Alice Kim". */
  lemma KimSelectsMock4()
    ensures MockFilter(Criteria("kim", "")) == [MockBooks[3]]
    ensures MockBooks[3].bookId == "mock-4" && MockBooks[3].author == "Alice Kim"
  {
    AsciiKeywordMissesHangulMocks("kim");
    KimMatchesMock4();
    FilterFiveUnrolled(MockBooks, Criteria("kim", ""));
  }

  /** Mock-4's title and author have no "z" in either case. */
  lemma ZzzMissesMock4()
    ensures !Matches(MockBooks[3], Criteria("zzz", ""))
  {
    var title, author := MockBooks[3].title, MockBooks[3].author;
    assert Lower("zzz") == "zzz";
    assert 'z' !in title && 'Z' !in title;
    assert 'z' !in author && 'Z' !in author;
    NotIncludedWithoutFirstLetter(title, "zzz");
    NotIncludedWithoutFirstLetter(author, "zzz");
  }

  /** A keyword that occurs in no sample title or author, such as "zzz", selects nothing. */
  lemma ZzzSelectsNothing()
    ensures MockFilter(Criteria("zzz", "")) == []
  {
    AsciiKeywordMissesHangulMocks("zzz");
    ZzzMissesMock4();
    FilterFiveUnrolled(MockBooks, Criteria("zzz", ""));
  }

  /** The upper-case keyword "KIM" selects the same sample book as "kim". */
  lemma UpperKimSelectsMock4()
    ensures MockFilter(Criteria("KIM", "")) == [MockBooks[3]]
  {
    assert Lower("KIM") == "kim" == Lower("kim");
    FilterIgnoresCase(MockBooks, "KIM", "kim", "");
    KimSelectsMock4();
  }

  /**
   * The `params` object of `GET /books`: a `keyword` key only for a non-empty keyword and a
   * `category` key only for a non-empty category, each holding the value unchanged.
   */
  function BuildParams(c: Criteria): (params: map<string, string>)
    ensures ("keyword" in params) == (c.keyword != "")
    ensures "keyword" in params ==> params["keyword"] == c.keyword
    ensures ("category" in params) == (c.category != "")
    ensures "category" in params ==> params["category"] == c.category
    ensures params.Keys <= {"keyword", "category"}
  {
    var withKeyword := if c.keyword != "" then map["keyword" := c.keyword] else map[];
    if c.category != "" then withKeyword["category" := c.category] else withKeyword
  }

  /** `handleSearch`'s arguments: the trimmed keyword, and `""` for the "all" category. */
  function SearchCriteria(searchKeyword: string, categoryKeyword: string): (c: Criteria)
    ensures c.keyword == Trim(searchKeyword)
    ensures c.category == if categoryKeyword == AllCategories then "" else Trim(categoryKeyword)
  {
    Criteria(Trim(searchKeyword), if categoryKeyword == AllCategories then "" else Trim(categoryKeyword))
  }

  /** Both criteria have no whitespace at either end. */
  predicate Normalised(c: Criteria) {
    Trimmed(c.keyword) && Trimmed(c.category)
  }

  /** Search criteria are normalised, and the "all" category sends no `category` parameter. */
  lemma SearchCriteriaNormalised(searchKeyword: string, categoryKeyword: string)
    ensures Normalised(SearchCriteria(searchKeyword, categoryKeyword))
    ensures categoryKeyword == AllCategories ==> "category" !in BuildParams(SearchCriteria(searchKeyword, categoryKeyword))
    ensures Trim(searchKeyword) == "" ==> "keyword" !in BuildParams(SearchCriteria(searchKeyword, categoryKeyword))
  {
  }

  /** What a settled `fetchBooks` leaves in `books`, `error` and `usingMock`. */
  datatype ListView = ListView(books: seq<Book>, error: string, usingMock: bool)

  /** The failure path: the error's message or the fixed text, and the filtered sample table. */
  function Fallback(c: Criteria, e: AxiosError): (v: ListView)
    ensures v.usingMock && v.error != "" && v.books == MockFilter(c)
    ensures v.error == MessageOr(e, ListErrorText)
  {
    ListView(MockFilter(c), MessageOr(e, ListErrorText), true)
  }

  /**
   * `fetchBooks(c.keyword, c.category)` once its request settled with `o`. A null response body
   * makes `res.data.data` throw inside the `try`, so it takes the failure path as well.
   */
  function Resolve(c: Criteria, o: Outcome<Option<Envelope<seq<Book>>>>): (v: ListView)
    ensures v.usingMock <==> !(o.Ok? && o.body.Some?)
    ensures v.usingMock ==> v.books == MockFilter(c) && v.error != ""
    ensures !v.usingMock ==> v.error == "" && v.books == o.body.value.data.GetOr([])
    ensures o.Failure? ==> v.error == MessageOr(o.err, ListErrorText)
    ensures o.Ok? && o.body.None? ==> v.error == ListErrorText
  {
    match o
    case Ok(body) =>
      (match body
       case Some(env) => ListView(env.data.GetOr([]), "", false)
       case None => Fallback(c, NullBody))
    case Failure(e) => Fallback(c, e)
  }

  class BookListPage {
    var books: seq<Book>
    var loading: bool
    var error: string
    var usingMock: bool
    /** The text in the search box. */
    var searchKeyword: string
    /** The selected category option. */
    var categoryKeyword: string
    /** The `fetchBooks` calls whose request has not settled, in the order they were made. */
    var pending: seq<Criteria>
    /** The query parameters of every `GET /books` sent so far. */
    var requests: seq<map<string, string>>

    /**
     * An error message is on screen exactly when the sample table is. While loading, the page
     * renders only its loading text, so no control can start a second fetch: at most one fetch is
     * in flight, exactly while loading, it is the last request sent, and its criteria are normalised.
     */
    ghost predicate Valid()
      reads this
    {
      (usingMock <==> error != "")
      && |pending| <= 1 && (loading <==> |pending| == 1)
      && (loading ==> |requests| > 0 && requests[|requests| - 1] == BuildParams(pending[0]))
      && forall i :: 0 <= i < |pending| ==> Normalised(pending[i])
    }

    /** The error alert with its retry button is shown for `error && !usingMock`. */
    function ShowsRetryAlert(): (shown: bool)
      reads this
      ensures Valid() ==> !shown
    {
      error != "" && !usingMock
    }

    /**
     * The search box, the category select and the two buttons exist only when the page is not
     * loading, which is exactly when no fetch is in flight.
     */
    function ShowsControls(): (shown: bool)
      reads this
      ensures Valid() ==> (shown <==> pending == [])
    {
      !loading
    }

    /** Mounting: the initial state, and the effect's `fetchBooks("", "")`. */
    constructor ()
      ensures Valid()
      ensures books == [] && loading && error == "" && !usingMock
      ensures searchKeyword == "" && categoryKeyword == AllCategories
      ensures pending == [Criteria("", "")] && requests == [map[]]
    {
      books := [];
      loading := true;
      error := "";
      usingMock := false;
      searchKeyword := "";
      categoryKeyword := AllCategories;
      pending := [Criteria("", "")];
      requests := [BuildParams(Criteria("", ""))];
    }

    /** The synchronous part of `fetchBooks`: build the parameters and send the request. */
    method FetchBooks(c: Criteria)
      modifies this
      ensures pending == old(pending) + [c]
      ensures requests == old(requests) + [BuildParams(c)]
      ensures books == old(books) && loading == old(loading) && error == old(error) && usingMock == old(usingMock)
      ensures searchKeyword == old(searchKeyword) && categoryKeyword == old(categoryKeyword)
    {
      requests := requests + [BuildParams(c)];
      pending := pending + [c];
    }

    /** Typing in the search box. */
    method EditKeyword(value: string)
      requires Valid() && ShowsControls()
      modifies this`searchKeyword
      ensures Valid() && searchKeyword == value
    {
      searchKeyword := value;
    }

    /** Choosing a category option. */
    method EditCategory(value: string)
      requires Valid() && ShowsControls()
      modifies this`categoryKeyword
      ensures Valid() && categoryKeyword == value
    {
      categoryKeyword := value;
    }

    /** `handleSearch`: show the loading view and fetch with the normalised search box and category. */
    method HandleSearch()
      requires Valid() && ShowsControls()
      modifies this
      ensures Valid()
      ensures loading
      ensures pending == [SearchCriteria(searchKeyword, categoryKeyword)]
      ensures requests == old(requests) + [BuildParams(SearchCriteria(searchKeyword, categoryKeyword))]
      ensures books == old(books) && error == old(error) && usingMock == old(usingMock)
      ensures searchKeyword == old(searchKeyword) && categoryKeyword == old(categoryKeyword)
    {
      loading := true;
      var c := SearchCriteria(searchKeyword, categoryKeyword);
      SearchCriteriaNormalised(searchKeyword, categoryKeyword);
      FetchBooks(c);
      assert pending == [c];
    }

    /** `handleReset`: clear the search box, select "all", and fetch with no constraint. */
    method HandleReset()
      requires Valid() && ShowsControls()
      modifies this
      ensures Valid()
      ensures searchKeyword == "" && categoryKeyword == AllCategories && loading
      ensures pending == [Criteria("", "")]
      ensures requests == old(requests) + [map[]]
      ensures books == old(books) && error == old(error) && usingMock == old(usingMock)
    {
      searchKeyword := "";
      categoryKeyword := AllCategories;
      loading := true;
      FetchBooks(Criteria("", ""));
      assert Normalised(Criteria("", ""));
    }

    /**
     * The one fetch in flight settles with `o`. There is no check that it is the latest request,
     * and none is needed: it is the last request sent, since no control is shown until it settles.
     */
    method Settle(o: Outcome<Option<Envelope<seq<Book>>>>)
      requires Valid() && loading
      modifies this
      ensures Valid()
      ensures old(requests[|requests| - 1]) == BuildParams(old(pending[0]))
      ensures books == Resolve(old(pending[0]), o).books
      ensures error == Resolve(old(pending[0]), o).error
      ensures usingMock == Resolve(old(pending[0]), o).usingMock
      ensures !loading && pending == []
      ensures requests == old(requests)
      ensures searchKeyword == old(searchKeyword) && categoryKeyword == old(categoryKeyword)
    {
      var c := pending[0];
      pending := [];
      match o {
        case Ok(body) =>
          match body {
            case Some(env) =>
              books := env.data.GetOr([]);
              error := "";
              usingMock := false;
            case None =>
              error := MessageOr(NullBody, ListErrorText);
              books := MockFilter(c);
              usingMock := true;
          }
        case Failure(e) =>
          error := MessageOr(e, ListErrorText);
          books := MockFilter(c);
          usingMock := true;
      }
      loading := false;
    }
  }

  /**
   * A client of the page: the mount fetch settles, the user searches for "kim", and the search
   * fails. Before the search settles no control is shown, so nothing else can be fetched; the
   * page shows the sample books for "kim" under the search box that asked for them.
   */
  method SearchShowsItsOwnResult() returns (shown: seq<Book>, searchBox: string, viaMock: bool, sentLast: map<string, string>)
    ensures shown == [MockBooks[3]] && searchBox == "kim" && viaMock
    ensures sentLast == map["keyword" := "kim"]
  {
    KimSearch();
    var page := new BookListPage();
    page.Settle(Ok(Some(Envelope(None, Some([])))));
    page.EditKeyword("kim");
    assert page.searchKeyword == "kim" && page.categoryKeyword == AllCategories;
    page.HandleSearch();
    ghost var c := SearchCriteria("kim", AllCategories);
    assert page.pending == [c];
    var params := page.requests[|page.requests| - 1];
    assert params == BuildParams(c);
    assert !page.ShowsControls();
    page.Settle(Failure(AxiosError("AxiosError", false, None)));
    shown, searchBox, viaMock := page.books, page.searchKeyword, page.usingMock;
    sentLast := params;
  }

  /** Searching for "kim" with the "전체" category: the criteria, the parameters and the sample books. */
  lemma KimSearch()
    ensures SearchCriteria("kim", AllCategories) == Criteria("kim", "")
    ensures BuildParams(Criteria("kim", "")) == map["keyword" := "kim"]
    ensures MockFilter(Criteria("kim", "")) == [MockBooks[3]]
  {
    TrimKeepsTrimmed("kim");
    KimSelectsMock4();
  }
}
