/**
 * The detail page `/books/:id`: fetch one book, then show a loading text, the error, a not-found
 * text or the book, in that order of priority.
 */
module BookDetail {
  import opened Wrappers
  import opened Http

  /** The book as `GET /books/:id` returns it in the envelope's `data`. */
  datatype Book = Book(title: string, author: string, category: string, description: string, coverUrl: Option<string>)

  const DetailErrorText := "도서 정보를 불러오지 못했습니다."

  /**
   * What the page renders: the text "불러오는 중...", the error message, the text
   * "책을 찾을 수 없습니다.", or the book, with or without its cover image.
   */
  datatype View = Loading | ErrorView(message: string) | NotFound | Details(book: Book, showsCover: bool)

  /** The early returns of the render, then the detail with the cover only for a non-empty `coverUrl`. */
  function SelectView(loading: bool, error: string, book: Option<Book>): (v: View)
    ensures v == Loading <==> loading
    ensures v.ErrorView? <==> !loading && error != ""
    ensures v.ErrorView? ==> v.message == error
    ensures v == NotFound <==> !loading && error == "" && book.None?
    ensures v.Details? <==> !loading && error == "" && book.Some?
    ensures v.Details? ==> v.book == book.value && (v.showsCover <==> book.value.coverUrl.Some? && book.value.coverUrl.value != "")
  {
    if loading then Loading
    else if error != "" then ErrorView(error)
    else match book
      case None => NotFound
      case Some(b) => Details(b, b.coverUrl.Some? && b.coverUrl.value != "")
  }

  /** How one `fetchBook` settles: the new `book` and `error`, given the old ones. */
  datatype Settled = Settled(book: Option<Book>, error: string)

  /**
   * `setBook(res.data.data)` on success, which throws inside the `try` for a null body; the
   * `catch` sets the server's message or the fixed text. Neither path touches the other field.
   */
  function SettleFetch(book: Option<Book>, error: string, o: Outcome<Option<Envelope<Book>>>): (r: Settled)
    ensures o.Ok? && o.body.Some? ==> r == Settled(o.body.value.data, error)
    ensures o.Ok? && o.body.None? ==> r == Settled(book, DetailErrorText)
    ensures o.Failure? ==> r == Settled(book, MessageOr(o.err, DetailErrorText))
    ensures r.error == error || r.error != ""
  {
    match o
    case Ok(body) =>
      (match body
       case Some(env) => Settled(env.data, error)
       case None => Settled(book, MessageOr(NullBody, DetailErrorText)))
    case Failure(e) => Settled(book, MessageOr(e, DetailErrorText))
  }

  class BookDetailPage {
    var id: string
    var book: Option<Book>
    var loading: bool
    var error: string
    /** How many `GET /books/:id` requests are in flight, and the path of each one sent, in order. */
    var awaiting: nat
    var requested: seq<string>
    var lastRoute: Option<string>

    function View(): (v: View)
      reads this
      ensures v == SelectView(loading, error, book)
    {
      SelectView(loading, error, book)
    }

    /** Mounting with route parameter `id`: initial state, and the effect's first fetch. */
    constructor (id: string)
      ensures this.id == id && book.None? && loading && error == ""
      ensures awaiting == 1 && requested == ["/books/" + id] && lastRoute.None?
    {
      this.id := id;
      book := None;
      loading := true;
      error := "";
      awaiting := 1;
      requested := ["/books/" + id];
      lastRoute := None;
    }

    /**
     * The route parameter changes: the effect fetches again, but neither `loading` nor `error` is
     * reset, so an earlier error or book stays on screen until the new request settles.
     */
    method RouteChanged(next: string)
      modifies this
      ensures next == old(id) ==> id == old(id) && requested == old(requested) && awaiting == old(awaiting)
      ensures next != old(id) ==> id == next && requested == old(requested) + ["/books/" + next] && awaiting == old(awaiting) + 1
      ensures book == old(book) && loading == old(loading) && error == old(error) && lastRoute == old(lastRoute)
    {
      if next != id {
        id := next;
        requested := requested + ["/books/" + next];
        awaiting := awaiting + 1;
      }
    }

    /** A fetch settles with `o`; `finally` always ends loading. */
    method FetchSettled(o: Outcome<Option<Envelope<Book>>>)
      requires awaiting > 0
      modifies this
      ensures Settled(book, error) == SettleFetch(old(book), old(error), o)
      ensures !loading && awaiting == old(awaiting) - 1
      ensures id == old(id) && requested == old(requested) && lastRoute == old(lastRoute)
    {
      match o {
        case Ok(body) =>
          if body.Some? {
            book := body.value.data;
          } else {
            error := MessageOr(NullBody, DetailErrorText);
          }
        case Failure(e) =>
          error := MessageOr(e, DetailErrorText);
      }
      loading := false;
      awaiting := awaiting - 1;
    }

    /** The back button. */
    method Back()
      modifies this
      ensures lastRoute == Some("/books")
      ensures id == old(id) && book == old(book) && loading == old(loading) && error == old(error)
      ensures awaiting == old(awaiting) && requested == old(requested)
    {
      lastRoute := Some("/books");
    }
  }

  /** The view after the first fetch of a freshly mounted page settles. */
  function FirstView(o: Outcome<Option<Envelope<Book>>>): View {
    var r := SettleFetch(None, "", o);
    SelectView(false, r.error, r.book)
  }

  /**
   * After the first fetch: a body whose envelope has a book shows it; a body without one shows the
   * not-found text; a failure or a null body shows the server's message or the fixed text.
   */
  lemma FirstViewCases(o: Outcome<Option<Envelope<Book>>>)
    ensures o.Ok? && o.body.Some? && o.body.value.data.Some? ==> FirstView(o).Details? && FirstView(o).book == o.body.value.data.value
    ensures o.Ok? && o.body.Some? && o.body.value.data.None? ==> FirstView(o) == NotFound
    ensures o.Ok? && o.body.None? ==> FirstView(o) == ErrorView(DetailErrorText)
    ensures o.Failure? ==> FirstView(o) == ErrorView(MessageOr(o.err, DetailErrorText))
    ensures FirstView(o) != Loading
  {
  }

  /**
   * Once an error is shown it stays: no later settlement clears `error`, so even a successful
   * fetch after a route change renders the old error instead of the book.
   */
  lemma ErrorIsSticky(book: Option<Book>, error: string, o: Outcome<Option<Envelope<Book>>>)
    requires error != ""
    ensures SettleFetch(book, error, o).error != ""
    ensures SelectView(false, SettleFetch(book, error, o).error, SettleFetch(book, error, o).book).ErrorView?
  {
  }

  /** A client of the page: a failed load, a route change, then a successful load still shows the error. */
  method StaleErrorAfterRouteChange(b: Book) returns (v: View)
    ensures v == ErrorView(DetailErrorText)
  {
    var page := new BookDetailPage("1");
    page.FetchSettled(Failure(AxiosError("AxiosError", false, None)));
    page.RouteChanged("2");
    page.FetchSettled(Ok(Some(Envelope(Some("ok"), Some(b)))));
    v := page.View();
  }
}
