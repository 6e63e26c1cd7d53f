/**
 * The login page. There is no login request: a submit with both fields filled stores the fixed
 * user id `TEMP_USER_ID` in `localStorage` and goes to `/`, which is the id the registration
 * form then posts.
 */
module Login {
  import opened Wrappers
  import opened Storage
  import BookForm

  const MissingFieldsText := "이메일과 비밀번호를 모두 입력해 주세요."
  const LoginErrorText := "로그인 중 오류가 발생했습니다."

  datatype LoginForm = LoginForm(email: string, password: string)

  /** The `name` of the two inputs. */
  datatype LoginField = Email | Password

  /** `{ ...prev, [name]: value }`. */
  function Set(f: LoginForm, name: LoginField, value: string): (g: LoginForm)
    ensures name == Email ==> g == LoginForm(value, f.password)
    ensures name == Password ==> g == LoginForm(f.email, value)
  {
    match name
    case Email => f.(email := value)
    case Password => f.(password := value)
  }

  /** The submit goes ahead only with both fields non-empty; spaces count as content. */
  predicate Complete(f: LoginForm) {
    f.email != "" && f.password != ""
  }

  class LoginPage {
    var form: LoginForm
    var error: string
    var loading: bool
    var lastRoute: Option<string>
    const store: LocalStorage

    constructor (store: LocalStorage)
      ensures form == LoginForm("", "") && error == "" && !loading && lastRoute.None? && this.store == store
    {
      form := LoginForm("", "");
      error := "";
      loading := false;
      lastRoute := None;
      this.store := store;
    }

    /** Typing in a field updates it and clears the error. */
    method HandleChange(name: LoginField, value: string)
      modifies this
      ensures form == Set(old(form), name, value) && error == ""
      ensures loading == old(loading) && lastRoute == old(lastRoute)
    {
      form := Set(form, name, value);
      error := "";
    }

    /**
     * `handleSubmit`. `storageThrows` says whether `localStorage.setItem` throws (storage full or
     * disabled); such an exception has no `response`, so the fixed message is shown. `loading` is
     * set and reset within the same handler and ends false.
     */
    method HandleSubmit(storageThrows: bool)
      modifies this, store
      ensures form == old(form)
      ensures !Complete(form) ==>
        error == MissingFieldsText && loading == old(loading) && lastRoute == old(lastRoute)
        && store.items == old(store.items)
      ensures Complete(form) && storageThrows ==>
        error == LoginErrorText && !loading && lastRoute == old(lastRoute) && store.items == old(store.items)
      ensures Complete(form) && !storageThrows ==>
        error == old(error) && !loading && lastRoute == Some("/")
        && store.items == old(store.items)["userId" := BookForm.TempUserId]
    {
      if form.email == "" || form.password == "" {
        error := MissingFieldsText;
        return;
      }
      loading := true;
      if storageThrows {
        error := LoginErrorText;
      } else {
        store.SetItem("userId", BookForm.TempUserId);
        lastRoute := Some("/");
      }
      loading := false;
    }
  }

  /** Whether or not the user logged in first, the book payload carries `TEMP_USER_ID`. */
  lemma PostedUserIsTemp(items: map<string, string>, f: BookForm.Fields, suggestion: string)
    requires "userId" in items ==> items["userId"] == BookForm.TempUserId
    ensures BookForm.SubmitPayload(if "userId" in items then Some(items["userId"]) else None, f, suggestion).userId
      == BookForm.TempUserId
  {
  }

  /** Logging in and then registering a book: the page shares the store, and the post carries the stored id. */
  method LoginThenRegister(title: string, author: string) returns (posted: BookForm.BookPayload)
    requires title != "" && author != ""
    ensures posted.userId == BookForm.TempUserId && posted.title == title && posted.author == author
    ensures posted.aiSummary.None?
  {
    var store := new LocalStorage();
    var login := new LoginPage(store);
    login.HandleChange(Email, "reader@example.com");
    login.HandleChange(Password, "secret");
    login.HandleSubmit(false);
    var page := new BookForm.BookFormPage(store);
    page.HandleChange(BookForm.Title, title);
    page.HandleChange(BookForm.Author, author);
    page.HandleSubmit(false);
    posted := page.posts[|page.posts| - 1];
  }
}
