/**
 * The state of the employer dashboard view
 * (ai_app_frontend/src/components/EmployerDashboard.js): the token check made
 * when the view opens, the two outcomes of loading the candidate list, and logout.
 * The browser's `localStorage` and the router are objects the view is given.
 */
module Dashboard {
  import opened Wrappers
  import Ranking

  const TokenKey := "authToken"
  const LoginPath := "/employer"
  const LoadError := "Không thể tải danh sách ứng viên."

  /** The browser's `localStorage`: string keys to string values. */
  class LocalStorage {
    var items: map<string, string>

    constructor (items: map<string, string>)
      ensures this.items == items
    {
      this.items := items;
    }

    /** `getItem(key)`: `null` when the key is absent. */
    function GetItem(key: string): (r: Option<string>)
      reads this
      ensures r.Some? <==> key in items
      ensures r.Some? ==> r.value == items[key]
    {
      if key in items then Some(items[key]) else None
    }

    /** `removeItem(key)`. */
    method RemoveItem(key: string)
      modifies this
      ensures items == old(items) - {key}
    {
      items := items - {key};
    }
  }

  /** The router; `history` lists the paths `navigate` was called with. */
  class Router {
    var history: seq<string>

    constructor ()
      ensures history == []
    {
      history := [];
    }

    /** `navigate(path)`. */
    method Navigate(path: string)
      modifies this
      ensures history == old(history) + [path]
    {
      history := history + [path];
    }
  }

  /** A stored token the guard accepts: present and not the empty string (`!token` is false). */
  predicate HasToken(stored: Option<string>) {
    stored.Some? && stored.value != ""
  }

  class EmployerDashboard {
    const storage: LocalStorage
    const router: Router
    var candidates: seq<Ranking.CandidateRecord>
    var loading: bool
    var error: Option<string>

    /** The initial state: no candidates, loading, no error. */
    constructor (storage: LocalStorage, router: Router)
      ensures this.storage == storage && this.router == router
      ensures candidates == [] && loading && error == None
    {
      this.storage := storage;
      this.router := router;
      candidates := [];
      loading := true;
      error := None;
    }

    /**
     * The effect run when the view opens. Without a usable stored token it
     * navigates to the login page and requests nothing (and `loading` stays as
     * it was); otherwise it returns the token the candidate request is made with.
     */
    method Open() returns (request: Option<string>)
      modifies router
      ensures HasToken(storage.GetItem(TokenKey)) <==> request.Some?
      ensures request.Some? ==> request == storage.GetItem(TokenKey)
                                && router.history == old(router.history)
      ensures request.None? ==> router.history == old(router.history) + [LoginPath]
    {
      var token := storage.GetItem(TokenKey);
      if !HasToken(token) {
        router.Navigate(LoginPath);
        return None;
      }
      request := token;
    }

    /**
     * The list arrived: it is ranked in place and becomes the shown list, and
     * loading ends.
     */
    method LoadSucceeded(data: array<Ranking.CandidateRecord>)
      modifies this, data
      ensures data[..] == Ranking.SortedByScore(old(data[..]))
      ensures candidates == data[..]
      ensures multiset(candidates) == multiset(old(data[..]))
      ensures Ranking.Descending(candidates, Ranking.TotalScore)
      ensures forall v :: Ranking.WithKey(candidates, Ranking.TotalScore, v)
                       == Ranking.WithKey(old(data[..]), Ranking.TotalScore, v)
      ensures !loading && error == old(error)
    {
      Ranking.SortByScore(data);
      candidates := data[..];
      loading := false;
    }

    /** The request failed: the fixed message is shown, the list is untouched, loading ends. */
    method LoadFailed()
      modifies this
      ensures error == Some(LoadError) && !loading && candidates == old(candidates)
    {
      error := Some(LoadError);
      loading := false;
    }

    /** `handleLogout`: forget the token and go to the login page. */
    method Logout()
      modifies storage, router
      ensures storage.items == old(storage.items) - {TokenKey}
      ensures storage.GetItem(TokenKey).None?
      ensures router.history == old(router.history) + [LoginPath]
    {
      storage.RemoveItem(TokenKey);
      router.Navigate(LoginPath);
    }
  }

  /** A failed load leaves the freshly opened view with an empty list. */
  method FailedLoadShowsNothing(storage: LocalStorage, router: Router)
    returns (shown: seq<Ranking.CandidateRecord>, message: Option<string>, stillLoading: bool)
    ensures shown == [] && message == Some(LoadError) && !stillLoading
  {
    var view := new EmployerDashboard(storage, router);
    view.LoadFailed();
    shown, message, stillLoading := view.candidates, view.error, view.loading;
  }
}
