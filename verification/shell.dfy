/** The front end's top-level view state machine (the `App` component):
    loading, then the login page or the menu depending on the stored
    credentials, then game and back. The browser's local storage is a map
    field. */
module Shell {
  import opened Basics
  import opened Puzzles

  datatype View = Loading | AuthView | MenuView | GameView

  datatype User = User(token: string, username: string)

  /** What the component renders: nothing while loading; otherwise the
      container holding the page for the view, or an empty container when
      the game view has no puzzle. The game page receives no `model`. */
  datatype Screen = Nothing | AuthPage | MenuPage(user: Option<User>) | GamePage(puzzle: Puzzle) | EmptyContainer

  const TokenKey := "token"
  const UsernameKey := "username"

  /** `localStorage.getItem(key)`: `None` plays the part of `null`. */
  function StoredItem(storage: map<string, string>, key: string): Option<string> {
    if key in storage then Some(storage[key]) else None
  }

  /** JavaScript truthiness of a stored item: present and non-empty. */
  predicate Truthy(item: Option<string>) {
    item.Some? && item.value != ""
  }

  /** The user the start-up check restores: there is one exactly when both
      a token and a username are stored and non-empty, and it carries them. */
  function RestoredUser(storage: map<string, string>): (u: Option<User>)
    ensures u.Some? <==> TokenKey in storage && storage[TokenKey] != ""
                         && UsernameKey in storage && storage[UsernameKey] != ""
    ensures u.Some? ==> u.value == User(storage[TokenKey], storage[UsernameKey])
  {
    var token := StoredItem(storage, TokenKey);
    var username := StoredItem(storage, UsernameKey);
    if Truthy(token) && Truthy(username) then Some(User(token.value, username.value)) else None
  }

  class App {
    var view: View
    var user: Option<User>
    var currentPuzzle: Option<Puzzle>
    var storage: map<string, string>

    /** Once past loading: a user is set exactly in the menu and game
        views, that user's credentials are the stored ones, and the game
        view always has a puzzle. */
    ghost predicate Valid()
      reads this
    {
      && (view == GameView ==> currentPuzzle.Some?)
      && (user.Some? <==> view == MenuView || view == GameView)
      && (user.Some? ==>
            && TokenKey in storage && storage[TokenKey] == user.value.token
            && UsernameKey in storage && storage[UsernameKey] == user.value.username)
    }

    /** Mounting, before the start-up effect has run. */
    constructor (storage: map<string, string>)
      ensures Valid()
      ensures view == Loading && user == None && currentPuzzle == None && this.storage == storage
    {
      view := Loading;
      user := None;
      currentPuzzle := None;
      this.storage := storage;
    }

    /** The start-up effect: the menu with the stored user when both
        credentials are stored, otherwise the login page with no user. */
    method Startup()
      requires view == Loading && Valid()
      modifies this
      ensures Valid()
      ensures user == RestoredUser(storage)
      ensures view == if user.Some? then MenuView else AuthView
      ensures storage == old(storage) && currentPuzzle == old(currentPuzzle)
    {
      var token := StoredItem(storage, TokenKey);
      var username := StoredItem(storage, UsernameKey);
      if Truthy(token) && Truthy(username) {
        user := Some(User(token.value, username.value));
        view := MenuView;
      } else {
        user := None;
        view := AuthView;
      }
    }

    /** Login succeeded on the login page: both credentials are stored, the
        user is set, and the menu is shown. */
    method LoginSuccess(token: string, username: string)
      requires view == AuthView && Valid()
      modifies this
      ensures Valid()
      ensures storage == old(storage)[TokenKey := token][UsernameKey := username]
      ensures user == Some(User(token, username)) && view == MenuView
      ensures currentPuzzle == old(currentPuzzle)
    {
      storage := storage[TokenKey := token];
      storage := storage[UsernameKey := username];
      user := Some(User(token, username));
      view := MenuView;
    }

    /** Logout from the menu: both credentials are removed, user and puzzle
        are cleared, and the login page is shown. */
    method Logout()
      requires view == MenuView && Valid()
      modifies this
      ensures Valid()
      ensures storage == old(storage) - {TokenKey, UsernameKey}
      ensures user == None && currentPuzzle == None && view == AuthView
    {
      storage := storage - {TokenKey};
      storage := storage - {UsernameKey};
      user := None;
      currentPuzzle := None;
      view := AuthView;
    }

    /** A puzzle picked in the menu: it becomes current and the game is shown. */
    method StartGame(puzzle: Puzzle)
      requires view == MenuView && Valid()
      modifies this
      ensures Valid()
      ensures currentPuzzle == Some(puzzle) && view == GameView
      ensures user == old(user) && storage == old(storage)
    {
      currentPuzzle := Some(puzzle);
      view := GameView;
    }

    /** The game's back button: the menu is shown; the puzzle stays current. */
    method Back()
      requires view == GameView && Valid()
      modifies this
      ensures Valid()
      ensures view == MenuView
      ensures currentPuzzle == old(currentPuzzle) && user == old(user) && storage == old(storage)
    {
      view := MenuView;
    }

    /** The game page appears exactly in the game view with a puzzle, and
        nothing at all is rendered while loading. */
    function Render(): (s: Screen)
      reads this
      ensures s == Nothing <==> view == Loading
      ensures s.GamePage? <==> view == GameView && currentPuzzle.Some?
      ensures s.GamePage? ==> s.puzzle == currentPuzzle.value
      ensures s.AuthPage? <==> view == AuthView
    {
      match view
      case Loading => Nothing
      case AuthView => AuthPage
      case MenuView => MenuPage(user)
      case GameView => if currentPuzzle.Some? then GamePage(currentPuzzle.value) else EmptyContainer
    }
  }

  /** In a valid state the empty container never shows: the game view
      always renders the game page for the current puzzle, and the menu
      page always has a user. */
  lemma ValidAppRendersAPage(app: App)
    requires app.Valid() && app.view != Loading
    ensures app.Render() != EmptyContainer && app.Render() != Nothing
    ensures app.view == GameView ==> app.Render() == GamePage(app.currentPuzzle.value)
    ensures app.view == MenuView ==> app.Render().MenuPage? && app.Render().user.Some?
  {
  }

  /** A full visit: start up with stored credentials, play, go back,
      play again and log out, ending on the login page with nothing stored. */
  method Visit(token: string, username: string, p: Puzzle, q: Puzzle)
    requires token != "" && username != ""
  {
    var app := new App(map[TokenKey := token, UsernameKey := username]);
    app.Startup();
    assert app.view == MenuView && app.user == Some(User(token, username));
    app.StartGame(p);
    assert app.Render() == GamePage(p);
    app.Back();
    assert app.currentPuzzle == Some(p);
    app.StartGame(q);
    app.Back();
    app.Logout();
    assert app.view == AuthView && app.Render() == AuthPage;
    assert TokenKey !in app.storage && UsernameKey !in app.storage;
  }
}
