/** The admin panel: a login gate driven by the stored auth flag and one fixed
    credential pair, and a tab selector between the two editors. */
module AdminPanel {
  import opened Wrappers
  import opened Content

  const AdminUsername := "admin"
  const AdminPassword := "password"
  const LoginError := "Invalid credentials. Try admin/password"

  datatype Tab = GalleryTab | PricingTab

  /** What the panel renders. */
  datatype View = LoginView | GalleryEditorView | PricingEditorView

  /** The login view while unauthenticated; otherwise the editor of the active tab. */
  function ViewOf(authenticated: bool, tab: Tab): (v: View)
    ensures v == LoginView <==> !authenticated
    ensures v == GalleryEditorView <==> authenticated && tab == GalleryTab
    ensures v == PricingEditorView <==> authenticated && tab == PricingTab
  {
    if !authenticated then LoginView
    else match tab
      case GalleryTab => GalleryEditorView
      case PricingTab => PricingEditorView
  }

  class Panel {
    const store: LocalStorage
    var activeTab: Tab
    var isAuthenticated: bool
    var username: string
    var password: string
    var error: string

    function CurrentView(): View
      reads this
    {
      ViewOf(isAuthenticated, activeTab)
    }

    /** The state of the first render: gallery tab, logged out, empty inputs. */
    constructor (store: LocalStorage)
      ensures this.store == store
      ensures activeTab == GalleryTab && !isAuthenticated
      ensures username == "" && password == "" && error == ""
    {
      this.store := store;
      activeTab, isAuthenticated := GalleryTab, false;
      username, password, error := "", "", "";
    }

    /** The mount effect: logs in when the stored flag is the sentinel and
        otherwise leaves the state alone; it never writes the store. */
    method Mount()
      modifies this`isAuthenticated
      ensures isAuthenticated == (old(isAuthenticated) || store.auth == Some(AuthFlag))
    {
      if store.auth == Some(AuthFlag) {
        isAuthenticated := true;
      }
    }

    method SetUsername(v: string)
      modifies this`username
      ensures username == v
    {
      username := v;
    }

    method SetPassword(v: string)
      modifies this`password
      ensures password == v
    {
      password := v;
    }

    /** Submitting the login form: the fixed pair stores the flag, logs in and
        clears the error; any other pair only sets the fixed error text. */
    method Login()
      modifies this`isAuthenticated, this`error, store`auth
      ensures username == AdminUsername && password == AdminPassword ==>
        store.auth == Some(AuthFlag) && isAuthenticated && error == ""
      ensures !(username == AdminUsername && password == AdminPassword) ==>
        && error == LoginError
        && isAuthenticated == old(isAuthenticated)
        && unchanged(store)
    {
      if username == AdminUsername && password == AdminPassword {
        store.auth := Some(AuthFlag);
        isAuthenticated := true;
        error := "";
      } else {
        error := LoginError;
      }
    }

    /** Removes the stored flag and shows the login view again. */
    method Logout()
      modifies this`isAuthenticated, store`auth
      ensures store.auth == None && !isAuthenticated
      ensures CurrentView() == LoginView
    {
      store.auth := None;
      isAuthenticated := false;
    }

    /** Clicking a tab button. */
    method SelectTab(t: Tab)
      modifies this`activeTab
      ensures activeTab == t
      ensures isAuthenticated ==> CurrentView() == (if t == GalleryTab then GalleryEditorView else PricingEditorView)
    {
      activeTab := t;
    }
  }

  /** A fresh panel over a given store shows the editors exactly when the stored
      flag is the sentinel; a wrong password then leaves it at the login view, and
      the right pair reaches the gallery editor and persists the flag. */
  method ScenarioLogin(store: LocalStorage, wrong: string)
    requires wrong != AdminPassword
    modifies store
  {
    var panel := new Panel(store);
    panel.Mount();
    assert panel.isAuthenticated <==> store.auth == Some(AuthFlag);
    if !panel.isAuthenticated {
      panel.SetUsername(AdminUsername);
      panel.SetPassword(wrong);
      panel.Login();
      assert panel.CurrentView() == LoginView && panel.error == LoginError;
      panel.SetPassword(AdminPassword);
      panel.Login();
      assert panel.CurrentView() == GalleryEditorView && store.auth == Some(AuthFlag);
    }
  }
}
