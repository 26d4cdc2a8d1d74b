/**
 * The admin dashboard's client logic: the page guard that runs on every
 * load, the bearer token kept in browser storage under "kitsuAdminToken",
 * and the status drop-down built for each order row.
 */
module AdminDashboard {
  import opened Wrappers

  const LoginPage: string := "login.html"
  const DashboardPage: string := "dashboard.html"

  // ---------------------------------------------------------------------
  // The page guard
  // ---------------------------------------------------------------------

  predicate EndsWith(s: string, suffix: string) {
    |suffix| <= |s| && s[|s| - |suffix|..] == suffix
  }

  /** A page is the login page when its path ends with "login.html". */
  predicate OnLoginPage(pathname: string) {
    EndsWith(pathname, LoginPage)
  }

  /**
   * The stored token as a condition: a missing entry and the empty string
   * are both false, any other string is true.
   */
  predicate HasToken(token: Option<string>) {
    token.Some? && token.value != ""
  }

  /** Which page initialiser runs after the guard. */
  datatype PageInit = LoginInit | DashboardInit

  /** What a page load decides: an optional redirect target, and the initialiser. */
  datatype LoadDecision = LoadDecision(redirect: Option<string>, init: PageInit)

  /**
   * The guard: a signed-in admin on the login page is sent to the dashboard,
   * an anonymous visitor anywhere else is sent to the login page, and the
   * other two cases stay. The initialiser is chosen by the page alone; the
   * redirect does not stop it from running.
   */
  function Guard(token: Option<string>, pathname: string): (d: LoadDecision)
    ensures d.redirect == Some(DashboardPage) <==> HasToken(token) && OnLoginPage(pathname)
    ensures d.redirect == Some(LoginPage) <==> !HasToken(token) && !OnLoginPage(pathname)
    ensures d.redirect == None <==> HasToken(token) != OnLoginPage(pathname)
    ensures d.init == LoginInit <==> OnLoginPage(pathname)
  {
    var onLogin := OnLoginPage(pathname);
    var redirect :=
      if HasToken(token) && onLogin then Some(DashboardPage)
      else if !HasToken(token) && !onLogin then Some(LoginPage)
      else None;
    LoadDecision(redirect, if onLogin then LoginInit else DashboardInit)
  }

  /** A path in any directory that names the login page is the login page. */
  lemma LoginPathIsLoginPage(dir: string)
    ensures OnLoginPage(dir + LoginPage)
  {
  }

  /** A path that names the dashboard page is never taken for the login page. */
  lemma DashboardPathIsNotLoginPage(dir: string)
    ensures !OnLoginPage(dir + DashboardPage)
  {
    var p := dir + DashboardPage;
    assert p[|p| - |LoginPage|] == DashboardPage[4] == 'b';
  }

  /**
   * The guard never sends the browser round in circles: loading the page it
   * redirects to (in the same directory) redirects no further, and runs the
   * initialiser of that page.
   */
  lemma {:induction false} RedirectSettles(token: Option<string>, pathname: string, dir: string)
    requires Guard(token, pathname).redirect.Some?
    ensures var target := Guard(token, pathname).redirect.value;
      && Guard(token, dir + target).redirect == None
      && Guard(token, dir + target).init == (if target == LoginPage then LoginInit else DashboardInit)
  {
    LoginPathIsLoginPage(dir);
    DashboardPathIsNotLoginPage(dir);
  }

  // ---------------------------------------------------------------------
  // The status drop-down
  // ---------------------------------------------------------------------

  /** The order statuses an admin can pick, in drop-down order. */
  const Statuses: seq<string> := ["PENDING", "PREPARING", "DELIVERING", "COMPLETED", "CANCELLED"]

  /** One `<option>` of the drop-down: its value and whether it is preselected. */
  datatype StatusOption = StatusOption(value: string, selected: bool)

  /** The drop-down for an order in `status`: every status in order, marked when equal. */
  ghost predicate OptionsFor(status: string, opts: seq<StatusOption>) {
    && |opts| == |Statuses|
    && forall k :: 0 <= k < |opts| ==>
         opts[k].value == Statuses[k] && (opts[k].selected <==> Statuses[k] == status)
  }

  /** No status appears twice in the list. */
  lemma StatusesDistinct()
    ensures forall j, k :: 0 <= j < k < |Statuses| ==> Statuses[j] != Statuses[k]
  {
  }

  /**
   * In a drop-down built for `status`, at most one option is selected, and
   * one is selected exactly when `status` is one of the listed statuses.
   */
  lemma OptionsSelectAtMostOne(status: string, opts: seq<StatusOption>)
    requires OptionsFor(status, opts)
    ensures forall j, k :: 0 <= j < |opts| && 0 <= k < |opts| && opts[j].selected && opts[k].selected ==> j == k
    ensures (exists k :: 0 <= k < |opts| && opts[k].selected) <==> status in Statuses
  {
    StatusesDistinct();
  }

  /** Walk the status list, appending one option per status. */
  method StatusOptions(status: string) returns (opts: seq<StatusOption>)
    ensures OptionsFor(status, opts)
    ensures forall j, k :: 0 <= j < |opts| && 0 <= k < |opts| && opts[j].selected && opts[k].selected ==> j == k
    ensures (exists k :: 0 <= k < |opts| && opts[k].selected) <==> status in Statuses
  {
    opts := [];
    for i := 0 to |Statuses|
      invariant |opts| == i
      invariant forall k :: 0 <= k < i ==>
        opts[k].value == Statuses[k] && (opts[k].selected <==> Statuses[k] == status)
    {
      var s := Statuses[i];
      opts := opts + [StatusOption(s, status == s)];
    }
    OptionsSelectAtMostOne(status, opts);
  }

  // ---------------------------------------------------------------------
  // The order list
  // ---------------------------------------------------------------------

  /** The parts of an order the dashboard logic looks at. */
  datatype Order = Order(id: int, status: string)

  /** One table row: the order id and its status drop-down. */
  datatype OrderRow = OrderRow(orderId: int, options: seq<StatusOption>)

  ghost predicate RowsFor(orders: seq<Order>, rows: seq<OrderRow>) {
    && |rows| == |orders|
    && forall k :: 0 <= k < |rows| ==>
         rows[k].orderId == orders[k].id && OptionsFor(orders[k].status, rows[k].options)
  }

  /** One row per order, in order, each with the drop-down for that order's status. */
  method BuildRows(orders: seq<Order>) returns (rows: seq<OrderRow>)
    ensures RowsFor(orders, rows)
  {
    rows := [];
    for i := 0 to |orders|
      invariant RowsFor(orders[..i], rows)
    {
      var opts := StatusOptions(orders[i].status);
      rows := rows + [OrderRow(orders[i].id, opts)];
    }
    assert orders[..|orders|] == orders;
  }

  /** How the orders request ended. */
  datatype OrdersReply =
    | NetworkFailure
    | Reply(status: int, body: Option<seq<Order>>)  // body None: not a readable order list

  /** What the order table shows. */
  datatype OrdersView = SessionExpired | LoadError | OrderTable(rows: seq<OrderRow>)

  /** The HTTP `ok` flag: a status in the 2xx range. */
  predicate IsOk(status: int) {
    200 <= status < 300
  }

  /** How the login request ended. */
  datatype LoginReply = Authenticated(token: string) | LoginFailed

  // ---------------------------------------------------------------------
  // The session: the stored token and where the browser is being sent
  // ---------------------------------------------------------------------

  class AdminSession {
    /** The stored "kitsuAdminToken" entry. */
    var token: Option<string>
    /** The last target assigned to the window location, if any. */
    var navigation: Option<string>

    constructor (stored: Option<string>)
      ensures token == stored && navigation == None
    {
      token := stored;
      navigation := None;
    }

    /** Run the guard for a page load and choose the initialiser. */
    method Load(pathname: string) returns (init: PageInit)
      modifies this
      ensures token == old(token)
      ensures init == Guard(old(token), pathname).init
      ensures navigation ==
        if Guard(old(token), pathname).redirect.Some? then Guard(old(token), pathname).redirect else old(navigation)
    {
      var onLoginPage := EndsWith(pathname, LoginPage);
      var present := token.Some? && token.value != "";
      if present && onLoginPage {
        navigation := Some(DashboardPage);
      } else if !present && !onLoginPage {
        navigation := Some(LoginPage);
      }
      init := if onLoginPage then LoginInit else DashboardInit;
    }

    /** A successful login stores the token and goes to the dashboard; a failure shows an error. */
    method ReceiveLogin(reply: LoginReply) returns (showError: bool)
      modifies this
      ensures showError <==> reply.LoginFailed?
      ensures reply.Authenticated? ==> token == Some(reply.token) && navigation == Some(DashboardPage)
      ensures reply.LoginFailed? ==> token == old(token) && navigation == old(navigation)
    {
      match reply
      case Authenticated(t) =>
        token := Some(t);
        navigation := Some(DashboardPage);
        showError := false;
      case LoginFailed =>
        showError := true;
    }

    /** Logging out removes the token and goes to the login page. */
    method Logout()
      modifies this
      ensures token == None && navigation == Some(LoginPage)
    {
      token := None;
      navigation := Some(LoginPage);
    }

    /**
     * Handle the orders response: 401 ends the session, any other failure
     * shows the error row, and a readable list becomes the table.
     */
    method ReceiveOrders(reply: OrdersReply) returns (view: OrdersView)
      modifies this
      ensures reply.Reply? && reply.status == 401 ==>
        token == None && navigation == Some(LoginPage) && view == SessionExpired
      ensures !(reply.Reply? && reply.status == 401) ==>
        token == old(token) && navigation == old(navigation) && view != SessionExpired
      ensures view == LoadError <==>
        reply.NetworkFailure? || (reply.status != 401 && (!IsOk(reply.status) || reply.body.None?))
      ensures view.OrderTable? ==>
        reply.Reply? && IsOk(reply.status) && reply.body.Some? && RowsFor(reply.body.value, view.rows)
    {
      match reply
      case NetworkFailure =>
        view := LoadError;
      case Reply(status, body) =>
        if status == 401 {
          token := None;
          navigation := Some(LoginPage);
          return SessionExpired;
        }
        if !(200 <= status < 300) || body.None? {
          return LoadError;
        }
        var rows := BuildRows(body.value);
        view := OrderTable(rows);
    }
  }
}
