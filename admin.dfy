/** The administration panel (js/admin.js): the revenue figures and order
 *  counts of the statistics tab, the product list of the products tab, and
 *  the account management of the users tab, which edits the same accounts
 *  the sign-in pages use. */
module Admin {
  import opened Common
  import opened Products
  import Categories
  import Orders
  import Auth

  // ------------------------------------------------------------------
  // Statistics
  // ------------------------------------------------------------------

  datatype Revenue = Revenue(orderCount: nat, revenue: int)

  datatype Stats = Stats(totalOrders: nat, totalRevenue: int, totalProducts: nat, completedOrders: nat,
                         pendingOrders: nat, processingOrders: nat, cancelledOrders: nat)

  /** `createdAt.split('T')[0]`: everything before the first 'T'. */
  function DatePart(createdAt: string): (d: string)
    ensures d <= createdAt
    ensures 'T' !in d
    ensures |d| < |createdAt| ==> createdAt[|d|] == 'T'
  {
    if |createdAt| == 0 || createdAt[0] == 'T' then ""
    else [createdAt[0]] + DatePart(createdAt[1..])
  }

  /** `createdAt.slice(0, 7)`. */
  function MonthPart(createdAt: string): (m: string)
    ensures m <= createdAt && |m| == if |createdAt| < 7 then |createdAt| else 7
  {
    if |createdAt| < 7 then createdAt else createdAt[..7]
  }

  /** `orders.reduce((sum, o) => sum + o.total, 0)`. */
  function TotalOf(os: seq<Orders.Order>): int
  {
    if |os| == 0 then 0 else os[0].total + TotalOf(os[1..])
  }

  /** The totals of the orders passing `p`, summed order by order. */
  function TotalWhere(os: seq<Orders.Order>, p: Orders.Order -> bool): int
  {
    if |os| == 0 then 0 else (if p(os[0]) then os[0].total else 0) + TotalWhere(os[1..], p)
  }

  /** Summing the filtered list is summing the totals of the orders that pass. */
  lemma {:induction false} TotalOfFilter(os: seq<Orders.Order>, p: Orders.Order -> bool)
    ensures TotalOf(Filter(os, p)) == TotalWhere(os, p)
    decreases |os|
  {
    if |os| > 0 {
      TotalOfFilter(os[1..], p);
      if p(os[0]) {
        assert ([os[0]] + Filter(os[1..], p))[1..] == Filter(os[1..], p);
      }
    }
  }

  predicate IsCompleted(o: Orders.Order)
  {
    o.status == "completed"
  }

  function CompletedOn(dateStr: string): Orders.Order -> bool
  {
    (o: Orders.Order) => o.status == "completed" && DatePart(o.createdAt) == dateStr
  }

  function CompletedIn(monthStr: string): Orders.Order -> bool
  {
    (o: Orders.Order) => o.status == "completed" && MonthPart(o.createdAt) == monthStr
  }

  predicate TotalsNonNegative(os: seq<Orders.Order>)
  {
    forall j :: 0 <= j < |os| ==> os[j].total >= 0
  }

  /** calculateRevenueByDate: the completed orders of that day and what they
   *  brought in. */
  function RevenueByDate(orders: seq<Orders.Order>, dateStr: string): (r: Revenue)
    ensures r.orderCount == Count(orders, CompletedOn(dateStr)) && r.orderCount <= |orders|
    ensures r.revenue == TotalWhere(orders, CompletedOn(dateStr))
    ensures r.orderCount == 0 ==> r.revenue == 0
  {
    var done := Filter(orders, CompletedOn(dateStr));
    FilterCount(orders, CompletedOn(dateStr));
    TotalOfFilter(orders, CompletedOn(dateStr));
    Revenue(|done|, TotalOf(done))
  }

  /** calculateRevenueByMonth: the same over the orders whose timestamp
   *  starts with the month. */
  function RevenueByMonth(orders: seq<Orders.Order>, monthStr: string): (r: Revenue)
    ensures r.orderCount == Count(orders, CompletedIn(monthStr)) && r.orderCount <= |orders|
    ensures r.revenue == TotalWhere(orders, CompletedIn(monthStr))
    ensures r.orderCount == 0 ==> r.revenue == 0
  {
    var done := Filter(orders, CompletedIn(monthStr));
    FilterCount(orders, CompletedIn(monthStr));
    TotalOfFilter(orders, CompletedIn(monthStr));
    Revenue(|done|, TotalOf(done))
  }

  /** A date containing 'T', or a month longer than seven characters, can
   *  never match a timestamp. */
  lemma ImpossibleDatesEarnNothing(orders: seq<Orders.Order>, dateStr: string, monthStr: string)
    ensures 'T' in dateStr ==> RevenueByDate(orders, dateStr) == Revenue(0, 0)
    ensures |monthStr| > 7 ==> RevenueByMonth(orders, monthStr) == Revenue(0, 0)
  {
  }

  lemma {:induction false} TotalOfAppend(a: seq<Orders.Order>, b: seq<Orders.Order>)
    ensures TotalOf(a + b) == TotalOf(a) + TotalOf(b)
    decreases |a|
  {
    if |a| > 0 {
      assert (a + b)[0] == a[0];
      assert (a + b)[1..] == a[1..] + b;
      TotalOfAppend(a[1..], b);
    } else {
      assert a + b == b;
    }
  }

  /** Filtering by a stronger test keeps fewer orders and, totals being
   *  non-negative, no more revenue. */
  lemma {:induction false} StrongerFilterEarnsLess(os: seq<Orders.Order>, p: Orders.Order -> bool, q: Orders.Order -> bool)
    requires forall o :: p(o) ==> q(o)
    requires TotalsNonNegative(os)
    ensures Count(os, p) <= Count(os, q)
    ensures TotalOf(Filter(os, p)) <= TotalOf(Filter(os, q))
    decreases |os|
  {
    if |os| > 0 {
      StrongerFilterEarnsLess(os[1..], p, q);
    }
  }

  /** The figures of a list of orders are the sums of the figures of its
   *  parts. */
  lemma RevenueByDateAdds(a: seq<Orders.Order>, b: seq<Orders.Order>, dateStr: string)
    ensures RevenueByDate(a + b, dateStr).orderCount ==
            RevenueByDate(a, dateStr).orderCount + RevenueByDate(b, dateStr).orderCount
    ensures RevenueByDate(a + b, dateStr).revenue ==
            RevenueByDate(a, dateStr).revenue + RevenueByDate(b, dateStr).revenue
  {
    CountAppend(a, b, CompletedOn(dateStr));
    FilterAppend(a, b, CompletedOn(dateStr));
    TotalOfAppend(Filter(a, CompletedOn(dateStr)), Filter(b, CompletedOn(dateStr)));
  }

  /** A day (YYYY-MM-DD) never shows more orders or revenue than its month
   *  (its first seven characters). */
  lemma DayWithinMonth(orders: seq<Orders.Order>, dateStr: string)
    requires |dateStr| >= 7
    requires TotalsNonNegative(orders)
    ensures RevenueByDate(orders, dateStr).orderCount <= RevenueByMonth(orders, dateStr[..7]).orderCount
    ensures RevenueByDate(orders, dateStr).revenue <= RevenueByMonth(orders, dateStr[..7]).revenue
  {
    forall o | CompletedOn(dateStr)(o)
      ensures CompletedIn(dateStr[..7])(o)
    {
      assert DatePart(o.createdAt) <= o.createdAt;
      assert o.createdAt[..7] == dateStr[..7];
    }
    StrongerFilterEarnsLess(orders, CompletedOn(dateStr), CompletedIn(dateStr[..7]));
  }

  predicate IsPending(o: Orders.Order)
  {
    o.status == "pending"
  }

  predicate IsProcessing(o: Orders.Order)
  {
    o.status == "confirmed" || o.status == "preparing" || o.status == "ready"
  }

  predicate IsCancelled(o: Orders.Order)
  {
    o.status == "cancelled"
  }

  /** An order counted under none of the four headings. */
  predicate Unclassified(o: Orders.Order)
  {
    !IsCompleted(o) && !IsPending(o) && !IsProcessing(o) && !IsCancelled(o)
  }

  /** Exactly the orders with a status outside the six codes go uncounted. */
  lemma UnclassifiedIffUnknownStatus(o: Orders.Order)
    ensures Unclassified(o) <==> o.status !in Orders.StatusCodes
  {
  }

  /** The four status counts add up to all orders but those with an unknown
   *  status. */
  lemma {:induction false} StatusCountsCover(os: seq<Orders.Order>)
    ensures Count(os, IsCompleted) + Count(os, IsPending) + Count(os, IsProcessing) + Count(os, IsCancelled)
            == |os| - Count(os, Unclassified)
    decreases |os|
  {
    if |os| > 0 {
      StatusCountsCover(os[1..]);
    }
  }

  /** calculateStats. */
  function CalculateStats(orders: seq<Orders.Order>, products: seq<Product>): (s: Stats)
    ensures s.totalOrders == |orders| && s.totalProducts == |products|
    ensures s.completedOrders + s.pendingOrders + s.processingOrders + s.cancelledOrders <= s.totalOrders
    ensures s.completedOrders + s.pendingOrders + s.processingOrders + s.cancelledOrders == s.totalOrders <==>
            forall j :: 0 <= j < |orders| ==> !Unclassified(orders[j])
    ensures s.totalRevenue == TotalWhere(orders, IsCompleted)
    ensures s.completedOrders == 0 ==> s.totalRevenue == 0
  {
    TotalOfFilter(orders, IsCompleted);
    StatusCountsCover(orders);
    assert Count(orders, Unclassified) == 0 <==> forall j :: 0 <= j < |orders| ==> !Unclassified(orders[j]);
    var done := Filter(orders, IsCompleted);
    FilterCount(orders, IsCompleted);
    Stats(|orders|, TotalOf(done), |products|, Count(orders, IsCompleted), Count(orders, IsPending),
          Count(orders, IsProcessing), Count(orders, IsCancelled))
  }

  /** The revenue of any one day is part of the total revenue. */
  lemma DayWithinTotal(orders: seq<Orders.Order>, products: seq<Product>, dateStr: string)
    requires TotalsNonNegative(orders)
    ensures RevenueByDate(orders, dateStr).orderCount <= CalculateStats(orders, products).completedOrders
    ensures RevenueByDate(orders, dateStr).revenue <= CalculateStats(orders, products).totalRevenue
  {
    StrongerFilterEarnsLess(orders, CompletedOn(dateStr), IsCompleted);
  }

  // ------------------------------------------------------------------
  // Products tab
  // ------------------------------------------------------------------

  /** `categories.filter(c => c.active !== false).map(c => c.id)`. */
  function ActiveCategoryIds(cs: seq<Categories.Category>): (ids: seq<string>)
    ensures forall id :: id in ids <==> exists c :: c in cs && c.active && c.id == id
  {
    if |cs| == 0 then []
    else
      var rest := ActiveCategoryIds(cs[1..]);
      assert forall c :: c in cs <==> c == cs[0] || c in cs[1..];
      if cs[0].active then [cs[0].id] + rest else rest
  }

  function Shown(activeIds: seq<string>): Product -> bool
  {
    (p: Product) => p.categoryId == "" || p.categoryId in activeIds
  }

  function MatchesSearch(query: string): Product -> bool
  {
    (p: Product) => Contains(ToLower(p.name), ToLower(query)) || Contains(ToLower(p.description), ToLower(query))
  }

  function InCategory(categoryId: string): Product -> bool
  {
    (p: Product) => p.categoryId == categoryId
  }

  /** The product list of renderProductsTab: products of switched-off
   *  categories hidden, then the search (when not empty), then the category
   *  picked in the drop-down (unless "all"). */
  function AdminProductList(products: seq<Product>, cs: seq<Categories.Category>, search: string, selected: string)
    : (r: seq<Product>)
    ensures forall p :: p in r <==>
              p in products &&
              (p.categoryId == "" || exists c :: c in cs && c.active && c.id == p.categoryId) &&
              (search == "" || Contains(ToLower(p.name), ToLower(search)) || Contains(ToLower(p.description), ToLower(search))) &&
              (selected == "all" || p.categoryId == selected)
    ensures |r| <= |products|
  {
    var visible := Filter(products, Shown(ActiveCategoryIds(cs)));
    var searched := if search != "" then Filter(visible, MatchesSearch(search)) else visible;
    if selected != "all" then Filter(searched, InCategory(selected)) else searched
  }

  /** Whether a product is listed, as one test. */
  function Listed(cs: seq<Categories.Category>, search: string, selected: string): Product -> bool
  {
    (p: Product) => Shown(ActiveCategoryIds(cs))(p) && (search == "" || MatchesSearch(search)(p)) &&
                    (selected == "all" || InCategory(selected)(p))
  }

  lemma {:induction false} FilterTwice(s: seq<Product>, p: Product -> bool, q: Product -> bool, pq: Product -> bool)
    requires forall x :: pq(x) == (p(x) && q(x))
    ensures Filter(Filter(s, p), q) == Filter(s, pq)
    decreases |s|
  {
    if |s| > 0 {
      FilterTwice(s[1..], p, q, pq);
    }
  }

  lemma {:induction false} FilterSameTest(s: seq<Product>, p: Product -> bool, q: Product -> bool)
    requires forall x :: p(x) == q(x)
    ensures Filter(s, p) == Filter(s, q)
    decreases |s|
  {
    if |s| > 0 {
      FilterSameTest(s[1..], p, q);
    }
  }

  /** The three filters in turn keep the catalogue order: the list is the
   *  catalogue filtered once by the combined test. */
  lemma AdminProductListInOrder(products: seq<Product>, cs: seq<Categories.Category>, search: string, selected: string)
    ensures AdminProductList(products, cs, search, selected) == Filter(products, Listed(cs, search, selected))
  {
    var shown := Shown(ActiveCategoryIds(cs));
    var visible := Filter(products, shown);
    var searchTest := (p: Product) => shown(p) && (search == "" || MatchesSearch(search)(p));
    if search != "" {
      FilterTwice(products, shown, MatchesSearch(search), searchTest);
    } else {
      FilterSameTest(products, shown, searchTest);
    }
    var searched := Filter(products, searchTest);
    if selected != "all" {
      FilterTwice(products, searchTest, InCategory(selected), Listed(cs, search, selected));
    } else {
      FilterSameTest(products, searchTest, Listed(cs, search, selected));
    }
  }

  // ------------------------------------------------------------------
  // Users tab
  // ------------------------------------------------------------------

  /** The account form as typed. */
  datatype UserForm = UserForm(name: string, email: string, password: string, role: string,
                               phone: string, address: string)

  datatype UserAdminError = NameRequired | EmailTaken | PasswordRequired | UserNotFound | CannotDeleteSelf

  /** The form as handleUserSubmit reads it: trimmed, the email also
   *  lower-cased; the password and role as typed. */
  function Cleaned(f: UserForm): UserForm
  {
    UserForm(Trim(f.name), ToLower(Trim(f.email)), f.password, f.role, Trim(f.phone), Trim(f.address))
  }

  /** `users.some(u => u.email === email && u.id !== userId)`; creating
   *  (`userId` None) compares with every account. */
  predicate EmailUsedByOther(users: seq<Auth.User>, email: string, userId: Option<string>)
  {
    exists j :: 0 <= j < |users| && users[j].email == email && Some(users[j].id) != userId
  }

  /** No two accounts have exactly the same stored email. */
  predicate EmailsUnique(users: seq<Auth.User>)
  {
    forall i, j :: 0 <= i < j < |users| ==> users[i].email != users[j].email
  }

  /** handleUserSubmit's refusals, in order, on the cleaned form. */
  function UserSubmitRejection(users: seq<Auth.User>, userId: Option<string>, f: UserForm): (r: Option<UserAdminError>)
    ensures r == Some(NameRequired) <==> f.name == ""
    ensures r == Some(EmailTaken) <==> f.name != "" && EmailUsedByOther(users, f.email, userId)
    ensures r == Some(PasswordRequired) <==>
              f.name != "" && !EmailUsedByOther(users, f.email, userId) && userId.None? && f.password == ""
    ensures r == Some(UserNotFound) <==>
              f.name != "" && !EmailUsedByOther(users, f.email, userId) && userId.Some? &&
              Auth.UserIndex(users, userId.value) < 0
    ensures r.None? ==> f.name != "" && !EmailUsedByOther(users, f.email, userId)
    ensures r.None? ==> if userId.None? then f.password != "" else 0 <= Auth.UserIndex(users, userId.value)
  {
    if f.name == "" then Some(NameRequired)
    else if EmailUsedByOther(users, f.email, userId) then Some(EmailTaken)
    else if userId.None? && f.password == "" then Some(PasswordRequired)
    else if userId.Some? && Auth.UserIndex(users, userId.value) < 0 then Some(UserNotFound)
    else None
  }

  /** An edited account: name, email, role, phone and address from the form;
   *  the password only when one was typed; id and creation time kept. */
  function Edited(u: Auth.User, f: UserForm): (e: Auth.User)
    ensures e.id == u.id && e.createdAt == u.createdAt
    ensures e.name == f.name && e.email == f.email && e.role == f.role
    ensures e.phone == f.phone && e.address == f.address
    ensures e.password == if f.password == "" then u.password else f.password
  {
    var e := u.(name := f.name).(email := f.email).(role := f.role).(phone := f.phone).(address := f.address);
    if f.password != "" then e.(password := f.password) else e
  }

  /** `users.filter(u => u.id !== userId)`. */
  function WithoutUser(users: seq<Auth.User>, userId: string): (r: seq<Auth.User>)
    ensures forall u :: u in r <==> u in users && u.id != userId
  {
    Filter(users, (u: Auth.User) => u.id != userId)
  }

  /** The accounts after handleUserSubmit on the cleaned form `f`: a refused
   *  form changes nothing; otherwise the account `userId` is edited, or, when
   *  it is None, a new account is appended. `newId` and `createdAt` come from
   *  the clock. */
  function Submitted(users: seq<Auth.User>, userId: Option<string>, f: UserForm, newId: string, createdAt: string)
    : (o: (Result<(), UserAdminError>, seq<Auth.User>))
    ensures o.0.Err? <==> UserSubmitRejection(users, userId, f).Some?
    ensures o.0.Err? ==> Some(o.0.error) == UserSubmitRejection(users, userId, f) && o.1 == users
    ensures o.0.Ok? && userId.Some? ==>
              var i := Auth.UserIndex(users, userId.value);
              o.1 == users[i := Edited(users[i], f)]
    ensures o.0.Ok? && userId.None? ==>
              o.1 == users + [Auth.User(newId, f.name, f.email, f.password, f.role, f.phone, f.address, createdAt)]
  {
    var rejection := UserSubmitRejection(users, userId, f);
    if rejection.Some? then (Err(rejection.value), users)
    else if userId.Some? then
      var i := Auth.UserIndex(users, userId.value);
      (Ok(()), users[i := Edited(users[i], f)])
    else (Ok(()), users + [Auth.User(newId, f.name, f.email, f.password, f.role, f.phone, f.address, createdAt)])
  }

  /** With unique ids, the email check keeps every stored email unique, for
   *  an edit as for a new account. */
  lemma {:induction false} SubmitKeepsEmailsUnique(users: seq<Auth.User>, userId: Option<string>, f: UserForm,
                                                   newId: string, createdAt: string)
    requires EmailsUnique(users) && Auth.IdsUnique(users)
    requires userId.None? ==> forall j :: 0 <= j < |users| ==> users[j].id != newId
    ensures EmailsUnique(Submitted(users, userId, f, newId, createdAt).1)
    ensures Auth.IdsUnique(Submitted(users, userId, f, newId, createdAt).1)
  {
    var o := Submitted(users, userId, f, newId, createdAt);
    if o.0.Ok? {
      if userId.Some? {
        var i := Auth.UserIndex(users, userId.value);
        forall j | 0 <= j < |users| && j != i
          ensures o.1[j] == users[j] && users[j].email != f.email
        {
          assert users[j].id != userId.value;
        }
      } else {
        forall j | 0 <= j < |users|
          ensures o.1[j] == users[j] && users[j].email != f.email
        {
        }
      }
    }
  }

  /** The field-by-field edit handleUserSubmit makes to an existing account. */
  method EditFields(user: Auth.User, f: UserForm) returns (u: Auth.User)
    ensures u == Edited(user, f)
  {
    u := user;
    u := u.(name := f.name);
    u := u.(email := f.email);
    u := u.(role := f.role);
    u := u.(phone := f.phone);
    u := u.(address := f.address);
    if f.password != "" {
      u := u.(password := f.password);
    }
  }

  /** handleUserSubmit: the form is cleaned, checked, and the account written
   *  field by field. */
  method HandleUserSubmit(accounts: Auth.Accounts, userId: Option<string>, form: UserForm,
                          newId: string, createdAt: string) returns (r: Result<(), UserAdminError>)
    requires userId.None? ==> forall j :: 0 <= j < |accounts.users| ==> accounts.users[j].id != newId
    modifies accounts
    ensures accounts.session == old(accounts.session)
    ensures (r, accounts.users) == Submitted(old(accounts.users), userId, Cleaned(form), newId, createdAt)
    ensures EmailsUnique(old(accounts.users)) && Auth.IdsUnique(old(accounts.users)) ==>
              EmailsUnique(accounts.users) && Auth.IdsUnique(accounts.users)
  {
    var f := Cleaned(form);
    var users := accounts.users;
    if EmailsUnique(users) && Auth.IdsUnique(users) {
      SubmitKeepsEmailsUnique(users, userId, f, newId, createdAt);
    }
    var rejection := UserSubmitRejection(users, userId, f);
    if rejection.Some? {
      return Err(rejection.value);
    }
    if userId.Some? {
      var i := Auth.UserIndex(users, userId.value);
      var u := EditFields(users[i], f);
      accounts.users := users[i := u];
    } else {
      accounts.users := users + [Auth.User(newId, f.name, f.email, f.password, f.role, f.phone, f.address, createdAt)];
    }
    r := Ok(());
  }

  /** confirmDeleteUser: an unknown id and the signed-in account are refused;
   *  otherwise, once the dialog is confirmed, every account with that id is
   *  removed. The result tells whether anything was deleted. */
  method ConfirmDeleteUser(accounts: Auth.Accounts, userId: string, confirmed: bool)
    returns (r: Result<bool, UserAdminError>)
    requires Auth.UserIndex(accounts.users, userId) >= 0 ==> accounts.session.Some?
    modifies accounts
    ensures accounts.session == old(accounts.session)
    ensures r == Err(UserNotFound) <==> Auth.UserIndex(old(accounts.users), userId) < 0
    ensures r == Err(CannotDeleteSelf) <==>
              Auth.UserIndex(old(accounts.users), userId) >= 0 && userId == accounts.session.value.id
    ensures r.Err? || !confirmed ==> accounts.users == old(accounts.users)
    ensures r.Ok? ==> r.value == confirmed
    ensures Auth.UserIndex(old(accounts.users), userId) >= 0 && userId != accounts.session.value.id ==>
              r == Ok(confirmed)
    ensures r.Ok? && confirmed ==> accounts.users == WithoutUser(old(accounts.users), userId)
    ensures accounts.session.Some? && Auth.UserIndex(old(accounts.users), accounts.session.value.id) >= 0 ==>
              Auth.UserIndex(accounts.users, accounts.session.value.id) >= 0
  {
    var users := accounts.users;
    var i := Auth.UserIndex(users, userId);
    if i < 0 {
      return Err(UserNotFound);
    }
    if userId == accounts.session.value.id {
      return Err(CannotDeleteSelf);
    }
    if !confirmed {
      return Ok(false);
    }
    var remaining := WithoutUser(users, userId);
    var me := accounts.session.value.id;
    var k := Auth.UserIndex(users, me);
    if k >= 0 {
      assert users[k] in remaining;
    }
    accounts.users := remaining;
    r := Ok(true);
  }
}
