/** static/js/supervisor.js: the supervisor dashboard's client-side lists.
    `ApplicationManager` filters, sorts and updates the applications it
    holds; `PackageManager` classifies and deletes packages;
    `updateDashboardCounters` rewrites three counters in the page. A
    `confirm()` or `prompt()` answer is an input; the counters are the text
    of three optional elements. */
module ClientSupervisor {
  import opened Common
  import opened Text
  import opened Numerals
  import opened Lists

  // ---------------------------------------------------------------------------
  // Applications: filter and sort
  // ---------------------------------------------------------------------------

  /** An application object of `this.applications`. `date` is the day
      `new Date(app.date)` denotes; `rejectionReason` is absent until a
      rejection sets it. */
  datatype AppCard = AppCard(id: string, name: string, package: string, status: string, date: Day,
                             familySize: int, priority: string, rejectionReason: Option<string>)

  /** The status filter of `renderApplications()`. */
  function StatusFilter(filter: string): AppCard -> bool {
    (a: AppCard) => filter == "all" || a.status == filter
  }

  /** The applications listed under `filter`, in their order: `all` keeps
      every application, any other filter exactly those whose status it
      names. */
  function FilterApps(apps: seq<AppCard>, filter: string): (r: seq<AppCard>)
    ensures filter == "all" ==> r == apps
    ensures forall x :: multiset(r)[x] == if filter == "all" || x.status == filter then multiset(apps)[x] else 0
  {
    FilterAllApps(apps, filter);
    FilterCountsApps(apps, filter);
    Filter(apps, StatusFilter(filter))
  }

  lemma FilterAllApps(apps: seq<AppCard>, filter: string)
    ensures filter == "all" ==> Filter(apps, StatusFilter(filter)) == apps
  {
    if filter == "all" {
      FilterAll(apps, StatusFilter(filter));
    }
  }

  lemma FilterCountsApps(apps: seq<AppCard>, filter: string)
    ensures forall x :: multiset(Filter(apps, StatusFilter(filter)))[x] ==
                          if filter == "all" || x.status == filter then multiset(apps)[x] else 0
  {
    forall x {
      FilterCount(apps, StatusFilter(filter), x);
    }
  }

  /** `priorityOrder[p] || 1`: emergencies weigh 3, every other priority 1. */
  function Weight(a: AppCard): int {
    if a.priority == "emergency" then 3 else 1
  }

  predicate IsEmergency(a: AppCard) {
    a.priority == "emergency"
  }

  /** `le(a, b)` holds when the comparator of `currentSort` returns at most
      0 for `(a, b)`: `a` may be listed before `b`. */
  function Comparator(sort: string): (AppCard, AppCard) -> bool {
    if sort == "date" then (a: AppCard, b: AppCard) => a.date >= b.date
    else if sort == "name" then (a: AppCard, b: AppCard) => LexLe(a.name, b.name)
    else if sort == "priority" then (a: AppCard, b: AppCard) => Weight(a) >= Weight(b)
    else (a: AppCard, b: AppCard) => true
  }

  /** What `renderApplications()` lists: the filtered applications in the
      stable order of the current sort. */
  function Arranged(apps: seq<AppCard>, filter: string, sort: string): seq<AppCard> {
    SortBy(FilterApps(apps, filter), Comparator(sort))
  }

  /** Every comparator of the dashboard sorts consistently. */
  lemma ComparatorIsPreorder(sort: string)
    ensures TotalPreorder(Comparator(sort))
  {
    var le := Comparator(sort);
    if sort == "name" {
      forall a: AppCard, b: AppCard ensures le(a, b) || le(b, a) {
        LexLeTotal(a.name, b.name);
      }
      forall a: AppCard, b: AppCard, c: AppCard | le(a, b) && le(b, c) ensures le(a, c) {
        LexLeTransitive(a.name, b.name, c.name);
      }
    }
  }

  /** The list shown is ordered by the current sort and holds exactly the
      applications the filter keeps, each once per occurrence. */
  lemma ArrangedIsSortedSelection(apps: seq<AppCard>, filter: string, sort: string)
    ensures SortedBy(Arranged(apps, filter, sort), Comparator(sort))
    ensures forall x :: multiset(Arranged(apps, filter, sort))[x] ==
                          if filter == "all" || x.status == filter then multiset(apps)[x] else 0
  {
    ComparatorIsPreorder(sort);
    SortBySorted(FilterApps(apps, filter), Comparator(sort));
    SortByPermutes(FilterApps(apps, filter), Comparator(sort));
  }

  /** Sorting by priority lists the emergencies first and then the rest,
      each group in the order it had. */
  lemma PriorityListsEmergenciesFirst(apps: seq<AppCard>, filter: string)
    ensures Arranged(apps, filter, "priority") ==
              Filter(FilterApps(apps, filter), IsEmergency) + Filter(FilterApps(apps, filter), Negate(IsEmergency))
  {
    SortByTwoClasses(FilterApps(apps, filter), Comparator("priority"), IsEmergency);
  }

  /** An unknown sort key (`default: return 0`) keeps the filtered order. */
  lemma UnknownSortKeepsOrder(apps: seq<AppCard>, filter: string, sort: string)
    requires sort !in {"date", "name", "priority"}
    ensures Arranged(apps, filter, sort) == FilterApps(apps, filter)
  {
    SortByAllTied(FilterApps(apps, filter), Comparator(sort));
  }

  // ---------------------------------------------------------------------------
  // Applications: the card's buttons
  // ---------------------------------------------------------------------------

  /** The buttons an application card renders, by their second class. */
  function CardButtons(app: AppCard): (r: seq<string>)
    ensures "view" in r
    ensures ("approve" in r) <==> app.status == "pending"
    ensures ("reject" in r) <==> app.status == "pending"
  {
    ["view"] + (if app.status == "pending" then ["approve", "reject"] else [])
  }

  /** The class list of a rendered button: `action-btn` and its kind. */
  function ButtonClasses(kind: string): set<string> {
    {"action-btn", kind}
  }

  /** What the document's click listener does with a click on an element. */
  datatype ClickAction = ApproveClicked | RejectClicked | ViewClicked | NoAction

  /** The listener as written: it looks for `approve-btn`, `reject-btn`
      and `view-btn`. */
  function DispatchAsWritten(classes: set<string>): ClickAction {
    if "approve-btn" in classes then ApproveClicked
    else if "reject-btn" in classes then RejectClicked
    else if "view-btn" in classes then ViewClicked
    else NoAction
  }

  /** No button a card renders reaches its handler: the card's buttons carry
      `approve`, `reject` and `view`, not the `-btn` names. */
  lemma RenderedButtonsAreIgnored(app: AppCard, kind: string)
    requires kind in CardButtons(app)
    ensures DispatchAsWritten(ButtonClasses(kind)) == NoAction
  {
  }

  /** The listener keyed on the classes the cards render. */
  function Dispatch(classes: set<string>): (r: ClickAction)
    ensures r != NoAction ==> "action-btn" in classes
  {
    if "action-btn" !in classes then NoAction
    else if "approve" in classes then ApproveClicked
    else if "reject" in classes then RejectClicked
    else if "view" in classes then ViewClicked
    else NoAction
  }

  /** Each rendered button reaches its own handler. */
  lemma RenderedButtonsDispatch(app: AppCard, kind: string)
    requires kind in CardButtons(app)
    ensures Dispatch(ButtonClasses(kind)) ==
              if kind == "approve" then ApproveClicked else if kind == "reject" then RejectClicked else ViewClicked
  {
  }

  // ---------------------------------------------------------------------------
  // Dashboard counters
  // ---------------------------------------------------------------------------

  /** `Math.max(0, (parseInt(text) || 0) - 1)` written back as text. */
  function Decremented(text: string): string {
    var current := JsIntOr(text, 0);
    IntToDecimal(if current - 1 < 0 then 0 else current - 1)
  }

  /** `(parseInt(text) || 0) + 1` written back as text. */
  function Incremented(text: string): string {
    IntToDecimal(JsIntOr(text, 0) + 1)
  }

  /** A counter element's text after a decrement; a missing element stays
      missing. */
  function StepDown(text: Option<string>): Option<string> {
    if text.Some? then Some(Decremented(text.value)) else None
  }

  /** A counter element's text after an increment; a missing element stays
      missing. */
  function StepUp(text: Option<string>): Option<string> {
    if text.Some? then Some(Incremented(text.value)) else None
  }

  /** A counter showing a number moves by one, the pending ones never below
      zero. */
  lemma {:induction false} CountersStepByOne(n: int)
    ensures Decremented(IntToDecimal(n)) == IntToDecimal(if n <= 0 then 0 else n - 1)
    ensures Incremented(IntToDecimal(n)) == IntToDecimal(if n == 0 then 1 else n + 1)
  {
    JsIntRoundTrip(n);
  }

  /** A counter whose text is not a number counts as zero. */
  lemma NonNumericCounterIsZero(text: string)
    requires ParseJsInt(text).None?
    ensures Decremented(text) == "0" && Incremented(text) == "1"
  {
  }

  /** The three counters `updateDashboardCounters()` finds: the pending
      badge and the sidebar's pending and pickup figures (`None` when the
      page lacks the element). */
  class DashboardCounters {
    var pendingBadge: Option<string>
    var todayPending: Option<string>
    var todayPickups: Option<string>

    constructor(pendingBadge: Option<string>, todayPending: Option<string>, todayPickups: Option<string>)
      ensures this.pendingBadge == pendingBadge && this.todayPending == todayPending
      ensures this.todayPickups == todayPickups
    {
      this.pendingBadge := pendingBadge;
      this.todayPending := todayPending;
      this.todayPickups := todayPickups;
    }

    /** `updateDashboardCounters()`: both pending counters go down by one,
        not below zero, and the pickups counter goes up by one. */
    method Update()
      modifies this
      ensures pendingBadge == StepDown(old(pendingBadge))
      ensures todayPending == StepDown(old(todayPending))
      ensures todayPickups == StepUp(old(todayPickups))
    {
      if pendingBadge.Some? {
        pendingBadge := Some(Decremented(pendingBadge.value));
      }
      if todayPending.Some? {
        todayPending := Some(Decremented(todayPending.value));
      }
      if todayPickups.Some? {
        todayPickups := Some(Incremented(todayPickups.value));
      }
    }
  }

  // ---------------------------------------------------------------------------
  // Applications: approve and reject
  // ---------------------------------------------------------------------------

  function HasId(id: string): AppCard -> bool {
    (a: AppCard) => a.id == id
  }

  /** The records `loadApplications()` installs; the days are counted from
      1970-01-01, so 19965 is 2024-08-30. None has a rejection reason. */
  const SampleApplications: seq<AppCard> := [
    AppCard("APP-001", "John Doe", "Medium Family Basic", "pending", 19965, 5, "normal", None),
    AppCard("APP-002", "Jane Smith", "Small Family Basic", "pending", 19965, 2, "emergency", None),
    AppCard("APP-003", "Michael Johnson", "Large Family Basic", "approved", 19964, 8, "normal", None)
  ]

  /** On the freshly loaded dashboard the pending filter sorted by priority
      lists Jane Smith's emergency before John Doe's application, and the
      approved filter lists Michael Johnson's alone. */
  lemma SampleListing()
    ensures Arranged(SampleApplications, "pending", "priority") == [SampleApplications[1], SampleApplications[0]]
    ensures Arranged(SampleApplications, "approved", "date") == [SampleApplications[2]]
  {
    var s := SampleApplications;
    SampleFiltered();
    PriorityListsEmergenciesFirst(s, "pending");
    var pending := [s[0], s[1]];
    assert pending[1..] == [s[1]];
    assert Filter(pending, IsEmergency) == [s[1]] by {
      assert Filter(pending[1..], IsEmergency) == [s[1]];
    }
    assert Filter(pending, Negate(IsEmergency)) == [s[0]] by {
      assert Filter(pending[1..], Negate(IsEmergency)) == [];
    }
    assert [s[2]][1..] == [];
  }

  /** The sample's pending and approved selections, in list order. */
  lemma SampleFiltered()
    ensures FilterApps(SampleApplications, "pending") == [SampleApplications[0], SampleApplications[1]]
    ensures FilterApps(SampleApplications, "approved") == [SampleApplications[2]]
  {
    var s := SampleApplications;
    assert s[1..] == [s[1], s[2]];
    assert s[1..][1..] == [s[2]];
    assert s[1..][1..][1..] == [];
    var pending, approved := StatusFilter("pending"), StatusFilter("approved");
    assert pending(s[0]) && pending(s[1]) && !pending(s[2]);
    assert !approved(s[0]) && !approved(s[1]) && approved(s[2]);
    assert Filter(s[1..][1..], pending) == [];
    assert Filter(s[1..][1..], approved) == [s[2]];
  }

  /** `ApplicationManager`: the applications and the current filter and
      sort. */
  class ApplicationManager {
    var applications: seq<AppCard>
    var currentFilter: string
    var currentSort: string

    /** `new ApplicationManager()`: the filter `all`, the sort `date`, and
        then `init()`, whose `loadApplications()` installs the sample
        records. */
    constructor()
      ensures applications == SampleApplications && currentFilter == "all" && currentSort == "date"
    {
      applications := [];
      currentFilter := "all";
      currentSort := "date";
      new;
      LoadApplications();
    }

    /** `loadApplications()`: the list becomes the three sample records,
        whatever it held. */
    method LoadApplications()
      modifies this`applications
      ensures applications == SampleApplications
    {
      applications := SampleApplications;
    }

    /** What the container shows. */
    function Listed(): seq<AppCard>
      reads this
    {
      Arranged(applications, currentFilter, currentSort)
    }

    /** `setFilter(filter)`. */
    method SetFilter(filter: string)
      modifies this`currentFilter
      ensures currentFilter == filter
    {
      currentFilter := filter;
    }

    /** `setSortOrder(sortBy)`. */
    method SetSortOrder(sortBy: string)
      modifies this`currentSort
      ensures currentSort == sortBy
    {
      currentSort := sortBy;
    }

    /** `approveApplication(appId)` with the answer `confirmed` to its
        `confirm()`: the first application with that id becomes `approved`
        and the counters are updated; otherwise nothing changes. */
    method ApproveApplication(appId: string, confirmed: bool, counters: DashboardCounters)
      modifies this`applications, counters
      ensures var i := FirstIndex(old(applications), HasId(appId));
              if confirmed && i.Some? then
                && applications == old(applications)[i.value := old(applications)[i.value].(status := "approved")]
                && counters.pendingBadge == StepDown(old(counters.pendingBadge))
                && counters.todayPending == StepDown(old(counters.todayPending))
                && counters.todayPickups == StepUp(old(counters.todayPickups))
              else
                applications == old(applications) && unchanged(counters)
    {
      if confirmed {
        var i := FirstIndex(applications, HasId(appId));
        if i.Some? {
          applications := applications[i.value := applications[i.value].(status := "approved")];
          counters.Update();
        }
      }
    }

    /** `rejectApplication(appId)`: `reason` is what `prompt()` returned
        (`None` when cancelled) and `confirmed` the answer to the
        `confirm()` that follows a non-empty reason. The first application
        with that id becomes `rejected` with the reason recorded, and the
        counters are updated as for an approval. */
    method RejectApplication(appId: string, reason: Option<string>, confirmed: bool, counters: DashboardCounters)
      modifies this`applications, counters
      ensures var i := FirstIndex(old(applications), HasId(appId));
              if reason.Some? && reason.value != "" && confirmed && i.Some? then
                && applications == old(applications)[i.value := old(applications)[i.value].(status := "rejected", rejectionReason := reason)]
                && counters.pendingBadge == StepDown(old(counters.pendingBadge))
                && counters.todayPending == StepDown(old(counters.todayPending))
                && counters.todayPickups == StepUp(old(counters.todayPickups))
              else
                applications == old(applications) && unchanged(counters)
    {
      if reason.Some? && reason.value != "" && confirmed {
        var i := FirstIndex(applications, HasId(appId));
        if i.Some? {
          applications := applications[i.value := applications[i.value].(status := "rejected", rejectionReason := reason)];
          counters.Update();
        }
      }
    }
  }

  /** A click on an element with the given classes and `data-app-id`,
      dispatched by `Dispatch`; a view opens an alert and changes nothing. */
  method HandleClick(manager: ApplicationManager, classes: set<string>, appId: string,
                     reason: Option<string>, confirmed: bool, counters: DashboardCounters)
    modifies manager`applications, counters
    ensures Dispatch(classes) !in {ApproveClicked, RejectClicked} ==>
              manager.applications == old(manager.applications) && unchanged(counters)
    ensures Dispatch(classes) == ApproveClicked ==>
              var i := FirstIndex(old(manager.applications), HasId(appId));
              if confirmed && i.Some? then
                && manager.applications == old(manager.applications)[i.value := old(manager.applications)[i.value].(status := "approved")]
                && counters.pendingBadge == StepDown(old(counters.pendingBadge))
                && counters.todayPending == StepDown(old(counters.todayPending))
                && counters.todayPickups == StepUp(old(counters.todayPickups))
              else manager.applications == old(manager.applications) && unchanged(counters)
    ensures Dispatch(classes) == RejectClicked ==>
              var i := FirstIndex(old(manager.applications), HasId(appId));
              if reason.Some? && reason.value != "" && confirmed && i.Some? then
                && manager.applications == old(manager.applications)[i.value := old(manager.applications)[i.value].(status := "rejected", rejectionReason := reason)]
                && counters.pendingBadge == StepDown(old(counters.pendingBadge))
                && counters.todayPending == StepDown(old(counters.todayPending))
                && counters.todayPickups == StepUp(old(counters.todayPickups))
              else manager.applications == old(manager.applications) && unchanged(counters)
  {
    match Dispatch(classes)
    case ApproveClicked => manager.ApproveApplication(appId, confirmed, counters);
    case RejectClicked => manager.RejectApplication(appId, reason, confirmed, counters);
    case ViewClicked =>
    case NoAction =>
  }

  /** A confirmed approval moves the application from the `pending` list
      to the `approved` one and leaves every other list and every id as it
      was. */
  lemma ApprovalMovesBetweenLists(apps: seq<AppCard>, appId: string, i: nat, filter: string)
    requires FirstIndex(apps, HasId(appId)) == Some(i)
    requires apps[i].status == "pending"
    ensures multiset(FilterApps(apps[i := apps[i].(status := "approved")], "pending")) ==
              multiset(FilterApps(apps, "pending")) - multiset{apps[i]}
    ensures multiset(FilterApps(apps[i := apps[i].(status := "approved")], "approved")) ==
              multiset(FilterApps(apps, "approved")) + multiset{apps[i].(status := "approved")}
    ensures filter !in {"all", "pending", "approved"} ==>
              FilterApps(apps[i := apps[i].(status := "approved")], filter) == FilterApps(apps, filter)
    ensures forall k :: 0 <= k < |apps| ==> apps[i := apps[i].(status := "approved")][k].id == apps[k].id
  {
    ApprovalLeavesPending(apps, i);
    ApprovalJoinsApproved(apps, i);
    StatusChangeKeepsIds(apps, i, "approved");
    if filter !in {"all", "pending", "approved"} {
      FilterIgnoresDropped(apps, i, apps[i].(status := "approved"), StatusFilter(filter));
    }
  }

  lemma ApprovalLeavesPending(apps: seq<AppCard>, i: nat)
    requires i < |apps| && apps[i].status == "pending"
    ensures multiset(FilterApps(apps[i := apps[i].(status := "approved")], "pending")) ==
              multiset(FilterApps(apps, "pending")) - multiset{apps[i]}
  {
    var approved := apps[i].(status := "approved");
    assert approved.status != "pending";
    StatusChangeMovesEntry(apps, i, "approved", "pending");
    assert multiset(FilterApps(apps[i := approved], "pending")) ==
             multiset(FilterApps(apps, "pending")) - multiset{apps[i]} + multiset{};
  }

  lemma ApprovalJoinsApproved(apps: seq<AppCard>, i: nat)
    requires i < |apps| && apps[i].status == "pending"
    ensures multiset(FilterApps(apps[i := apps[i].(status := "approved")], "approved")) ==
              multiset(FilterApps(apps, "approved")) + multiset{apps[i].(status := "approved")}
  {
    var approved := apps[i].(status := "approved");
    assert apps[i].status != "approved";
    StatusChangeMovesEntry(apps, i, "approved", "approved");
    assert multiset(FilterApps(apps[i := approved], "approved")) ==
             multiset(FilterApps(apps, "approved")) - multiset{} + multiset{approved};
  }

  /** A status change renames no entry. */
  lemma StatusChangeKeepsIds(apps: seq<AppCard>, i: nat, status: string)
    requires i < |apps|
    ensures forall k :: 0 <= k < |apps| ==> apps[i := apps[i].(status := status)][k].id == apps[k].id
  {
  }

  /** Changing one entry's status to `status` changes the list under a
      status filter by that entry alone: it leaves the old status's list
      and joins the new one's. */
  lemma StatusChangeMovesEntry(apps: seq<AppCard>, i: nat, status: string, filter: string)
    requires i < |apps| && filter != "all"
    ensures var changed := apps[i].(status := status);
            multiset(FilterApps(apps[i := changed], filter)) ==
              multiset(FilterApps(apps, filter))
              - (if apps[i].status == filter then multiset{apps[i]} else multiset{})
              + (if status == filter then multiset{changed} else multiset{})
  {
    FilterUpdateCount(apps, i, apps[i].(status := status), StatusFilter(filter));
  }

  // ---------------------------------------------------------------------------
  // Packages
  // ---------------------------------------------------------------------------

  /** A package object of `this.packages`. */
  datatype PackageCard = PackageCard(id: string, name: string, items: string, cashAmount: int,
                                     stock: int, lowStockThreshold: int, familySize: string)

  /** The three stock states a package card shows. */
  datatype StockLevel = OutOfStock | LowStock | InStock {
    function Badge(): string {
      match this
      case OutOfStock => "Out of Stock"
      case LowStock => "Low Stock"
      case InStock => "In Stock"
    }
  }

  /** The classification of `renderPackageCard(pkg)`: none left, at most the
      threshold left, or more. */
  function StockLevelOf(pkg: PackageCard): (r: StockLevel)
    ensures r == OutOfStock <==> pkg.stock == 0
    ensures r == LowStock <==> pkg.stock != 0 && pkg.stock <= pkg.lowStockThreshold
    ensures r == InStock <==> pkg.stock != 0 && pkg.stock > pkg.lowStockThreshold
  {
    if pkg.stock == 0 then OutOfStock
    else if pkg.stock <= pkg.lowStockThreshold then LowStock
    else InStock
  }

  /** More stock never shows a worse level, as long as some is left. */
  lemma StockLevelMonotone(pkg: PackageCard, more: int)
    requires 0 < pkg.stock <= more
    ensures StockLevelOf(pkg) == InStock ==> StockLevelOf(pkg.(stock := more)) == InStock
    ensures StockLevelOf(pkg.(stock := more)) != OutOfStock
  {
  }

  function NotId(id: string): PackageCard -> bool {
    (p: PackageCard) => p.id != id
  }

  /** The records `loadPackages()` installs. */
  const SamplePackages: seq<PackageCard> := [
    PackageCard("PKG-001", "Small Family Basic", "5kg Rice, 2kg Beans, 1L Oil, 1kg Salt", 5000, 25, 10, "small"),
    PackageCard("PKG-002", "Medium Family Basic", "10kg Rice, 5kg Beans, 2L Oil, 1kg Salt, 1kg Sugar", 8000, 5, 10, "medium"),
    PackageCard("PKG-003", "Large Family Basic", "25kg Rice, 10kg Beans, 3L Oil, 2kg Salt, 2kg Sugar", 15000, 0, 5, "large")
  ]

  /** On the freshly loaded page the three sample cards show the three stock
      states: in stock, low stock and out of stock. */
  lemma SampleStockLevels()
    ensures |SamplePackages| == 3
    ensures StockLevelOf(SamplePackages[0]) == InStock
    ensures StockLevelOf(SamplePackages[1]) == LowStock
    ensures StockLevelOf(SamplePackages[2]) == OutOfStock
  {
  }

  /** `PackageManager`: the packages listed. */
  class PackageManager {
    var packages: seq<PackageCard>

    /** `new PackageManager()`: an empty list, then `init()`, whose
        `loadPackages()` installs the sample records. */
    constructor()
      ensures packages == SamplePackages
    {
      packages := [];
      new;
      LoadPackages();
    }

    /** `loadPackages()`: the list becomes the three sample records,
        whatever it held. */
    method LoadPackages()
      modifies this`packages
      ensures packages == SamplePackages
    {
      packages := SamplePackages;
    }

    /** `deletePackage(packageId)` with the answer `confirmed`: every
        package with that id is removed and the others keep their order. */
    method DeletePackage(packageId: string, confirmed: bool)
      modifies this
      ensures packages == if confirmed then Filter(old(packages), NotId(packageId)) else old(packages)
      ensures confirmed ==> forall k :: 0 <= k < |packages| ==> packages[k].id != packageId
    {
      if confirmed {
        packages := Filter(packages, NotId(packageId));
      }
    }
  }

  /** Deleting removes every package with the id and keeps every other one
      as often as it was listed. */
  lemma DeleteKeepsOthers(packages: seq<PackageCard>, packageId: string, x: PackageCard)
    ensures multiset(Filter(packages, NotId(packageId)))[x] == if x.id == packageId then 0 else multiset(packages)[x]
  {
    FilterCount(packages, NotId(packageId), x);
  }
}
