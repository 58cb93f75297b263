/**
 * The application shell: which screen is showing, the signed-in flag, the
 * list of websites and the global product list, the handlers that move
 * between screens, and the per-website views handed to the preview and to
 * the management screen.
 */
module AppShell {
  import opened Seqs
  import opened Domain
  import ProductCatalog

  /** The screen being shown; preview and management carry the website they are about. */
  datatype View =
    | Landing
    | Pricing
    | Dashboard
    | CreatingWebsite
    | Previewing(websiteId: string)
    | Managing(websiteId: string)

  /** The subscription plans offered on the pricing screen (prices in rupiah, durations in days). */
  const Plans: seq<SubscriptionPlan> := [
    SubscriptionPlan("plan-1", "Free Trial", 0, 14),
    SubscriptionPlan("plan-2", "Starter", 299000, 30),
    SubscriptionPlan("plan-3", "Professional", 799000, 30),
    SubscriptionPlan("plan-4", "Enterprise", 1999000, 30)
  ]

  function IsPlan(planId: string): SubscriptionPlan -> bool
  {
    (p: SubscriptionPlan) => p.planId == planId
  }

  /** A plan id is offered when one of the plans carries it. */
  predicate IsOffered(planId: string)
  {
    Find(Plans, IsPlan(planId)).Some?
  }

  /** The four plan ids are offered and nothing else is. */
  lemma OfferedPlans(planId: string)
    ensures IsOffered(planId) <==> planId in {"plan-1", "plan-2", "plan-3", "plan-4"}
  {
    if planId in {"plan-1", "plan-2", "plan-3", "plan-4"} {
      var k := if planId == "plan-1" then 0 else if planId == "plan-2" then 1 else if planId == "plan-3" then 2 else 3;
      assert IsPlan(planId)(Plans[k]);
    }
  }

  // ----- per-website views -----

  function OfWebsite(websiteId: string): Product -> bool
  {
    (p: Product) => p.websiteId == websiteId
  }

  function OrderOfWebsite(websiteId: string): Order -> bool
  {
    (o: Order) => o.websiteId == websiteId
  }

  function CategoryOfWebsite(websiteId: string): Category -> bool
  {
    (c: Category) => c.websiteId == websiteId
  }

  /** The products of one website, in their global order. */
  function WebsiteProducts(products: seq<Product>, websiteId: string): seq<Product>
  {
    Filter(products, OfWebsite(websiteId))
  }

  /** The orders of one website, in their global order. */
  function WebsiteOrders(orders: seq<Order>, websiteId: string): seq<Order>
  {
    Filter(orders, OrderOfWebsite(websiteId))
  }

  function WebsiteCategories(categories: seq<Category>, websiteId: string): seq<Category>
  {
    Filter(categories, CategoryOfWebsite(websiteId))
  }

  /** Each view holds exactly the records of its website, none dropped, in order. */
  lemma ScopingSpec(products: seq<Product>, orders: seq<Order>, websiteId: string)
    ensures var r := WebsiteProducts(products, websiteId);
      (forall i :: 0 <= i < |r| ==> r[i].websiteId == websiteId) &&
      (forall i :: 0 <= i < |products| && products[i].websiteId == websiteId ==> products[i] in r) &&
      IsSubsequence(r, products) &&
      (forall x :: multiset(r)[x] == if x.websiteId == websiteId then multiset(products)[x] else 0)
    ensures var r := WebsiteOrders(orders, websiteId);
      (forall i :: 0 <= i < |r| ==> r[i].websiteId == websiteId) &&
      (forall i :: 0 <= i < |orders| && orders[i].websiteId == websiteId ==> orders[i] in r) &&
      IsSubsequence(r, orders) &&
      (forall x :: multiset(r)[x] == if x.websiteId == websiteId then multiset(orders)[x] else 0)
  {
    FilterIsSubsequence(products, OfWebsite(websiteId));
    FilterIsSubsequence(orders, OrderOfWebsite(websiteId));
    FilterCounts(products, OfWebsite(websiteId));
    FilterCounts(orders, OrderOfWebsite(websiteId));
  }

  // ----- the websites list -----

  /** The websites list after an update from the management screen: the record with the same id replaced. */
  function ReplaceWebsite(websites: seq<Website>, updated: Website): seq<Website>
  {
    seq(|websites|, i requires 0 <= i < |websites| => if websites[i].websiteId == updated.websiteId then updated else websites[i])
  }

  /**
   * The update keeps the length, replaces the website with the id, leaves
   * every other website as it was, and is idempotent.
   */
  lemma ReplaceWebsiteSpec(websites: seq<Website>, updated: Website)
    ensures |ReplaceWebsite(websites, updated)| == |websites|
    ensures forall i :: 0 <= i < |websites| && websites[i].websiteId == updated.websiteId ==> ReplaceWebsite(websites, updated)[i] == updated
    ensures forall i :: 0 <= i < |websites| && websites[i].websiteId != updated.websiteId ==> ReplaceWebsite(websites, updated)[i] == websites[i]
    ensures ReplaceWebsite(ReplaceWebsite(websites, updated), updated) == ReplaceWebsite(websites, updated)
  {
  }

  function IsWebsite(websiteId: string): Website -> bool
  {
    (w: Website) => w.websiteId == websiteId
  }

  function FindWebsite(websites: seq<Website>, websiteId: string): Option<Website>
  {
    Find(websites, IsWebsite(websiteId))
  }

  // ----- rendering -----

  /** What a view shows, with the data handed to the preview and to the management screen. */
  datatype Screen =
    | LandingScreen
    | PricingScreen
    | DashboardScreen
    | CreateScreen
    | Preview(website: Website, products: seq<Product>, categories: seq<Category>)
    | Manage(website: Website, products: seq<Product>, categories: seq<Category>)
    | NotFound

  function Render(view: View, websites: seq<Website>, products: seq<Product>, categories: seq<Category>): Screen
  {
    match view
    case Landing => LandingScreen
    case Pricing => PricingScreen
    case Dashboard => DashboardScreen
    case CreatingWebsite => CreateScreen
    case Previewing(id) =>
      (match FindWebsite(websites, id)
       case Some(w) => Preview(w, WebsiteProducts(products, w.websiteId), WebsiteCategories(categories, w.websiteId))
       case None => NotFound)
    case Managing(id) =>
      (match FindWebsite(websites, id)
       case Some(w) => Manage(w, products, WebsiteCategories(categories, w.websiteId))
       case None => NotFound)
  }

  /**
   * Preview and management show "not found" exactly when no website has the
   * id; otherwise they show that website, the preview with only its
   * products and categories, the management screen with the global list.
   */
  lemma RenderSpec(view: View, websites: seq<Website>, products: seq<Product>, categories: seq<Category>)
    ensures var s := Render(view, websites, products, categories);
      (s.NotFound? <==> ((view.Previewing? || view.Managing?) &&
        forall i :: 0 <= i < |websites| ==> websites[i].websiteId != view.websiteId))
    ensures var s := Render(view, websites, products, categories);
      s.Preview? ==> (view.Previewing? && s.website.websiteId == view.websiteId &&
        (forall i :: 0 <= i < |s.products| ==> s.products[i].websiteId == view.websiteId) &&
        (forall i :: 0 <= i < |s.categories| ==> s.categories[i].websiteId == view.websiteId))
    ensures var s := Render(view, websites, products, categories);
      s.Manage? ==> (view.Managing? && s.website.websiteId == view.websiteId && s.products == products)
  {
    if view.Previewing? || view.Managing? {
      var found := FindWebsite(websites, view.websiteId);
      if found.Some? {
        var i :| 0 <= i < |websites| && websites[i] == found.value && IsWebsite(view.websiteId)(websites[i]) &&
          forall j :: 0 <= j < i ==> !IsWebsite(view.websiteId)(websites[j]);
      }
    }
  }

  // ----- the product hand-off of the management screen -----

  /**
   * The catalogue screen of the managed website works on that website's
   * products only, and the list it hands on becomes the global list. Any
   * submit hands on products of the managed website only, so every other
   * website's products are gone from the global list afterwards.
   */
  lemma SubmitKeepsOnlyManagedWebsite(products: seq<Product>, websiteId: string, editing: Option<Product>,
                                      form: ProductCatalog.ProductForm, price: int, stock: int, now: int)
    ensures var r := ProductCatalog.Submitted(WebsiteProducts(products, websiteId), websiteId, editing, form, price, stock, now);
      r.Some? ==>
        (forall i :: 0 <= i < |r.value| ==> r.value[i].websiteId == websiteId) &&
        (forall i :: 0 <= i < |products| && products[i].websiteId != websiteId ==> products[i] !in r.value)
  {
    var own := WebsiteProducts(products, websiteId);
    var record := ProductCatalog.BuildRecord(websiteId, editing, form, price, stock, now);
    var r := ProductCatalog.Submitted(own, websiteId, editing, form, price, stock, now);
    if r.Some? {
      if editing.Some? {
        ProductCatalog.ReplaceByIdSpec(own, editing.value.productId, record);
      }
      forall i | 0 <= i < |r.value| ensures r.value[i].websiteId == websiteId {
        if editing.None? && i == |own| {
          assert r.value[i] == record;
        }
      }
    }
  }

  /** The same for a confirmed delete: only the managed website's products remain anywhere. */
  lemma DeleteKeepsOnlyManagedWebsite(products: seq<Product>, websiteId: string, productId: string, confirmed: bool)
    ensures var r := ProductCatalog.Deleted(WebsiteProducts(products, websiteId), productId, confirmed);
      r.Some? ==>
        (forall i :: 0 <= i < |r.value| ==> r.value[i].websiteId == websiteId) &&
        (forall i :: 0 <= i < |products| && products[i].websiteId != websiteId ==> products[i] !in r.value)
  {
    var own := WebsiteProducts(products, websiteId);
    var r := ProductCatalog.Deleted(own, productId, confirmed);
    if r.Some? {
      forall i | 0 <= i < |r.value| ensures r.value[i].websiteId == websiteId {
        assert r.value[i] in own;
      }
    }
  }

  /** The app's state. */
  class App {
    var view: View
    var websites: seq<Website>
    var products: seq<Product>
    var isAuthenticated: bool

    /** The app opens on the landing page, signed out, with the initial websites and products. */
    constructor(initialWebsites: seq<Website>, initialProducts: seq<Product>)
      ensures view == Landing && !isAuthenticated
      ensures websites == initialWebsites && products == initialProducts
    {
      view := Landing;
      websites := initialWebsites;
      products := initialProducts;
      isAuthenticated := false;
    }

    method GetStarted()
      modifies this
      ensures view == Pricing
      ensures websites == old(websites) && products == old(products) && isAuthenticated == old(isAuthenticated)
    {
      view := Pricing;
    }

    /** The back link of the pricing screen. */
    method BackToLanding()
      modifies this
      ensures view == Landing
      ensures websites == old(websites) && products == old(products) && isAuthenticated == old(isAuthenticated)
    {
      view := Landing;
    }

    /** Choosing a plan signs in and opens the dashboard; an id no plan has changes nothing. */
    method SelectPlan(planId: string)
      modifies this
      ensures IsOffered(planId) ==> isAuthenticated && view == Dashboard
      ensures !IsOffered(planId) ==> isAuthenticated == old(isAuthenticated) && view == old(view)
      ensures websites == old(websites) && products == old(products)
    {
      var plan := Find(Plans, IsPlan(planId));
      if plan.Some? {
        isAuthenticated := true;
        view := Dashboard;
      }
    }

    method CreateWebsite()
      modifies this
      ensures view == CreatingWebsite
      ensures websites == old(websites) && products == old(products) && isAuthenticated == old(isAuthenticated)
    {
      view := CreatingWebsite;
    }

    /** A finished wizard: the new website goes at the end of the list and the dashboard opens. */
    method WebsiteCreated(website: Website)
      modifies this
      ensures websites == old(websites) + [website]
      ensures |websites| == |old(websites)| + 1 && websites[|websites| - 1] == website
      ensures view == Dashboard
      ensures products == old(products) && isAuthenticated == old(isAuthenticated)
    {
      websites := websites + [website];
      view := Dashboard;
    }

    method ViewWebsite(websiteId: string)
      modifies this
      ensures view == Previewing(websiteId)
      ensures websites == old(websites) && products == old(products) && isAuthenticated == old(isAuthenticated)
    {
      view := Previewing(websiteId);
    }

    method ManageWebsite(websiteId: string)
      modifies this
      ensures view == Managing(websiteId)
      ensures websites == old(websites) && products == old(products) && isAuthenticated == old(isAuthenticated)
    {
      view := Managing(websiteId);
    }

    /** Back from the wizard, the preview or the management screen. */
    method BackToDashboard()
      modifies this
      ensures view == Dashboard
      ensures websites == old(websites) && products == old(products) && isAuthenticated == old(isAuthenticated)
    {
      view := Dashboard;
    }

    method Logout()
      modifies this
      ensures !isAuthenticated && view == Landing
      ensures websites == old(websites) && products == old(products)
    {
      isAuthenticated := false;
      view := Landing;
    }

    /** An updated website from the management screen replaces the one with its id. */
    method WebsiteUpdate(updated: Website)
      modifies this
      ensures websites == ReplaceWebsite(old(websites), updated)
      ensures |websites| == |old(websites)|
      ensures forall i :: 0 <= i < |websites| && old(websites)[i].websiteId != updated.websiteId ==> websites[i] == old(websites)[i]
      ensures view == old(view) && products == old(products) && isAuthenticated == old(isAuthenticated)
    {
      websites := ReplaceWebsite(websites, updated);
    }

    /** A product list handed up by the management screen becomes the global list as it is. */
    method ProductsChange(changed: seq<Product>)
      modifies this
      ensures products == changed
      ensures view == old(view) && websites == old(websites) && isAuthenticated == old(isAuthenticated)
    {
      products := changed;
    }
  }
}
