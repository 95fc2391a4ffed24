/** The craft app's in-memory state (tribal-craft/src/App.jsx): the user
    list, the product list and the logged-in user, with the operations
    the pages call on them, the route guard and the product page lookup. */
module Store {
  import opened Wrappers
  import opened Seqs
  import opened Catalog

  const InitialUsers: seq<User> := [
    User("artisan1", "pass", "artisan"),
    User("customer1", "pass", "customer"),
    User("consultant1", "pass", "consultant"),
    User("admin1", "pass", "admin")
  ]

  const InitialProducts: seq<Product> := [
    Product("p1", "Handcrafted Rosewood Jewelry Box",
      Some("Beautiful handcrafted jewelry box made from premium rosewood."),
      Some(850.0), Some("Box.jpeg"), "artisan1", true),
    Product("p2", "Traditional Carved Wooden Elephant",
      Some("A stunning wooden elephant statue showcasing fine tribal craftsmanship."),
      Some(1000.0), Some("elephant.jpeg"), "artisan1", true),
    Product("p3", "Teak Wood Wall Hanging",
      Some("Elegant wall hanging carved from durable teak wood with tribal designs."),
      Some(1200.0), Some("Wall.jpeg"), "artisan1", true)
  ]

  /** No two accounts share a username. */
  ghost predicate UniqueUsernames(users: seq<User>) {
    forall i, j :: 0 <= i < j < |users| ==> users[i].username != users[j].username
  }

  /** Some account already has this username. */
  predicate Taken(users: seq<User>, username: string) {
    Find(users, (v: User) => v.username == username).Some?
  }

  /** The user list after `registerUser(u)`: unchanged when the username is
      taken, otherwise `u` appended. */
  function Register(users: seq<User>, u: User): (r: seq<User>)
    ensures Taken(users, u.username) ==> r == users
    ensures !Taken(users, u.username) ==> r == users + [u]
    ensures UniqueUsernames(users) ==> UniqueUsernames(r)
    ensures Taken(r, u.username)
  {
    var r := if Taken(users, u.username) then users else users + [u];
    assert r[FindIndex(r, (v: User) => v.username == u.username)].username == u.username
      by { if r != users { assert r[|users|] == u; } }
    r
  }

  /** `loginUser`'s lookup: the first account whose username and password
      both match. */
  function FindLogin(users: seq<User>, username: string, password: string): (r: Option<User>)
    ensures r.Some? ==> r.value in users && r.value.username == username && r.value.password == password
    ensures r.None? <==> forall i :: 0 <= i < |users| ==> !(users[i].username == username && users[i].password == password)
    ensures r.Some? ==> exists i :: 0 <= i < |users| && users[i] == r.value &&
                                   forall j :: 0 <= j < i ==> !(users[j].username == username && users[j].password == password)
  {
    Find(users, (v: User) => v.username == username && v.password == password)
  }

  /** One product after `approveProduct(id)`. */
  function ApproveOne(p: Product, id: string): Product {
    if p.id == id then p.(approved := true) else p
  }

  /** The product list after `approveProduct(id)`: the products with that id
      become approved; nothing else changes, not even the order. */
  function Approve(products: seq<Product>, id: string): (r: seq<Product>)
    ensures |r| == |products|
    ensures forall i :: 0 <= i < |r| ==> r[i].approved == (products[i].approved || products[i].id == id)
    ensures forall i :: 0 <= i < |r| ==> r[i].(approved := products[i].approved) == products[i]
  {
    seq(|products|, i requires 0 <= i < |products| => ApproveOne(products[i], id))
  }

  /** Approving twice is approving once. */
  lemma ApproveIdempotent(products: seq<Product>, id: string)
    ensures Approve(Approve(products, id), id) == Approve(products, id)
  {
  }

  /** What `ProtectedRoute` renders. */
  datatype Guarded = RedirectTo(path: string) | Children

  /** `ProtectedRoute`: nobody logged in goes to `/login`; a user without the
      required role (an empty role requires nothing) goes to `/`. */
  function ProtectedRoute(user: Option<User>, role: Option<string>): (r: Guarded)
    ensures r == Children <==> user.Some? && (role.None? || role.value == "" || user.value.role == role.value)
    ensures user.None? ==> r == RedirectTo("/login")
    ensures user.Some? && !r.Children? ==> r == RedirectTo("/")
  {
    if user.None? then RedirectTo("/login")
    else if role.Some? && role.value != "" && user.value.role != role.value then RedirectTo("/")
    else Children
  }

  /** The role the app's route table demands for a path (`/add-product`
      demands a user but no role; unguarded paths are not listed). */
  function RequiredRole(path: string): (r: Option<string>)
    ensures r.Some? <==> path in {"/artisan", "/consultant", "/admin"}
    ensures r.Some? ==> RouteForRole(r.value) == path
  {
    match path
    case "/artisan" => Some("artisan")
    case "/consultant" => Some("consultant")
    case "/admin" => Some("admin")
    case _ => None
  }

  /** The page a login sends a user to never bounces them: the guard of that
      path admits them. */
  lemma LandingPageAdmits(u: User)
    ensures ProtectedRoute(Some(u), RequiredRole(RouteForRole(u.role))) == Children
  {
  }

  /** What `ProductDetailWrapper` renders for the route's id. */
  datatype DetailRoute = ProductNotFound | ShowProduct(product: Product)

  /** `ProductDetailWrapper`: the first product with the route's id, or the
      not-found view when none has it. */
  function ProductDetailWrapper(products: seq<Product>, id: string): (r: DetailRoute)
    ensures r.ProductNotFound? <==> forall i :: 0 <= i < |products| ==> products[i].id != id
    ensures r.ShowProduct? ==> r.product in products && r.product.id == id
    ensures r.ShowProduct? ==> exists i :: 0 <= i < |products| && products[i] == r.product &&
                                          forall j :: 0 <= j < i ==> products[j].id != id
  {
    match Find(products, (p: Product) => p.id == id)
    case Some(p) => ShowProduct(p)
    case None => ProductNotFound
  }

  /** The app's state. */
  class AppStore {
    var users: seq<User>
    var products: seq<Product>
    var currentUser: Option<User>

    ghost predicate Valid()
      reads this
    {
      UniqueUsernames(users)
    }

    /** The state the app starts with (the saved login is not restored). */
    constructor ()
      ensures Valid()
      ensures users == InitialUsers && products == InitialProducts && currentUser == None
    {
      users := InitialUsers;
      products := InitialProducts;
      currentUser := None;
    }

    /** `registerUser`: adds the account unless the username is taken, and
        answers true either way. */
    method RegisterUser(u: User) returns (ok: bool)
      requires Valid()
      modifies this`users
      ensures Valid()
      ensures users == Register(old(users), u)
      ensures ok
    {
      users := Register(users, u);
      ok := true;
    }

    /** `loginUser`: logs in the first matching account, if any; on failure
        the logged-in user is left as it was. */
    method LoginUser(username: string, password: string) returns (r: Option<User>)
      requires Valid()
      modifies this`currentUser
      ensures Valid()
      ensures r == FindLogin(users, username, password)
      ensures currentUser == if r.Some? then r else old(currentUser)
    {
      r := FindLogin(users, username, password);
      if r.Some? {
        currentUser := r;
      }
    }

    /** `logoutUser`. */
    method LogoutUser()
      requires Valid()
      modifies this`currentUser
      ensures Valid()
      ensures currentUser == None
    {
      currentUser := None;
    }

    /** `addProduct`: appends; the products already there keep their place. */
    method AddProduct(p: Product)
      requires Valid()
      modifies this`products
      ensures Valid()
      ensures products == old(products) + [p]
    {
      products := products + [p];
    }

    /** `approveProduct`. */
    method ApproveProduct(id: string)
      requires Valid()
      modifies this`products
      ensures Valid()
      ensures products == Approve(old(products), id)
    {
      products := Approve(products, id);
    }
  }
}
