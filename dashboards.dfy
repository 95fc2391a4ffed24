/** The craft app's two role dashboards: the consultant's queue of
    products awaiting approval (tribal-craft/src/DashBoards/ConsultantDashBoard.jsx)
    and the artisan's own products (tribal-craft/src/DashBoards/ArtisanDashBoard.jsx). */
module Dashboards {
  import opened Wrappers
  import opened Seqs
  import opened Catalog
  import opened Store

  /** `products.filter(p => !p.approved)`. */
  function Pending(products: seq<Product>): (r: seq<Product>)
    ensures forall i :: 0 <= i < |r| ==> r[i] in products && !r[i].approved
    ensures forall i :: 0 <= i < |products| && !products[i].approved ==> products[i] in r
    ensures IsSubsequence(r, products)
    ensures forall i :: 0 <= i < |products| ==>
      multiset(r)[products[i]] == if !products[i].approved then multiset(products)[products[i]] else 0
  {
    FilterCounts(products, (p: Product) => !p.approved);
    Filter(products, (p: Product) => !p.approved)
  }

  /** What the consultant sees: a card per pending product, or the empty
      state. */
  datatype ConsultantView = PendingCards(cards: seq<Product>) | NoPendingProducts

  function ConsultantDashboard(products: seq<Product>): (v: ConsultantView)
    ensures v.NoPendingProducts? <==> forall i :: 0 <= i < |products| ==> products[i].approved
    ensures v.PendingCards? ==> v.cards == Pending(products) && v.cards != []
  {
    var pending := Pending(products);
    if |pending| > 0 then PendingCards(pending) else NoPendingProducts
  }

  /** The id a card's Approve button hands to `onApprove`. */
  function ApproveButtonId(card: Product): string {
    card.id
  }

  /** Approving `id` takes exactly the products with that id off the pending
      list; the others stay, in their order. In particular the card whose
      button was pressed is gone from the next render. */
  lemma {:induction false} ApproveLeavesPending(products: seq<Product>, id: string)
    ensures Pending(Approve(products, id)) == Filter(Pending(products), (p: Product) => p.id != id)
    ensures forall i :: 0 <= i < |Pending(Approve(products, id))| ==> Pending(Approve(products, id))[i].id != id
  {
    if products != [] {
      var p0, tail := products[0], products[1..];
      ApproveLeavesPending(tail, id);
      var approved := Approve(products, id);
      assert approved[0] == ApproveOne(p0, id);
      assert approved[1..] == Approve(tail, id);
      var rest := Pending(tail);
      if !p0.approved && p0.id != id {
        assert Pending(products) == [p0] + rest;
        assert ([p0] + rest)[1..] == rest;
      } else if !p0.approved {
        assert Pending(products) == [p0] + rest;
        assert ([p0] + rest)[1..] == rest;
        assert Pending(approved) == Pending(Approve(tail, id));
      } else {
        assert Pending(products) == rest;
        assert Pending(approved) == Pending(Approve(tail, id));
      }
    }
  }

  /** Pressing Approve on a card of the consultant's list removes that card. */
  lemma ApproveButtonRemovesCard(products: seq<Product>, card: Product)
    requires ConsultantDashboard(products).PendingCards? && card in ConsultantDashboard(products).cards
    ensures card !in Pending(Approve(products, ApproveButtonId(card)))
  {
    ApproveLeavesPending(products, card.id);
  }

  /** `products.filter(p => p.artisan === currentUser?.username)`: with
      nobody logged in the username is `undefined`, which no artisan name
      equals. */
  function OwnProducts(products: seq<Product>, currentUser: Option<User>): (r: seq<Product>)
    ensures currentUser.None? ==> r == []
    ensures forall i :: 0 <= i < |r| ==> r[i] in products && currentUser.Some? && r[i].artisan == currentUser.value.username
    ensures currentUser.Some? ==> forall i :: 0 <= i < |products| && products[i].artisan == currentUser.value.username ==> products[i] in r
    ensures IsSubsequence(r, products)
    ensures currentUser.Some? ==> forall i :: 0 <= i < |products| ==>
      multiset(r)[products[i]] == if products[i].artisan == currentUser.value.username then multiset(products)[products[i]] else 0
  {
    FilterCounts(products, (p: Product) => currentUser.Some? && p.artisan == currentUser.value.username);
    Filter(products, (p: Product) => currentUser.Some? && p.artisan == currentUser.value.username)
  }

  /** The status line of an artisan's product card. */
  function StatusLabel(p: Product): (s: string)
    ensures p.approved <==> s == "✅ Approved"
    ensures !p.approved <==> s == "🕒 Pending Approval"
  {
    if p.approved then "✅ Approved" else "🕒 Pending Approval"
  }

  /** What the artisan sees: a card per own product, or the empty state. */
  datatype ArtisanView = OwnCards(cards: seq<Product>) | NoOwnProducts

  function ArtisanDashboard(products: seq<Product>, currentUser: Option<User>): (v: ArtisanView)
    ensures v.NoOwnProducts? <==> OwnProducts(products, currentUser) == []
    ensures v.OwnCards? ==> v.cards == OwnProducts(products, currentUser)
  {
    var own := OwnProducts(products, currentUser);
    if |own| > 0 then OwnCards(own) else NoOwnProducts
  }
}
