/** Listing identities: qualified ids, and the two-way index from listings to products. */
module Identity {
  import opened Common
  import opened Text

  datatype IdentityError = EmptyArgument | InvalidListingId

  // ---------------------------------------------------------------- qualified ids

  function BuildListingId(source: string, rawId: string): Result<string, IdentityError> {
    if source == "" || rawId == "" then Err(EmptyArgument) else Ok(source + ":" + rawId)
  }

  /** `split(":", maxsplit=1)`: cut at the first colon. */
  function Cut(s: string): Option<(string, string)> {
    if s == "" then None
    else if s[0] == ':' then Some(("", s[1..]))
    else
      match Cut(s[1..])
      case None => None
      case Some(parts) => Some(([s[0]] + parts.0, parts.1))
  }

  function ListingIdToExternalId(id: string): Result<(string, string), IdentityError> {
    match Cut(id)
    case None => Err(InvalidListingId)
    case Some(parts) => if parts.0 == "" || parts.1 == "" then Err(InvalidListingId) else Ok(parts)
  }

  lemma {:induction false} CutFirst(a: string, b: string)
    requires Free(a, ':')
    ensures Cut(a + ":" + b) == Some((a, b))
  {
    var s := a + ":" + b;
    if a == "" {
      assert s[1..] == b;
    } else {
      assert s[0] == a[0] && s[1..] == a[1..] + ":" + b;
      assert a[0] in a && forall c :: c in a[1..] ==> c in a;
      CutFirst(a[1..], b);
      assert [a[0]] + a[1..] == a;
    }
  }

  lemma {:induction false} CutParts(s: string)
    ensures Cut(s).Some? ==> Free(Cut(s).value.0, ':') && s == Cut(s).value.0 + ":" + Cut(s).value.1
  {
    if s != "" && s[0] != ':' {
      CutParts(s[1..]);
    }
  }

  /** An id is built exactly from two non-empty parts. */
  lemma BuildsIff(source: string, rawId: string)
    ensures BuildListingId(source, rawId).Ok? <==> source != "" && rawId != ""
    ensures BuildListingId(source, rawId).Ok? ==> BuildListingId(source, rawId).value == source + ":" + rawId
  {
  }

  /** An id is accepted exactly when something stands before and after its first colon. */
  lemma AcceptedIff(id: string)
    ensures ListingIdToExternalId(id).Ok? <==> exists a, b :: a != "" && b != "" && Free(a, ':') && id == a + ":" + b
  {
    CutParts(id);
    if exists a, b :: a != "" && b != "" && Free(a, ':') && id == a + ":" + b {
      var a, b :| a != "" && b != "" && Free(a, ':') && id == a + ":" + b;
      CutFirst(a, b);
    }
  }

  /** Taking a built id apart gives its parts back exactly when the source has no colon. */
  lemma ListingIdRoundTripIff(source: string, rawId: string)
    requires source != "" && rawId != ""
    ensures ListingIdToExternalId(BuildListingId(source, rawId).value) == Ok((source, rawId)) <==> Free(source, ':')
  {
    CutParts(source + ":" + rawId);
    if Free(source, ':') {
      CutFirst(source, rawId);
    }
  }

  /** Every id that can be taken apart is the one built from its parts. */
  lemma ParsedIdRebuilds(id: string)
    requires ListingIdToExternalId(id).Ok?
    ensures var parts := ListingIdToExternalId(id).value; BuildListingId(parts.0, parts.1) == Ok(id)
  {
    CutParts(id);
  }

  /** A colon in the source makes two listings share an id. */
  lemma ColonCollides(a: string, b: string, c: string)
    requires a != "" && c != ""
    ensures BuildListingId(a + ":" + b, c) == BuildListingId(a, b + ":" + c)
  {
    assert (a + ":" + b) + ":" + c == a + ":" + (b + ":" + c);
  }

  // ---------------------------------------------------------------- the mapper

  /** Each listing is in the set of its product, each set holds the listings of its product, and no
      set is empty. */
  ghost predicate Mutual(products: map<string, string>, listings: map<string, set<string>>) {
    (forall l :: l in products ==> products[l] in listings && l in listings[products[l]])
    && (forall p :: p in listings ==> OwnedBy(products, p, listings[p]))
  }

  ghost predicate OwnedBy(products: map<string, string>, p: string, ids: set<string>) {
    ids != {} && forall l :: l in ids ==> l in products && products[l] == p
  }

  /** So the second dictionary is determined by the first. */
  lemma MutualIff(products: map<string, string>, listings: map<string, set<string>>)
    ensures Mutual(products, listings)
            <==> listings == map p | p in products.Values :: set l | l in products && products[l] == p
  {
    var inverse := map p | p in products.Values :: set l | l in products && products[l] == p;
    forall l | l in products ensures products[l] in inverse && l in inverse[products[l]] {
      assert products[l] in products.Values;
    }
    forall p | p in inverse ensures OwnedBy(products, p, inverse[p]) {
      var l :| l in products && products[l] == p;
      assert l in inverse[p];
    }
    if Mutual(products, listings) {
      forall p | p in listings ensures p in inverse && listings[p] == inverse[p] {
        assert OwnedBy(products, p, listings[p]);
        var l :| l in listings[p];
        assert products[l] == p;
      }
      assert forall p :: p in inverse ==> p in listings;
    }
  }

  ghost function SumOfSizes(listings: map<string, set<string>>): nat
    decreases |listings|
  {
    if listings == map[] then 0
    else var p :| p in listings; |listings[p]| + SumOfSizes(listings - {p})
  }

  lemma WithoutProduct(products: map<string, string>, listings: map<string, set<string>>, p: string)
    requires Mutual(products, listings) && p in listings
    ensures Mutual(products - listings[p], listings - {p})
    ensures |products| == |products - listings[p]| + |listings[p]|
  {
    var rest := products - listings[p];
    assert OwnedBy(products, p, listings[p]);
    forall q | q in listings - {p} ensures OwnedBy(rest, q, (listings - {p})[q]) {
      assert OwnedBy(products, q, listings[q]);
    }
    assert products.Keys == rest.Keys + listings[p] && rest.Keys !! listings[p];
  }

  /** The sizes of the product sets add up to the number of mapped listings. */
  lemma {:induction false} SizesAddUp(products: map<string, string>, listings: map<string, set<string>>)
    requires Mutual(products, listings)
    ensures SumOfSizes(listings) == |products|
    decreases |listings|
  {
    if listings == map[] {
      assert products == map[];
    } else {
      var p :| p in listings && SumOfSizes(listings) == |listings[p]| + SumOfSizes(listings - {p});
      WithoutProduct(products, listings, p);
      SizesAddUp(products - listings[p], listings - {p});
    }
  }

  /** The sets after `listing` has left the product it had. */
  function Left(listings: map<string, set<string>>, product: string, listing: string): map<string, set<string>> {
    if product !in listings then listings
    else if listings[product] - {listing} == {} then listings - {product}
    else listings[product := listings[product] - {listing}]
  }

  function Joined(listings: map<string, set<string>>, product: string, listing: string): map<string, set<string>> {
    listings[product := (if product in listings then listings[product] else {}) + {listing}]
  }

  lemma LeaveKeeps(products: map<string, string>, listings: map<string, set<string>>, listing: string)
    requires Mutual(products, listings) && listing in products
    ensures Mutual(products - {listing}, Left(listings, products[listing], listing))
  {
    var left, rest := Left(listings, products[listing], listing), products - {listing};
    forall p | p in left ensures OwnedBy(rest, p, left[p]) {
      assert OwnedBy(products, p, listings[p]);
    }
  }

  lemma JoinKeeps(products: map<string, string>, listings: map<string, set<string>>, listing: string, product: string)
    requires Mutual(products, listings) && (listing in products ==> products[listing] == product)
    ensures Mutual(products[listing := product], Joined(listings, product, listing))
  {
    var joined, all := Joined(listings, product, listing), products[listing := product];
    forall p | p in joined ensures OwnedBy(all, p, joined[p]) {
      if p in listings {
        assert OwnedBy(products, p, listings[p]);
      }
    }
  }

  class ListingProductMapper {
    var products: map<string, string>
    var listings: map<string, set<string>>

    ghost predicate Valid()
      reads this
    {
      Mutual(products, listings)
    }

    constructor ()
      ensures Valid() && products == map[]
    {
      products, listings := map[], map[];
    }

    /** Assigning a listing moves it: both dictionaries follow. */
    method Assign(listing: string, product: string) returns (error: Option<IdentityError>)
      requires Valid()
      modifies this
      ensures Valid()
      ensures error.Some? <==> listing == "" || product == ""
      ensures products == if error.Some? then old(products) else old(products)[listing := product]
    {
      if listing == "" || product == "" {
        return Some(EmptyArgument);
      }
      if listing in products && products[listing] != product {
        LeaveKeeps(products, listings, listing);
        JoinKeeps(products - {listing}, Left(listings, products[listing], listing), listing, product);
        assert (products - {listing})[listing := product] == products[listing := product];
        var previous := products[listing];
        if previous in listings {
          var others := listings[previous] - {listing};
          if others == {} {
            listings := listings - {previous};
          } else {
            listings := listings[previous := others];
          }
        }
      } else {
        JoinKeeps(products, listings, listing, product);
      }
      products := products[listing := product];
      listings := listings[product := (if product in listings then listings[product] else {}) + {listing}];
      error := None;
    }

    method Clear()
      modifies this
      ensures Valid() && products == map[]
    {
      products, listings := map[], map[];
    }

    method GetListingIds(product: string) returns (ids: set<string>)
      requires Valid()
      ensures ids == set l | l in products && products[l] == product
    {
      MutualIff(products, listings);
      ids := if product in listings then listings[product] else {};
    }

    method ListingCount() returns (count: nat)
      requires Valid()
      ensures count == |products| == SumOfSizes(listings)
    {
      SizesAddUp(products, listings);
      count := |products|;
    }
  }
}
