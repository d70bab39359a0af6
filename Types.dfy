/**
 * The shapes of the store's data (types.ts): reviews, configuration requests,
 * per-product styles, purchase-link overrides and the persisted aggregate.
 */
module Types {
  import opened Wrappers

  /** A customer review (types.ts:1-8). `id` and `rating` are JavaScript numbers. */
  datatype Review = Review(
    id: int,
    name: string,
    product: string,
    rating: int,
    comment: string,
    createdAt: string)

  /** The two values the `status` union of a request admits (types.ts:15). */
  datatype RequestStatus = Pending | Completed {
    /** The string literal the TypeScript union uses for this status. */
    function Text(): (t: string)
      ensures t == "pending" || t == "completed"
      ensures t == "pending" <==> this == Pending
    {
      match this
      case Pending => "pending"
      case Completed => "completed"
    }
  }

  /** A configuration request (types.ts:10-16); `discord` is the contact handle. */
  datatype RequestConfig = RequestConfig(
    id: int,
    product: string,
    discord: string,
    orderId: string,
    status: RequestStatus)

  /** Per-product card styling; every property is optional (types.ts:18-22). */
  datatype ProductStyle = ProductStyle(
    bgUrl: Option<string>,
    iconUrl: Option<string>,
    gradient: Option<string>)

  /** Purchase links for one product/duration pair; each category is optional (types.ts:24-29). */
  datatype LinkOverride = LinkOverride(
    crypto: Option<string>,
    fiat: Option<string>,
    fiatWorld: Option<string>,
    fiatRegion: Option<string>)

  /** The admin credential pair; `password` holds a hash string, not the password (types.ts:40-43). */
  datatype AdminAuth = AdminAuth(username: string, password: string)

  /**
   * The single persisted aggregate (types.ts:31-44). Every field is mandatory;
   * the two `Record`s are maps in which a missing key is a legal state.
   */
  datatype AppConfig = AppConfig(
    whatsappNumber: string,
    discordLink: string,
    youtubeLink: string,
    facebookLink: string,
    reviews: seq<Review>,
    requests: seq<RequestConfig>,
    productStyles: map<string, ProductStyle>,
    overrides: map<string, LinkOverride>,
    adminAuth: AdminAuth)

  /** The payment categories (types.ts:46-51). */
  datatype PaymentMethodType = CRYPTO | FIAT | FIAT_WORLD | FIAT_REGION {
    /** The string value of the enum member. */
    function Value(): (v: string)
      ensures v == "crypto" || v == "fiat" || v == "fiat-world" || v == "fiat-region"
    {
      match this
      case CRYPTO => "crypto"
      case FIAT => "fiat"
      case FIAT_WORLD => "fiat-world"
      case FIAT_REGION => "fiat-region"
    }
  }

  /** The four enum members carry four distinct string values. */
  lemma PaymentMethodValuesDistinct(a: PaymentMethodType, b: PaymentMethodType)
    ensures a.Value() == b.Value() <==> a == b
  {
  }

  /** The override table's key for a product and a duration: the product, an underscore, the duration. */
  function OverrideKey(product: string, duration: string): string
  {
    product + "_" + duration
  }

  /**
   * Reads a key back as a product and a duration by splitting it at its first
   * underscore; a string with no underscore is not a key.
   */
  function SplitKey(k: string): (r: Option<(string, string)>)
    ensures r.None? <==> '_' !in k
  {
    if k == [] then None
    else if k[0] == '_' then Some(("", k[1..]))
    else match SplitKey(k[1..])
      case None => None
      case Some(pd) => Some(([k[0]] + pd.0, pd.1))
  }

  /** A key built from a product without an underscore splits back into that product and duration. */
  lemma {:induction false} SplitOverrideKey(p: string, d: string)
    requires '_' !in p
    ensures SplitKey(OverrideKey(p, d)) == Some((p, d))
  {
    var k := OverrideKey(p, d);
    if p == [] {
      assert k == "_" + d;
    } else {
      assert '_' !in p[1..] by { assert forall c :: c in p[1..] ==> c in p; }
      SplitOverrideKey(p[1..], d);
      assert k[0] == p[0];
      assert k[1..] == OverrideKey(p[1..], d);
      assert [p[0]] + p[1..] == p;
    }
  }

  /** Whatever a key splits into rebuilds that key, and its product part has no underscore. */
  lemma {:induction false} SplitKeySound(k: string)
    requires SplitKey(k).Some?
    ensures '_' !in SplitKey(k).value.0
    ensures k == OverrideKey(SplitKey(k).value.0, SplitKey(k).value.1)
  {
    if k[0] != '_' {
      SplitKeySound(k[1..]);
      assert k == [k[0]] + k[1..];
    }
  }

  /**
   * Two keys built from products without an underscore are equal only when
   * both their products and their durations are: key construction loses nothing.
   */
  lemma OverrideKeyInjective(p1: string, d1: string, p2: string, d2: string)
    requires '_' !in p1 && '_' !in p2
    ensures OverrideKey(p1, d1) == OverrideKey(p2, d2) <==> p1 == p2 && d1 == d2
  {
    SplitOverrideKey(p1, d1);
    SplitOverrideKey(p2, d2);
  }

  /** The override stored for a product/duration pair, if any: an unknown pair yields none. */
  function LookupOverride(table: map<string, LinkOverride>, product: string, duration: string): (r: Option<LinkOverride>)
    ensures r.Some? <==> product + "_" + duration in table
    ensures r.Some? ==> r.value == table[product + "_" + duration]
  {
    var key := OverrideKey(product, duration);
    if key in table then Some(table[key]) else None
  }

  /**
   * The link an override holds for one payment category, read from the field
   * of that name. Each field is optional, so the result may be absent.
   */
  function CategoryLink(o: LinkOverride, m: PaymentMethodType): Option<string>
  {
    match m
    case CRYPTO => o.crypto
    case FIAT => o.fiat
    case FIAT_WORLD => o.fiatWorld
    case FIAT_REGION => o.fiatRegion
  }
}
