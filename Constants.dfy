/**
 * The store's constant tables (constants.ts): the product catalogue, the
 * durations offered per product, the payment-method categories and their
 * icons, and the configuration the store starts from.
 */
module Constants {
  import opened Wrappers
  import opened Types

  /** The products on sale (constants.ts:3). */
  const PRODUCTS: seq<string> := ["Melonity", "Umbrella", "Divine", "Hake", "Deadlock", "DotaAccount"]

  /** The durations offered for each product, plus a "default" list (constants.ts:5-13). */
  const PRODUCT_DURATIONS: map<string, seq<string>> := map[
      "Melonity" := ["1 Day", "7 Days", "30 Days", "90 Days", "180 Days", "Lifetime"],
      "Umbrella" := ["1 Day", "7 Days", "14 Days", "30 Days", "90 Days", "180 Days", "Lifetime"],
      "Divine" := ["7 Days", "14 Days", "30 Days"],
      "Hake" := ["1 Day", "7 Days", "30 Days", "90 Days", "180 Days"],
      "Deadlock" := ["1 Day", "7 Days", "14 Days", "30 Days", "90 Days", "180 Days", "Lifetime"],
      "DotaAccount" := ["Ranked Ready", "TBD Rank Open"],
      "default" := ["1 Day", "7 Days", "30 Days"]
    ]

  /** The payment methods accepted, grouped by category (constants.ts:15-51). */
  const PAYMENT_METHODS_LIST: map<string, seq<string>> := map[
      "Credit & Debit Card" := ["Visa", "Mastercard", "JCB", "American Express"],
      "E-Wallet" := ["Apple Pay", "Google Pay", "PayPal Wallet", "PayPal Pay Later", "Neteller", "Skrill Wallet", "Payoneer Wallet", "Paysafecard", "CVS Pharmacy", "Dollar General", "GrabPay", "Grab PayLater", "ShopeePay", "DANA", "Jenius Pay", "GCash", "Samsung Pay", "SSG Pay", "Toss", "TrueMoney", "LINE Pay", "WeChat Pay"],
      "Cryptocurrency" := ["Binance Pay", "Bitcoin", "Ethereum", "Tether USDT (ETH)", "Tether USDT (Polygon)", "USDC", "USDC (Polygon)"],
      "Online Banking" := ["Rapid Transfer", "Multibanco", "MyBank", "PayNow", "DuitNow QR", "PromptPay QR", "PIX", "BLIK", "Bangkok Bank", "Bank of Ayudhya (Krungsri)", "Kasikornbank PAYPLUS", "Siam Commercial Bank", "BPI Online", "Unionbank Online"],
      "Bank Transfer / ATM / CDM" := ["BDO Internet Fund Transfer", "Chinabank OTC / ATM", "Landbank Online ATM Payment", "Bank Transfer", "Virtual Bank Transfer"],
      "Bill Payment Online / ATM" := ["Asia United Bank", "BDO ATM Bill Payment", "BPI OTC Bill Payment", "Chinabank Online", "EastWest Bank OTC Bill Payment", "Metrobank Direct", "Metrobank OTC Bills Payment", "PayMaya Bills Pay", "PNB Online Bill Payment", "PNB OTC Bill Payment", "PS Bank Online Bill Payment", "RCBC OTC Bill Payment", "Robinsons Bank Online Bill Payment", "Robinsons Bank OTC Bill Payment", "Unionbank OTC Bill Payment"],
      "Over the Counter (Non Bank)" := ["7-Eleven", "Alfamart", "Indomaret", "Cebuana Lhuillier", "EC Pay", "M. Lhuillier", "Palawan Pawnshop", "RD Pawnshop", "Robinsons Dept Store", "RuralNet", "SM Dept Counter"]
    ]

  /** The icon class shown beside each payment category (constants.ts:221-229). */
  const CATEGORY_ICONS: map<string, string> := map[
      "Credit & Debit Card" := "fa-credit-card",
      "E-Wallet" := "fa-wallet",
      "Cryptocurrency" := "fa-bitcoin",
      "Online Banking" := "fa-building-columns",
      "Bank Transfer / ATM / CDM" := "fa-money-bill-transfer",
      "Bill Payment Online / ATM" := "fa-receipt",
      "Over the Counter (Non Bank)" := "fa-store"
    ]

  /** The two seeded reviews (constants.ts:61-78). */
  const DEFAULT_REVIEWS: seq<Review> := [
      Review(1700000000001, "Alex", "Melonity", 5,
        "Best script ever, very safe and easy to use!", "2026-02-09T07:45:00.000Z"),
      Review(1700000000002, "DendiFromPudge", "Umbrella", 4,
        "Good functionality but needs better documentation. Support is helpful though.",
        "2026-02-09T07:46:00.000Z")
    ]

  /** The one seeded configuration request (constants.ts:79-87). */
  const DEFAULT_REQUESTS: seq<RequestConfig> := [
      RequestConfig(1700000000003, "Umbrella", "dda", "dafasfasf", Pending)
    ]

  /** The purchase-link override table, keyed by product and duration (constants.ts:89-212). */
  const DEFAULT_OVERRIDES: map<string, LinkOverride> := map[
      "Melonity_1 Day" := LinkOverride(Some("https://miuwmiaw.selly.store/product/d644f53e"), None, Some("https://www.g2g.com/id/categories/googleplay-gift-cards/offer/G1698968074496BQ"), Some("https://www.g2g.com/id/categories/steam-wallet-gift-cards/offer/G1742351230820HS")),
      "Melonity_7 Days" := LinkOverride(Some("https://miuwmiaw.selly.store/product/76fede99"), None, Some("https://www.g2g.com/id/categories/googleplay-gift-cards/offer/G1699109587459FC"), Some("https://www.g2g.com/id/categories/apple-gift-cards/offer/G1717723368372DM")),
      "Melonity_30 Days" := LinkOverride(Some("https://miuwmiaw.selly.store/product/6f9eac19"), None, Some("https://www.g2g.com/id/categories/googleplay-gift-cards/offer/G1700141375815IA"), Some("https://www.g2g.com/id/categories/apple-gift-cards/offer/G1717723498651DJ")),
      "Melonity_90 Days" := LinkOverride(Some("https://miuwmiaw.selly.store/product/b91bf4c0"), None, Some("https://www.g2g.com/id/categories/googleplay-gift-cards/offer/G1713535193447VM"), Some("https://www.g2g.com/id/categories/apple-gift-cards/offer/G1717723587036MZ")),
      "Melonity_180 Days" := LinkOverride(Some("https://miuwmiaw.selly.store/product/d4534267"), None, Some("https://www.g2g.com/id/categories/googleplay-gift-cards/offer/G1698969341766RS"), Some("https://www.g2g.com/id/categories/apple-gift-cards/offer/G1717723658755UV")),
      "Melonity_Lifetime" := LinkOverride(Some("https://miuwmiaw.selly.store/product/a1ec55d7"), None, Some(""), Some("")),
      "Umbrella_1 Day" := LinkOverride(Some("https://miuwmiaw.selly.store/product/2234bbc8"), Some("https://www.g2g.com/id/categories/steam-wallet-gift-cards/offer/G1742351148823NQ"), None, None),
      "Umbrella_7 Days" := LinkOverride(Some("https://miuwmiaw.selly.store/product/b467998d"), Some("https://www.g2g.com/id/categories/steam-wallet-gift-cards/offer/G1742352243538IM"), None, None),
      "Umbrella_14 Days" := LinkOverride(Some("https://miuwmiaw.selly.store/product/98a0067e"), Some("https://www.g2g.com/id/categories/steam-wallet-gift-cards/offer/G1742352284244IK"), None, None),
      "Umbrella_30 Days" := LinkOverride(Some("https://miuwmiaw.selly.store/product/41241060"), Some("https://www.g2g.com/id/categories/steam-wallet-gift-cards/offer/G1742352453710CO"), None, None),
      "Umbrella_90 Days" := LinkOverride(Some("https://miuwmiaw.selly.store/product/1fbde5b9"), Some("https://www.g2g.com/id/categories/steam-wallet-gift-cards/offer/G1742352500701ZP"), None, None),
      "Umbrella_180 Days" := LinkOverride(Some("https://miuwmiaw.selly.store/product/31639c3d"), Some("https://www.g2g.com/id/categories/steam-wallet-gift-cards/offer/G1742352538771DA"), None, None),
      "Umbrella_Lifetime" := LinkOverride(Some("https://miuwmiaw.selly.store/product/f65a6299"), Some("https://miuwmiaw.selly.store/product/f65a6299"), None, None),
      "Divine_7 Days" := LinkOverride(Some("https://miuwmiaw.selly.store/product/9311233a"), Some(""), None, None),
      "Divine_14 Days" := LinkOverride(Some("https://miuwmiaw.selly.store/product/da249fd1"), Some(""), None, None),
      "Divine_30 Days" := LinkOverride(Some("https://miuwmiaw.selly.store/product/b083a428"), Some(""), None, None),
      "Hake_1 Day" := LinkOverride(Some("https://miuwmiaw.selly.store/product/8eda7015"), Some(""), None, None),
      "Hake_7 Days" := LinkOverride(Some("https://miuwmiaw.selly.store/product/07bae9de"), Some(""), None, None),
      "Hake_30 Days" := LinkOverride(Some("https://miuwmiaw.selly.store/product/1a29221d"), Some(""), None, None),
      "Hake_90 Days" := LinkOverride(Some("https://miuwmiaw.selly.store/product/6a365511"), Some(""), None, None),
      "Hake_180 Days" := LinkOverride(Some("https://miuwmiaw.selly.store/product/c66fdd54"), Some(""), None, None),
      "Deadlock_1 Day" := LinkOverride(Some("https://miuwmiaw.selly.store/product/259b8111"), Some("https://www.g2g.com/id/categories/razer-gold-gift-cards/offer/G1757596810504MR"), None, None),
      "Deadlock_7 Days" := LinkOverride(Some("https://miuwmiaw.selly.store/product/4ec23486"), Some("https://www.g2g.com/id/categories/razer-gold-gift-cards/offer/G1757596885512IK"), None, None),
      "Deadlock_14 Days" := LinkOverride(Some("https://miuwmiaw.selly.store/product/f7ab11f4"), Some(""), None, None),
      "Deadlock_30 Days" := LinkOverride(Some("https://miuwmiaw.selly.store/product/5e617c49"), Some("https://www.g2g.com/id/categories/razer-gold-gift-cards/offer/G1757596285259BU"), None, None),
      "Deadlock_90 Days" := LinkOverride(Some("https://miuwmiaw.selly.store/product/a6c4976d"), Some(""), None, None),
      "Deadlock_180 Days" := LinkOverride(Some("https://miuwmiaw.selly.store/product/ecfdbc7f"), Some(""), None, None),
      "DotaAccount_Ranked Ready" := LinkOverride(Some("https://miuwmiaw.selly.store/product/7864c0a9"), Some(""), None, None),
      "DotaAccount_TBD Rank Open" := LinkOverride(Some("https://miuwmiaw.selly.store/product/21419568"), Some(""), None, None)
    ]

  /** The admin credential: a username and the stored hash string (constants.ts:213-218). */
  const DEFAULT_ADMIN_AUTH: AdminAuth := AdminAuth("admin", "92668751")

  /** The configuration used when nothing else is available (constants.ts:56-219). */
  const DEFAULT_CONFIG: AppConfig := AppConfig(
    "62", "https://discord.gg/example", "#", "#",
    DEFAULT_REVIEWS, DEFAULT_REQUESTS, map[], DEFAULT_OVERRIDES, DEFAULT_ADMIN_AUTH)

  /** The keys built from a product on sale and one of the durations listed for it. */
  function ListedKeys(): set<string>
  {
    set p, d | p in PRODUCTS && p in PRODUCT_DURATIONS && d in PRODUCT_DURATIONS[p] :: OverrideKey(p, d)
  }

  /** Every product on sale has a duration list, and the only other list is "default". */
  lemma DurationsCoverProducts()
    ensures PRODUCT_DURATIONS.Keys == (set p | p in PRODUCTS) + {"default"}
    ensures "default" !in PRODUCTS
  {
  }

  /** The keys of the default override table, written out. */
  lemma OverrideKeysAsWritten()
    ensures DEFAULT_OVERRIDES.Keys == {
      "Melonity_1 Day",
      "Melonity_7 Days",
      "Melonity_30 Days",
      "Melonity_90 Days",
      "Melonity_180 Days",
      "Melonity_Lifetime",
      "Umbrella_1 Day",
      "Umbrella_7 Days",
      "Umbrella_14 Days",
      "Umbrella_30 Days",
      "Umbrella_90 Days",
      "Umbrella_180 Days",
      "Umbrella_Lifetime",
      "Divine_7 Days",
      "Divine_14 Days",
      "Divine_30 Days",
      "Hake_1 Day",
      "Hake_7 Days",
      "Hake_30 Days",
      "Hake_90 Days",
      "Hake_180 Days",
      "Deadlock_1 Day",
      "Deadlock_7 Days",
      "Deadlock_14 Days",
      "Deadlock_30 Days",
      "Deadlock_90 Days",
      "Deadlock_180 Days",
      "DotaAccount_Ranked Ready",
      "DotaAccount_TBD Rank Open"
    }
  {
  }

  /** The Melonity keys of the override table are listed keys. */
  lemma MelonityKeysListed()
    ensures {"Melonity_1 Day", "Melonity_7 Days", "Melonity_30 Days", "Melonity_90 Days", "Melonity_180 Days", "Melonity_Lifetime"} <= ListedKeys()
  {
    assert "Melonity_1 Day" == OverrideKey("Melonity", "1 Day");
    assert "Melonity_7 Days" == OverrideKey("Melonity", "7 Days");
    assert "Melonity_30 Days" == OverrideKey("Melonity", "30 Days");
    assert "Melonity_90 Days" == OverrideKey("Melonity", "90 Days");
    assert "Melonity_180 Days" == OverrideKey("Melonity", "180 Days");
    assert "Melonity_Lifetime" == OverrideKey("Melonity", "Lifetime");
  }

  /** The Umbrella keys of the override table are listed keys. */
  lemma UmbrellaKeysListed()
    ensures {"Umbrella_1 Day", "Umbrella_7 Days", "Umbrella_14 Days", "Umbrella_30 Days", "Umbrella_90 Days", "Umbrella_180 Days", "Umbrella_Lifetime"} <= ListedKeys()
  {
    assert "Umbrella_1 Day" == OverrideKey("Umbrella", "1 Day");
    assert "Umbrella_7 Days" == OverrideKey("Umbrella", "7 Days");
    assert "Umbrella_14 Days" == OverrideKey("Umbrella", "14 Days");
    assert "Umbrella_30 Days" == OverrideKey("Umbrella", "30 Days");
    assert "Umbrella_90 Days" == OverrideKey("Umbrella", "90 Days");
    assert "Umbrella_180 Days" == OverrideKey("Umbrella", "180 Days");
    assert "Umbrella_Lifetime" == OverrideKey("Umbrella", "Lifetime");
  }

  /** The Divine keys of the override table are listed keys. */
  lemma DivineKeysListed()
    ensures {"Divine_7 Days", "Divine_14 Days", "Divine_30 Days"} <= ListedKeys()
  {
    assert "Divine_7 Days" == OverrideKey("Divine", "7 Days");
    assert "Divine_14 Days" == OverrideKey("Divine", "14 Days");
    assert "Divine_30 Days" == OverrideKey("Divine", "30 Days");
  }

  /** The Hake keys of the override table are listed keys. */
  lemma HakeKeysListed()
    ensures {"Hake_1 Day", "Hake_7 Days", "Hake_30 Days", "Hake_90 Days", "Hake_180 Days"} <= ListedKeys()
  {
    assert "Hake_1 Day" == OverrideKey("Hake", "1 Day");
    assert "Hake_7 Days" == OverrideKey("Hake", "7 Days");
    assert "Hake_30 Days" == OverrideKey("Hake", "30 Days");
    assert "Hake_90 Days" == OverrideKey("Hake", "90 Days");
    assert "Hake_180 Days" == OverrideKey("Hake", "180 Days");
  }

  /** The Deadlock and DotaAccount keys of the override table are listed keys. */
  lemma DeadlockAndDotaAccountKeysListed()
    ensures {"Deadlock_1 Day", "Deadlock_7 Days", "Deadlock_14 Days", "Deadlock_30 Days", "Deadlock_90 Days", "Deadlock_180 Days", "DotaAccount_Ranked Ready", "DotaAccount_TBD Rank Open"} <= ListedKeys()
  {
    assert "Deadlock_1 Day" == OverrideKey("Deadlock", "1 Day");
    assert "Deadlock_7 Days" == OverrideKey("Deadlock", "7 Days");
    assert "Deadlock_14 Days" == OverrideKey("Deadlock", "14 Days");
    assert "Deadlock_30 Days" == OverrideKey("Deadlock", "30 Days");
    assert "Deadlock_90 Days" == OverrideKey("Deadlock", "90 Days");
    assert "Deadlock_180 Days" == OverrideKey("Deadlock", "180 Days");
    assert "DotaAccount_Ranked Ready" == OverrideKey("DotaAccount", "Ranked Ready");
    assert "DotaAccount_TBD Rank Open" == OverrideKey("DotaAccount", "TBD Rank Open");
  }

  /**
   * Every key of the default override table is built from a product on sale
   * and one of the durations listed for it.
   */
  lemma OverrideKeysAreListed()
    ensures DEFAULT_OVERRIDES.Keys <= ListedKeys()
  {
    OverrideKeysAsWritten();
    MelonityKeysListed();
    UmbrellaKeysListed();
    DivineKeysListed();
    HakeKeysListed();
    DeadlockAndDotaAccountKeysListed();
  }

  /** No product name contains an underscore, so a key's first underscore ends its product part. */
  lemma ProductsHaveNoUnderscore()
    ensures forall p :: p in PRODUCTS ==> '_' !in p
  {
  }

  /**
   * Every key of the default table decodes to a listed product and one of its
   * listed durations, and to no other listed product and duration; looking
   * that pair up finds the key's entry.
   */
  lemma KeysDecodeToListedPair(k: string)
    requires k in DEFAULT_OVERRIDES
    ensures SplitKey(k).Some?
    ensures SplitKey(k).value.0 in PRODUCTS && SplitKey(k).value.0 in PRODUCT_DURATIONS
    ensures SplitKey(k).value.1 in PRODUCT_DURATIONS[SplitKey(k).value.0]
    ensures forall p, d :: p in PRODUCTS && OverrideKey(p, d) == k ==> (p, d) == SplitKey(k).value
    ensures LookupOverride(DEFAULT_OVERRIDES, SplitKey(k).value.0, SplitKey(k).value.1) == Some(DEFAULT_OVERRIDES[k])
  {
    OverrideKeysAreListed();
    assert k in ListedKeys();
    var p, d :| p in PRODUCTS && p in PRODUCT_DURATIONS && d in PRODUCT_DURATIONS[p] && k == OverrideKey(p, d);
    ProductsHaveNoUnderscore();
    SplitOverrideKey(p, d);
    forall p', d' | p' in PRODUCTS && OverrideKey(p', d') == k
      ensures (p', d') == SplitKey(k).value
    {
      OverrideKeyInjective(p', d', p, d);
    }
  }

  /**
   * Not every listed pair has an override: "Lifetime" is a Deadlock duration,
   * yet the table has no "Deadlock_Lifetime" key, so its lookup yields none.
   */
  lemma DeadlockLifetimeHasNoOverride()
    ensures "Lifetime" in PRODUCT_DURATIONS["Deadlock"]
    ensures OverrideKey("Deadlock", "Lifetime") in ListedKeys()
    ensures LookupOverride(DEFAULT_OVERRIDES, "Deadlock", "Lifetime") == None
  {
    assert OverrideKey("Deadlock", "Lifetime") == "Deadlock_Lifetime";
  }

  /** Some overrides store an empty link, which is a value distinct from an absent one. */
  lemma EmptyLinksAreNotAbsent()
    ensures DEFAULT_OVERRIDES["Melonity_Lifetime"].fiatWorld == Some("")
    ensures DEFAULT_OVERRIDES["Melonity_Lifetime"].fiat == None
    ensures DEFAULT_OVERRIDES["Divine_7 Days"].fiat == Some("")
    ensures DEFAULT_OVERRIDES["Divine_7 Days"].fiatRegion == None
  {
  }

  /** The four link categories are independently optional: a stored override may lack some of them. */
  lemma CategoryLookupMayYieldNothing()
    ensures CategoryLink(DEFAULT_OVERRIDES["Umbrella_1 Day"], CRYPTO).Some?
    ensures CategoryLink(DEFAULT_OVERRIDES["Umbrella_1 Day"], FIAT).Some?
    ensures CategoryLink(DEFAULT_OVERRIDES["Umbrella_1 Day"], FIAT_WORLD) == None
    ensures CategoryLink(DEFAULT_OVERRIDES["Melonity_1 Day"], FIAT) == None
  {
  }

  /** The seeded reviews have distinct ids and ratings between 1 and 5. */
  lemma DefaultReviewsAreValid()
    ensures forall i, j :: 0 <= i < j < |DEFAULT_REVIEWS| ==> DEFAULT_REVIEWS[i].id != DEFAULT_REVIEWS[j].id
    ensures forall i :: 0 <= i < |DEFAULT_REVIEWS| ==> 1 <= DEFAULT_REVIEWS[i].rating <= 5
  {
  }

  /** The default configuration holds one pending request and no product styles. */
  lemma DefaultRequestsAndStyles()
    ensures |DEFAULT_CONFIG.requests| == 1 && DEFAULT_CONFIG.requests[0].status == Pending
    ensures DEFAULT_CONFIG.productStyles == map[]
  {
  }

  /** The icon table names exactly the payment categories. */
  lemma CategoryIconsMatchPaymentMethods()
    ensures CATEGORY_ICONS.Keys == PAYMENT_METHODS_LIST.Keys
  {
  }

  /** The default admin is "admin" with stored credential "92668751". */
  lemma DefaultAdminCredential()
    ensures DEFAULT_CONFIG.adminAuth.username == "admin"
    ensures DEFAULT_CONFIG.adminAuth.password == "92668751"
  {
  }
}
