/**
 * The store's top-level component (App.tsx): the handlers that validate a
 * form and then replace the whole configuration, and the few interface flags
 * that decide which dialog is open.
 *
 * The handlers are first given as functions from the old configuration and
 * the form to the outcome; the class `StoreApp` then holds the component's
 * state and its methods are proved to follow those functions.
 */
module App {
  import opened Wrappers
  import opened Types
  import opened Constants

  /** The request form's fields (App.tsx:32): product, contact handle, order id. */
  datatype RequestForm = RequestForm(product: string, discord: string, order: string)

  /** The review form's fields (App.tsx:33). */
  datatype ReviewForm = ReviewForm(name: string, product: string, rating: int, comment: string)

  /** The login form's fields (App.tsx:35). */
  datatype LoginForm = LoginForm(user: string, pass: string)

  /** Why a submission was refused; the user sees a notification and nothing else changes. */
  datatype Rejection = MissingFields | MissingRating

  const EMPTY_REQUEST_FORM: RequestForm := RequestForm(PRODUCTS[0], "", "")
  const EMPTY_REVIEW_FORM: ReviewForm := ReviewForm("", PRODUCTS[0], 0, "")
  const EMPTY_LOGIN_FORM: LoginForm := LoginForm("", "")

  /** The style the editor shows for a product with no stored style (App.tsx:36, App.tsx:146). */
  const EMPTY_STYLE: ProductStyle := ProductStyle(Some(""), Some(""), Some(""))

  /** JavaScript truthiness of a string: only the empty string is falsy. */
  predicate Truthy(s: string)
  {
    s != ""
  }

  /** The style editor has a product to act on: its target is neither `null` nor the empty string. */
  predicate HasTarget(target: Option<string>)
  {
    target.Some? && Truthy(target.value)
  }

  // ---------------------------------------------------------------------------
  // Frames: which parts of the configuration an operation may change

  predicate SameContacts(a: AppConfig, b: AppConfig)
  {
    && a.whatsappNumber == b.whatsappNumber
    && a.discordLink == b.discordLink
    && a.youtubeLink == b.youtubeLink
    && a.facebookLink == b.facebookLink
  }

  /** `b` differs from `a` at most in its request list. */
  predicate OnlyRequestsDiffer(a: AppConfig, b: AppConfig)
  {
    SameContacts(a, b) && a.reviews == b.reviews && a.productStyles == b.productStyles
    && a.overrides == b.overrides && a.adminAuth == b.adminAuth
  }

  /** `b` differs from `a` at most in its review list. */
  predicate OnlyReviewsDiffer(a: AppConfig, b: AppConfig)
  {
    SameContacts(a, b) && a.requests == b.requests && a.productStyles == b.productStyles
    && a.overrides == b.overrides && a.adminAuth == b.adminAuth
  }

  /** `b` differs from `a` at most in its product-style map. */
  predicate OnlyStylesDiffer(a: AppConfig, b: AppConfig)
  {
    SameContacts(a, b) && a.reviews == b.reviews && a.requests == b.requests
    && a.overrides == b.overrides && a.adminAuth == b.adminAuth
  }

  /**
   * What the public forms guarantee of what they store: every request has a
   * contact handle and an order id, every review a name, a comment and a
   * rating other than 0.
   */
  predicate WellFormed(c: AppConfig)
  {
    && (forall i :: 0 <= i < |c.requests| ==> Truthy(c.requests[i].discord) && Truthy(c.requests[i].orderId))
    && (forall i :: 0 <= i < |c.reviews| ==>
          c.reviews[i].rating != 0 && Truthy(c.reviews[i].name) && Truthy(c.reviews[i].comment))
  }

  // ---------------------------------------------------------------------------
  // The handlers, as functions of the old configuration

  /**
   * Submitting a configuration request (App.tsx:49-61): refused when the
   * contact handle or the order id is empty; otherwise exactly one pending
   * request carrying the form's fields is appended and nothing else changes.
   */
  function SubmitRequest(c: AppConfig, form: RequestForm, now: int): (r: Result<AppConfig, Rejection>)
    ensures r.Failure? <==> form.discord == "" || form.order == ""
    ensures r.Failure? ==> r.error == MissingFields
    ensures r.Success? ==>
      && OnlyRequestsDiffer(c, r.value)
      && |r.value.requests| == |c.requests| + 1
      && r.value.requests[..|c.requests|] == c.requests
      && r.value.requests[|c.requests|] == RequestConfig(now, form.product, form.discord, form.order, Pending)
  {
    if !Truthy(form.discord) || !Truthy(form.order) then
      Failure(MissingFields)
    else
      var request := RequestConfig(now, form.product, form.discord, form.order, Pending);
      Success(c.(requests := c.requests + [request]))
  }

  /**
   * Submitting a review (App.tsx:67-79): a rating of 0 is refused before
   * anything else is looked at, then an empty name or comment is refused;
   * otherwise the review list becomes the old one plus one entry carrying the
   * form's fields, and nothing else changes.
   */
  function SubmitReview(c: AppConfig, form: ReviewForm, now: int, createdAt: string): (r: Result<AppConfig, Rejection>)
    ensures form.rating == 0 ==> r == Failure(MissingRating)
    ensures form.rating != 0 && (form.name == "" || form.comment == "") ==> r == Failure(MissingFields)
    ensures r.Success? <==> form.rating != 0 && form.name != "" && form.comment != ""
    ensures r.Success? ==>
      && OnlyReviewsDiffer(c, r.value)
      && |r.value.reviews| == |c.reviews| + 1
      && r.value.reviews[..|c.reviews|] == c.reviews
      && r.value.reviews[|c.reviews|] == Review(now, form.name, form.product, form.rating, form.comment, createdAt)
  {
    if form.rating == 0 then
      Failure(MissingRating)
    else if !Truthy(form.name) || !Truthy(form.comment) then
      Failure(MissingFields)
    else
      var review := Review(now, form.name, form.product, form.rating, form.comment, createdAt);
      Success(c.(reviews := c.reviews + [review]))
  }

  /**
   * The credential check of the login handler (App.tsx:88-89): the username
   * must equal the stored one and the hash of the password the stored hash
   * string. `hash` stands for the repository's `simpleHash`.
   */
  predicate CredentialsMatch(auth: AdminAuth, form: LoginForm, hash: string -> string)
  {
    form.user == auth.username && hash(form.pass) == auth.password
  }

  /**
   * Saving the style editor's form (App.tsx:101-105): with no target nothing
   * changes; otherwise the target's entry becomes the form's style and every
   * other entry, and every other field, is kept.
   */
  function SaveStyle(c: AppConfig, target: Option<string>, style: ProductStyle): (r: AppConfig)
    ensures !HasTarget(target) ==> r == c
    ensures HasTarget(target) ==>
      && OnlyStylesDiffer(c, r)
      && r.productStyles.Keys == c.productStyles.Keys + {target.value}
      && r.productStyles[target.value] == style
      && (forall k :: k in c.productStyles && k != target.value ==> r.productStyles[k] == c.productStyles[k])
  {
    if !HasTarget(target) then c
    else c.(productStyles := c.productStyles[target.value := style])
  }

  /**
   * Resetting a product's style (App.tsx:110-114): with no target nothing
   * changes; otherwise the target's entry is removed and every other entry,
   * and every other field, is kept.
   */
  function ResetStyle(c: AppConfig, target: Option<string>): (r: AppConfig)
    ensures !HasTarget(target) ==> r == c
    ensures HasTarget(target) ==>
      && OnlyStylesDiffer(c, r)
      && r.productStyles.Keys == c.productStyles.Keys - {target.value}
      && (forall k :: k in r.productStyles ==> r.productStyles[k] == c.productStyles[k])
  {
    if !HasTarget(target) then c
    else c.(productStyles := c.productStyles - {target.value})
  }

  /**
   * The style the editor loads for a product (App.tsx:146): the stored one,
   * or the all-empty style when there is none. A stored style is an object and
   * so always truthy, even when all its fields are absent.
   */
  function StyleFor(styles: map<string, ProductStyle>, p: string): ProductStyle
  {
    if p in styles then styles[p] else EMPTY_STYLE
  }

  /**
   * Clicking a payment category in the accordion (App.tsx:202): an expanded
   * category collapses, any other becomes the only expanded one.
   */
  function ToggleCategory(expanded: Option<string>, cat: string): (r: Option<string>)
    ensures r == None <==> expanded == Some(cat)
    ensures r != None ==> r == Some(cat)
  {
    if expanded == Some(cat) then None else Some(cat)
  }

  // ---------------------------------------------------------------------------
  // Properties of the handlers

  /** The configuration the store starts from satisfies what the public forms guarantee. */
  lemma DefaultConfigWellFormed()
    ensures WellFormed(DEFAULT_CONFIG)
  {
  }

  /** An accepted request keeps every stored request with a contact handle and an order id. */
  lemma SubmitRequestPreservesWellFormed(c: AppConfig, form: RequestForm, now: int)
    requires WellFormed(c)
    ensures SubmitRequest(c, form, now).Success? ==> WellFormed(SubmitRequest(c, form, now).value)
  {
  }

  /** An accepted review keeps every stored review with a name, a comment and a nonzero rating. */
  lemma SubmitReviewPreservesWellFormed(c: AppConfig, form: ReviewForm, now: int, createdAt: string)
    requires WellFormed(c)
    ensures SubmitReview(c, form, now, createdAt).Success? ==> WellFormed(SubmitReview(c, form, now, createdAt).value)
  {
  }

  /** Saving and resetting styles touch neither requests nor reviews. */
  lemma StyleEditsPreserveWellFormed(c: AppConfig, target: Option<string>, style: ProductStyle)
    requires WellFormed(c)
    ensures WellFormed(SaveStyle(c, target, style))
    ensures WellFormed(ResetStyle(c, target))
  {
  }

  /** With the default credential, login succeeds exactly for "admin" and a password hashing to "92668751". */
  lemma DefaultLogin(form: LoginForm, hash: string -> string)
    ensures CredentialsMatch(DEFAULT_CONFIG.adminAuth, form, hash) <==> form.user == "admin" && hash(form.pass) == "92668751"
  {
  }

  /** Resetting twice is the same as resetting once. */
  lemma ResetStyleIdempotent(c: AppConfig, target: Option<string>)
    ensures ResetStyle(ResetStyle(c, target), target) == ResetStyle(c, target)
  {
  }

  /** A reset after a save leaves no entry for the target and the other entries as before the save. */
  lemma ResetAfterSave(c: AppConfig, target: Option<string>, style: ProductStyle)
    requires HasTarget(target)
    ensures target.value !in ResetStyle(SaveStyle(c, target, style), target).productStyles
    ensures ResetStyle(SaveStyle(c, target, style), target) == ResetStyle(c, target)
  {
  }

  /** A second save to the same target overrides the first. */
  lemma SaveStyleLastWins(c: AppConfig, target: Option<string>, s1: ProductStyle, s2: ProductStyle)
    ensures SaveStyle(SaveStyle(c, target, s1), target, s2) == SaveStyle(c, target, s2)
  {
  }

  /** Opening the editor on a product just saved loads the saved style. */
  lemma EditAfterSaveLoadsSaved(c: AppConfig, p: string, style: ProductStyle)
    requires Truthy(p)
    ensures StyleFor(SaveStyle(c, Some(p), style).productStyles, p) == style
  {
  }

  /** Opening the editor on a product just reset loads the all-empty style. */
  lemma EditAfterResetLoadsEmpty(c: AppConfig, p: string)
    requires Truthy(p)
    ensures StyleFor(ResetStyle(c, Some(p)).productStyles, p) == EMPTY_STYLE
  {
  }

  /** Opening the editor on a product with no stored style loads the all-empty style. */
  lemma EditWithoutStoredStyle(styles: map<string, ProductStyle>, p: string)
    ensures p !in styles ==> StyleFor(styles, p) == EMPTY_STYLE
    ensures p in styles ==> StyleFor(styles, p) == styles[p]
  {
  }

  /** Clicking the same category twice collapses it again unless another one was expanded first. */
  lemma ToggleTwice(expanded: Option<string>, cat: string)
    ensures expanded == None || expanded == Some(cat) ==> ToggleCategory(ToggleCategory(expanded, cat), cat) == expanded
    ensures expanded != None && expanded != Some(cat) ==> ToggleCategory(ToggleCategory(expanded, cat), cat) == None
  {
  }

  // ---------------------------------------------------------------------------
  // The component's state

  /**
   * The state the component keeps (App.tsx:16-36): the configuration, the
   * value last written to storage, the admin flag, the dialog flags and the
   * form contents. The purchase, refund-policy and privacy-policy dialogs are
   * plain show/hide flags and are not kept here.
   */
  class StoreApp {
    var config: AppConfig
    /** The configuration last written to storage in this session, if any. */
    var stored: Option<AppConfig>
    var isAdminLoggedIn: bool
    var showPaymentMethods: bool
    var expandedPaymentCategory: Option<string>
    var showRequestConfig: bool
    var showReviewModal: bool
    var showLoginModal: bool
    var showAdminPanel: bool
    var showStyleEditor: Option<string>
    var requestForm: RequestForm
    var reviewForm: ReviewForm
    var hoverRating: int
    var loginForm: LoginForm
    var styleForm: ProductStyle

    /**
     * What every handler keeps: storage holds the in-memory configuration once
     * anything was written; the admin panel is open only for a logged-in admin
     * and the login dialog only for a logged-out one; a closed payment-methods
     * dialog has no expanded category.
     */
    ghost predicate Valid()
      reads this
    {
      && (stored.Some? ==> stored.value == config)
      && (showAdminPanel ==> isAdminLoggedIn)
      && (showLoginModal ==> !isAdminLoggedIn)
      && (!showPaymentMethods ==> expandedPaymentCategory == None)
    }

    /**
     * The component after mounting (App.tsx:16-42): every flag is off, every
     * form empty, and the configuration is the one `loadConfig` returned,
     * given here as `loaded`.
     */
    constructor (loaded: AppConfig)
      ensures Valid()
      ensures config == loaded && stored == None
      ensures !isAdminLoggedIn && !showPaymentMethods && expandedPaymentCategory == None
      ensures !showRequestConfig && !showReviewModal && !showLoginModal && !showAdminPanel
      ensures showStyleEditor == None
      ensures requestForm == EMPTY_REQUEST_FORM && reviewForm == EMPTY_REVIEW_FORM
      ensures hoverRating == 0 && loginForm == EMPTY_LOGIN_FORM && styleForm == EMPTY_STYLE
    {
      config := loaded;
      stored := None;
      isAdminLoggedIn := false;
      showPaymentMethods := false;
      expandedPaymentCategory := None;
      showRequestConfig := false;
      showReviewModal := false;
      showLoginModal := false;
      showAdminPanel := false;
      showStyleEditor := None;
      requestForm := EMPTY_REQUEST_FORM;
      reviewForm := EMPTY_REVIEW_FORM;
      hoverRating := 0;
      loginForm := EMPTY_LOGIN_FORM;
      styleForm := EMPTY_STYLE;
    }

    /**
     * Replacing the configuration (App.tsx:44-47): the new value is held in
     * memory and written to storage, so the two agree.
     */
    method UpdateConfig(newConfig: AppConfig)
      requires Valid()
      modifies this`config, this`stored
      ensures Valid()
      ensures config == newConfig && stored == Some(newConfig)
    {
      config := newConfig;
      stored := Some(newConfig);
    }

    /**
     * The request form's submit button (App.tsx:49-65): on success the
     * configuration becomes `SubmitRequest`'s, the dialog closes and the form
     * is cleared; on refusal nothing changes.
     */
    method SubmitRequestForm(now: int)
      requires Valid()
      modifies this`config, this`stored, this`showRequestConfig, this`requestForm
      ensures Valid()
      ensures SubmitRequest(old(config), old(requestForm), now).Failure? ==>
        && config == old(config) && stored == old(stored)
        && showRequestConfig == old(showRequestConfig) && requestForm == old(requestForm)
      ensures SubmitRequest(old(config), old(requestForm), now).Success? ==>
        && config == SubmitRequest(old(config), old(requestForm), now).value && stored == Some(config)
        && !showRequestConfig && requestForm == EMPTY_REQUEST_FORM
    {
      var outcome := SubmitRequest(config, requestForm, now);
      if outcome.Success? {
        UpdateConfig(outcome.value);
        showRequestConfig := false;
        requestForm := EMPTY_REQUEST_FORM;
      }
    }

    /**
     * The review form's submit button (App.tsx:67-84): `now` and `createdAt`
     * stand for the clock reads. On success the configuration becomes
     * `SubmitReview`'s, the dialog closes and the form and star hover are
     * cleared; on refusal nothing changes.
     */
    method SubmitReviewForm(now: int, createdAt: string)
      requires Valid()
      modifies this`config, this`stored, this`showReviewModal, this`reviewForm, this`hoverRating
      ensures Valid()
      ensures SubmitReview(old(config), old(reviewForm), now, createdAt).Failure? ==>
        && config == old(config) && stored == old(stored) && showReviewModal == old(showReviewModal)
        && reviewForm == old(reviewForm) && hoverRating == old(hoverRating)
      ensures SubmitReview(old(config), old(reviewForm), now, createdAt).Success? ==>
        && config == SubmitReview(old(config), old(reviewForm), now, createdAt).value && stored == Some(config)
        && !showReviewModal && reviewForm == EMPTY_REVIEW_FORM && hoverRating == 0
    {
      var outcome := SubmitReview(config, reviewForm, now, createdAt);
      if outcome.Success? {
        UpdateConfig(outcome.value);
        showReviewModal := false;
        reviewForm := EMPTY_REVIEW_FORM;
        hoverRating := 0;
      }
    }

    /**
     * The login button (App.tsx:86-99): on matching credentials the admin is
     * logged in, the login dialog closes, the admin panel opens and the form
     * is cleared; otherwise nothing changes. The configuration is never
     * touched.
     */
    method Login(hash: string -> string)
      requires Valid()
      modifies this`isAdminLoggedIn, this`showLoginModal, this`showAdminPanel, this`loginForm
      ensures Valid()
      ensures CredentialsMatch(config.adminAuth, old(loginForm), hash) ==>
        isAdminLoggedIn && !showLoginModal && showAdminPanel && loginForm == EMPTY_LOGIN_FORM
      ensures !CredentialsMatch(config.adminAuth, old(loginForm), hash) ==>
        && isAdminLoggedIn == old(isAdminLoggedIn) && showLoginModal == old(showLoginModal)
        && showAdminPanel == old(showAdminPanel) && loginForm == old(loginForm)
    {
      if CredentialsMatch(config.adminAuth, loginForm, hash) {
        isAdminLoggedIn := true;
        showLoginModal := false;
        showAdminPanel := true;
        loginForm := EMPTY_LOGIN_FORM;
      }
    }

    /**
     * The style editor's save button (App.tsx:101-108): with a target the
     * configuration becomes `SaveStyle`'s and the editor closes; without one
     * nothing changes.
     */
    method SaveStyleEdit()
      requires Valid()
      modifies this`config, this`stored, this`showStyleEditor
      ensures Valid()
      ensures !HasTarget(old(showStyleEditor)) ==>
        config == old(config) && stored == old(stored) && showStyleEditor == old(showStyleEditor)
      ensures HasTarget(old(showStyleEditor)) ==>
        && config == SaveStyle(old(config), old(showStyleEditor), styleForm) && stored == Some(config)
        && showStyleEditor == None
    {
      if !HasTarget(showStyleEditor) {
        return;
      }
      UpdateConfig(SaveStyle(config, showStyleEditor, styleForm));
      showStyleEditor := None;
    }

    /**
     * The style editor's reset button (App.tsx:110-117): with a target the
     * configuration becomes `ResetStyle`'s and the editor closes; without one
     * nothing changes.
     */
    method ResetStyleEdit()
      requires Valid()
      modifies this`config, this`stored, this`showStyleEditor
      ensures Valid()
      ensures !HasTarget(old(showStyleEditor)) ==>
        config == old(config) && stored == old(stored) && showStyleEditor == old(showStyleEditor)
      ensures HasTarget(old(showStyleEditor)) ==>
        && config == ResetStyle(old(config), old(showStyleEditor)) && stored == Some(config)
        && showStyleEditor == None
    {
      if !HasTarget(showStyleEditor) {
        return;
      }
      UpdateConfig(ResetStyle(config, showStyleEditor));
      showStyleEditor := None;
    }

    /** A product card's edit button (App.tsx:144-147): target that product and load its style. */
    method EditStyle(p: string)
      requires Valid()
      modifies this`showStyleEditor, this`styleForm
      ensures Valid()
      ensures showStyleEditor == Some(p) && styleForm == StyleFor(config.productStyles, p)
    {
      showStyleEditor := Some(p);
      styleForm := StyleFor(config.productStyles, p);
    }

    /** Clicking outside the style editor (App.tsx:365) drops its target. */
    method CloseStyleEditor()
      requires Valid()
      modifies this`showStyleEditor
      ensures Valid() && showStyleEditor == None
    {
      showStyleEditor := None;
    }

    /** The admin trigger (App.tsx:129): the panel for a logged-in admin, the login dialog otherwise. */
    method AdminTrigger()
      requires Valid()
      modifies this`showAdminPanel, this`showLoginModal
      ensures Valid()
      ensures old(isAdminLoggedIn) ==> showAdminPanel && showLoginModal == old(showLoginModal)
      ensures !old(isAdminLoggedIn) ==> showLoginModal && showAdminPanel == old(showAdminPanel)
    {
      if isAdminLoggedIn {
        showAdminPanel := true;
      } else {
        showLoginModal := true;
      }
    }

    /** Closing the login dialog (App.tsx:270). */
    method CloseLoginModal()
      requires Valid()
      modifies this`showLoginModal
      ensures Valid() && !showLoginModal
    {
      showLoginModal := false;
    }

    /** Closing the admin panel (App.tsx:176). */
    method CloseAdminPanel()
      requires Valid()
      modifies this`showAdminPanel
      ensures Valid() && !showAdminPanel
    {
      showAdminPanel := false;
    }

    /** Logging out (App.tsx:177): the admin flag is cleared and the panel closes. */
    method Logout()
      requires Valid()
      modifies this`isAdminLoggedIn, this`showAdminPanel
      ensures Valid() && !isAdminLoggedIn && !showAdminPanel
    {
      isAdminLoggedIn := false;
      showAdminPanel := false;
    }

    /** Opening the payment-methods dialog (App.tsx:130, App.tsx:136). */
    method OpenPaymentMethods()
      requires Valid()
      modifies this`showPaymentMethods
      ensures Valid() && showPaymentMethods
    {
      showPaymentMethods := true;
    }

    /**
     * Closing the payment-methods dialog (App.tsx:185, App.tsx:191); the
     * effect at App.tsx:120-124 then collapses the expanded category.
     */
    method ClosePaymentMethods()
      requires Valid()
      modifies this`showPaymentMethods, this`expandedPaymentCategory
      ensures Valid() && !showPaymentMethods && expandedPaymentCategory == None
    {
      showPaymentMethods := false;
      expandedPaymentCategory := None;
    }

    /**
     * A category header of the accordion (App.tsx:198-202). The headers exist
     * only while the payment-methods dialog is shown (App.tsx:183).
     */
    method ToggleAccordion(cat: string)
      requires Valid() && showPaymentMethods
      modifies this`expandedPaymentCategory
      ensures Valid()
      ensures expandedPaymentCategory == ToggleCategory(old(expandedPaymentCategory), cat)
    {
      expandedPaymentCategory := ToggleCategory(expandedPaymentCategory, cat);
    }

    /** Opening the request dialog (App.tsx:131, App.tsx:137). */
    method OpenRequestConfig()
      requires Valid()
      modifies this`showRequestConfig
      ensures Valid() && showRequestConfig
    {
      showRequestConfig := true;
    }

    /** Clicking outside the request dialog (App.tsx:238). */
    method CloseRequestConfig()
      requires Valid()
      modifies this`showRequestConfig
      ensures Valid() && !showRequestConfig
    {
      showRequestConfig := false;
    }

    /** Closing the review dialog (App.tsx:294, App.tsx:298); the form keeps what was typed. */
    method CloseReviewModal()
      requires Valid()
      modifies this`showReviewModal
      ensures Valid() && !showReviewModal
    {
      showReviewModal := false;
    }

    /** "Write a review" (App.tsx:152-156): the form and the star hover are cleared and the dialog opens. */
    method OpenReviewForm()
      requires Valid()
      modifies this`reviewForm, this`hoverRating, this`showReviewModal
      ensures Valid() && reviewForm == EMPTY_REVIEW_FORM && hoverRating == 0 && showReviewModal
    {
      reviewForm := EMPTY_REVIEW_FORM;
      hoverRating := 0;
      showReviewModal := true;
    }

    /** Typing into the request form (App.tsx:245-259). */
    method EditRequestForm(form: RequestForm)
      requires Valid()
      modifies this`requestForm
      ensures Valid() && requestForm == form
    {
      requestForm := form;
    }

    /** Typing the name, choosing the product or typing the comment of a review (App.tsx:308-348). */
    method EditReviewForm(name: string, product: string, comment: string)
      requires Valid()
      modifies this`reviewForm
      ensures Valid()
      ensures reviewForm == ReviewForm(name, product, old(reviewForm).rating, comment)
    {
      reviewForm := reviewForm.(name := name, product := product, comment := comment);
    }

    /** Clicking a star (App.tsx:327): the rating becomes that star's number and nothing else changes. */
    method RateReview(star: int)
      requires Valid()
      modifies this`reviewForm
      ensures Valid() && reviewForm == old(reviewForm).(rating := star)
    {
      reviewForm := reviewForm.(rating := star);
    }

    /** Typing into the login form (App.tsx:277-284). */
    method EditLoginForm(form: LoginForm)
      requires Valid()
      modifies this`loginForm
      ensures Valid() && loginForm == form
    {
      loginForm := form;
    }

    /** Typing into the style editor (App.tsx:372-383). */
    method EditStyleForm(style: ProductStyle)
      requires Valid()
      modifies this`styleForm
      ensures Valid() && styleForm == style
    {
      styleForm := style;
    }
  }
}
