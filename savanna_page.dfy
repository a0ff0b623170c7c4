/** The state of the marketplace page (src/pages/DigitalSavannaMarketplace.tsx):
    its own list cart, the theme record, and the deals revealed by shaking
    the baobab tree. */
module SavannaPage {
  import opened Wrappers

  datatype TimeOfDay = Dawn | Midday | Dusk | Night
  datatype ViewMode = Grid | List

  datatype Theme = Theme(timeOfDay: TimeOfDay, soundEnabled: bool, arMode: bool, viewMode: ViewMode)

  datatype Supplier = Supplier(name: string, verified: bool, prideLevel: string, location: string)

  /** A catalogue entry; prices are whole shillings. */
  datatype Product = Product(id: string, name: string, price: int, category: string,
                             supplier: Supplier, stock: int, urgency: string)

  const InitialTheme: Theme := Theme(Midday, false, false, Grid)

  /** The deals a shake of the baobab tree reveals. */
  const HiddenDeals: seq<Product> := [
    Product("hidden-1", "\U{1F31F} Secret Pride Spice Blend", 120, "Spices",
            Supplier("Maasai Spice Masters", true, "alpha", "Maasai Mara"), 50, "high")
  ]

  // ---------------------------------------------------------------------
  // The theme updaters passed to setTheme
  // ---------------------------------------------------------------------

  /** The sun/moon button: midday turns to dusk, anything else to midday. */
  function ToggleTimeOfDay(theme: Theme): (r: Theme)
    ensures r.timeOfDay == Dusk <==> theme.timeOfDay == Midday
    ensures r.timeOfDay == Midday <==> theme.timeOfDay != Midday
    ensures r.(timeOfDay := theme.timeOfDay) == theme
  {
    theme.(timeOfDay := if theme.timeOfDay == Midday then Dusk else Midday)
  }

  function ToggleSound(theme: Theme): (r: Theme)
    ensures r.soundEnabled != theme.soundEnabled
    ensures r.(soundEnabled := theme.soundEnabled) == theme
  {
    theme.(soundEnabled := !theme.soundEnabled)
  }

  function ToggleArMode(theme: Theme): (r: Theme)
    ensures r.arMode != theme.arMode
    ensures r.(arMode := theme.arMode) == theme
  {
    theme.(arMode := !theme.arMode)
  }

  function SetViewMode(theme: Theme, mode: ViewMode): (r: Theme)
    ensures r.viewMode == mode
    ensures r.(viewMode := theme.viewMode) == theme
  {
    theme.(viewMode := mode)
  }

  /** Only midday and dusk can be reached by the time-of-day button. */
  predicate DaylightCycle(theme: Theme) {
    theme.timeOfDay == Midday || theme.timeOfDay == Dusk
  }

  /** The time-of-day button always changes the time, always lands on
      midday or dusk, and undoes itself exactly when started from one of
      those two; every other field is kept. */
  lemma TimeOfDayToggle(theme: Theme)
    ensures ToggleTimeOfDay(theme).timeOfDay != theme.timeOfDay
    ensures DaylightCycle(ToggleTimeOfDay(theme))
    ensures ToggleTimeOfDay(ToggleTimeOfDay(theme)) == theme <==> DaylightCycle(theme)
    ensures ToggleTimeOfDay(theme).(timeOfDay := theme.timeOfDay) == theme
  {
  }

  /** The sound and AR buttons flip their own field only, so pressing one
      twice restores the theme; choosing a view mode twice is the same as
      choosing it once. */
  lemma ToggleFieldsIndependently(theme: Theme, mode: ViewMode)
    ensures ToggleSound(theme).soundEnabled != theme.soundEnabled
    ensures ToggleSound(theme).(soundEnabled := theme.soundEnabled) == theme
    ensures ToggleSound(ToggleSound(theme)) == theme
    ensures ToggleArMode(theme).arMode != theme.arMode
    ensures ToggleArMode(theme).(arMode := theme.arMode) == theme
    ensures ToggleArMode(ToggleArMode(theme)) == theme
    ensures SetViewMode(theme, mode).viewMode == mode
    ensures SetViewMode(theme, mode).(viewMode := theme.viewMode) == theme
    ensures SetViewMode(SetViewMode(theme, mode), mode) == SetViewMode(theme, mode)
  {
  }

  /** The shopping-cart badge: the number of entries, shown only when the
      cart is not empty. */
  function CartBadge(cart: seq<Product>): (badge: Option<nat>)
    ensures badge.Some? <==> cart != []
    ensures badge.Some? ==> badge.value == |cart| && badge.value > 0
  {
    if |cart| > 0 then Some(|cart|) else None
  }

  /** Adding a product to the list cart appends it: a product already in the
      cart becomes a second entry instead of being merged. */
  lemma AddingAgainDuplicates(cart: seq<Product>, p: Product)
    requires p in cart
    ensures multiset(cart + [p])[p] == multiset(cart)[p] + 1 >= 2
  {
  }

  class MarketplacePage {
    var theme: Theme
    /** The page's own cart: the products added, oldest first. */
    var cart: seq<Product>
    /** Whether the baobab tree is still shaking. */
    var baobabShaken: bool
    var dealsRevealed: seq<Product>

    /** The time of day stays on the midday/dusk cycle. */
    ghost predicate Valid()
      reads this
    {
      DaylightCycle(theme)
    }

    constructor ()
      ensures Valid()
      ensures theme == InitialTheme && cart == [] && !baobabShaken && dealsRevealed == []
    {
      theme := InitialTheme;
      cart := [];
      baobabShaken := false;
      dealsRevealed := [];
    }

    /** `addToCart`: the product goes at the end; earlier entries stay. */
    method AddToCart(p: Product)
      requires Valid()
      modifies this`cart
      ensures Valid()
      ensures cart == old(cart) + [p]
      ensures |cart| == |old(cart)| + 1 && cart[..|old(cart)|] == old(cart)
      ensures CartBadge(cart) == Some(|old(cart)| + 1)
    {
      cart := cart + [p];
      assert cart[..|old(cart)|] == old(cart);
    }

    /** `shakeBaobabTree`: starts the shake and shows the hidden deals,
        replacing (not extending) what was revealed before. */
    method ShakeBaobabTree()
      requires Valid()
      modifies this`baobabShaken, this`dealsRevealed
      ensures Valid()
      ensures baobabShaken && dealsRevealed == HiddenDeals
    {
      baobabShaken := true;
      dealsRevealed := HiddenDeals;
    }

    /** The delayed callback scheduled by a shake: the tree stops shaking;
        the revealed deals stay. */
    method BaobabSettled()
      requires Valid()
      modifies this`baobabShaken
      ensures Valid()
      ensures !baobabShaken
    {
      baobabShaken := false;
    }

    method ToggleTimeOfDayClicked()
      requires Valid()
      modifies this`theme
      ensures Valid()
      ensures theme == ToggleTimeOfDay(old(theme))
      ensures theme.timeOfDay == if old(theme).timeOfDay == Midday then Dusk else Midday
    {
      theme := ToggleTimeOfDay(theme);
    }

    method ToggleSoundClicked()
      requires Valid()
      modifies this`theme
      ensures Valid()
      ensures theme == old(theme).(soundEnabled := !old(theme).soundEnabled)
    {
      theme := ToggleSound(theme);
    }

    method ToggleArModeClicked()
      requires Valid()
      modifies this`theme
      ensures Valid()
      ensures theme == old(theme).(arMode := !old(theme).arMode)
    {
      theme := ToggleArMode(theme);
    }

    method ViewModeClicked(mode: ViewMode)
      requires Valid()
      modifies this`theme
      ensures Valid()
      ensures theme == old(theme).(viewMode := mode)
    {
      theme := SetViewMode(theme, mode);
    }
  }

  /** Shaking twice reveals the same deals as shaking once, and two clicks of
      the time-of-day button bring the page back to the time it showed. */
  method RepeatedClicks(page: MarketplacePage)
    requires page.Valid()
    modifies page
    ensures page.Valid()
    ensures page.dealsRevealed == HiddenDeals
    ensures page.theme == old(page.theme)
  {
    page.ShakeBaobabTree();
    page.ShakeBaobabTree();
    page.ToggleTimeOfDayClicked();
    page.ToggleTimeOfDayClicked();
    TimeOfDayToggle(old(page.theme));
  }
}
