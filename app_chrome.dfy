/**
 * The application chrome's state service: the section and page navigation,
 * the page actions, whether the chrome is hidden ("chromeless"), the search
 * bar and the mega menu. The state is a behaviour subject; the model keeps
 * its current value and the list of values it has been given.
 */
module AppChrome {
  import opened Wrappers

  /** A navigation model item; `ref` stands for its object identity. */
  datatype NavItem = NavItem(ref: nat, text: string)

  /** A matched route; `ref` stands for its object identity. */
  datatype Route = Route(ref: nat, chromeless: Option<bool>)

  /** The chrome state; an absent optional key reads as `undefined` (`None`). */
  datatype ChromeState = ChromeState(
    chromeless: Option<bool>,
    sectionNav: NavItem,
    pageNav: Option<NavItem>,
    actions: Option<nat>,
    searchBarHidden: Option<bool>,
    megaMenuOpen: Option<bool>)

  /** A `Partial<AppChromeState>`; an assigned optional key may be `undefined`. */
  datatype ChromeUpdate = ChromeUpdate(
    chromeless: Patch<Option<bool>>,
    sectionNav: Patch<NavItem>,
    pageNav: Patch<Option<NavItem>>,
    actions: Patch<Option<nat>>,
    searchBarHidden: Patch<Option<bool>>,
    megaMenuOpen: Patch<Option<bool>>)

  /** An update that sets nothing. */
  const NoChange: ChromeUpdate := ChromeUpdate(Keep, Keep, Keep, Keep, Keep, Keep)

  /** The default section, one shared object. */
  const DefaultSection: NavItem := NavItem(0, "Grafana")

  const SearchBarStorageKey: string := "SearchBar_Hidden"

  /** `Object.assign(state, update)`: the keys present in the update overwrite. */
  function Applied(s: ChromeState, u: ChromeUpdate): (r: ChromeState)
  {
    ChromeState(Patched(s.chromeless, u.chromeless), Patched(s.sectionNav, u.sectionNav),
                Patched(s.pageNav, u.pageNav), Patched(s.actions, u.actions),
                Patched(s.searchBarHidden, u.searchBarHidden), Patched(s.megaMenuOpen, u.megaMenuOpen))
  }

  /** `this.currentRoute?.chromeless`. */
  function RouteChromeless(route: Option<Route>): Option<bool>
  {
    if route.Some? then route.value.chromeless else None
  }

  /**
   * The state `update` computes: after a route change the actions and page
   * navigation are cleared and the section reset first, then the update
   * applies, and the chrome follows the route whatever the update says.
   */
  function Updated(current: ChromeState, routeChangeHandled: bool, route: Option<Route>, u: ChromeUpdate)
    : ChromeState
  {
    var base := if routeChangeHandled then current
                else current.(actions := None, pageNav := None, sectionNav := DefaultSection,
                              chromeless := RouteChromeless(route));
    Applied(base, u).(chromeless := RouteChromeless(route))
  }

  /** The chrome always follows the current route. */
  lemma ChromelessFollowsRoute(current: ChromeState, handled: bool, route: Option<Route>, u: ChromeUpdate)
    ensures Updated(current, handled, route, u).chromeless == RouteChromeless(route)
  {
  }

  /** After a route change, what the update does not set is cleared or reset. */
  lemma RouteChangeClears(current: ChromeState, route: Option<Route>, u: ChromeUpdate)
    ensures var r := Updated(current, false, route, u);
      && (u.actions.Keep? ==> r.actions == None)
      && (u.pageNav.Keep? ==> r.pageNav == None)
      && (u.sectionNav.Keep? ==> r.sectionNav == DefaultSection)
      && r.searchBarHidden == Patched(current.searchBarHidden, u.searchBarHidden)
      && r.megaMenuOpen == Patched(current.megaMenuOpen, u.megaMenuOpen)
  {
  }

  /** Without a route change, what the update does not set stays as it was. */
  lemma HandledKeeps(current: ChromeState, route: Option<Route>, u: ChromeUpdate)
    ensures var r := Updated(current, true, route, u);
      && (u.actions.Keep? ==> r.actions == current.actions)
      && (u.pageNav.Keep? ==> r.pageNav == current.pageNav)
      && (u.sectionNav.Keep? ==> r.sectionNav == current.sectionNav)
      && (u.searchBarHidden.Keep? ==> r.searchBarHidden == current.searchBarHidden)
      && (u.megaMenuOpen.Keep? ==> r.megaMenuOpen == current.megaMenuOpen)
  {
  }

  /** The same update again, with the route change handled, computes the same state. */
  lemma UpdateIdempotent(current: ChromeState, handled: bool, route: Option<Route>, u: ChromeUpdate)
    ensures var once := Updated(current, handled, route, u);
      Updated(once, true, route, u) == once
  {
  }

  /** `!x` on an optional flag: `undefined` counts as false. */
  function Not(b: Option<bool>): bool
  {
    !(b == Some(true))
  }

  /** `store.getBool(key, def)`. */
  function GetBool(store: map<string, bool>, key: string, def: bool): bool
  {
    if key in store then store[key] else def
  }

  class AppChromeService {
    var state: ChromeState
    /** The values the state subject has held, oldest first; the last is `state`. */
    var history: seq<ChromeState>
    var currentRoute: Option<Route>
    var routeChangeHandled: bool
    /** The browser's local storage, as far as the service reads and writes it. */
    var store: map<string, bool>

    predicate Valid()
      reads this
    {
      |history| > 0 && history[|history| - 1] == state
    }

    /** Starts chromeless, in the default section, with the search bar as stored. */
    constructor (storage: map<string, bool>)
      ensures Valid()
      ensures state == ChromeState(Some(true), DefaultSection, None, None,
                                   Some(GetBool(storage, SearchBarStorageKey, false)), None)
      ensures history == [state]
      ensures currentRoute == None && !routeChangeHandled && store == storage
    {
      state := ChromeState(Some(true), DefaultSection, None, None,
                           Some(GetBool(storage, SearchBarStorageKey, false)), None);
      history := [ChromeState(Some(true), DefaultSection, None, None,
                              Some(GetBool(storage, SearchBarStorageKey, false)), None)];
      currentRoute := None;
      routeChangeHandled := false;
      store := storage;
    }

    /** `setMatchedRoute`: a different route re-arms the reset of the next update. */
    method SetMatchedRoute(route: Route)
      modifies this
      ensures old(currentRoute) != Some(route) ==> currentRoute == Some(route) && !routeChangeHandled
      ensures old(currentRoute) == Some(route) ==>
        currentRoute == old(currentRoute) && routeChangeHandled == old(routeChangeHandled)
      ensures state == old(state) && history == old(history) && store == old(store)
    {
      if currentRoute != Some(route) {
        currentRoute := Some(route);
        routeChangeHandled := false;
      }
    }

    /** `update`: a new state is emitted exactly when it differs from the current one. */
    method Update(u: ChromeUpdate)
      requires Valid()
      modifies this
      ensures Valid()
      ensures routeChangeHandled
      ensures state == Updated(old(state), old(routeChangeHandled), currentRoute, u)
      ensures history == if state == old(state) then old(history) else old(history) + [state]
      ensures currentRoute == old(currentRoute) && store == old(store)
    {
      var current := state;
      var newState := current;
      if !routeChangeHandled {
        newState := newState.(actions := None, pageNav := None, sectionNav := DefaultSection,
                              chromeless := RouteChromeless(currentRoute));
        routeChangeHandled := true;
      }
      newState := Applied(newState, u);
      newState := newState.(chromeless := RouteChromeless(currentRoute));
      if current != newState {
        state := newState;
        history := history + [newState];
      }
    }

    /** `onToggleMegaMenu`: flips the mega menu. */
    method OnToggleMegaMenu()
      requires Valid()
      modifies this
      ensures Valid()
      ensures state.megaMenuOpen == Some(Not(old(state).megaMenuOpen))
      ensures state == Updated(old(state), old(routeChangeHandled), currentRoute,
                               NoChange.(megaMenuOpen := Assign(Some(Not(old(state).megaMenuOpen)))))
    {
      Update(NoChange.(megaMenuOpen := Assign(Some(Not(state.megaMenuOpen)))));
    }

    /** `setMegaMenu`. */
    method SetMegaMenu(megaMenuOpen: bool)
      requires Valid()
      modifies this
      ensures Valid()
      ensures state.megaMenuOpen == Some(megaMenuOpen)
      ensures state == Updated(old(state), old(routeChangeHandled), currentRoute,
                               NoChange.(megaMenuOpen := Assign(Some(megaMenuOpen))))
    {
      Update(NoChange.(megaMenuOpen := Assign(Some(megaMenuOpen))));
    }

    /** `onToggleSearchBar`: flips the search bar and remembers the choice. */
    method OnToggleSearchBar()
      requires Valid()
      modifies this
      ensures Valid()
      ensures state.searchBarHidden == Some(Not(old(state).searchBarHidden))
      ensures store == old(store)[SearchBarStorageKey := Not(old(state).searchBarHidden)]
    {
      var searchBarHidden := Not(state.searchBarHidden);
      store := store[SearchBarStorageKey := searchBarHidden];
      Update(NoChange.(searchBarHidden := Assign(Some(searchBarHidden))));
    }
  }

  /** A toggled mega menu toggled again is back where it was, as a flag. */
  lemma ToggleTwice(m: Option<bool>)
    ensures Not(Some(Not(m))) == (m == Some(true))
  {
  }
}
