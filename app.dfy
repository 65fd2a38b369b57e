/** The top-level controller (App.tsx): which view is showing, who is signed
    in, the deferred target of the sign-in guard, whether the sign-in dialog
    is open, the grievance being read, and the browser store its handlers
    read and write. */
module AppController {
  import opened Types
  import opened SessionStore
  import opened Lifecycle
  import Auth

  /** What the page's main area shows. */
  datatype Screen =
    | HomeScreen
    | WizardScreen
    | TrackScreen(user: User)
    | DetailsScreen(grievance: Grievance)
    | DashboardScreen
    | UnauthorizedScreen
    | NoScreen

  predicate IsOfficer(user: Option<User>) {
    user.Some? && user.value.role == Gro
  }

  /** The conditional rendering of App.tsx:126-162: the officer dashboard
      only for a GRO, the "Unauthorized Access" fallback for anyone else on
      the dashboard view, the tracking list only with a user, the details
      only with a selected grievance. */
  function Render(view: View, user: Option<User>, selected: Option<Grievance>): (s: Screen)
    ensures s == DashboardScreen <==> view == Dashboard && IsOfficer(user)
    ensures s == UnauthorizedScreen <==> view == Dashboard && !IsOfficer(user)
    ensures s.TrackScreen? <==> view == Track && user.Some?
    ensures s.TrackScreen? ==> s.user == user.value
    ensures s.DetailsScreen? <==> view == GrievanceDetails && selected.Some?
    ensures s.DetailsScreen? ==> s.grievance == selected.value
    ensures s == NoScreen <==> (view == Track && user.None?) || (view == GrievanceDetails && selected.None?)
    ensures (s == HomeScreen <==> view == Home) && (s == WizardScreen <==> view == FileGrievance)
  {
    match view
    case Home => HomeScreen
    case FileGrievance => WizardScreen
    case Track => if user.Some? then TrackScreen(user.value) else NoScreen
    case GrievanceDetails => if selected.Some? then DetailsScreen(selected.value) else NoScreen
    case Dashboard => if IsOfficer(user) then DashboardScreen else UnauthorizedScreen
  }

  /** The officer identity opens the dashboard; a citizen identity gets the
      fallback. */
  lemma DashboardRoles(mobile: string, selected: Option<Grievance>)
    ensures Render(Dashboard, Some(Auth.OfficerIdentity()), selected) == DashboardScreen
    ensures Render(Dashboard, Some(Auth.CitizenIdentity(mobile)), selected) == UnauthorizedScreen
  {
  }

  class App {
    var view: View
    var user: Option<User>
    var showAuthModal: bool
    var pendingView: Option<View>
    var selectedGrievance: Option<Grievance>
    var store: Store

    /** What the handlers keep true: the signed-in user is the one stored
        under `hp_user`; the wizard and the tracking list are only reached
        signed in; a deferred target, or an open sign-in dialog, only exists
        while signed out; a selected grievance belongs to the signed-in
        user's stored list. */
    ghost predicate Valid()
      reads this
    {
      && user == SessionAt(store)
      && ((view == FileGrievance || view == Track) ==> user.Some?)
      && (pendingView.Some? ==> user.None? && (pendingView.value == FileGrievance || pendingView.value == Track))
      && (showAuthModal ==> user.None?)
      && (selectedGrievance.Some? ==>
            user.Some? && selectedGrievance.value in ListAt(store, GrievanceKey(user.value.mobile)))
    }

    function CurrentScreen(): (s: Screen)
      reads this
    {
      Render(view, user, selectedGrievance)
    }

    /** The first render with the session restored from `hp_user`
        (App.tsx:10-22). */
    constructor (persisted: Store)
      ensures Valid()
      ensures view == Home && user == SessionAt(persisted) && !showAuthModal
      ensures pendingView == None && selectedGrievance == None && store == persisted
    {
      view := Home;
      user := SessionAt(persisted);
      showAuthModal := false;
      pendingView := None;
      selectedGrievance := None;
      store := persisted;
    }

    /** `navigateTo` (App.tsx:43-50): signed out, the wizard and the
        tracking list are deferred behind the sign-in dialog; every other
        target is shown at once. */
    method NavigateTo(target: View)
      requires Valid()
      modifies this
      ensures Valid()
      ensures (target == FileGrievance || target == Track) && old(user).None? ==>
        view == old(view) && pendingView == Some(target) && showAuthModal
      ensures !((target == FileGrievance || target == Track) && old(user).None?) ==>
        view == target && pendingView == old(pendingView) && showAuthModal == old(showAuthModal)
      ensures user == old(user) && selectedGrievance == old(selectedGrievance) && store == old(store)
    {
      if (target == FileGrievance || target == Track) && user.None? {
        pendingView := Some(target);
        showAuthModal := true;
      } else {
        view := target;
      }
    }

    /** `handleAuthSuccess` (App.tsx:24-33), called by the sign-in form,
        which is mounted only while the dialog is open (UI.tsx:126). The
        identity is kept and stored, the dialog closes, and a deferred
        target, if any, is shown and forgotten. */
    method HandleAuthSuccess(authenticated: User)
      requires Valid() && showAuthModal
      modifies this
      ensures Valid()
      ensures user == Some(authenticated) && store == SaveSession(old(store), authenticated)
      ensures !showAuthModal && pendingView == None
      ensures view == (if old(pendingView).Some? then old(pendingView).value else old(view))
      ensures selectedGrievance == old(selectedGrievance)
    {
      user := Some(authenticated);
      store := SaveSession(store, authenticated);
      showAuthModal := false;
      if pendingView.Some? {
        view := pendingView.value;
        pendingView := None;
      }
    }

    /** `handleLogout` (App.tsx:35-40): forget the user and the selection,
        go home, and remove only `hp_user`; every grievance list stays. */
    method HandleLogout()
      requires Valid()
      modifies this
      ensures Valid()
      ensures user == None && selectedGrievance == None && view == Home
      ensures store == ClearSession(old(store))
      ensures forall m :: ListAt(store, GrievanceKey(m)) == ListAt(old(store), GrievanceKey(m))
      ensures showAuthModal == old(showAuthModal) && pendingView == old(pendingView)
    {
      ghost var before := store;
      user := None;
      store := ClearSession(store);
      view := Home;
      selectedGrievance := None;
      forall m ensures ListAt(store, GrievanceKey(m)) == ListAt(before, GrievanceKey(m)) {
        ClearSessionKeepsLists(before, m);
      }
    }

    /** `handleSubmitGrievance` (App.tsx:52-82): nothing without a user;
        otherwise the new record goes in front of the user's stored list
        and the tracking list is shown. */
    method HandleSubmitGrievance(data: FormData, at: ClockReading)
      requires Valid()
      modifies this
      ensures Valid()
      ensures old(user).None? ==>
        view == old(view) && store == old(store)
      ensures old(user).Some? ==>
        var key := GrievanceKey(old(user).value.mobile);
        && store == SaveList(old(store), key, Prepend(NewGrievance(data, at), ListAt(old(store), key)))
        && view == Track
      ensures user == old(user) && selectedGrievance == old(selectedGrievance)
      ensures showAuthModal == old(showAuthModal) && pendingView == old(pendingView)
    {
      if user.None? {
        return;
      }
      var g := NewGrievance(data, at);
      var key := GrievanceKey(user.value.mobile);
      var existing := ListAt(store, key);
      ghost var before := store;
      store := SaveList(store, key, Prepend(g, existing));
      SaveListIsolated(before, user.value.mobile, Prepend(g, existing), user.value.mobile);
      view := Track;
    }

    /** `handleViewDetails` (App.tsx:84-87), called from the tracking list,
        which shows the signed-in user's stored list (Views.tsx:289-301). */
    method HandleViewDetails(g: Grievance)
      requires Valid() && view == Track && user.Some?
      requires g in ListAt(store, GrievanceKey(user.value.mobile))
      modifies this
      ensures Valid()
      ensures selectedGrievance == Some(g) && view == GrievanceDetails
      ensures user == old(user) && store == old(store)
      ensures showAuthModal == old(showAuthModal) && pendingView == old(pendingView)
    {
      selectedGrievance := Some(g);
      view := GrievanceDetails;
    }

    /** `handleReplyGrievance` (App.tsx:89-112): nothing without a user and
        a selected grievance; otherwise the selection gets the reply, and the
        stored list has every record of that id replaced by it. */
    method HandleReplyGrievance(message: string, now: string)
      requires Valid()
      modifies this
      ensures Valid()
      ensures old(user).None? || old(selectedGrievance).None? ==>
        selectedGrievance == old(selectedGrievance) && store == old(store)
      ensures old(user).Some? && old(selectedGrievance).Some? ==>
        var key := GrievanceKey(old(user).value.mobile);
        var updated := AddReply(old(selectedGrievance).value, message, now);
        && selectedGrievance == Some(updated)
        && store == SaveList(old(store), key, ReplaceById(ListAt(old(store), key), updated))
      ensures view == old(view) && user == old(user)
      ensures showAuthModal == old(showAuthModal) && pendingView == old(pendingView)
    {
      if user.None? || selectedGrievance.None? {
        return;
      }
      var updated := AddReply(selectedGrievance.value, message, now);
      var key := GrievanceKey(user.value.mobile);
      var list := ListAt(store, key);
      ghost var k :| 0 <= k < |list| && list[k] == selectedGrievance.value;
      selectedGrievance := Some(updated);
      ghost var before := store;
      var replaced := ReplaceById(list, updated);
      assert replaced[k] == updated;
      store := SaveList(store, key, replaced);
      SaveListIsolated(before, user.value.mobile, replaced, user.value.mobile);
    }

    /** The header's Login and Register buttons, shown only while signed
        out (App.tsx:119-120, Layout.tsx:44-56). */
    method OpenAuthModal()
      requires Valid() && user.None?
      modifies this
      ensures Valid()
      ensures showAuthModal
      ensures view == old(view) && user == old(user) && pendingView == old(pendingView)
      ensures selectedGrievance == old(selectedGrievance) && store == old(store)
    {
      showAuthModal := true;
    }

    /** Closing the sign-in dialog (App.tsx:170); a deferred target stays. */
    method CloseAuthModal()
      requires Valid()
      modifies this
      ensures Valid()
      ensures !showAuthModal
      ensures view == old(view) && user == old(user) && pendingView == old(pendingView)
      ensures selectedGrievance == old(selectedGrievance) && store == old(store)
    {
      showAuthModal := false;
    }

    /** The header's Dashboard button, shown only to an officer
        (App.tsx:121, Layout.tsx:47-48). */
    method ShowDashboard()
      requires Valid() && IsOfficer(user)
      modifies this
      ensures Valid()
      ensures view == Dashboard && CurrentScreen() == DashboardScreen
      ensures user == old(user) && showAuthModal == old(showAuthModal) && pendingView == old(pendingView)
      ensures selectedGrievance == old(selectedGrievance) && store == old(store)
    {
      view := Dashboard;
    }

    /** The header's home link and the fallback's "Go Home" button
        (App.tsx:122, 160). */
    method GoHome()
      requires Valid()
      modifies this
      ensures Valid()
      ensures view == Home
      ensures user == old(user) && showAuthModal == old(showAuthModal) && pendingView == old(pendingView)
      ensures selectedGrievance == old(selectedGrievance) && store == old(store)
    {
      view := Home;
    }

    /** "Back to list" on the details view (App.tsx:147). */
    method BackToTrack()
      requires Valid() && view == GrievanceDetails && selectedGrievance.Some?
      modifies this
      ensures Valid()
      ensures view == Track
      ensures user == old(user) && showAuthModal == old(showAuthModal) && pendingView == old(pendingView)
      ensures selectedGrievance == old(selectedGrievance) && store == old(store)
    {
      view := Track;
    }
  }

  /** In every state the handlers reach, the wizard and the tracking list
      are never blank: the tracking list always has its user. */
  lemma GuardedViewsHaveUser(a: App)
    requires a.Valid()
    ensures a.view == Track ==> a.CurrentScreen() == TrackScreen(a.user.value)
    ensures a.view == FileGrievance ==> a.CurrentScreen() == WizardScreen && a.user.Some?
  {
  }

  /** Filing on a fresh page with an empty store: a signed-out citizen asks
      for the wizard, signs in with any number, files one grievance and lands
      on the tracking list, where the new record is the only one and is under
      review. */
  method FileFirstGrievance(mobile: string, data: FormData, at: ClockReading)
    returns (shown: Screen, list: seq<Grievance>)
    ensures shown == TrackScreen(Auth.CitizenIdentity(mobile))
    ensures |list| == 1 && list[0] == NewGrievance(data, at)
    ensures list[0].status == UnderReview && |list[0].timeline| == 3 && list[0].replies == []
  {
    var app := new App(map[]);
    app.NavigateTo(FileGrievance);
    assert app.view == Home && app.showAuthModal;
    var citizen := Auth.CitizenIdentity(mobile);
    app.HandleAuthSuccess(citizen);
    assert app.view == FileGrievance;
    app.HandleSubmitGrievance(data, at);
    shown := app.CurrentScreen();
    list := ListAt(app.store, GrievanceKey(mobile));
  }

  /** A signed-in page files one grievance per form, in order, each through
      `handleSubmitGrievance`: the user's stored list becomes the fold
      `FileAll` of the list it held, and nothing else about the session
      changes. */
  method FileEach(app: App, forms: seq<FormData>, clock: seq<ClockReading>)
    requires app.Valid() && app.user.Some? && |forms| == |clock|
    modifies app
    ensures app.Valid() && app.user == old(app.user)
    ensures ListAt(app.store, GrievanceKey(app.user.value.mobile))
         == FileAll(ListAt(old(app.store), GrievanceKey(app.user.value.mobile)), forms, clock)
    ensures forms != [] ==> app.view == Track
    ensures forms == [] ==> app.view == old(app.view)
  {
    var key := GrievanceKey(app.user.value.mobile);
    ghost var initial := ListAt(app.store, key);
    var i := 0;
    while i < |forms|
      invariant 0 <= i <= |forms|
      invariant app.Valid() && app.user == old(app.user)
      invariant ListAt(app.store, key) == FileAll(initial, forms[..i], clock[..i])
      invariant i > 0 ==> app.view == Track
      invariant i == 0 ==> app.view == old(app.view)
    {
      app.HandleSubmitGrievance(forms[i], clock[i]);
      FileAllStep(initial, forms, clock, i);
      i := i + 1;
    }
    assert forms[..i] == forms && clock[..i] == clock;
  }

  /** N submissions through one page with a fresh store, signed in as any
      citizen: the tracking list holds the N records, most recent first,
      and their ids are pairwise distinct when the clock readings are. */
  method FileMany(mobile: string, forms: seq<FormData>, clock: seq<ClockReading>)
    returns (shown: Screen, list: seq<Grievance>)
    requires |forms| == |clock|
    ensures |list| == |forms|
    ensures forall i :: 0 <= i < |forms| ==> list[i] == NewGrievance(forms[|forms| - 1 - i], clock[|forms| - 1 - i])
    ensures DistinctMillis(clock) ==> UniqueIds(list)
    ensures forms != [] ==> shown == TrackScreen(Auth.CitizenIdentity(mobile))
  {
    var app := new App(map[]);
    app.OpenAuthModal();
    app.HandleAuthSuccess(Auth.CitizenIdentity(mobile));
    assert ListAt(app.store, GrievanceKey(mobile)) == [];
    FileEach(app, forms, clock);
    shown := app.CurrentScreen();
    list := ListAt(app.store, GrievanceKey(mobile));
    FileAllOrder(forms, clock);
    if DistinctMillis(clock) {
      FileAllUniqueIds(forms, clock);
    }
  }
}
