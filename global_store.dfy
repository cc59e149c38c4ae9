/**
 * The application-wide store (src/stores/global.ts): the loading flag,
 * the notification list, the sidebar and the colour theme. The timers that
 * remove a notification after its duration are not modelled; the id a
 * notification gets (`Date.now()` and `Math.random()`) is a parameter.
 */
module GlobalStore {
  import opened Wrappers
  import opened Browser

  datatype NotificationType = Success | Error | Warning | Info

  datatype Notification = Notification(
    id: string,
    kind: NotificationType,
    title: string,
    message: Option<string>,
    duration: Option<int>,
    persistent: Option<bool>)

  /**
   * A property of an object literal that is spread over the defaults: left
   * out (the default stays), or written, possibly as `undefined` (None),
   * which then replaces the default.
   */
  datatype Field<T> = Absent | Given(value: Option<T>)

  /** The argument of showNotification: a notification without its id. */
  datatype NotificationInput = NotificationInput(
    kind: NotificationType,
    title: string,
    message: Field<string>,
    duration: Field<int>,
    persistent: Field<bool>)

  const DefaultDuration := 2000

  function Spread<T>(default: Option<T>, f: Field<T>): (r: Option<T>)
    ensures f.Absent? ==> r == default
    ensures f.Given? ==> r == f.value
  {
    match f
    case Absent => default
    case Given(v) => v
  }

  /** `{ id, duration: 2000, persistent: false, ...notification }`. */
  function WithDefaults(input: NotificationInput, id: string): (r: Notification)
    ensures r.id == id && r.kind == input.kind && r.title == input.title
    ensures input.duration.Absent? ==> r.duration == Some(DefaultDuration)
    ensures input.persistent.Absent? ==> r.persistent == Some(false)
    ensures input.message.Absent? ==> r.message == None
    ensures input.duration.Given? ==> r.duration == input.duration.value
    ensures input.persistent.Given? ==> r.persistent == input.persistent.value
    ensures input.message.Given? ==> r.message == input.message.value
  {
    Notification(id, input.kind, input.title, Spread(None, input.message),
                 Spread(Some(DefaultDuration), input.duration), Spread(Some(false), input.persistent))
  }

  /** The index of the first notification with this id, as `findIndex` gives it (None for -1). */
  function IndexOfId(ns: seq<Notification>, id: string): (r: Option<nat>)
    ensures r.None? <==> forall i :: 0 <= i < |ns| ==> ns[i].id != id
    ensures r.Some? ==> (r.value < |ns| && ns[r.value].id == id
      && forall i :: 0 <= i < r.value ==> ns[i].id != id)
  {
    if ns == [] then None
    else if ns[0].id == id then Some(0)
    else
      match IndexOfId(ns[1..], id)
      case None => None
      case Some(i) => Some(i + 1)
  }

  /** removeNotification: splice out the first notification with this id; nothing when there is none. */
  function RemoveId(ns: seq<Notification>, id: string): (r: seq<Notification>)
    ensures IndexOfId(ns, id).None? ==> r == ns
    ensures IndexOfId(ns, id).Some? ==> |r| == |ns| - 1
  {
    match IndexOfId(ns, id)
    case None => ns
    case Some(i) => ns[..i] + ns[i + 1..]
  }

  /** Removing an id keeps every other notification and adds none. */
  lemma {:induction false} RemoveIdKeepsOthers(ns: seq<Notification>, id: string)
    ensures forall n :: n in ns && n.id != id ==> n in RemoveId(ns, id)
    ensures forall n :: n in RemoveId(ns, id) ==> n in ns
    ensures (forall i, j :: 0 <= i < j < |ns| ==> ns[i].id != ns[j].id) ==>
      forall n :: n in RemoveId(ns, id) ==> n.id != id
  {
    match IndexOfId(ns, id)
    case None =>
    case Some(k) =>
      assert ns == ns[..k] + [ns[k]] + ns[k + 1..];
      forall n | n in RemoveId(ns, id)
        ensures n in ns
      {
        assert n in ns[..k] || n in ns[k + 1..];
      }
  }

  /** A notification just shown, under an id nobody else has, is removed again by its id. */
  lemma {:induction false} RemoveShown(ns: seq<Notification>, n: Notification)
    requires forall i :: 0 <= i < |ns| ==> ns[i].id != n.id
    ensures RemoveId(ns + [n], n.id) == ns
  {
    var all := ns + [n];
    assert forall i :: 0 <= i < |ns| ==> all[i].id != n.id;
    assert all[|ns|].id == n.id;
    var found := IndexOfId(all, n.id);
    assert found.Some?;
    assert found == Some(|ns|);
    assert all[..|ns|] == ns && all[|ns| + 1..] == [];
  }

  /** unreadNotifications: the entries whose `persistent` is not true. */
  function UnreadCount(ns: seq<Notification>): (r: nat)
    ensures r <= |ns|
  {
    if ns == [] then 0
    else UnreadCount(ns[..|ns| - 1]) + (if ns[|ns| - 1].persistent == Some(true) then 0 else 1)
  }

  lemma {:induction false} UnreadCountAppend(ns: seq<Notification>, extra: seq<Notification>)
    ensures UnreadCount(ns + extra) == UnreadCount(ns) + UnreadCount(extra)
    decreases |extra|
  {
    if extra == [] {
      assert ns + extra == ns;
    } else {
      var last := extra[|extra| - 1];
      assert (ns + extra)[..|ns + extra| - 1] == ns + extra[..|extra| - 1];
      UnreadCountAppend(ns, extra[..|extra| - 1]);
    }
  }

  /** The unread count is the number of entries that are not persistent. */
  lemma {:induction false} UnreadCountIsCount(ns: seq<Notification>)
    ensures UnreadCount(ns) == |set i | 0 <= i < |ns| && ns[i].persistent != Some(true)|
  {
    if ns != [] {
      var k := |ns| - 1;
      UnreadCountIsCount(ns[..k]);
      var before := set i | 0 <= i < k && ns[..k][i].persistent != Some(true);
      var all := set i | 0 <= i < |ns| && ns[i].persistent != Some(true);
      assert before == set i | 0 <= i < k && ns[i].persistent != Some(true);
      if ns[k].persistent != Some(true) {
        assert all == before + {k};
      } else {
        assert all == before;
      }
    }
  }

  /** The argument showSuccess, showWarning and showInfo pass: a type, title, message and duration. */
  function Timed(kind: NotificationType, title: string, message: Option<string>, duration: int): NotificationInput {
    NotificationInput(kind, title, Given(message), Given(Some(duration)), Absent)
  }

  /** showError's argument: a persistent error has an explicitly undefined duration, any other lasts 2500 ms. */
  function ErrorInput(title: string, message: Option<string>, persistent: bool): NotificationInput {
    NotificationInput(Error, title, Given(message), Given(if persistent then None else Some(2500)), Given(Some(persistent)))
  }

  lemma ErrorDefaults(title: string, message: Option<string>, persistent: bool, id: string)
    ensures persistent ==> WithDefaults(ErrorInput(title, message, persistent), id).duration == None
    ensures !persistent ==> WithDefaults(ErrorInput(title, message, persistent), id).duration == Some(2500)
    ensures WithDefaults(ErrorInput(title, message, persistent), id).persistent == Some(persistent)
    ensures WithDefaults(ErrorInput(title, message, persistent), id).message == message
  {
  }

  class GlobalStore {
    var isLoading: bool
    var loadingMessage: string
    var notifications: seq<Notification>
    var sidebarOpen: bool
    var theme: string
    const storage: LocalStorage

    constructor (storage: LocalStorage)
      ensures this.storage == storage
      ensures !isLoading && loadingMessage == "" && notifications == [] && !sidebarOpen && theme == "light"
    {
      this.storage := storage;
      isLoading := false;
      loadingMessage := "";
      notifications := [];
      sidebarOpen := false;
      theme := "light";
    }

    predicate HasNotifications()
      reads this
    {
      |notifications| > 0
    }

    function UnreadNotifications(): (r: nat)
      reads this
      ensures r <= |notifications|
    {
      UnreadCount(notifications)
    }

    /** setLoading: the message defaults to '' when the caller leaves it out (None). */
    method SetLoading(loading: bool, message: Option<string>)
      modifies this
      ensures isLoading == loading && loadingMessage == message.GetOr("")
      ensures notifications == old(notifications) && sidebarOpen == old(sidebarOpen) && theme == old(theme)
    {
      isLoading := loading;
      loadingMessage := message.GetOr("");
    }

    /** showNotification: append the notification with its defaults filled in, and return its id. */
    method ShowNotification(input: NotificationInput, id: string) returns (r: string)
      modifies this
      ensures r == id
      ensures notifications == old(notifications) + [WithDefaults(input, id)]
      ensures HasNotifications()
      ensures UnreadNotifications() ==
        old(UnreadNotifications()) + (if WithDefaults(input, id).persistent == Some(true) then 0 else 1)
      ensures isLoading == old(isLoading) && loadingMessage == old(loadingMessage)
      ensures sidebarOpen == old(sidebarOpen) && theme == old(theme)
    {
      var n := WithDefaults(input, id);
      UnreadCountAppend(notifications, [n]);
      notifications := notifications + [n];
      return id;
    }

    method RemoveNotification(id: string)
      modifies this
      ensures notifications == RemoveId(old(notifications), id)
      ensures isLoading == old(isLoading) && loadingMessage == old(loadingMessage)
      ensures sidebarOpen == old(sidebarOpen) && theme == old(theme)
    {
      var index := IndexOfId(notifications, id);
      if index.Some? {
        notifications := notifications[..index.value] + notifications[index.value + 1..];
      }
    }

    method ClearAllNotifications()
      modifies this
      ensures notifications == [] && !HasNotifications()
      ensures isLoading == old(isLoading) && loadingMessage == old(loadingMessage)
      ensures sidebarOpen == old(sidebarOpen) && theme == old(theme)
    {
      notifications := [];
    }

    /** showSuccess: a success lasting the given duration, 1500 ms by default. */
    method ShowSuccess(title: string, message: Option<string>, duration: Option<int>, id: string) returns (r: string)
      modifies this
      ensures r == id
      ensures notifications == old(notifications) + [WithDefaults(Timed(Success, title, message, duration.GetOr(1500)), id)]
      ensures isLoading == old(isLoading) && loadingMessage == old(loadingMessage)
      ensures sidebarOpen == old(sidebarOpen) && theme == old(theme)
    {
      r := ShowNotification(Timed(Success, title, message, duration.GetOr(1500)), id);
    }

    /** showError: persistent errors have no duration, the others last 2500 ms. */
    method ShowError(title: string, message: Option<string>, persistent: Option<bool>, id: string) returns (r: string)
      modifies this
      ensures r == id
      ensures notifications == old(notifications) + [WithDefaults(ErrorInput(title, message, persistent.GetOr(false)), id)]
      ensures isLoading == old(isLoading) && loadingMessage == old(loadingMessage)
      ensures sidebarOpen == old(sidebarOpen) && theme == old(theme)
    {
      r := ShowNotification(ErrorInput(title, message, persistent.GetOr(false)), id);
    }

    method ShowWarning(title: string, message: Option<string>, duration: Option<int>, id: string) returns (r: string)
      modifies this
      ensures r == id
      ensures notifications == old(notifications) + [WithDefaults(Timed(Warning, title, message, duration.GetOr(2000)), id)]
      ensures isLoading == old(isLoading) && loadingMessage == old(loadingMessage)
      ensures sidebarOpen == old(sidebarOpen) && theme == old(theme)
    {
      r := ShowNotification(Timed(Warning, title, message, duration.GetOr(2000)), id);
    }

    method ShowInfo(title: string, message: Option<string>, duration: Option<int>, id: string) returns (r: string)
      modifies this
      ensures r == id
      ensures notifications == old(notifications) + [WithDefaults(Timed(Info, title, message, duration.GetOr(2000)), id)]
      ensures isLoading == old(isLoading) && loadingMessage == old(loadingMessage)
      ensures sidebarOpen == old(sidebarOpen) && theme == old(theme)
    {
      r := ShowNotification(Timed(Info, title, message, duration.GetOr(2000)), id);
    }

    method ToggleSidebar()
      modifies this
      ensures sidebarOpen == !old(sidebarOpen)
      ensures notifications == old(notifications) && theme == old(theme)
      ensures isLoading == old(isLoading) && loadingMessage == old(loadingMessage)
    {
      sidebarOpen := !sidebarOpen;
    }

    method SetSidebar(open: bool)
      modifies this
      ensures sidebarOpen == open
      ensures notifications == old(notifications) && theme == old(theme)
      ensures isLoading == old(isLoading) && loadingMessage == old(loadingMessage)
    {
      sidebarOpen := open;
    }

    /** setTheme: the theme is kept and saved under 'pos_theme'. */
    method SetTheme(newTheme: string)
      modifies this, storage
      ensures theme == newTheme
      ensures storage.entries == old(storage.entries)["pos_theme" := newTheme]
      ensures notifications == old(notifications) && sidebarOpen == old(sidebarOpen)
      ensures isLoading == old(isLoading) && loadingMessage == old(loadingMessage)
    {
      theme := newTheme;
      storage.SetItem("pos_theme", newTheme);
    }

    /** initializeTheme: a saved non-empty theme wins; otherwise the system preference decides. */
    method InitializeTheme(prefersDark: bool)
      modifies this
      ensures storage.GetItem("pos_theme").Some? && storage.GetItem("pos_theme").value != "" ==>
        theme == storage.GetItem("pos_theme").value
      ensures !(storage.GetItem("pos_theme").Some? && storage.GetItem("pos_theme").value != "") ==>
        theme == (if prefersDark then "dark" else "light")
      ensures notifications == old(notifications) && sidebarOpen == old(sidebarOpen)
      ensures isLoading == old(isLoading) && loadingMessage == old(loadingMessage)
    {
      var savedTheme := storage.GetItem("pos_theme");
      if savedTheme.Some? && savedTheme.value != "" {
        theme := savedTheme.value;
      } else {
        theme := if prefersDark then "dark" else "light";
      }
    }

    /** $reset: not loading, no message, no notifications, sidebar closed, light theme. */
    method Reset()
      modifies this
      ensures !isLoading && loadingMessage == "" && notifications == [] && !sidebarOpen && theme == "light"
    {
      isLoading := false;
      loadingMessage := "";
      notifications := [];
      sidebarOpen := false;
      theme := "light";
    }
  }

  /** Toggling the sidebar twice leaves it as it was. */
  method ToggleTwice(store: GlobalStore)
    modifies store
    ensures store.sidebarOpen == old(store.sidebarOpen)
  {
    store.ToggleSidebar();
    store.ToggleSidebar();
  }
}
