/**
 * The dashboard component (src/components/Dashboard.jsx): the notification
 * list with its welcome entry, read marks and unread indicator, the
 * category/subcategory filter, and the header's panel toggles.
 */
module Dashboard {
  import opened Js
  import Session

  /** A notification as the server sends it: an object record (`id`, `message`, `read`, `createdAt`, ...). */
  type Notification = map<string, Value>

  const WelcomePrefix: string := "Welcome to our VOC platform, "

  /** The welcome text: the profile's `name` interpolated into the fixed greeting. */
  function WelcomeMessage(profile: Value): (m: string)
    requires !Nullish(profile)
    ensures |m| > |WelcomePrefix| && m[..|WelcomePrefix|] == WelcomePrefix && m[|m| - 1] == '!'
    ensures m[|WelcomePrefix|..|m| - 1] == ToJsString(Member(profile, "name"))
    ensures Member(profile, "name").Str? ==> m[|WelcomePrefix|..|m| - 1] == Member(profile, "name").s
  {
    WelcomePrefix + ToJsString(Member(profile, "name")) + "!"
  }

  /**
   * The transform applied to the fetched notifications: only the element at
   * index 0 changes, and only when profile data is truthy; it then gets the
   * welcome message and `isWelcome: true` on top of its own fields.
   */
  function WithWelcome(ns: seq<Notification>, profile: Value): (r: seq<Notification>)
    ensures |r| == |ns|
    ensures forall i :: 1 <= i < |ns| ==> r[i] == ns[i]
    ensures !Truthy(profile) ==> r == ns
    ensures |ns| > 0 && Truthy(profile) ==>
              && r[0].Keys == ns[0].Keys + {"message", "isWelcome"}
              && r[0]["message"] == Str(WelcomeMessage(profile))
              && r[0]["isWelcome"] == Bool(true)
              && forall k :: k in ns[0] && k != "message" && k != "isWelcome" ==> r[0][k] == ns[0][k]
  {
    if |ns| == 0 || !Truthy(profile) then ns
    else [ns[0]["message" := Str(WelcomeMessage(profile))]["isWelcome" := Bool(true)]] + ns[1..]
  }

  /** `notif.id === notificationId ? {...notif, read: true} : notif` */
  function MarkOne(n: Notification, id: Value): Notification {
    if Field(n, "id") == id then n["read" := Bool(true)] else n
  }

  /** The list after a successful mark-as-read: every element with that id is read, all others are as they were. */
  function MarkRead(ns: seq<Notification>, id: Value): (r: seq<Notification>)
    ensures |r| == |ns|
    ensures forall i :: 0 <= i < |ns| && Field(ns[i], "id") == id ==> r[i] == ns[i]["read" := Bool(true)]
    ensures forall i :: 0 <= i < |ns| && Field(ns[i], "id") != id ==> r[i] == ns[i]
    decreases |ns|
  {
    if ns == [] then [] else [MarkOne(ns[0], id)] + MarkRead(ns[1..], id)
  }

  predicate Unread(n: Notification) {
    !Truthy(Field(n, "read"))
  }

  /** `notifications.some(n => !n.read)`: whether the unread dot is shown. */
  function HasUnread(ns: seq<Notification>): (r: bool)
    ensures r <==> exists i :: 0 <= i < |ns| && Unread(ns[i])
    decreases |ns|
  {
    if ns == [] then false else Unread(ns[0]) || HasUnread(ns[1..])
  }

  lemma {:induction false} MarkReadIdempotent(ns: seq<Notification>, id: Value)
    ensures MarkRead(MarkRead(ns, id), id) == MarkRead(ns, id)
  {
    var once := MarkRead(ns, id);
    var twice := MarkRead(once, id);
    forall i | 0 <= i < |ns|
      ensures twice[i] == once[i]
    {
      if Field(ns[i], "id") == id {
        assert once[i]["read" := Bool(true)] == once[i];
      }
    }
  }

  /** After a successful mark-as-read the dot stays only for unread notifications with another id. */
  lemma {:induction false} UnreadAfterMarkRead(ns: seq<Notification>, id: Value)
    ensures HasUnread(MarkRead(ns, id)) <==> exists i :: 0 <= i < |ns| && Unread(ns[i]) && Field(ns[i], "id") != id
  {
    var r := MarkRead(ns, id);
    if HasUnread(r) {
      var i :| 0 <= i < |r| && Unread(r[i]);
      assert Field(ns[i], "id") != id;
    }
  }

  const Subcategories: map<string, seq<string>> := map[
    "product" := ["Quality", "Features", "Pricing"],
    "service" := ["Support", "Delivery", "Installation"],
    "experience" := ["Website", "Mobile App", "Store"]
  ]

  /** `toLowerCase` on one character (the labels are ASCII). */
  function LowerChar(c: char): char {
    if 'A' <= c <= 'Z' then (c as int + 32) as char else c
  }

  predicate IsLowerCase(s: string) {
    forall i :: 0 <= i < |s| ==> !('A' <= s[i] <= 'Z')
  }

  function Lower(s: string): (r: string)
    ensures |r| == |s|
    ensures forall i :: 0 <= i < |s| ==> r[i] == LowerChar(s[i])
    ensures IsLowerCase(r)
    decreases |s|
  {
    if s == [] then [] else [LowerChar(s[0])] + Lower(s[1..])
  }

  datatype SelectOption = SelectOption(value: string, text: string)

  /** The subcategory select as rendered; reading the options of an unknown category throws during rendering. */
  datatype SubcategoryMenu = Menu(disabled: bool, options: seq<SelectOption>) | RenderError

  const Placeholder: SelectOption := SelectOption("", "Subcategory")

  /**
   * The subcategory select: disabled with only the placeholder while no
   * category is chosen; otherwise the placeholder followed by the
   * category's subcategories, each valued by its lower-cased text.
   */
  function SubcategorySelect(category: string): (m: SubcategoryMenu)
    ensures m.RenderError? <==> category != "" && category !in Subcategories
    ensures m.Menu? ==> (m.disabled <==> category == "") && |m.options| >= 1 && m.options[0] == Placeholder
    ensures m.Menu? && category == "" ==> m.options == [Placeholder]
    ensures m.Menu? && category != "" ==>
              var subs := Subcategories[category];
              && |m.options| == |subs| + 1
              && forall i :: 0 <= i < |subs| ==> m.options[i + 1] == SelectOption(Lower(subs[i]), subs[i])
    ensures m.Menu? ==> forall i :: 0 <= i < |m.options| ==> IsLowerCase(m.options[i].value)
  {
    if category == "" then Menu(true, [Placeholder])
    else if category !in Subcategories then RenderError
    else
      var subs := Subcategories[category];
      Menu(false, [Placeholder] + seq(|subs|, i requires 0 <= i < |subs| => SelectOption(Lower(subs[i]), subs[i])))
  }

  /** What `Promise.all` of the profile and notification requests produces. */
  datatype UserData = Loaded(profile: Value, notifications: seq<Notification>) | Rejected(reason: Value)

  /** The component's state. */
  datatype DashboardState = DashboardState(
    category: string,
    subcategory: string,
    showNotifications: bool,
    showProfile: bool,
    notifications: seq<Notification>,
    userProfile: Value,
    loading: bool,
    error: Value,
    isSidebarOpen: bool,
    navigatedTo: Option<string>)

  /** At most one of the two header panels is open. */
  predicate PanelsExclusive(s: DashboardState) {
    !(s.showNotifications && s.showProfile)
  }

  class DashboardPage {
    var category: string
    var subcategory: string
    var showNotifications: bool
    var showProfile: bool
    var notifications: seq<Notification>
    var userProfile: Value
    var loading: bool
    var error: Value
    var isSidebarOpen: bool
    var navigatedTo: Option<string>

    function State(): DashboardState
      reads this
    {
      DashboardState(category, subcategory, showNotifications, showProfile, notifications,
                     userProfile, loading, error, isSidebarOpen, navigatedTo)
    }

    constructor ()
      ensures State() == DashboardState("", "", false, false, [], Null, true, Null, false, None)
    {
      category, subcategory := "", "";
      showNotifications, showProfile := false, false;
      notifications := [];
      userProfile := Null;
      loading := true;
      error := Null;
      isSidebarOpen := false;
      navigatedTo := None;
    }

    /** `fetchUserData`: store the profile and the transformed list, or the rejection's message; loading ends either way. */
    method FetchUserData(data: UserData)
      modifies this
      ensures data.Loaded? ==>
                State() == old(State()).(userProfile := data.profile,
                                         notifications := WithWelcome(data.notifications, data.profile),
                                         loading := false)
      ensures data.Rejected? ==>
                State() == old(State()).(error := if Nullish(data.reason) then old(error) else Member(data.reason, "message"),
                                         loading := false)
    {
      loading := true;
      match data {
        case Loaded(profile, ns) =>
          userProfile := profile;
          notifications := WithWelcome(ns, profile);
        case Rejected(reason) =>
          // `setError(err.message)`; on a null or undefined reason the read itself throws
          match Read(reason, "message") {
            case Return(message) => error := message;
            case Throw(_) =>
          }
      }
      loading := false;
    }

    /** `handleMarkNotificationAsRead`: the list changes only when the request succeeded. */
    method MarkNotificationAsRead(id: Value, call: Completion)
      modifies this
      ensures call.Return? ==> State() == old(State()).(notifications := MarkRead(old(notifications), id))
      ensures call.Throw? ==> State() == old(State())
    {
      if call.Return? {
        notifications := MarkRead(notifications, id);
      }
    }

    /** Clicking the i-th notification: only a notification that is not the welcome entry sends a mark-as-read request. */
    method ClickNotification(i: nat, call: Completion) returns (requested: bool)
      requires i < |notifications|
      modifies this
      ensures requested <==> !Truthy(Field(old(notifications)[i], "isWelcome"))
      ensures !requested ==> State() == old(State())
      ensures requested && call.Return? ==>
                State() == old(State()).(notifications := MarkRead(old(notifications), Field(old(notifications)[i], "id")))
      ensures requested && call.Throw? ==> State() == old(State())
    {
      var n := notifications[i];
      requested := !Truthy(Field(n, "isWelcome"));
      if requested {
        MarkNotificationAsRead(Field(n, "id"), call);
      }
    }

    /** `handleCategoryChange`: the subcategory is always reset. */
    method CategoryChange(newCategory: string)
      modifies this
      ensures State() == old(State()).(category := newCategory, subcategory := "")
    {
      category := newCategory;
      subcategory := "";
    }

    method SubcategoryChange(value: string)
      modifies this
      ensures State() == old(State()).(subcategory := value)
    {
      subcategory := value;
    }

    method ToggleNotifications()
      modifies this
      ensures State() == old(State()).(showNotifications := !old(showNotifications), showProfile := false)
      ensures PanelsExclusive(State())
    {
      showNotifications := !showNotifications;
      showProfile := false;
    }

    method ToggleProfile()
      modifies this
      ensures State() == old(State()).(showProfile := !old(showProfile), showNotifications := false)
      ensures PanelsExclusive(State())
    {
      showProfile := !showProfile;
      showNotifications := false;
    }

    method ToggleSidebar()
      modifies this
      ensures State() == old(State()).(isSidebarOpen := !old(isSidebarOpen))
    {
      isSidebarOpen := !isSidebarOpen;
    }

    /** `handleLogout`: the provider's logout, then navigation to '/login'. */
    method HandleLogout(auth: Session.AuthProvider)
      modifies this, auth, auth.store
      ensures auth.State() == Session.AfterLogout(old(auth.State()))
      ensures State() == old(State()).(navigatedTo := Some("/login"))
    {
      auth.Logout();
      navigatedTo := Some("/login");
    }
  }
}
