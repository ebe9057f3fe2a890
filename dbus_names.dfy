/** The D-Bus name grammars (D-Bus Specification, "Message Protocol: Valid
    Names" and "Marshaling: Valid Object Paths") and the name constants of
    `src/names.rs`, each of which is built without run-time validation. Every
    grammar is written as conditions on characters and on neighbouring
    characters; for instance, "two or more non-empty elements separated by
    '.'" is: no leading, trailing or doubled '.', and at least one '.'. */
module DBusNames {

  const MAX_NAME_LENGTH: nat := 255

  predicate IsDigit(c: char) { '0' <= c <= '9' }
  predicate IsAsciiLetter(c: char) { ('A' <= c <= 'Z') || ('a' <= c <= 'z') }

  /** `[A-Za-z0-9_]`, the characters of an interface, member or path element. */
  predicate IsElementChar(c: char) { IsAsciiLetter(c) || IsDigit(c) || c == '_' }

  /** `[A-Za-z0-9_-]`, the characters of a bus-name element. */
  predicate IsBusElementChar(c: char) { IsElementChar(c) || c == '-' }

  predicate AllElementChars(s: string, dot: char) {
    forall i | 0 <= i < |s| :: IsElementChar(s[i]) || s[i] == dot
  }

  predicate AllBusChars(s: string) {
    forall i | 0 <= i < |s| :: IsBusElementChar(s[i]) || s[i] == '.'
  }

  /** Elements separated by `sep` are never empty: no leading, trailing or
      doubled separator. */
  predicate NoEmptyElement(s: string, sep: char) {
    && |s| > 0
    && s[0] != sep
    && s[|s| - 1] != sep
    && forall i | 0 <= i < |s| - 1 :: s[i] == sep ==> s[i + 1] != sep
  }

  /** No element begins with a digit. */
  predicate NoDigitAtElementStart(s: string) {
    && (|s| > 0 ==> !IsDigit(s[0]))
    && forall i | 0 <= i < |s| - 1 :: s[i] == '.' ==> !IsDigit(s[i + 1])
  }

  /** At least two elements. */
  predicate HasDot(s: string) {
    exists i | 0 <= i < |s| :: s[i] == '.'
  }

  // Names assembled from elements: the grammars above hold of a name
  // built by joining valid elements, so each constant is checked element
  // by element.

  /** One element of an interface or bus name. */
  predicate NameElement(e: string) {
    && |e| > 0
    && (forall i | 0 <= i < |e| :: IsElementChar(e[i]))
    && !IsDigit(e[0])
  }

  /** The element conditions shared by interface and bus names. */
  predicate DottedName(s: string) {
    AllElementChars(s, '.') && NoEmptyElement(s, '.') && NoDigitAtElementStart(s)
  }

  lemma SingleElement(e: string)
    requires NameElement(e)
    ensures DottedName(e)
  {
  }

  /** Two dotted names joined by a dot make a dotted name of two or more
      elements. */
  lemma DotJoin(a: string, b: string)
    requires DottedName(a) && DottedName(b)
    ensures DottedName(a + "." + b) && HasDot(a + "." + b)
  {
    var s := a + "." + b;
    assert s[|a|] == '.';
    assert forall i | 0 <= i < |a| :: s[i] == a[i];
    assert forall i | |a| < i < |s| :: s[i] == b[i - |a| - 1];
  }

  /** A short dotted name of two or more elements is both an interface name
      and a well-known bus name, and holds no NUL. */
  lemma DottedNameValid(s: string)
    requires DottedName(s) && HasDot(s) && |s| <= MAX_NAME_LENGTH
    ensures ValidInterfaceName(s) && ValidWellKnownBusName(s)
    ensures forall i | 0 <= i < |s| :: s[i] != '\0'
  {
    assert AllBusChars(s);
  }

  /** One element of an object path. */
  predicate PathElement(e: string) {
    |e| > 0 && forall i | 0 <= i < |e| :: IsElementChar(e[i])
  }

  /** A slash and an element in front of nothing, or of a path other than
      "/", make an object path. */
  lemma SlashJoin(e: string, p: string)
    requires PathElement(e) && (p == [] || (ValidObjectPath(p) && |p| > 1))
    ensures ValidObjectPath("/" + e + p) && |"/" + e + p| > 1
    ensures forall i | 0 <= i < |"/" + e + p| :: ("/" + e + p)[i] != '\0'
  {
    var s := "/" + e + p;
    assert forall i | 1 <= i <= |e| :: s[i] == e[i - 1];
    assert forall i | |e| < i < |s| :: s[i] == p[i - |e| - 1];
    if p != [] {
      assert s[|e| + 1] == '/';
      assert s[|s| - 1] == p[|p| - 1] == p[1..][|p| - 2];
      assert forall i | |e| + 1 <= i < |s| - 1 :: s[i] == '/' ==> s[i + 1] != '/' by {
        forall i | |e| + 1 <= i < |s| - 1 && s[i] == '/' ensures s[i + 1] != '/' {
          if i == |e| + 1 {
            assert s[i + 1] == p[1..][0];
          } else {
            assert s[i] == p[1..][i - |e| - 2];
            assert s[i + 1] == p[1..][i - |e| - 1];
          }
        }
      }
    }
    assert NoEmptyElement(s[1..], '/');
  }

  /** An interface name (and, with the same rules, an error name). */
  predicate ValidInterfaceName(s: string) {
    && |s| <= MAX_NAME_LENGTH
    && AllElementChars(s, '.')
    && NoEmptyElement(s, '.')
    && NoDigitAtElementStart(s)
    && HasDot(s)
  }

  /** A member (method or signal) name: a single element. */
  predicate ValidMemberName(s: string) {
    && 0 < |s| <= MAX_NAME_LENGTH
    && (forall i | 0 <= i < |s| :: IsElementChar(s[i]))
    && !IsDigit(s[0])
  }

  /** A well-known bus name: like an interface name, but '-' is allowed too. */
  predicate ValidWellKnownBusName(s: string) {
    && |s| <= MAX_NAME_LENGTH
    && AllBusChars(s)
    && NoEmptyElement(s, '.')
    && NoDigitAtElementStart(s)
    && HasDot(s)
  }

  /** A unique connection name: ':' followed by two or more elements, which may
      begin with a digit. */
  predicate ValidUniqueBusName(s: string) {
    && 1 < |s| <= MAX_NAME_LENGTH
    && s[0] == ':'
    && AllBusChars(s[1..])
    && NoEmptyElement(s[1..], '.')
    && HasDot(s[1..])
  }

  predicate ValidBusName(s: string) {
    ValidWellKnownBusName(s) || ValidUniqueBusName(s)
  }

  /** An object path: '/' alone, or '/'-separated non-empty elements of
      `[A-Za-z0-9_]`, beginning with '/' and not ending with '/'. */
  predicate ValidObjectPath(s: string) {
    && |s| > 0
    && s[0] == '/'
    && AllElementChars(s, '/')
    && (|s| == 1 || NoEmptyElement(s[1..], '/'))
  }

  /** The form `from_slice_unchecked` relies on: exactly one NUL, at the end. */
  predicate NulTerminated(s: string) {
    && |s| > 0
    && s[|s| - 1] == '\0'
    && forall i | 0 <= i < |s| - 1 :: s[i] != '\0'
  }

  /** The name without its terminating NUL, as `Display` shows it. */
  function StripNul(s: string): (r: string)
    requires NulTerminated(s)
    ensures r + "\0" == s
    ensures '\0' !in r
  {
    s[..|s| - 1]
  }

  /** Appending the terminating NUL to a name with no NUL in it gives the
      form `from_slice_unchecked` expects, and stripping it gives the name back. */
  lemma {:induction false} WithNul(s: string)
    requires forall i | 0 <= i < |s| :: s[i] != '\0'
    ensures NulTerminated(s + "\0") && StripNul(s + "\0") == s
  {
    assert (s + "\0")[..|s|] == s;
  }

  // The names of src/names.rs, each proved to be what the SAFETY comment in
  // front of its `from_slice_unchecked` claims.

  lemma CanonicalDbusmenuSpelled()
    ensures "canonical" + "." + "dbusmenu" == "canonical.dbusmenu"
  {
  }

  lemma CanonicalDbusmenuDotted()
    ensures DottedName("canonical.dbusmenu") && HasDot("canonical.dbusmenu")
  {
    SingleElement("dbusmenu");
    SingleElement("canonical");
    DotJoin("canonical", "dbusmenu");
    CanonicalDbusmenuSpelled();
  }

  lemma DbusmenuSpelled()
    ensures "com" + "." + "canonical.dbusmenu" == "com.canonical.dbusmenu"
  {
  }

  lemma DbusmenuDotted()
    ensures DottedName("com.canonical.dbusmenu") && HasDot("com.canonical.dbusmenu")
  {
    CanonicalDbusmenuDotted();
    SingleElement("com");
    DotJoin("com", "canonical.dbusmenu");
    DbusmenuSpelled();
  }

  lemma DbusmenuInterfaceValid()
    ensures ValidInterfaceName("com.canonical.dbusmenu")
    ensures forall i | 0 <= i < |"com.canonical.dbusmenu"| :: "com.canonical.dbusmenu"[i] != '\0'
  {
    DbusmenuDotted();
    DottedNameValid("com.canonical.dbusmenu");
  }



  function InterfaceComCanonicalDbusmenu(): (r: string)
    ensures NulTerminated(r) && ValidInterfaceName(StripNul(r))
  {
    DbusmenuInterfaceValid(); WithNul("com.canonical.dbusmenu");
    "com.canonical.dbusmenu" + "\0"
  }

  lemma NameOwnerChangedValid()
    ensures ValidMemberName("NameOwnerChanged")
    ensures forall i | 0 <= i < |"NameOwnerChanged"| :: "NameOwnerChanged"[i] != '\0'
  {
  }

  function NameOwnerChanged(): (r: string)
    ensures NulTerminated(r) && ValidMemberName(StripNul(r))
  {
    NameOwnerChangedValid(); WithNul("NameOwnerChanged");
    "NameOwnerChanged" + "\0"
  }

  lemma GetLayoutValid()
    ensures ValidMemberName("GetLayout")
    ensures forall i | 0 <= i < |"GetLayout"| :: "GetLayout"[i] != '\0'
  {
  }

  function GetLayout(): (r: string)
    ensures NulTerminated(r) && ValidMemberName(StripNul(r))
  {
    GetLayoutValid(); WithNul("GetLayout");
    "GetLayout" + "\0"
  }

  lemma FreedesktopDBusSpelled()
    ensures "freedesktop" + "." + "DBus" == "freedesktop.DBus"
  {
  }

  lemma FreedesktopDBusDotted()
    ensures DottedName("freedesktop.DBus") && HasDot("freedesktop.DBus")
  {
    SingleElement("DBus");
    SingleElement("freedesktop");
    DotJoin("freedesktop", "DBus");
    FreedesktopDBusSpelled();
  }

  lemma DBusSpelled()
    ensures "org" + "." + "freedesktop.DBus" == "org.freedesktop.DBus"
  {
  }

  lemma DBusDotted()
    ensures DottedName("org.freedesktop.DBus") && HasDot("org.freedesktop.DBus")
  {
    FreedesktopDBusDotted();
    SingleElement("org");
    DotJoin("org", "freedesktop.DBus");
    DBusSpelled();
  }


  lemma DBusInterfaceValid()
    ensures ValidInterfaceName("org.freedesktop.DBus")
    ensures forall i | 0 <= i < |"org.freedesktop.DBus"| :: "org.freedesktop.DBus"[i] != '\0'
  {
    DBusDotted();
    DottedNameValid("org.freedesktop.DBus");
  }


  function InterfaceDBus(): (r: string)
    ensures NulTerminated(r) && ValidInterfaceName(StripNul(r))
  {
    DBusInterfaceValid(); WithNul("org.freedesktop.DBus");
    "org.freedesktop.DBus" + "\0"
  }

  lemma DBusPathSpelled()
    ensures "/" + "DBus" + [] == "/DBus"
  {
  }

  lemma FreedesktopPathSpelled()
    ensures "/" + "freedesktop" + "/DBus" == "/freedesktop/DBus"
  {
  }

  lemma OrgPathSpelled()
    ensures "/" + "org" + "/freedesktop/DBus" == "/org/freedesktop/DBus"
  {
  }

  lemma WatcherPathSpelled()
    ensures "/" + "StatusNotifierWatcher" + [] == "/StatusNotifierWatcher"
  {
  }

  lemma ItemPathSpelled()
    ensures "/" + "StatusNotifierItem" + [] == "/StatusNotifierItem"
  {
  }

  lemma DBusSuffixPath()
    ensures ValidObjectPath("/DBus") && |"/DBus"| > 1
  {
    SlashJoin("DBus", []);
    DBusPathSpelled();
  }

  lemma FreedesktopDBusPath()
    ensures ValidObjectPath("/freedesktop/DBus") && |"/freedesktop/DBus"| > 1
  {
    DBusSuffixPath();
    SlashJoin("freedesktop", "/DBus");
    FreedesktopPathSpelled();
  }

  lemma DBusPathValid()
    ensures ValidObjectPath("/org/freedesktop/DBus")
    ensures forall i | 0 <= i < |"/org/freedesktop/DBus"| :: "/org/freedesktop/DBus"[i] != '\0'
  {
    FreedesktopDBusPath();
    SlashJoin("org", "/freedesktop/DBus");
    OrgPathSpelled();
  }



  function PathDBus(): (r: string)
    ensures NulTerminated(r) && ValidObjectPath(StripNul(r))
  {
    DBusPathValid(); WithNul("/org/freedesktop/DBus");
    "/org/freedesktop/DBus" + "\0"
  }

  lemma DBusNameValid()
    ensures ValidBusName("org.freedesktop.DBus")
    ensures forall i | 0 <= i < |"org.freedesktop.DBus"| :: "org.freedesktop.DBus"[i] != '\0'
  {
    DBusDotted();
    DottedNameValid("org.freedesktop.DBus");
  }


  function NameDBus(): (r: string)
    ensures NulTerminated(r) && ValidBusName(StripNul(r))
  {
    DBusNameValid(); WithNul("org.freedesktop.DBus");
    "org.freedesktop.DBus" + "\0"
  }

  lemma KdeWatcherSpelled()
    ensures "kde" + "." + "StatusNotifierWatcher" == "kde.StatusNotifierWatcher"
  {
  }

  lemma KdeWatcherDotted()
    ensures DottedName("kde.StatusNotifierWatcher") && HasDot("kde.StatusNotifierWatcher")
  {
    SingleElement("StatusNotifierWatcher");
    SingleElement("kde");
    DotJoin("kde", "StatusNotifierWatcher");
    KdeWatcherSpelled();
  }

  lemma WatcherSpelled()
    ensures "org" + "." + "kde.StatusNotifierWatcher" == "org.kde.StatusNotifierWatcher"
  {
  }

  lemma WatcherDotted()
    ensures DottedName("org.kde.StatusNotifierWatcher") && HasDot("org.kde.StatusNotifierWatcher")
  {
    KdeWatcherDotted();
    SingleElement("org");
    DotJoin("org", "kde.StatusNotifierWatcher");
    WatcherSpelled();
  }


  lemma WatcherNameValid()
    ensures ValidBusName("org.kde.StatusNotifierWatcher")
    ensures forall i | 0 <= i < |"org.kde.StatusNotifierWatcher"| :: "org.kde.StatusNotifierWatcher"[i] != '\0'
  {
    WatcherDotted();
    DottedNameValid("org.kde.StatusNotifierWatcher");
  }


  function NameStatusNotifierWatcher(): (r: string)
    ensures NulTerminated(r) && ValidBusName(StripNul(r))
  {
    WatcherNameValid(); WithNul("org.kde.StatusNotifierWatcher");
    "org.kde.StatusNotifierWatcher" + "\0"
  }

  lemma WatcherInterfaceValid()
    ensures ValidInterfaceName("org.kde.StatusNotifierWatcher")
    ensures forall i | 0 <= i < |"org.kde.StatusNotifierWatcher"| :: "org.kde.StatusNotifierWatcher"[i] != '\0'
  {
    WatcherDotted();
    DottedNameValid("org.kde.StatusNotifierWatcher");
  }


  function InterfaceStatusNotifierWatcher(): (r: string)
    ensures NulTerminated(r) && ValidInterfaceName(StripNul(r))
  {
    WatcherInterfaceValid(); WithNul("org.kde.StatusNotifierWatcher");
    "org.kde.StatusNotifierWatcher" + "\0"
  }

  lemma LayoutUpdatedValid()
    ensures ValidMemberName("LayoutUpdated")
    ensures forall i | 0 <= i < |"LayoutUpdated"| :: "LayoutUpdated"[i] != '\0'
  {
  }

  /** The member name `layout_updated` builds its match rule with. */
  function LayoutUpdated(): (r: string)
    ensures NulTerminated(r) && ValidMemberName(StripNul(r))
  {
    LayoutUpdatedValid(); WithNul("LayoutUpdated");
    "LayoutUpdated" + "\0"
  }

  lemma WatcherPathValid()
    ensures ValidObjectPath("/StatusNotifierWatcher")
    ensures forall i | 0 <= i < |"/StatusNotifierWatcher"| :: "/StatusNotifierWatcher"[i] != '\0'
  {
    SlashJoin("StatusNotifierWatcher", []);
    WatcherPathSpelled();
  }


  function PathStatusNotifierWatcher(): (r: string)
    ensures NulTerminated(r) && ValidObjectPath(StripNul(r))
  {
    WatcherPathValid(); WithNul("/StatusNotifierWatcher");
    "/StatusNotifierWatcher" + "\0"
  }

  lemma RegisterItemValid()
    ensures ValidMemberName("RegisterStatusNotifierItem")
    ensures forall i | 0 <= i < |"RegisterStatusNotifierItem"| :: "RegisterStatusNotifierItem"[i] != '\0'
  {
  }

  function RegisterStatusNotifierItem(): (r: string)
    ensures NulTerminated(r) && ValidMemberName(StripNul(r))
  {
    RegisterItemValid(); WithNul("RegisterStatusNotifierItem");
    "RegisterStatusNotifierItem" + "\0"
  }

  lemma ItemPathValid()
    ensures ValidObjectPath("/StatusNotifierItem")
    ensures forall i | 0 <= i < |"/StatusNotifierItem"| :: "/StatusNotifierItem"[i] != '\0'
  {
    SlashJoin("StatusNotifierItem", []);
    ItemPathSpelled();
  }


  function PathStatusNotifierItem(): (r: string)
    ensures NulTerminated(r) && ValidObjectPath(StripNul(r))
  {
    ItemPathValid(); WithNul("/StatusNotifierItem");
    "/StatusNotifierItem" + "\0"
  }

  lemma DBusErrorSpelled()
    ensures "org.freedesktop.DBus" + "." + "Error" == "org.freedesktop.DBus.Error"
  {
  }

  lemma DBusErrorDotted()
    ensures DottedName("org.freedesktop.DBus.Error")
  {
    DBusDotted();
    SingleElement("Error");
    DotJoin("org.freedesktop.DBus", "Error");
    DBusErrorSpelled();
  }

  lemma ServiceUnknownSpelled()
    ensures "org.freedesktop.DBus.Error" + "." + "ServiceUnknown" == "org.freedesktop.DBus.Error.ServiceUnknown"
  {
  }

  lemma ServiceUnknownDotted()
    ensures DottedName("org.freedesktop.DBus.Error.ServiceUnknown") && HasDot("org.freedesktop.DBus.Error.ServiceUnknown")
  {
    DBusErrorDotted();
    SingleElement("ServiceUnknown");
    DotJoin("org.freedesktop.DBus.Error", "ServiceUnknown");
    ServiceUnknownSpelled();
  }

  lemma ServiceUnknownValid()
    ensures ValidInterfaceName("org.freedesktop.DBus.Error.ServiceUnknown")
    ensures forall i | 0 <= i < |"org.freedesktop.DBus.Error.ServiceUnknown"| :: "org.freedesktop.DBus.Error.ServiceUnknown"[i] != '\0'
  {
    ServiceUnknownDotted();
    DottedNameValid("org.freedesktop.DBus.Error.ServiceUnknown");
  }



  /** The error name `call_with_icon` reports for a missing icon
      (src/bin/client/item.rs), also built without validation. */
  function ErrorServiceUnknown(): (r: string)
    ensures NulTerminated(r) && ValidInterfaceName(StripNul(r))
  {
    ServiceUnknownValid(); WithNul("org.freedesktop.DBus.Error.ServiceUnknown");
    "org.freedesktop.DBus.Error.ServiceUnknown" + "\0"
  }

  /** A signal match rule, as `dbus::message::MatchRule` holds one. */
  datatype MatchRule = SignalRule(interface: string, member: string, sender: string, path: string)

  /** `layout_updated(b, p)`: LayoutUpdated signals of the dbusmenu interface
      sent by `b` from the object at `p`. */
  function LayoutUpdatedRule(b: string, p: string): (r: MatchRule)
    requires ValidBusName(b) && ValidObjectPath(p)
    ensures ValidInterfaceName(r.interface) && ValidMemberName(r.member)
    ensures r.sender == b && r.path == p
  {
    SignalRule(StripNul(InterfaceComCanonicalDbusmenu()), StripNul(LayoutUpdated()), b, p)
  }

  /** The NameOwnerChanged rule both agents subscribe with. */
  function NameOwnerChangedRule(): (r: MatchRule)
    ensures ValidInterfaceName(r.interface) && ValidMemberName(r.member)
    ensures ValidBusName(r.sender) && ValidObjectPath(r.path)
  {
    SignalRule(StripNul(InterfaceDBus()), StripNul(NameOwnerChanged()),
               StripNul(NameDBus()), StripNul(PathDBus()))
  }

  /** The start-up self-test of both daemons: "bogus" (a single element) is
      not an interface name, so validation is switched on. */
  lemma BogusIsNotAnInterfaceName()
    ensures !ValidInterfaceName("bogus")
  {
    var s := "bogus";
    assert forall i | 0 <= i < |s| :: s[i] != '.';
  }

  /** The path of `path_status_notifier_item` is the one an item string with
      no '/' defaults to. */
  lemma DefaultItemPath()
    ensures StripNul(PathStatusNotifierItem()) == "/StatusNotifierItem"
  {
    ItemPathValid(); WithNul("/StatusNotifierItem");
  }
}
