/** What the two host-side proxies (src/bin/sni-daemon.rs and
    src/bin/client.rs) decide in the same way: whether a Create event is
    accepted, and which app id the exported item gets. */
module ProxyCommon {
  import opened Wrappers
  import opened Ints
  import opened DBusNames

  /** A SHA-256 digest. The hash itself is a parameter of the model. */
  type Digest = s: seq<u8> | |s| == 32 witness seq(32, _ => 0)

  // ---------------------------------------------------------------------
  // Create events

  datatype CreateDecision =
    | NotIncreasing   // `panic!("Item ID not monotonically increasing")`
    | EmptyCategory   // logged and skipped; the last index stays
    | Accepted        // the last index becomes the event's id

  /** The checks a Create event passes before any state changes. */
  function DecideCreate(lastIndex: u64, id: u64, category: string): (d: CreateDecision)
    ensures d == NotIncreasing <==> id <= lastIndex
    ensures d == Accepted <==> lastIndex < id && category != ""
  {
    if id <= lastIndex then NotIncreasing
    else if category == "" then EmptyCategory
    else Accepted
  }

  /** The last index after a run of Create events, or None once one of them
      is fatal. */
  function LastIndexAfter(lastIndex: u64, creates: seq<(u64, string)>): Option<u64>
    decreases |creates|
  {
    if creates == [] then Some(lastIndex)
    else
      match DecideCreate(lastIndex, creates[0].0, creates[0].1)
      case NotIncreasing => None
      case EmptyCategory => LastIndexAfter(lastIndex, creates[1..])
      case Accepted => LastIndexAfter(creates[0].0, creates[1..])
  }

  /** The ids accepted along such a run. */
  function AcceptedIds(lastIndex: u64, creates: seq<(u64, string)>): seq<u64>
    decreases |creates|
  {
    if creates == [] then []
    else
      match DecideCreate(lastIndex, creates[0].0, creates[0].1)
      case NotIncreasing => []
      case EmptyCategory => AcceptedIds(lastIndex, creates[1..])
      case Accepted => [creates[0].0] + AcceptedIds(creates[0].0, creates[1..])
  }

  /** Accepted ids strictly increase and exceed the starting index, so no two
      exported items ever share an id. */
  lemma {:induction false} AcceptedIdsIncrease(lastIndex: u64, creates: seq<(u64, string)>)
    ensures forall i | 0 <= i < |AcceptedIds(lastIndex, creates)| :: lastIndex < AcceptedIds(lastIndex, creates)[i]
    ensures forall i, j | 0 <= i < j < |AcceptedIds(lastIndex, creates)| ::
              AcceptedIds(lastIndex, creates)[i] < AcceptedIds(lastIndex, creates)[j]
    decreases |creates|
  {
    if creates != [] {
      match DecideCreate(lastIndex, creates[0].0, creates[0].1)
      case NotIncreasing =>
      case EmptyCategory =>
        AcceptedIdsIncrease(lastIndex, creates[1..]);
      case Accepted =>
        AcceptedIdsIncrease(creates[0].0, creates[1..]);
    }
  }

  /** A run that survives ends at its last accepted id, or where it began. */
  lemma {:induction false} LastIndexIsLastAccepted(lastIndex: u64, creates: seq<(u64, string)>)
    requires LastIndexAfter(lastIndex, creates).Some?
    ensures var ids := AcceptedIds(lastIndex, creates);
      LastIndexAfter(lastIndex, creates).value == (if ids == [] then lastIndex else ids[|ids| - 1])
    decreases |creates|
  {
    if creates != [] {
      match DecideCreate(lastIndex, creates[0].0, creates[0].1)
      case NotIncreasing =>
      case EmptyCategory =>
        LastIndexIsLastAccepted(lastIndex, creates[1..]);
      case Accepted =>
        LastIndexIsLastAccepted(creates[0].0, creates[1..]);
    }
  }

  // ---------------------------------------------------------------------
  // Lower-case hexadecimal, as `{:02x}` prints a byte

  predicate IsHexChar(c: char) { ('0' <= c <= '9') || ('a' <= c <= 'f') }

  function HexDigit(n: nat): (c: char)
    requires n < 16
    ensures IsHexChar(c) && IsElementChar(c)
    ensures IsDigit(c) <==> n < 10
  {
    if n < 10 then ('0' as int + n) as char else ('a' as int + n - 10) as char
  }

  function HexDigitValue(c: char): (n: nat)
    requires IsHexChar(c)
    ensures n < 16 && HexDigit(n) == c
  {
    if c <= '9' then c as int - '0' as int else c as int - 'a' as int + 10
  }

  /** `{:02x}` of every byte, concatenated. */
  function Hex(bytes: seq<u8>): (s: string)
    ensures |s| == 2 * |bytes|
    ensures forall i | 0 <= i < |s| :: IsHexChar(s[i]) && IsElementChar(s[i])
  {
    if bytes == [] then []
    else [HexDigit(bytes[0] as nat / 16), HexDigit(bytes[0] as nat % 16)] + Hex(bytes[1..])
  }

  /** Reading the digits back, two to a byte. */
  function UnHex(s: string): seq<u8>
    requires |s| % 2 == 0 && forall i | 0 <= i < |s| :: IsHexChar(s[i])
  {
    if s == [] then []
    else [(HexDigitValue(s[0]) * 16 + HexDigitValue(s[1])) as u8] + UnHex(s[2..])
  }

  /** The printed digest reads back to the digest: no two digests print alike. */
  lemma {:induction false} UnHexHex(bytes: seq<u8>)
    ensures UnHex(Hex(bytes)) == bytes
  {
    if bytes != [] {
      var s := Hex(bytes);
      assert s[2..] == Hex(bytes[1..]);
      UnHexHex(bytes[1..]);
    }
  }

  /** The first printed digit is a decimal digit exactly when the first byte
      is below 0xA0. */
  lemma HexStartsWithDigit(bytes: seq<u8>)
    requires |bytes| > 0
    ensures IsDigit(Hex(bytes)[0]) <==> bytes[0] < 0xA0
  {
  }

  // ---------------------------------------------------------------------
  // App ids

  /** A string that can be followed by one more element to form an interface
      name: dotted elements ending in '.'. */
  predicate InterfacePrefix(p: string) {
    && |p| >= 2
    && p[|p| - 1] == '.'
    && AllElementChars(p, '.')
    && p[0] != '.'
    && (forall i | 0 <= i < |p| - 1 :: p[i] == '.' ==> p[i + 1] != '.')
    && NoDigitAtElementStart(p)
  }

  /** Appending to an interface prefix yields an interface name exactly when
      what is appended is itself dotted elements of legal characters that
      start with no digit and the whole stays within the length limit. */
  lemma AppendToPrefix(p: string, t: string)
    requires InterfacePrefix(p)
    ensures ValidInterfaceName(p + t) <==>
      |p| + |t| <= MAX_NAME_LENGTH && AllElementChars(t, '.') && NoEmptyElement(t, '.') && NoDigitAtElementStart(t)
  {
    var s := p + t;
    assert s[|p| - 1] == '.';
    if ValidInterfaceName(s) {
      assert |t| > 0;
      assert forall i | 0 <= i < |t| :: t[i] == s[|p| + i];
      assert AllElementChars(t, '.');
      assert NoEmptyElement(t, '.');
      assert NoDigitAtElementStart(t);
    }
    if |p| + |t| <= MAX_NAME_LENGTH && AllElementChars(t, '.') && NoEmptyElement(t, '.') && NoDigitAtElementStart(t) {
      assert forall i | 0 <= i < |p| :: s[i] == p[i];
      assert forall i | |p| <= i < |s| :: s[i] == t[i - |p|];
      assert AllElementChars(s, '.');
      assert NoEmptyElement(s, '.');
      assert NoDigitAtElementStart(s);
      assert HasDot(s);
    }
  }

  /** The two prefixes a proxy names exported app ids with: one for an app id
      that is a valid interface name once prefixed, one for the SHA-256 of it
      otherwise. */
  datatype Naming = Naming(plain: string, hashed: string)

  /** `org.qubes_os.vm.app_id.` and `org.qubes_os.vm.hashed_app_id.`. */
  function DaemonNaming(): Naming {
    Naming("org.qubes_os.vm.app_id.", "org.qubes_os.vm.hashed_app_id.")
  }

  /** `org.qubes-os.vm.app-id.` and `org.qubes-os.vm.hashed-app-id.`, as
      written in src/bin/client.rs. */
  function ClientNamingAsWritten(): (n: Naming)
    ensures forall t :: !ValidInterfaceName(n.plain + t)
  {
    var plain := "org.qubes-os.vm.app-id.";
    assert forall t :: (plain + t)[9] == '-';
    Naming(plain, "org.qubes-os.vm.hashed-app-id.")
  }

  /** The app id an accepted Create event exports. */
  function ExportedAppId(n: Naming, appId: string, sha256: string -> Digest): (r: string)
    ensures ValidInterfaceName(n.plain + appId) ==> r == n.plain + appId
    ensures !ValidInterfaceName(n.plain + appId) ==> r == n.hashed + Hex(sha256(n.plain + appId))
  {
    var prefixed := n.plain + appId;
    if ValidInterfaceName(prefixed) then prefixed else n.hashed + Hex(sha256(prefixed))
  }

  lemma DaemonPlainPrefix()
    ensures InterfacePrefix("org.qubes_os.vm.app_id.")
  {
    DaemonPlainChars();
    DaemonPlainDots();
    DaemonPlainStarts();
  }

  lemma DaemonPlainChars()
    ensures AllElementChars("org.qubes_os.vm.app_id.", '.')
  {
  }

  lemma DaemonPlainDots()
    ensures forall i | 0 <= i < |"org.qubes_os.vm.app_id."| - 1 :: "org.qubes_os.vm.app_id."[i] == '.' ==> "org.qubes_os.vm.app_id."[i + 1] != '.'
  {
  }

  lemma DaemonPlainStarts()
    ensures NoDigitAtElementStart("org.qubes_os.vm.app_id.")
  {
  }

  lemma DaemonHashedPrefix()
    ensures InterfacePrefix("org.qubes_os.vm.hashed_app_id.")
  {
    DaemonHashedChars();
    DaemonHashedDots();
    DaemonHashedStarts();
  }

  lemma DaemonHashedChars()
    ensures AllElementChars("org.qubes_os.vm.hashed_app_id.", '.')
  {
  }

  lemma DaemonHashedDots()
    ensures forall i | 0 <= i < |"org.qubes_os.vm.hashed_app_id."| - 1 :: "org.qubes_os.vm.hashed_app_id."[i] == '.' ==> "org.qubes_os.vm.hashed_app_id."[i + 1] != '.'
  {
  }

  lemma DaemonHashedStarts()
    ensures NoDigitAtElementStart("org.qubes_os.vm.hashed_app_id.")
  {
  }

  /** The daemon's fallback is an interface name exactly when the digest's
      first byte prints as a letter. */
  lemma DaemonHashedNameValidIff(d: Digest)
    ensures ValidInterfaceName(DaemonNaming().hashed + Hex(d)) <==> d[0] >= 0xA0
  {
    DaemonHashedPrefix();
    AppendToPrefix(DaemonNaming().hashed, Hex(d));
    HexStartsWithDigit(d);
    var t := Hex(d);
    assert forall i | 0 <= i < |t| :: t[i] != '.';
  }

  /** Whatever app id the guest sends, the daemon exports one of at most 255
      characters drawn from `[A-Za-z0-9_.]`. */
  lemma DaemonAppIdSanitized(appId: string, sha256: string -> Digest)
    ensures |ExportedAppId(DaemonNaming(), appId, sha256)| <= MAX_NAME_LENGTH
    ensures AllElementChars(ExportedAppId(DaemonNaming(), appId, sha256), '.')
  {
    var n := DaemonNaming();
    if !ValidInterfaceName(n.plain + appId) {
      var d := sha256(n.plain + appId);
      DaemonHashedPrefix();
        var r := n.hashed + Hex(d);
      assert forall i | 0 <= i < |n.hashed| :: r[i] == n.hashed[i];
      assert forall i | |n.hashed| <= i < |r| :: r[i] == Hex(d)[i - |n.hashed|];
    }
  }

  /** Every plain app id that forms a valid name behind the daemon's prefix
      is exported unchanged behind it. */
  lemma DaemonKeepsPlainIds(appId: string, sha256: string -> Digest)
    requires |appId| <= MAX_NAME_LENGTH - 23
    requires AllElementChars(appId, '.') && NoEmptyElement(appId, '.') && NoDigitAtElementStart(appId)
    ensures ExportedAppId(DaemonNaming(), appId, sha256) == DaemonNaming().plain + appId
  {
    DaemonPlainPrefix();
    AppendToPrefix(DaemonNaming().plain, appId);
  }

  /** As written, the client's plain prefix holds '-', which no interface
      name may contain, so every app id is replaced by its hash. */
  lemma ClientAlwaysHashes(appId: string, sha256: string -> Digest)
    ensures var n := ClientNamingAsWritten();
      ExportedAppId(n, appId, sha256) == n.hashed + Hex(sha256(n.plain + appId))
  {
    var s := ClientNamingAsWritten().plain + appId;
    assert s[9] == '-';
  }
}
