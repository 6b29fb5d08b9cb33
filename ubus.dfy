/** The OpenWRT (ubus) device tracker: which MACs are connected to the
    router's wireless interfaces, and which hostname dnsmasq leased to a MAC.

    Every ubus JSON-RPC call is replaced by its answer, held in a `Router`
    value: a call that raises UbusException is an absent answer. */
module Ubus {
  import opened Wrappers
  import opened Strings
  import opened Keyed

  /** One dnsmasq lease line, its five space-separated fields in file order. */
  datatype Lease = Lease(expires: string, mac: string, ip: string, hostname: string, clientId: string)

  /** One entry of an interface's association list; `mac` is its "mac" key,
      `attrs` the radio attributes (signal, rates, ...). */
  datatype Client = Client(mac: string, attrs: map<string, string>)

  /** What `Lease(*line.split(" "))` raises when the line does not have
      exactly five fields: a TypeError that no caller catches. */
  datatype LeaseError = MalformedLease(line: string)

  /** The router's answers to the ubus calls the scanner makes. */
  datatype Router = Router(
    sessionOk: bool,                   // `with self.ubus` opens a session
    devices: Option<seq<string>>,      // iwinfo.devices(); None: UbusException
    assoc: map<string, seq<Client>>,   // iwinfo.assoclist per interface; absent: UbusException
    leaseFiles: Option<seq<string>>,   // leasefile of each dnsmasq section in uci dhcp; None: UbusException
    files: map<string, string>         // file.read "data" per path; absent: UbusException
  )

  /** `Lease(*line.split(" "))`. */
  function ParseLease(line: string): Result<Lease, LeaseError> {
    var f := Split(line, ' ');
    if |f| == 5 then Ok(Lease(f[0], f[1], f[2], f[3], f[4]))
    else Err(MalformedLease(line))
  }

  /** The line dnsmasq writes for a lease. */
  function FormatLease(l: Lease): string {
    Join([l.expires, l.mac, l.ip, l.hostname, l.clientId], ' ')
  }

  predicate WellFormedLease(l: Lease) {
    ' ' !in l.expires && ' ' !in l.mac && ' ' !in l.ip && ' ' !in l.hostname && ' ' !in l.clientId
  }

  /** A line dnsmasq wrote parses back to its lease. */
  lemma ParseFormatLease(l: Lease)
    requires WellFormedLease(l)
    ensures ParseLease(FormatLease(l)) == Ok(l)
  {
    SplitJoin([l.expires, l.mac, l.ip, l.hostname, l.clientId], ' ');
  }

  /** A line with any other number of fields than five is rejected. */
  lemma ParseLeaseArity(line: string)
    ensures ParseLease(line).Ok? <==> |Split(line, ' ')| == 5
    ensures ParseLease(line).Ok? ==> FormatLease(ParseLease(line).value) == line
  {
    var f := Split(line, ' ');
    if |f| == 5 {
      JoinSplit(line, ' ');
      assert ParseLease(line) == Ok(Lease(f[0], f[1], f[2], f[3], f[4]));
      assert [f[0], f[1], f[2], f[3], f[4]] == f;
    }
  }

  /** The leases of the lines, in order, or the first malformed line. */
  function ParseLeases(lines: seq<string>): Result<seq<Lease>, LeaseError>
    decreases |lines|
  {
    if lines == [] then Ok([])
    else match ParseLeases(lines[..|lines| - 1])
      case Err(e) => Err(e)
      case Ok(ls) =>
        match ParseLease(lines[|lines| - 1])
        case Err(e) => Err(e)
        case Ok(l) => Ok(ls + [l])
  }

  /** Each lease keyed by its upper-cased MAC. */
  function MacPairs(ls: seq<Lease>): (r: seq<(string, Lease)>)
    ensures |r| == |ls|
    ensures forall i :: 0 <= i < |ls| ==> r[i] == (Upper(ls[i].mac), ls[i])
  {
    seq(|ls|, i requires 0 <= i < |ls| => (Upper(ls[i].mac), ls[i]))
  }

  /** The lease map of one dnsmasq lease file's text. */
  function LeaseMap(text: string): Result<map<string, Lease>, LeaseError> {
    match ParseLeases(SplitLines(text))
    case Err(e) => Err(e)
    case Ok(ls) => Ok(ToMap(MacPairs(ls)))
  }

  /** `_get_dnsmasq_leases`: every line becomes a lease stored under its
      upper-cased MAC, a later line replacing an earlier one. */
  method DnsmasqLeases(text: string) returns (r: Result<map<string, Lease>, LeaseError>)
    ensures r == LeaseMap(text)
  {
    var lines := SplitLines(text);
    var leases: map<string, Lease> := map[];
    ghost var parsed: seq<Lease> := [];
    var i := 0;
    while i < |lines|
      invariant 0 <= i <= |lines|
      invariant ParseLeases(lines[..i]) == Ok(parsed)
      invariant leases == ToMap(MacPairs(parsed))
    {
      var lease := ParseLease(lines[i]);
      ParseLeasesStep(lines, i, parsed);
      if lease.Err? {
        PrefixErrorIsFinal(lines, i + 1);
        return Err(lease.error);
      }
      MacPairsStep(parsed, lease.value);
      leases := leases[Upper(lease.value.mac) := lease.value];
      parsed := parsed + [lease.value];
      i := i + 1;
    }
    assert lines[..i] == lines;
    return Ok(leases);
  }

  /** Parsing one more line extends the leases or fails with that line. */
  lemma ParseLeasesStep(lines: seq<string>, i: nat, parsed: seq<Lease>)
    requires i < |lines| && ParseLeases(lines[..i]) == Ok(parsed)
    ensures ParseLease(lines[i]).Err? ==> ParseLeases(lines[..i + 1]) == Err(ParseLease(lines[i]).error)
    ensures ParseLease(lines[i]).Ok? ==> ParseLeases(lines[..i + 1]) == Ok(parsed + [ParseLease(lines[i]).value])
  {
    assert lines[..i + 1][..i] == lines[..i];
  }

  /** Adding a lease adds its pair, and the map stores it under its key. */
  lemma MacPairsStep(parsed: seq<Lease>, l: Lease)
    ensures MacPairs(parsed + [l]) == MacPairs(parsed) + [(Upper(l.mac), l)]
    ensures ToMap(MacPairs(parsed + [l])) == ToMap(MacPairs(parsed))[Upper(l.mac) := l]
  {
    assert MacPairs(parsed + [l]) == MacPairs(parsed) + [(Upper(l.mac), l)];
    ToMapSnoc(MacPairs(parsed), Upper(l.mac), l);
  }

  /** Once a prefix of the lines fails to parse, so do all the lines. */
  lemma {:induction false} PrefixErrorIsFinal(lines: seq<string>, n: nat)
    requires n <= |lines|
    requires ParseLeases(lines[..n]).Err?
    ensures ParseLeases(lines) == ParseLeases(lines[..n])
    decreases |lines| - n
  {
    if n < |lines| {
      assert lines[..n + 1][..n] == lines[..n];
      PrefixErrorIsFinal(lines, n + 1);
    } else {
      assert lines[..n] == lines;
    }
  }

  /** The keys of a lease map are exactly the upper-cased MACs of its lines,
      all of them upper-case, each holding a lease with that MAC; a MAC's
      entry is the last lease line for that MAC. */
  lemma LeaseMapKeys(text: string, ls: seq<Lease>, i: nat)
    requires ParseLeases(SplitLines(text)) == Ok(ls)
    requires i < |ls|
    requires forall j :: i < j < |ls| ==> Upper(ls[j].mac) != Upper(ls[i].mac)
    ensures LeaseMap(text).Ok?
    ensures forall k :: k in LeaseMap(text).value ==> IsUpper(k)
    ensures forall k :: k in LeaseMap(text).value <==> exists j :: 0 <= j < |ls| && Upper(ls[j].mac) == k
    ensures forall k :: k in LeaseMap(text).value ==> Upper(LeaseMap(text).value[k].mac) == k
    ensures Upper(ls[i].mac) in LeaseMap(text).value
    ensures LeaseMap(text).value[Upper(ls[i].mac)] == ls[i]
  {
    var pairs := MacPairs(ls);
    assert LeaseMap(text) == Ok(ToMap(pairs));
    ToMapLastWins(pairs, i);
    MacMapKeysUpper(ls);
    MacMapDomain(ls);
  }

  lemma MacMapDomain(ls: seq<Lease>)
    ensures forall k :: k in ToMap(MacPairs(ls)) <==> exists j :: 0 <= j < |ls| && Upper(ls[j].mac) == k
    ensures forall k :: k in ToMap(MacPairs(ls)) ==> Upper(ToMap(MacPairs(ls))[k].mac) == k
  {
    var pairs := MacPairs(ls);
    ToMapDomain(pairs);
    forall k | k in ToMap(pairs) ensures Upper(ToMap(pairs)[k].mac) == k {
      var j :| 0 <= j < |pairs| && pairs[j].0 == k && pairs[j].1 == ToMap(pairs)[k];
    }
    forall j | 0 <= j < |ls| ensures Upper(ls[j].mac) in ToMap(pairs) {
      assert pairs[j].0 == Upper(ls[j].mac);
    }
  }

  lemma MacMapKeysUpper(ls: seq<Lease>)
    ensures forall k :: k in ToMap(MacPairs(ls)) ==> IsUpper(k)
  {
    var pairs := MacPairs(ls);
    ToMapDomain(pairs);
    forall k | k in ToMap(pairs) ensures IsUpper(k) {
      var j :| 0 <= j < |pairs| && pairs[j].0 == k && pairs[j].1 == ToMap(pairs)[k];
      UpperIsUpper(ls[j].mac);
    }
  }

  /** `_get_lease_files`, with the lease-file override: the configured file
      alone, or the files the dnsmasq UCI config names. */
  function LeaseFiles(router: Router, leaseFile: Option<string>): Option<seq<string>> {
    match leaseFile
    case Some(f) => Some([f])
    case None => router.leaseFiles
  }

  /** Merging the lease maps of `files` into `acc` in order, a later file
      winning. A file that cannot be read stops the merge with what has been
      merged so far (UbusException is caught); a malformed line raises. */
  function MergeLeaseFiles(acc: map<string, Lease>, files: seq<string>, contents: map<string, string>)
    : Result<map<string, Lease>, LeaseError>
    decreases |files|
  {
    if files == [] then Ok(acc)
    else if files[0] !in contents then Ok(acc)
    else match LeaseMap(contents[files[0]])
      case Err(e) => Err(e)
      case Ok(m) => MergeLeaseFiles(acc + m, files[1..], contents)
  }

  /** `_get_leases` (the odhcpd branch aside). */
  function Leases(router: Router, leaseFile: Option<string>): Result<map<string, Lease>, LeaseError> {
    if !router.sessionOk then Ok(map[])
    else match LeaseFiles(router, leaseFile)
      case None => Ok(map[])
      case Some(files) => MergeLeaseFiles(map[], files, router.files)
  }

  /** With a configured lease file only that file is read: the result depends
      on nothing else the router holds. */
  lemma ConfiguredLeaseFileOnly(r1: Router, r2: Router, f: string)
    requires r1.sessionOk == r2.sessionOk
    requires (f in r1.files) == (f in r2.files)
    requires f in r1.files ==> r1.files[f] == r2.files[f]
    ensures Leases(r1, Some(f)) == Leases(r2, Some(f))
  {
    assert [f][1..] == [];
    if f in r1.files {
      match LeaseMap(r1.files[f])
      case Err(_) =>
      case Ok(m) =>
        assert MergeLeaseFiles(map[] + m, [], r1.files) == Ok(map[] + m);
        assert MergeLeaseFiles(map[] + m, [], r2.files) == Ok(map[] + m);
    }
  }

  /** File f can be read, parses, and has a lease for mac. */
  predicate MentionsMac(contents: map<string, string>, f: string, mac: string) {
    f in contents && LeaseMap(contents[f]).Ok? && mac in LeaseMap(contents[f]).value
  }

  /** A MAC that no later readable, well-formed file mentions keeps the
      value it has in the accumulated map. */
  lemma {:induction false} MergeKeeps(acc: map<string, Lease>, files: seq<string>, contents: map<string, string>,
                                      mac: string)
    requires mac in acc
    requires forall k :: 0 <= k < |files| ==> !MentionsMac(contents, files[k], mac)
    ensures MergeLeaseFiles(acc, files, contents).Ok? ==>
      mac in MergeLeaseFiles(acc, files, contents).value && MergeLeaseFiles(acc, files, contents).value[mac] == acc[mac]
    decreases |files|
  {
    if files != [] && files[0] in contents && LeaseMap(contents[files[0]]).Ok? {
      var m := LeaseMap(contents[files[0]]).value;
      assert !MentionsMac(contents, files[0], mac);
      forall k | 0 <= k < |files[1..]| ensures files[1..][k] == files[k + 1] { }
      MergeKeeps(acc + m, files[1..], contents, mac);
    }
  }

  /** The lease of a MAC comes from the last file, among those merged, that
      mentions it. */
  lemma {:induction false} MergeLastWins(acc: map<string, Lease>, files: seq<string>, contents: map<string, string>,
                                         j: nat, mac: string)
    requires j < |files| && forall k :: 0 <= k <= j ==> files[k] in contents
    requires LeaseMap(contents[files[j]]).Ok? && mac in LeaseMap(contents[files[j]]).value
    requires forall k :: j < k < |files| ==> !MentionsMac(contents, files[k], mac)
    ensures MergeLeaseFiles(acc, files, contents).Ok? ==>
      mac in MergeLeaseFiles(acc, files, contents).value
      && MergeLeaseFiles(acc, files, contents).value[mac] == LeaseMap(contents[files[j]]).value[mac]
    decreases |files|
  {
    if LeaseMap(contents[files[0]]).Ok? {
      var m := LeaseMap(contents[files[0]]).value;
      var rest := files[1..];
      forall k | 0 <= k < |rest| ensures rest[k] == files[k + 1] { }
      if j == 0 {
        MergeKeeps(acc + m, rest, contents, mac);
      } else {
        MergeLastWins(acc + m, rest, contents, j - 1, mac);
      }
    }
  }

  /** The lease files the UCI config lists are merged in order: a MAC's lease
      is the one in the last file that mentions it, provided the files up to
      that one could be read. */
  lemma LaterFileWins(router: Router, j: nat, mac: string)
    requires router.sessionOk && router.leaseFiles.Some?
    requires j < |router.leaseFiles.value|
    requires forall k :: 0 <= k <= j ==> router.leaseFiles.value[k] in router.files
    requires LeaseMap(router.files[router.leaseFiles.value[j]]).Ok?
    requires mac in LeaseMap(router.files[router.leaseFiles.value[j]]).value
    requires forall k :: j < k < |router.leaseFiles.value| ==>
      !MentionsMac(router.files, router.leaseFiles.value[k], mac)
    ensures Leases(router, None).Ok? ==>
      mac in Leases(router, None).value
      && Leases(router, None).value[mac] == LeaseMap(router.files[router.leaseFiles.value[j]]).value[mac]
  {
    MergeLastWins(map[], router.leaseFiles.value, router.files, j, mac);
  }

  /** `_get_network_interfaces`: an exception leaves the list empty. */
  function NetworkInterfaces(router: Router): seq<string> {
    if router.sessionOk && router.devices.Some? then router.devices.value else []
  }

  /** `{x["mac"]: x for x in clients}`. */
  function ClientMap(cs: seq<Client>): (m: map<string, Client>)
    ensures m.Keys == set i | 0 <= i < |cs| :: cs[i].mac
  {
    var pairs := seq(|cs|, i requires 0 <= i < |cs| => (cs[i].mac, cs[i]));
    ToMapDomain(pairs);
    assert forall i :: 0 <= i < |cs| ==> pairs[i].0 == cs[i].mac;
    ToMap(pairs)
  }

  /** Number of leading interfaces whose association list can be read. */
  function ReadablePrefix(ifaces: seq<string>, assoc: map<string, seq<Client>>): (n: nat)
    ensures n <= |ifaces|
    ensures forall j :: 0 <= j < n ==> ifaces[j] in assoc
    ensures n < |ifaces| ==> ifaces[n] !in assoc
    decreases |ifaces|
  {
    if ifaces == [] || ifaces[0] !in assoc then 0
    else 1 + ReadablePrefix(ifaces[1..], assoc)
  }

  /** The client maps of the interfaces merged in order, a later interface
      winning. */
  function MergeClients(ifaces: seq<string>, assoc: map<string, seq<Client>>): map<string, Client>
    requires forall j :: 0 <= j < |ifaces| ==> ifaces[j] in assoc
    decreases |ifaces|
  {
    if ifaces == [] then map[]
    else MergeClients(ifaces[..|ifaces| - 1], assoc) + ClientMap(assoc[ifaces[|ifaces| - 1]])
  }

  /** `_get_connected_devices` over the interfaces read at start-up. */
  function ConnectedDevices(router: Router, ifaces: seq<string>): map<string, Client> {
    if !router.sessionOk then map[]
    else MergeClients(ifaces[..ReadablePrefix(ifaces, router.assoc)], router.assoc)
  }

  /** The merged client map holds exactly the MACs some interface reported. */
  lemma {:induction false} MergeClientsKeys(ifaces: seq<string>, assoc: map<string, seq<Client>>, mac: string)
    requires forall j :: 0 <= j < |ifaces| ==> ifaces[j] in assoc
    ensures mac in MergeClients(ifaces, assoc) <==>
      exists j :: 0 <= j < |ifaces| && mac in ClientMap(assoc[ifaces[j]])
    decreases |ifaces|
  {
    if ifaces != [] {
      var init := ifaces[..|ifaces| - 1];
      MergeClientsKeys(init, assoc, mac);
      assert forall j :: 0 <= j < |init| ==> init[j] == ifaces[j];
    }
  }

  /** A MAC's record comes from the last interface that reports it. */
  lemma {:induction false} LaterInterfaceWins(ifaces: seq<string>, assoc: map<string, seq<Client>>, j: nat, mac: string)
    requires forall k :: 0 <= k < |ifaces| ==> ifaces[k] in assoc
    requires j < |ifaces| && mac in ClientMap(assoc[ifaces[j]])
    requires forall k :: j < k < |ifaces| ==> mac !in ClientMap(assoc[ifaces[k]])
    ensures mac in MergeClients(ifaces, assoc)
    ensures MergeClients(ifaces, assoc)[mac] == ClientMap(assoc[ifaces[j]])[mac]
    decreases |ifaces|
  {
    var n := |ifaces| - 1;
    if j < n {
      var init := ifaces[..n];
      forall k | 0 <= k < n ensures init[k] == ifaces[k] { }
      LaterInterfaceWins(init, assoc, j, mac);
      assert mac !in ClientMap(assoc[ifaces[n]]);
    }
  }

  /** When the interface list could not be read, no client is ever found. */
  lemma NoInterfacesNoClients(router: Router)
    requires router.devices.None?
    ensures ConnectedDevices(router, NetworkInterfaces(router)) == map[]
  {
  }

  class UbusDeviceScanner {
    const leaseFile: Option<string>
    const wlanIfaces: seq<string>
    const successInit: bool

    /** Reads the interfaces once; `validSession` is `is_valid_session()`. */
    constructor(leaseFile: Option<string>, router: Router, validSession: bool)
      ensures this.leaseFile == leaseFile
      ensures wlanIfaces == NetworkInterfaces(router)
      ensures successInit == validSession
    {
      this.leaseFile := leaseFile;
      wlanIfaces := NetworkInterfaces(router);
      successInit := validSession;
    }

    /** `_get_connected_devices`: `clients.update` per interface; an
        exception keeps the clients gathered before it. */
    method GetConnectedDevices(router: Router) returns (clients: map<string, Client>)
      ensures clients == ConnectedDevices(router, wlanIfaces)
    {
      clients := map[];
      if !router.sessionOk {
        return;
      }
      var i := 0;
      while i < |wlanIfaces|
        invariant 0 <= i <= |wlanIfaces|
        invariant forall j :: 0 <= j < i ==> wlanIfaces[j] in router.assoc
        invariant clients == MergeClients(wlanIfaces[..i], router.assoc)
      {
        if wlanIfaces[i] !in router.assoc {
          break;
        }
        assert wlanIfaces[..i + 1][..i] == wlanIfaces[..i];
        clients := clients + ClientMap(router.assoc[wlanIfaces[i]]);
        i := i + 1;
      }
      assert i == ReadablePrefix(wlanIfaces, router.assoc);
    }

    /** `_get_leases`: `leases.update` per lease file. */
    method GetLeases(router: Router) returns (r: Result<map<string, Lease>, LeaseError>)
      ensures r == Leases(router, leaseFile)
    {
      var leases: map<string, Lease> := map[];
      if !router.sessionOk {
        return Ok(leases);
      }
      var files := LeaseFiles(router, leaseFile);
      if files.None? {
        return Ok(leases);
      }
      var fs := files.value;
      var i := 0;
      while i < |fs|
        invariant 0 <= i <= |fs|
        invariant MergeLeaseFiles(leases, fs[i..], router.files) == Leases(router, leaseFile)
      {
        if fs[i] !in router.files {
          return Ok(leases);
        }
        var m := DnsmasqLeases(router.files[fs[i]]);
        if m.Err? {
          return Err(m.error);
        }
        assert fs[i..][1..] == fs[i + 1..];
        leases := leases + m.value;
        i := i + 1;
      }
      return Ok(leases);
    }

    /** `scan_devices`: the MACs of the connected clients. */
    method ScanDevices(router: Router) returns (macs: set<string>)
      ensures macs == ConnectedDevices(router, wlanIfaces).Keys
    {
      var clients := GetConnectedDevices(router);
      macs := clients.Keys;
    }

    /** `get_device_name`: the leased hostname of `mac`, looked up as given. */
    method GetDeviceName(router: Router, mac: string) returns (r: Result<Option<string>, LeaseError>)
      ensures Leases(router, leaseFile).Err? ==> r == Err(Leases(router, leaseFile).error)
      ensures Leases(router, leaseFile).Ok? ==>
        (r.Ok? && r.value == DeviceName(Leases(router, leaseFile).value, mac))
    {
      var leases := GetLeases(router);
      if leases.Err? {
        return Err(leases.error);
      }
      if mac in leases.value {
        return Ok(Some(leases.value[mac].hostname));
      }
      return Ok(None);
    }
  }

  /** The hostname leased to `mac`, when `mac` is a key of the lease map. */
  function DeviceName(leases: map<string, Lease>, mac: string): (r: Option<string>)
    ensures r.Some? <==> mac in leases
    ensures r.Some? ==> r.value == leases[mac].hostname
  {
    if mac in leases then Some(leases[mac].hostname) else None
  }

  /** A MAC given with a lower-case letter is never found, because the keys
      are upper-cased and the lookup is not. */
  lemma LowerCaseMacUnknown(text: string, mac: string)
    requires LeaseMap(text).Ok?
    requires !IsUpper(mac)
    ensures DeviceName(LeaseMap(text).value, mac) == None
  {
    var ls := ParseLeases(SplitLines(text)).value;
    var pairs := MacPairs(ls);
    if mac in ToMap(pairs) {
      ToMapDomain(pairs);
      var j :| 0 <= j < |pairs| && pairs[j].0 == mac && pairs[j].1 == ToMap(pairs)[mac];
      UpperIsUpper(ls[j].mac);
    }
  }
}
