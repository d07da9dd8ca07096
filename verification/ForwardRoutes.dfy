/** Vsock ports for forwarded unix sockets, computed separately by the host and the guest
    (pkg/define/unix_forward.go), and their registration with libkrun (pkg/libkrun/vsock.go). */
module ForwardRoutes {
  import opened Wrappers

  const BASE_PORT: nat := 25900
  const IGNITION_PORT: nat := 25882
  const MAX_UINT32: nat := 0xFFFF_FFFF
  const CAPACITY: nat := MAX_UINT32 - BASE_PORT + 1

  /** The numbers, written out; there are as many ports as uint32 values from the base on. */
  lemma PortNumbers()
    ensures BASE_PORT == 25900 && IGNITION_PORT == 25882 && CAPACITY == 0x1_0000_0000 - 25900
  {
  }

  datatype Route = Route(guest: string, host: string, port: nat)

  datatype BuildResult = Built(routes: seq<Route>) | Overflow(index: nat) | DuplicatePort(port: nat, guest: string)

  // --- The order of Go strings -----------------------------------------------

  /** Lexicographic order of code points, which is the byte order of valid UTF-8. */
  predicate Less(a: string, b: string) {
    if b == "" then false
    else a == "" || a[0] < b[0] || (a[0] == b[0] && Less(a[1..], b[1..]))
  }

  /** The first difference decides, by code point; a proper prefix comes first. */
  lemma {:induction false} LessAt(p: string, c: char, d: char, x: string, y: string)
    requires c < d
    ensures Less(p + [c] + x, p + [d] + y) && Less(p, p + [c] + x)
  {
    if p != "" {
      assert (p + [c] + x)[1..] == p[1..] + [c] + x && (p + [d] + y)[1..] == p[1..] + [d] + y;
      LessAt(p[1..], c, d, x, y);
    }
  }

  lemma {:induction false} LessTransitive(a: string, b: string, c: string)
    requires Less(a, b) && Less(b, c)
    ensures Less(a, c)
  {
    if a != "" && a[0] == b[0] == c[0] {
      LessTransitive(a[1..], b[1..], c[1..]);
    }
  }

  lemma {:induction false} LessTrichotomy(a: string, b: string)
    ensures Less(a, b) || Less(b, a) || a == b
    ensures !(Less(a, b) && Less(b, a)) && (a == b ==> !Less(a, b))
  {
    if a != "" && b != "" && a[0] == b[0] {
      LessTrichotomy(a[1..], b[1..]);
      if a[1..] == b[1..] {
        assert a == [a[0]] + a[1..] == b;
      }
    }
  }

  ghost predicate Ascending(ks: seq<string>) {
    forall i, j :: 0 <= i < j < |ks| ==> !Less(ks[j], ks[i])
  }

  ghost predicate StrictlyAscending(ks: seq<string>) {
    forall i, j :: 0 <= i < j < |ks| ==> Less(ks[i], ks[j])
  }

  lemma InsertedInOrder(sorted: seq<string>, key: string, j: nat, a: nat, b: nat)
    requires Ascending(sorted) && j <= |sorted|
    requires j > 0 ==> !Less(key, sorted[j - 1])
    requires forall k :: j <= k < |sorted| ==> Less(key, sorted[k])
    requires a < b <= |sorted|
    ensures var r := sorted[..j] + [key] + sorted[j..]; !Less(r[b], r[a])
  {
    var r := sorted[..j] + [key] + sorted[j..];
    if b == j {
      // r[a] precedes the new key
      var last := sorted[j - 1];
      LessTrichotomy(key, last);
      LessTrichotomy(r[a], last);
      if Less(key, r[a]) && Less(r[a], last) {
        LessTransitive(key, r[a], last);
      }
    } else if a == j {
      LessTrichotomy(key, r[b]);
    }
  }

  method Insert(sorted: seq<string>, key: string) returns (r: seq<string>)
    requires Ascending(sorted)
    ensures multiset(r) == multiset(sorted) + multiset{key} && Ascending(r)
  {
    var j := |sorted|;
    while j > 0 && Less(key, sorted[j - 1])
      invariant 0 <= j <= |sorted|
      invariant forall k :: j <= k < |sorted| ==> Less(key, sorted[k])
    {
      j := j - 1;
    }
    r := sorted[..j] + [key] + sorted[j..];
    assert sorted == sorted[..j] + sorted[j..];
    forall a, b | 0 <= a < b < |r| ensures !Less(r[b], r[a]) {
      InsertedInOrder(sorted, key, j, a, b);
    }
  }

  /** sort.Strings */
  method SortStrings(keys: seq<string>) returns (sorted: seq<string>)
    ensures multiset(sorted) == multiset(keys) && Ascending(sorted)
  {
    sorted := [];
    var i := 0;
    while i < |keys|
      invariant 0 <= i <= |keys|
      invariant multiset(sorted) == multiset(keys[..i]) && Ascending(sorted)
    {
      assert keys[..i + 1] == keys[..i] + [keys[i]];
      sorted := Insert(sorted, keys[i]);
      i := i + 1;
    }
    assert keys[..i] == keys;
  }

  lemma {:induction false} OnceEach(keys: seq<string>, k: string)
    requires Distinct(keys)
    ensures multiset(keys)[k] <= 1
  {
    if keys != [] {
      assert keys == [keys[0]] + keys[1..];
      assert multiset(keys) == multiset{keys[0]} + multiset(keys[1..]);
      OnceEach(keys[1..], k);
      if k == keys[0] {
        assert k !in keys[1..];
        assert k !in multiset(keys[1..]);
      }
    }
  }

  lemma SortedDistinct(keys: seq<string>, sorted: seq<string>)
    requires Distinct(keys) && multiset(keys) == multiset(sorted) && Ascending(sorted)
    ensures StrictlyAscending(sorted) && |sorted| == |keys|
    ensures forall k :: k in sorted <==> k in keys
  {
    assert |multiset(keys)| == |keys| && |multiset(sorted)| == |sorted|;
    forall k ensures k in sorted <==> k in keys {
      assert k in multiset(keys) <==> k in multiset(sorted);
    }
    forall i, j | 0 <= i < j < |sorted| ensures Less(sorted[i], sorted[j]) {
      LessTrichotomy(sorted[i], sorted[j]);
      OnceEach(keys, sorted[i]);
      assert sorted == sorted[..j] + [sorted[j]] + sorted[j + 1..];
      assert sorted[i] in multiset(sorted[..j]) by { assert sorted[..j][i] == sorted[i]; }
    }
  }

  // --- Building the routes ----------------------------------------------------

  /** One order in which Go may iterate over the map. */
  ghost predicate IterationOrder(forwards: map<string, string>, order: seq<string>) {
    |order| == |forwards| && Distinct(order) && forall k :: k in order <==> k in forwards
  }

  ghost predicate IsRoutes(forwards: map<string, string>, routes: seq<Route>) {
    && |routes| == |forwards|
    && (forall i :: 0 <= i < |routes| ==>
          && routes[i].guest in forwards
          && routes[i].host == forwards[routes[i].guest]
          && routes[i].port == BASE_PORT + i
          && routes[i].port <= MAX_UINT32)
    && (forall i, j :: 0 <= i < j < |routes| ==> Less(routes[i].guest, routes[j].guest))
    && (forall k :: k in forwards ==> exists i :: 0 <= i < |routes| && routes[i].guest == k)
  }

  /** The routes of the first |routes| of the keys. */
  ghost predicate RoutesOf(forwards: map<string, string>, keys: seq<string>, routes: seq<Route>) {
    && |routes| <= |keys|
    && forall k :: 0 <= k < |routes| ==>
         keys[k] in forwards && routes[k] == Route(keys[k], forwards[keys[k]], BASE_PORT + k) && BASE_PORT + k <= MAX_UINT32
  }

  lemma AllRoutesBuilt(forwards: map<string, string>, keys: seq<string>, routes: seq<Route>)
    requires RoutesOf(forwards, keys, routes) && |routes| == |keys| == |forwards|
    requires StrictlyAscending(keys) && forall k :: k in keys <==> k in forwards
    ensures IsRoutes(forwards, routes)
  {
    forall k | k in forwards ensures exists j :: 0 <= j < |routes| && routes[j].guest == k {
      assert k in keys;
      var j :| 0 <= j < |keys| && keys[j] == k;
      assert routes[j].guest == k;
    }
  }

  method BuildUnixSocketForwardRoutes(forwards: map<string, string>, order: seq<string>) returns (r: BuildResult)
    requires IterationOrder(forwards, order)
    ensures r.Built? <==> |forwards| <= CAPACITY
    ensures r.Built? ==> IsRoutes(forwards, r.routes)
    ensures !r.Built? ==> r == Overflow(CAPACITY)
  {
    if |forwards| == 0 {
      return Built([]);
    }
    var keys := SortStrings(order);
    SortedDistinct(order, keys);
    var routes: seq<Route>, used: set<nat> := [], {};
    r := Built([]);
    var i := 0;
    while i < |keys| && r.Built?
      invariant 0 <= i <= |keys| && |routes| == (if r.Built? then i else CAPACITY)
      invariant r == Built([]) || (r == Overflow(CAPACITY) && |keys| > CAPACITY)
      invariant r.Built? ==> i <= CAPACITY
      invariant forall p :: p in used ==> p < BASE_PORT + |routes|
      invariant |routes| <= |keys|
      invariant RoutesOf(forwards, keys, routes)
      decreases |keys| - i
    {
      var port := BASE_PORT + i;
      var duplicate := DuplicatePort(port, keys[i]);
      if port > MAX_UINT32 {
        r := Overflow(i);
      } else if port in used {
        r := duplicate;
      } else {
        used := used + {port};
        routes := routes + [Route(keys[i], forwards[keys[i]], port)];
      }
      i := i + 1;
    }
    if r.Built? {
      r := Built(routes);
      AllRoutesBuilt(forwards, keys, routes);
    }
  }

  lemma SameHead(a: seq<string>, b: seq<string>)
    requires StrictlyAscending(a) && StrictlyAscending(b)
    requires a != [] && b != [] && a[0] in b && b[0] in a
    ensures a[0] == b[0]
  {
    LessTrichotomy(a[0], b[0]);
    var i :| 0 <= i < |b| && b[i] == a[0];
    var j :| 0 <= j < |a| && a[j] == b[0];
  }

  lemma TailMembers(a: seq<string>, k: string)
    requires StrictlyAscending(a) && a != []
    ensures k in a[1..] <==> k in a && k != a[0]
  {
    LessTrichotomy(a[0], a[0]);
    if k in a && k != a[0] {
      var i :| 0 <= i < |a| && a[i] == k;
      assert a[1..][i - 1] == k;
    }
    if k in a[1..] {
      var i :| 0 <= i < |a| - 1 && a[1..][i] == k;
      assert a[i + 1] == k;
    }
  }

  lemma {:induction false} SortedUnique(a: seq<string>, b: seq<string>)
    requires StrictlyAscending(a) && StrictlyAscending(b)
    requires forall k :: k in a <==> k in b
    ensures a == b
  {
    assert |a| == 0 || a[0] in b;
    assert |b| == 0 || b[0] in a;
    if a != [] {
      SameHead(a, b);
      forall k ensures k in a[1..] <==> k in b[1..] {
        TailMembers(a, k);
        TailMembers(b, k);
      }
      SortedUnique(a[1..], b[1..]);
      assert a == [a[0]] + a[1..] && b == [b[0]] + b[1..];
    }
  }

  ghost function Guests(routes: seq<Route>): (gs: seq<string>)
    ensures |gs| == |routes| && forall i :: 0 <= i < |gs| ==> gs[i] == routes[i].guest
  {
    seq(|routes|, i requires 0 <= i < |routes| => routes[i].guest)
  }

  lemma GuestsAreKeys(forwards: map<string, string>, routes: seq<Route>)
    requires IsRoutes(forwards, routes)
    ensures StrictlyAscending(Guests(routes))
    ensures forall k :: k in Guests(routes) <==> k in forwards
  {
    forall k | k in forwards ensures k in Guests(routes) {
      var i :| 0 <= i < |routes| && routes[i].guest == k;
      assert Guests(routes)[i] == k;
    }
  }

  lemma SameGuestsSameRoutes(forwards: map<string, string>, r: seq<Route>, s: seq<Route>)
    requires IsRoutes(forwards, r) && IsRoutes(forwards, s) && Guests(r) == Guests(s)
    ensures r == s
  {
    forall i | 0 <= i < |r| ensures r[i] == s[i] {
      assert Guests(r)[i] == Guests(s)[i];
    }
  }

  /** Whatever order each side iterates its map in, both build the same routes. */
  lemma HostAndGuestAgree(forwards: map<string, string>, r: seq<Route>, s: seq<Route>)
    requires IsRoutes(forwards, r) && IsRoutes(forwards, s)
    ensures r == s
  {
    GuestsAreKeys(forwards, r);
    GuestsAreKeys(forwards, s);
    SortedUnique(Guests(r), Guests(s));
    SameGuestsSameRoutes(forwards, r, s);
  }

  // --- Host registration and guest dialling ------------------------------------

  /** `ports` sends the ignition port to the ignition socket and each route's port to its host path,
      and maps nothing else. */
  ghost predicate Registered(ports: map<nat, string>, routes: seq<Route>, ignition: string) {
    && IGNITION_PORT in ports && ports[IGNITION_PORT] == ignition
    && (forall i :: 0 <= i < |routes| ==> routes[i].port in ports && ports[routes[i].port] == routes[i].host)
    && (forall p :: p in ports ==> p == IGNITION_PORT || exists i :: 0 <= i < |routes| && routes[i].port == p)
  }

  /** krun_add_vsock_port2: `refused` are the ports for which libkrun answers with an error code. */
  method AddVSockPort(ports: map<nat, string>, port: nat, path: string, refused: set<nat>) returns (ok: bool, added: map<nat, string>)
    requires port !in ports
    ensures ok <==> port !in refused
    ensures added == if ok then ports[port := path] else ports
  {
    ok := port !in refused;
    added := if ok then ports[port := path] else ports;
  }

  ghost predicate PortsUsable(routes: seq<Route>) {
    && (forall i :: 0 <= i < |routes| ==> routes[i].port != IGNITION_PORT)
    && (forall i, j :: 0 <= i < j < |routes| ==> routes[i].port != routes[j].port)
  }

  lemma RegisterOne(ports: map<nat, string>, done: seq<Route>, route: Route, ignition: string)
    requires Registered(ports, done, ignition) && PortsUsable(done + [route])
    ensures route.port !in ports
    ensures Registered(ports[route.port := route.host], done + [route], ignition)
  {
    var now, all := ports[route.port := route.host], done + [route];
    assert all[|done|] == route && forall i :: 0 <= i < |done| ==> all[i] == done[i] && all[i].port != route.port;
    forall p | p in now && p != IGNITION_PORT ensures exists i :: 0 <= i < |all| && all[i].port == p {
      if p == route.port {
        assert all[|done|].port == p;
      } else {
        var i :| 0 <= i < |done| && done[i].port == p;
        assert all[i].port == p;
      }
    }
  }

  /** Libkrun refuses none of the routes' ports. */
  ghost predicate NoneRefused(routes: seq<Route>, refused: set<nat>) {
    forall i :: 0 <= i < |routes| ==> routes[i].port !in refused
  }

  /** The loop over the routes; every port it asks libkrun for is new, and it fails exactly if one is refused. */
  method RegisterRoutes(routes: seq<Route>, start: map<nat, string>, ghost ignition: string, refused: set<nat>)
    returns (ok: bool, ports: map<nat, string>)
    requires PortsUsable(routes) && Registered(start, [], ignition)
    ensures ok <==> NoneRefused(routes, refused)
    ensures ok ==> Registered(ports, routes, ignition)
  {
    ports := start;
    var i := 0;
    while i < |routes|
      invariant 0 <= i <= |routes|
      invariant Registered(ports, routes[..i], ignition)
      invariant forall k :: 0 <= k < i ==> routes[k].port !in refused
    {
      assert routes[..i + 1] == routes[..i] + [routes[i]];
      RegisterOne(ports, routes[..i], routes[i], ignition);
      ok, ports := AddVSockPort(ports, routes[i].port, routes[i].host, refused);
      if !ok {
        return;
      }
      i := i + 1;
    }
    assert routes[..i] == routes;
    ok := true;
  }

  /** None of the first `count` ports that routes get is refused. */
  ghost predicate PortsFree(refused: set<nat>, count: nat) {
    forall p :: p in refused ==> !(BASE_PORT <= p < BASE_PORT + count)
  }

  lemma RouteFacts(forwards: map<string, string>, routes: seq<Route>, refused: set<nat>)
    requires IsRoutes(forwards, routes)
    ensures PortsUsable(routes) && (NoneRefused(routes, refused) <==> PortsFree(refused, |forwards|))
  {
    if p :| p in refused && BASE_PORT <= p < BASE_PORT + |forwards| {
      assert routes[p - BASE_PORT].port == p;
    }
  }

  /** Registration fails exactly if libkrun refuses the ignition port or one of the routes' own ports, or there are
      more forwards than ports. */
  method SetupVSock(forwards: map<string, string>, order: seq<string>, ignition: string, refused: set<nat>)
    returns (ok: bool, ports: map<nat, string>, routes: seq<Route>)
    requires IterationOrder(forwards, order)
    ensures ok <==> IGNITION_PORT !in refused && |forwards| <= CAPACITY && PortsFree(refused, |forwards|)
    ensures ok ==> IsRoutes(forwards, routes) && Registered(ports, routes, ignition)
  {
    routes := [];
    ok, ports := AddVSockPort(map[], IGNITION_PORT, ignition, refused);
    if !ok {
      return;
    }
    assert Registered(ports, [], ignition);
    var r := BuildUnixSocketForwardRoutes(forwards, order);
    if !r.Built? {
      ok := false;
      return;
    }
    routes := r.routes;
    RouteFacts(forwards, routes, refused);
    ok, ports := RegisterRoutes(routes, ports, ignition, refused);
  }

  /** Dialling the route's port reaches the host socket configured for its guest path, not the ignition server. */
  ghost predicate ReachesHost(forwards: map<string, string>, ports: map<nat, string>, route: Route) {
    && route.guest in forwards && route.port in ports
    && ports[route.port] == forwards[route.guest] && route.port != IGNITION_PORT
  }

  lemma RegisteredReaches(forwards: map<string, string>, routes: seq<Route>, ports: map<nat, string>,
                          ignition: string, i: nat)
    requires IsRoutes(forwards, routes) && Registered(ports, routes, ignition) && i < |routes|
    ensures ReachesHost(forwards, ports, routes[i])
  {
    var route := routes[i];
    assert route.port in ports && ports[route.port] == route.host;
  }

  /** A guest that built its own routes from the same map listens on exactly the configured guest paths, and
      dialling a path's port reaches the host socket configured for it, never the ignition server's port. */
  lemma DialReachesHost(forwards: map<string, string>, hostRoutes: seq<Route>, guestRoutes: seq<Route>,
                        ports: map<nat, string>, ignition: string)
    requires IsRoutes(forwards, hostRoutes) && IsRoutes(forwards, guestRoutes)
    requires Registered(ports, hostRoutes, ignition)
    ensures forall k :: k in forwards <==> k in Guests(guestRoutes)
    ensures forall i :: 0 <= i < |guestRoutes| ==> ReachesHost(forwards, ports, guestRoutes[i])
  {
    HostAndGuestAgree(forwards, hostRoutes, guestRoutes);
    GuestsAreKeys(forwards, guestRoutes);
    forall i | 0 <= i < |guestRoutes| ensures ReachesHost(forwards, ports, guestRoutes[i]) {
      RegisteredReaches(forwards, hostRoutes, ports, ignition, i);
    }
  }
}
