/**
  The subscribers' connection index: who is connected under which user, how a device is found and
  limited, and what a closed connection leaves behind.  Client objects are identities with the host
  information they hold; a client's identity is not used again after it is closed.
*/
module Subscribers {
  import opened Sequences
  import opened Wrappers

  type ClientId = nat

  datatype Device = Device(id: string, connections: nat)

  datatype User = User(uid: string, login: string, password: string, banned: bool, devices: seq<Device>)

  /** `wellFormed` is the verdict of the protocol library's own check. */
  datatype Auth = Auth(login: string, password: string, device: string, wellFormed: bool)

  datatype HostInfo = HostInfo(uid: string, auth: Auth) {
    predicate Valid() {
      uid != "" && auth.wellFormed
    }

    predicate Is(uid: string, device: string) {
      this.uid == uid && auth.device == device
    }
  }

  /** What a client object holds before it is activated. */
  const NO_HOST := HostInfo("", Auth("", "", "", false))

  datatype Reason = Invalid | UserNotFound | WrongPassword | BannedUser | DeviceNotFound | LimitReached

  /** `Aborted` is the failed check on an empty user id, which ends the process. */
  datatype Outcome = Rejected(reason: Reason) | NotSent | Aborted | Activated(host: HostInfo)

  function FirstDevice(devices: seq<Device>, id: string): Option<Device> {
    if devices == [] then None
    else if devices[0].id == id then Some(devices[0])
    else FirstDevice(devices[1..], id)
  }

  /** The answer to an activation when `count` connections of the same user and device exist. */
  function Decide(users: map<string, User>, auth: Auth, sent: bool, count: (string, string) -> nat): Outcome {
    if !auth.wellFormed then Rejected(Invalid)
    else if auth.login !in users then Rejected(UserNotFound)
    else
      var user := users[auth.login];
      if auth.password != user.password then Rejected(WrongPassword)
      else if user.banned then Rejected(BannedUser)
      else if auth.device == "" then Rejected(Invalid)
      else
        var device := FirstDevice(user.devices, auth.device);
        if device.None? then Rejected(DeviceNotFound)
        else if count(user.uid, auth.device) >= device.value.connections then Rejected(LimitReached)
        else if !sent then NotSent
        else if user.uid == "" then Aborted
        else Activated(HostInfo(user.uid, auth))
  }

  // ----------------------------------------------------------------- the index

  datatype State = State(connections: map<string, seq<ClientId>>, hosts: map<ClientId, HostInfo>)

  const NOBODY_CONNECTED := State(map[], map[])

  function HostOf(hosts: map<ClientId, HostInfo>, client: ClientId): HostInfo {
    if client in hosts then hosts[client] else NO_HOST
  }

  function RemoveFirst(clients: seq<ClientId>, client: ClientId): seq<ClientId> {
    if clients == [] then []
    else if clients[0] == client then clients[1..]
    else [clients[0]] + RemoveFirst(clients[1..], client)
  }

  function Register(s: State, client: ClientId, host: HostInfo): State {
    var before := if host.uid in s.connections then s.connections[host.uid] else [];
    State(s.connections[host.uid := before + [client]], s.hosts[client := host])
  }

  function Unregister(s: State, client: ClientId): State {
    var host := HostOf(s.hosts, client);
    if !host.Valid() || host.uid !in s.connections then s
    else
      var rest := RemoveFirst(s.connections[host.uid], client);
      s.(connections := if rest == [] then s.connections - {host.uid} else s.connections[host.uid := rest])
  }

  function Select(clients: seq<ClientId>, hosts: map<ClientId, HostInfo>, uid: string, device: string): seq<ClientId> {
    if clients == [] then []
    else
      var last := clients[|clients| - 1];
      Select(clients[..|clients| - 1], hosts, uid, device)
      + (if HostOf(hosts, last).Is(uid, device) then [last] else [])
  }

  function Find(s: State, uid: string, device: string): seq<ClientId> {
    if uid in s.connections then Select(s.connections[uid], s.hosts, uid, device) else []
  }

  /** Each activation comes with the user table of that moment, and whether the answer could be sent. */
  datatype Event =
    | Activate(client: ClientId, users: map<string, User>, auth: Auth, sent: bool)
    | Close(client: ClientId)

  function Answer(s: State, e: Event): Outcome
    requires e.Activate?
  {
    Decide(e.users, e.auth, e.sent, (uid, device) => |Find(s, uid, device)|)
  }

  function Next(s: State, e: Event): State {
    match e
    case Activate(client, _, _, _) =>
      var answer := Answer(s, e);
      if answer.Activated? then Register(s, client, answer.host) else s
    case Close(client) =>
      var t := Unregister(s, client);
      t.(hosts := t.hosts - {client})
  }

  function Run(events: seq<Event>): State {
    if events == [] then NOBODY_CONNECTED else Next(Run(events[..|events| - 1]), events[|events| - 1])
  }

  // ----------------------------------------------------------------- the reference: a list of live sessions

  datatype Session = Session(client: ClientId, host: HostInfo)

  function Clients(live: seq<Session>, uid: string): seq<ClientId> {
    if live == [] then []
    else
      var last := live[|live| - 1];
      Clients(live[..|live| - 1], uid) + (if last.host.uid == uid then [last.client] else [])
  }

  /** All live clients of a user and a device, in order of activation. */
  function Matching(live: seq<Session>, uid: string, device: string): seq<ClientId> {
    if live == [] then []
    else
      var last := live[|live| - 1];
      Matching(live[..|live| - 1], uid, device) + (if last.host.Is(uid, device) then [last.client] else [])
  }

  function Without(live: seq<Session>, client: ClientId): seq<Session> {
    if live == [] then []
    else
      var last := live[|live| - 1];
      Without(live[..|live| - 1], client) + (if last.client == client then [] else [last])
  }

  ghost predicate IsLive(live: seq<Session>, client: ClientId) {
    exists i :: 0 <= i < |live| && live[i].client == client
  }

  function ExpectedAnswer(live: seq<Session>, e: Event): Outcome
    requires e.Activate?
  {
    Decide(e.users, e.auth, e.sent, (uid, device) => |Matching(live, uid, device)|)
  }

  function NextLive(live: seq<Session>, e: Event): seq<Session> {
    match e
    case Activate(client, _, _, _) =>
      var answer := ExpectedAnswer(live, e);
      if answer.Activated? then live + [Session(client, answer.host)] else live
    case Close(client) => Without(live, client)
  }

  function RunLive(events: seq<Event>): seq<Session> {
    if events == [] then [] else NextLive(RunLive(events[..|events| - 1]), events[|events| - 1])
  }

  /** No client that is already active activates again. */
  ghost predicate ActivatesOnce(events: seq<Event>) {
    events == []
    || (var n := |events| - 1;
        && ActivatesOnce(events[..n])
        && (events[n].Activate? ==> !IsLive(RunLive(events[..n]), events[n].client)))
  }

  // ----------------------------------------------------------------- the invariant

  ghost predicate Distinct(live: seq<Session>) {
    forall i, j :: 0 <= i < j < |live| ==> live[i].client != live[j].client
  }

  ghost predicate Indexed(connections: map<string, seq<ClientId>>, live: seq<Session>) {
    && (forall uid :: uid in connections <==> Clients(live, uid) != [])
    && (forall uid :: uid in connections ==> connections[uid] == Clients(live, uid))
  }

  ghost predicate Hosted(hosts: map<ClientId, HostInfo>, live: seq<Session>) {
    && (forall i :: 0 <= i < |live| ==> live[i].client in hosts && hosts[live[i].client] == live[i].host)
    && (forall i :: 0 <= i < |live| ==> live[i].host.Valid())
    && (forall c :: c in hosts ==> IsLive(live, c))
  }

  /** The index holds exactly the live clients, each once, under its own user, and no empty entry. */
  ghost predicate Inv(s: State, live: seq<Session>) {
    Distinct(live) && Indexed(s.connections, live) && Hosted(s.hosts, live)
  }

  // ----------------------------------------------------------------- sequences

  lemma SelectAppend(clients: seq<ClientId>, c: ClientId, hosts: map<ClientId, HostInfo>, uid: string, device: string)
    ensures Select(clients + [c], hosts, uid, device)
            == Select(clients, hosts, uid, device) + (if HostOf(hosts, c).Is(uid, device) then [c] else [])
  {
    assert (clients + [c])[..|clients|] == clients;
  }

  lemma LiveAppend(live: seq<Session>, s: Session, uid: string, device: string)
    ensures Clients(live + [s], uid) == Clients(live, uid) + (if s.host.uid == uid then [s.client] else [])
    ensures Matching(live + [s], uid, device)
            == Matching(live, uid, device) + (if s.host.Is(uid, device) then [s.client] else [])
  {
    assert (live + [s])[..|live|] == live;
  }

  lemma {:induction false} RemoveFirstAppend(xs: seq<ClientId>, y: ClientId, c: ClientId)
    ensures RemoveFirst(xs + [y], c)
            == if c in xs then RemoveFirst(xs, c) + [y] else if y == c then xs else xs + [y]
    ensures c !in xs ==> RemoveFirst(xs, c) == xs
    decreases |xs|
  {
    if xs != [] {
      assert (xs + [y])[1..] == xs[1..] + [y];
      RemoveFirstAppend(xs[1..], y, c);
    }
  }

  lemma {:induction false} ClientsAreLive(live: seq<Session>, uid: string, c: ClientId)
    ensures c in Clients(live, uid)
            <==> exists i :: 0 <= i < |live| && live[i] == Session(c, live[i].host) && live[i].host.uid == uid
    decreases |live|
  {
    if live != [] {
      var n := |live| - 1;
      ClientsAreLive(live[..n], uid, c);
      assert forall i :: 0 <= i < n ==> live[..n][i] == live[i];
    }
  }

  lemma {:induction false} NotLiveUnchanged(live: seq<Session>, c: ClientId)
    requires !IsLive(live, c)
    ensures Without(live, c) == live
    decreases |live|
  {
    if live != [] {
      var n := |live| - 1;
      PrefixNotLive(live, c);
      NotLiveUnchanged(live[..n], c);
      assert live[..n] + [live[n]] == live;
    }
  }

  lemma PrefixNotLive(live: seq<Session>, c: ClientId)
    requires !IsLive(live, c) && live != []
    ensures !IsLive(live[..|live| - 1], c) && live[|live| - 1].client != c
  {
    var n := |live| - 1;
    assert forall i :: 0 <= i < n ==> live[..n][i] == live[i];
  }

  /** Removing a client from the list of one user is removing its session. */
  lemma {:induction false} ClientsWithout(live: seq<Session>, c: ClientId, uid: string)
    requires Distinct(live)
    ensures Clients(Without(live, c), uid) == RemoveFirst(Clients(live, uid), c)
    decreases |live|
  {
    hide RemoveFirst, Clients;
    if live == [] {
      NothingToRemove(c, uid);
    } else {
      var n := |live| - 1;
      var p, last := live[..n], live[n];
      assert live == p + [last];
      LiveAppend(p, last, uid, "");
      if last.client == c {
        assert !IsLive(p, c);
        NotLiveUnchanged(p, c);
        ClientsAreLive(p, uid, c);
        assert c !in Clients(p, uid);
        assert Without(live, c) == p;
      } else {
        ClientsWithout(p, c, uid);
        LiveAppend(Without(p, c), last, uid, "");
        assert Without(live, c) == Without(p, c) + [last];
      }
      RemoveFirstAppend(Clients(p, uid), last.client, c);
      assert Clients(p, uid) + [] == Clients(p, uid);
    }
  }

  lemma NothingToRemove(c: ClientId, uid: string)
    ensures RemoveFirst([], c) == [] == Clients([], uid)
  {
  }

  lemma {:induction false} WithoutIsSublist(live: seq<Session>, c: ClientId)
    ensures forall i :: 0 <= i < |Without(live, c)| ==> Without(live, c)[i] in live && Without(live, c)[i].client != c
    ensures forall s :: s in live && s.client != c ==> s in Without(live, c)
    ensures Distinct(live) ==> Distinct(Without(live, c))
    decreases |live|
  {
    if live != [] {
      var n := |live| - 1;
      WithoutIsSublist(live[..n], c);
      assert live == live[..n] + [live[n]];
    }
  }

  // ----------------------------------------------------------------- lookups

  /** Looking up in the index is filtering all the live clients. */
  lemma {:induction false} SelectIsMatching(live: seq<Session>, hosts: map<ClientId, HostInfo>, uid: string, device: string)
    requires forall i :: 0 <= i < |live| ==> live[i].client in hosts && hosts[live[i].client] == live[i].host
    ensures Select(Clients(live, uid), hosts, uid, device) == Matching(live, uid, device)
    decreases |live|
  {
    hide Select;
    if live == [] {
      SelectNone(hosts, uid, device);
    } else {
      var n := |live| - 1;
      SelectIsMatching(live[..n], hosts, uid, device);
      SelectAppend(Clients(live[..n], uid), live[n].client, hosts, uid, device);
      assert Clients(live[..n], uid) + [] == Clients(live[..n], uid);
    }
  }

  lemma SelectNone(hosts: map<ClientId, HostInfo>, uid: string, device: string)
    ensures Select([], hosts, uid, device) == []
  {
  }

  lemma FindIsMatching(s: State, live: seq<Session>, uid: string, device: string)
    requires Inv(s, live)
    ensures Find(s, uid, device) == Matching(live, uid, device)
  {
    hide Select, Clients, Matching, Distinct;
    SelectIsMatching(live, s.hosts, uid, device);
    SelectNone(s.hosts, uid, device);
  }

  lemma AnswerIsExpected(s: State, live: seq<Session>, e: Event)
    requires Inv(s, live) && e.Activate?
    ensures Answer(s, e) == ExpectedAnswer(live, e)
  {
    hide Inv, Find, Matching, FirstDevice;
    if e.auth.login in e.users {
      FindIsMatching(s, live, e.users[e.auth.login].uid, e.auth.device);
    }
  }

  // ----------------------------------------------------------------- what an answer means

  /** The first device of the list with that id, at position `k`. */
  ghost predicate IsFirstDevice(devices: seq<Device>, id: string, k: int) {
    0 <= k < |devices| && devices[k].id == id && forall j :: 0 <= j < k ==> devices[j].id != id
  }

  lemma {:induction false} FirstDeviceIs(devices: seq<Device>, id: string)
    ensures FirstDevice(devices, id).None? <==> forall k :: 0 <= k < |devices| ==> devices[k].id != id
    ensures FirstDevice(devices, id).Some? ==>
              exists k :: IsFirstDevice(devices, id, k) && devices[k] == FirstDevice(devices, id).value
    ensures forall k :: IsFirstDevice(devices, id, k) ==> FirstDevice(devices, id) == Some(devices[k])
    decreases |devices|
  {
    if devices == [] {
    } else if devices[0].id == id {
      assert IsFirstDevice(devices, id, 0);
    } else {
      var rest := devices[1..];
      FirstDeviceIs(rest, id);
      assert devices == [devices[0]] + rest;
      forall k | IsFirstDevice(devices, id, k)
        ensures IsFirstDevice(rest, id, k - 1) && devices[k] == rest[k - 1]
      {
      }
      if FirstDevice(rest, id).Some? {
        var k :| IsFirstDevice(rest, id, k) && rest[k] == FirstDevice(rest, id).value;
        assert IsFirstDevice(devices, id, k + 1);
      }
    }
  }

  /** The request is well formed and names a login of the table. */
  predicate Known(e: Event)
    requires e.Activate?
  {
    e.auth.wellFormed && e.auth.login in e.users
  }

  /** And the password is that login's. */
  predicate LoggedIn(e: Event)
    requires e.Activate?
  {
    Known(e) && e.auth.password == e.users[e.auth.login].password
  }

  /** And the user is not banned, and names a device. */
  predicate Welcome(e: Event)
    requires e.Activate?
  {
    LoggedIn(e) && !e.users[e.auth.login].banned && e.auth.device != ""
  }

  /** The first device of the user with the requested id has room for one more than `count` connections. */
  ghost predicate HasRoom(e: Event, count: nat)
    requires e.Activate? && Known(e)
  {
    var devices := e.users[e.auth.login].devices;
    exists k :: IsFirstDevice(devices, e.auth.device, k) && count < devices[k].connections
  }

  ghost predicate HasDevice(e: Event)
    requires e.Activate? && Known(e)
  {
    var devices := e.users[e.auth.login].devices;
    exists k :: 0 <= k < |devices| && devices[k].id == e.auth.device
  }

  /**
    Who is activated: exactly a known user with the right password who is not banned, whose id is not
    empty, whose first device with the requested id has room, and who can be told so.
  */
  lemma ActivatedIff(s: State, e: Event)
    requires e.Activate?
    ensures Answer(s, e).Activated?
            <==> && e.auth.wellFormed && e.auth.login in e.users
                 && var user := e.users[e.auth.login];
                    && e.auth.password == user.password && !user.banned && user.uid != ""
                    && e.auth.device != ""
                    && (exists k :: IsFirstDevice(user.devices, e.auth.device, k)
                                    && |Find(s, user.uid, e.auth.device)| < user.devices[k].connections)
                    && e.sent
    ensures Answer(s, e).Activated? ==> Answer(s, e).host == HostInfo(e.users[e.auth.login].uid, e.auth)
  {
    hide Find, FirstDevice;
    if Known(e) {
      FirstDeviceIs(e.users[e.auth.login].devices, e.auth.device);
    }
  }

  /** And what everybody else is told, each answer exactly in its own case. */
  lemma RejectedIff(s: State, e: Event)
    requires e.Activate?
    ensures Answer(s, e) == Rejected(UserNotFound) <==> e.auth.wellFormed && e.auth.login !in e.users
    ensures Answer(s, e) == Rejected(WrongPassword) <==> Known(e) && !LoggedIn(e)
    ensures Answer(s, e) == Rejected(BannedUser) <==> LoggedIn(e) && e.users[e.auth.login].banned
    ensures Answer(s, e) == Rejected(Invalid)
            <==> !e.auth.wellFormed || (LoggedIn(e) && !e.users[e.auth.login].banned && e.auth.device == "")
    ensures Answer(s, e) == Rejected(DeviceNotFound) <==> Welcome(e) && !HasDevice(e)
    ensures Answer(s, e) == Rejected(LimitReached)
            <==> Welcome(e) && HasDevice(e) && !HasRoom(e, |Find(s, e.users[e.auth.login].uid, e.auth.device)|)
    ensures Answer(s, e) == NotSent
            <==> Welcome(e) && HasRoom(e, |Find(s, e.users[e.auth.login].uid, e.auth.device)|) && !e.sent
    ensures Answer(s, e) == Aborted
            <==> Welcome(e) && HasRoom(e, |Find(s, e.users[e.auth.login].uid, e.auth.device)|) && e.sent
                 && e.users[e.auth.login].uid == ""
  {
    hide Find, FirstDevice;
    if Known(e) {
      FirstDeviceIs(e.users[e.auth.login].devices, e.auth.device);
    }
  }

  /** Only an accepted activation registers, at the end of its user's list; a close forgets one client. */
  lemma EventsChange(s: State, e: Event)
    ensures e.Activate? && !Answer(s, e).Activated? ==> Next(s, e) == s
    ensures e.Activate? && Answer(s, e).Activated? ==>
              e.auth.login in e.users
              && var t, uid := Next(s, e), e.users[e.auth.login].uid;
                 && t.hosts == s.hosts[e.client := HostInfo(uid, e.auth)]
                 && uid in t.connections
                 && t.connections[uid] == (if uid in s.connections then s.connections[uid] else []) + [e.client]
                 && t.connections - {uid} == s.connections - {uid}
    ensures e.Close? ==> Next(s, e).hosts == s.hosts - {e.client}
  {
    if e.Activate? {
      ActivatedIff(s, e);
    }
    hide Answer, IsFirstDevice;
  }

  /** A lookup finds exactly the clients that hold that user and device, each once. */
  lemma FindIff(s: State, live: seq<Session>, uid: string, device: string, c: ClientId)
    requires Inv(s, live)
    ensures c in Find(s, uid, device) <==> c in s.hosts && s.hosts[c].uid == uid && s.hosts[c].auth.device == device
    ensures forall i, j :: 0 <= i < j < |Find(s, uid, device)| ==> Find(s, uid, device)[i] != Find(s, uid, device)[j]
  {
    hide Find, Matching, Clients;
    FindIsMatching(s, live, uid, device);
    MatchingIff(live, uid, device, c);
    MatchingDistinct(live, uid, device);
    if c in s.hosts {
      var i :| 0 <= i < |live| && live[i].client == c;
    }
  }

  lemma {:induction false} MatchingIff(live: seq<Session>, uid: string, device: string, c: ClientId)
    ensures c in Matching(live, uid, device)
            <==> exists i :: 0 <= i < |live| && live[i].client == c && live[i].host.uid == uid
                             && live[i].host.auth.device == device
    decreases |live|
  {
    if live != [] {
      var n := |live| - 1;
      MatchingIff(live[..n], uid, device, c);
      assert forall i :: 0 <= i < n ==> live[..n][i] == live[i];
    }
  }

  lemma {:induction false} MatchingDistinct(live: seq<Session>, uid: string, device: string)
    requires Distinct(live)
    ensures var m := Matching(live, uid, device); forall i, j :: 0 <= i < j < |m| ==> m[i] != m[j]
    decreases |live|
  {
    if live != [] {
      var n := |live| - 1;
      var before := live[..n];
      MatchingDistinct(before, uid, device);
      MatchingIff(before, uid, device, live[n].client);
      assert live[n].client !in Matching(before, uid, device);
    }
  }

  // ----------------------------------------------------------------- every step

  lemma RegisterKeepsInv(s: State, live: seq<Session>, client: ClientId, host: HostInfo)
    requires Inv(s, live) && !IsLive(live, client) && host.Valid()
    ensures Inv(Register(s, client, host), live + [Session(client, host)])
  {
    hide Clients, Matching;
    var session := Session(client, host);
    var t := Register(s, client, host);
    forall uid
      ensures uid in t.connections <==> Clients(live + [session], uid) != []
      ensures uid in t.connections ==> t.connections[uid] == Clients(live + [session], uid)
    {
      LiveAppend(live, session, uid, "");
    }
    HostedAfterRegister(s.hosts, live, client, host);
  }

  lemma HostedAfterRegister(hosts: map<ClientId, HostInfo>, live: seq<Session>, client: ClientId, host: HostInfo)
    requires Hosted(hosts, live) && !IsLive(live, client) && host.Valid()
    ensures Hosted(hosts[client := host], live + [Session(client, host)])
  {
    var all := live + [Session(client, host)];
    assert all[|live|].client == client;
    forall c | c in hosts
      ensures IsLive(all, c)
    {
      var i :| 0 <= i < |live| && live[i].client == c;
      assert all[i].client == c;
    }
  }

  /** A live client's entry is the one its host information names. */
  lemma LiveIsListed(s: State, live: seq<Session>, client: ClientId)
    requires Inv(s, live) && IsLive(live, client)
    ensures HostOf(s.hosts, client).Valid() && HostOf(s.hosts, client).uid in s.connections
    ensures client in s.connections[HostOf(s.hosts, client).uid]
    ensures forall uid :: uid != HostOf(s.hosts, client).uid ==> client !in Clients(live, uid)
  {
    hide Clients;
    var i :| 0 <= i < |live| && live[i].client == client;
    var own := live[i].host.uid;
    ClientsAreLive(live, own, client);
    assert client in Clients(live, own);
    forall uid | uid != own
      ensures client !in Clients(live, uid)
    {
      ClientsAreLive(live, uid, client);
    }
  }

  lemma CloseKeepsInv(s: State, live: seq<Session>, client: ClientId)
    requires Inv(s, live)
    ensures Inv(Next(s, Close(client)), Without(live, client))
  {
    hide Clients, Without, RemoveFirst;
    var t := Next(s, Close(client));
    WithoutIsSublist(live, client);
    HostedAfterClose(s.hosts, live, client);
    if IsLive(live, client) {
      LiveIsListed(s, live, client);
      forall uid
        ensures uid in t.connections <==> Clients(Without(live, client), uid) != []
        ensures uid in t.connections ==> t.connections[uid] == Clients(Without(live, client), uid)
      {
        ClientsWithout(live, client, uid);
        RemoveFirstAppend(Clients(live, uid), 0, client);
      }
    } else {
      NotLiveUnchanged(live, client);
      assert client !in s.hosts;
    }
  }

  lemma HostedAfterClose(hosts: map<ClientId, HostInfo>, live: seq<Session>, client: ClientId)
    requires Hosted(hosts, live)
    ensures Hosted(hosts - {client}, Without(live, client))
  {
    hide Without;
    WithoutIsSublist(live, client);
    var rest := Without(live, client);
    forall i | 0 <= i < |rest|
      ensures rest[i].client in hosts - {client} && hosts[rest[i].client] == rest[i].host && rest[i].host.Valid()
    {
      var j :| 0 <= j < |live| && live[j] == rest[i];
    }
    forall c | c in hosts - {client}
      ensures IsLive(rest, c)
    {
      var j :| 0 <= j < |live| && live[j].client == c;
      assert live[j] in rest;
    }
  }

  /**
    In every run in which no active client activates again, under any changes of the user table: the
    index is that of the live sessions, and every activation is answered as if all of them were searched.
  */
  lemma {:induction false} RunKeepsIndex(events: seq<Event>)
    requires ActivatesOnce(events)
    ensures Inv(Run(events), RunLive(events))
    ensures forall k :: 0 <= k < |events| && events[k].Activate? ==>
              Answer(Run(events[..k]), events[k]) == ExpectedAnswer(RunLive(events[..k]), events[k])
    decreases |events|
  {
    hide Inv, Next, NextLive, Answer, ExpectedAnswer;
    if events == [] {
      NobodyIsIndexed();
    } else {
      var n := |events| - 1;
      RunKeepsIndex(events[..n]);
      StepKeepsIndex(Run(events[..n]), RunLive(events[..n]), events[n]);
      forall k | 0 <= k < |events| && events[k].Activate?
        ensures Answer(Run(events[..k]), events[k]) == ExpectedAnswer(RunLive(events[..k]), events[k])
      {
        if k < n {
          assert events[..n][..k] == events[..k] && events[..n][k] == events[k];
        } else {
          AnswerIsExpected(Run(events[..n]), RunLive(events[..n]), events[n]);
        }
      }
    }
  }

  lemma NobodyIsIndexed()
    ensures Inv(NOBODY_CONNECTED, [])
  {
  }

  lemma StepKeepsIndex(s: State, live: seq<Session>, e: Event)
    requires Inv(s, live) && (e.Activate? ==> !IsLive(live, e.client))
    ensures Inv(Next(s, e), NextLive(live, e))
  {
    hide Inv, Register, Unregister, Find, Matching, Without;
    if e.Activate? {
      AnswerIsExpected(s, live, e);
      var answer := Answer(s, e);
      if answer.Activated? {
        RegisterKeepsInv(s, live, e.client, answer.host);
      }
    } else {
      CloseKeepsInv(s, live, e.client);
    }
  }

  // ----------------------------------------------------------------- the device limit

  /** Some account of that user id allows `count` connections of that device. */
  ghost predicate Allowed(users: map<string, User>, uid: string, device: string, count: nat) {
    exists login :: login in users && users[login].uid == uid
                    && FirstDevice(users[login].devices, device).Some?
                    && count <= FirstDevice(users[login].devices, device).value.connections
  }

  ghost predicate WithinLimits(users: map<string, User>, live: seq<Session>) {
    forall uid, device :: Matching(live, uid, device) != [] ==> Allowed(users, uid, device, |Matching(live, uid, device)|)
  }

  lemma {:induction false} ClosingFreesOnly(live: seq<Session>, c: ClientId, uid: string, device: string)
    ensures |Matching(Without(live, c), uid, device)| <= |Matching(live, uid, device)|
    decreases |live|
  {
    if live != [] {
      var n := |live| - 1;
      ClosingFreesOnly(live[..n], c, uid, device);
      LiveAppend(Without(live[..n], c), live[n], uid, device);
      assert Without(live[..n], c) + [] == Without(live[..n], c);
    }
  }

  lemma StepKeepsLimits(users: map<string, User>, live: seq<Session>, e: Event)
    requires WithinLimits(users, live) && (e.Activate? ==> e.users == users)
    ensures WithinLimits(users, NextLive(live, e))
  {
    hide Matching, Without, FirstDevice;
    var after := NextLive(live, e);
    forall uid, device | Matching(after, uid, device) != []
      ensures Allowed(users, uid, device, |Matching(after, uid, device)|)
    {
      if e.Close? {
        ClosingFreesOnly(live, e.client, uid, device);
        assert Matching(live, uid, device) != [];
      } else if ExpectedAnswer(live, e).Activated? {
        var host := ExpectedAnswer(live, e).host;
        LiveAppend(live, Session(e.client, host), uid, device);
        if host.Is(uid, device) {
          assert users[e.auth.login].uid == uid;
        }
      }
    }
  }

  /** With one user table, no device ever has more live connections than an account of its user allows. */
  lemma {:induction false} LimitsHold(users: map<string, User>, events: seq<Event>)
    requires forall k :: 0 <= k < |events| && events[k].Activate? ==> events[k].users == users
    ensures WithinLimits(users, RunLive(events))
    decreases |events|
  {
    hide WithinLimits, NextLive;
    if events == [] {
      NobodyIsWithinLimits(users);
    } else {
      var n := |events| - 1;
      LimitsHold(users, events[..n]);
      StepKeepsLimits(users, RunLive(events[..n]), events[n]);
    }
  }

  lemma NobodyIsWithinLimits(users: map<string, User>)
    ensures WithinLimits(users, [])
  {
  }

  /** The same of the handler itself: what its lookup returns never exceeds the device's limit. */
  lemma LookupWithinLimits(users: map<string, User>, events: seq<Event>, uid: string, device: string)
    requires ActivatesOnce(events)
    requires forall k :: 0 <= k < |events| && events[k].Activate? ==> events[k].users == users
    ensures var found := Find(Run(events), uid, device);
            found != [] ==> Allowed(users, uid, device, |found|)
  {
    hide Inv, Find, Matching, Allowed, RunLive, Run, ActivatesOnce;
    RunKeepsIndex(events);
    FindIsMatching(Run(events), RunLive(events), uid, device);
    LimitsHold(users, events);
  }

  // ----------------------------------------------------------------- activating again

  ghost predicate Listed(s: State, client: ClientId) {
    exists uid :: uid in s.connections && client in s.connections[uid]
  }

  /**
    After an accepted activation and the client's close, the index still lists the client exactly when it
    had been active before; otherwise the close undoes the activation.
  */
  lemma StaleIff(s: State, live: seq<Session>, e: Event)
    requires Inv(s, live) && e.Activate? && Answer(s, e).Activated?
    ensures Listed(Next(Next(s, e), Close(e.client)), e.client) <==> IsLive(live, e.client)
    ensures !IsLive(live, e.client) ==> Next(Next(s, e), Close(e.client)) == s
  {
    hide Answer;
    var host := Answer(s, e).host;
    ActivatedHostIsValid(s, e);
    if IsLive(live, e.client) {
      CloseAfterSecondActivation(s, live, e.client, host);
    } else {
      CloseUndoesActivation(s, live, e.client, host);
      NotLiveNotListed(s, live, e.client);
    }
  }

  lemma ActivatedHostIsValid(s: State, e: Event)
    requires e.Activate? && Answer(s, e).Activated?
    ensures Answer(s, e).host.Valid()
  {
    hide Find, FirstDevice;
  }

  lemma NotLiveNotListed(s: State, live: seq<Session>, client: ClientId)
    requires Inv(s, live) && !IsLive(live, client)
    ensures !Listed(s, client) && client !in s.hosts
  {
    hide Clients;
    forall uid | uid in s.connections
      ensures client !in s.connections[uid]
    {
      ClientsAreLive(live, uid, client);
    }
  }

  lemma CloseUndoesActivation(s: State, live: seq<Session>, client: ClientId, host: HostInfo)
    requires Inv(s, live) && !IsLive(live, client) && host.Valid()
    ensures Next(Register(s, client, host), Close(client)) == s
  {
    hide Clients, RemoveFirst;
    NotLiveNotListed(s, live, client);
    var t := Register(s, client, host);
    var before := if host.uid in s.connections then s.connections[host.uid] else [];
    RemoveFirstAppend(before, client, client);
    assert t.hosts - {client} == s.hosts;
    var u := Unregister(t, client);
    if host.uid in s.connections {
      assert before != [];
      assert u.connections == s.connections;
    } else {
      assert u.connections == s.connections;
    }
  }

  lemma CloseAfterSecondActivation(s: State, live: seq<Session>, client: ClientId, host: HostInfo)
    requires Inv(s, live) && IsLive(live, client) && host.Valid()
    ensures Listed(Next(Register(s, client, host), Close(client)), client)
  {
    hide Clients, RemoveFirst;
    LiveIsListed(s, live, client);
    var own := HostOf(s.hosts, client).uid;
    var u := Next(Register(s, client, host), Close(client));
    if own == host.uid {
      RemoveFirstAppend(s.connections[own], client, client);
      assert client in u.connections[own];
    } else {
      assert client in u.connections[own];
    }
  }

  // ----------------------------------------------------------------- the user table

  /** The first user of a list with that login. */
  function FirstUser(users: seq<User>, login: string): Option<User> {
    if users == [] then None
    else if users[0].login == login then Some(users[0])
    else FirstUser(users[1..], login)
  }

  lemma {:induction false} FirstUserIs(users: seq<User>, login: string)
    ensures FirstUser(users, login).None? <==> forall k :: 0 <= k < |users| ==> users[k].login != login
    ensures forall k :: 0 <= k < |users| && users[k].login == login && (forall j :: 0 <= j < k ==> users[j].login != login)
                        ==> FirstUser(users, login) == Some(users[k])
    decreases |users|
  {
    if users != [] {
      FirstUserIs(users[1..], login);
      assert users == [users[0]] + users[1..];
    }
  }

  ghost predicate IsTableOf(table: map<string, User>, users: seq<User>) {
    && (forall login :: login in table <==> FirstUser(users, login).Some?)
    && (forall login :: login in table ==> FirstUser(users, login) == Some(table[login]))
  }

  lemma {:induction false} FirstUserAppend(users: seq<User>, u: User, login: string)
    ensures FirstUser(users + [u], login)
            == if FirstUser(users, login).Some? then FirstUser(users, login)
               else if u.login == login then Some(u) else None
    decreases |users|
  {
    if users != [] {
      assert (users + [u])[1..] == users[1..] + [u];
      FirstUserAppend(users[1..], u, login);
    }
  }

  class SyncFinder {
    var users: map<string, User>

    constructor ()
      ensures users == map[]
    {
      users := map[];
    }

    method Clear()
      modifies this
      ensures users == map[]
    {
      users := map[];
    }

    /** A login that is present keeps its user. */
    method AddUser(user: User, ghost added: seq<User>)
      requires IsTableOf(users, added)
      modifies this
      ensures IsTableOf(users, added + [user])
    {
      hide FirstUser;
      if user.login !in users {
        users := users[user.login := user];
      }
      forall login
        ensures login in users <==> FirstUser(added + [user], login).Some?
        ensures login in users ==> FirstUser(added + [user], login) == Some(users[login])
      {
        FirstUserAppend(added, user, login);
      }
    }

    method FindUser(auth: Auth) returns (reason: Option<Reason>, found: Option<User>)
      ensures reason.Some? <==> found.None?
      ensures found.Some? <==> auth.wellFormed && auth.login in users && users[auth.login].password == auth.password
      ensures found.Some? ==> found.value == users[auth.login]
      ensures reason == Some(Invalid) <==> !auth.wellFormed
      ensures reason == Some(UserNotFound) <==> auth.wellFormed && auth.login !in users
      ensures reason == Some(WrongPassword)
              <==> auth.wellFormed && auth.login in users && users[auth.login].password != auth.password
    {
      if !auth.wellFormed {
        return Some(Invalid), None;
      }
      if auth.login !in users {
        return Some(UserNotFound), None;
      }
      var user := users[auth.login];
      if auth.password != user.password {
        return Some(WrongPassword), None;
      }
      return None, Some(user);
    }
  }

  method FindDevice(devices: seq<Device>, id: string) returns (found: Option<Device>)
    ensures found == if id == "" then None else FirstDevice(devices, id)
  {
    if id == "" {
      return None;
    }
    var i := 0;
    while i < |devices|
      invariant i <= |devices|
      invariant FirstDevice(devices, id) == FirstDevice(devices[i..], id)
    {
      if devices[i].id == id {
        return Some(devices[i]);
      }
      assert devices[i..][1..] == devices[i + 1..];
      i := i + 1;
    }
    return None;
  }

  // ----------------------------------------------------------------- the handler

  class SubscribersHandler {
    const finder: SyncFinder
    var connections: map<string, seq<ClientId>>
    var hosts: map<ClientId, HostInfo>

    ghost function Current(): State
      reads this
    {
      State(connections, hosts)
    }

    constructor (finder: SyncFinder)
      ensures this.finder == finder && Current() == NOBODY_CONNECTED
    {
      this.finder := finder;
      connections, hosts := map[], map[];
    }

    method RegisterInnerConnectionByHost(host: HostInfo, client: ClientId)
      requires host.Valid()
      modifies this
      ensures Current() == Register(old(Current()), client, host)
    {
      hosts := hosts[client := host];
      if host.uid !in connections {
        connections := connections[host.uid := []];
      }
      connections := connections[host.uid := connections[host.uid] + [client]];
    }

    method UnRegisterInnerConnectionByHost(client: ClientId) returns (ok: bool)
      modifies this
      ensures Current() == Unregister(old(Current()), client)
      ensures ok == HostOf(hosts, client).Valid()
    {
      var host := HostOf(hosts, client);
      if !host.Valid() {
        return false;
      }
      if host.uid !in connections {
        return true;
      }
      var list := connections[host.uid];
      var rest := Erase(list, client);
      connections := if rest == [] then connections - {host.uid} else connections[host.uid := rest];
      return true;
    }

    static method Erase(list: seq<ClientId>, client: ClientId) returns (rest: seq<ClientId>)
      ensures rest == RemoveFirst(list, client)
    {
      var i := 0;
      while i < |list|
        invariant i <= |list|
        invariant RemoveFirst(list, client) == list[..i] + RemoveFirst(list[i..], client)
      {
        if list[i] == client {
          assert list[i..][1..] == list[i + 1..];
          return list[..i] + list[i + 1..];
        }
        assert list[i..][1..] == list[i + 1..];
        AppendAssociates(list[..i], list[i], RemoveFirst(list[i + 1..], client));
        assert list[..i + 1] == list[..i] + [list[i]];
        i := i + 1;
      }
      return list;
    }

    method FindInnerConnectionsByUser(uid: string, device: string) returns (found: seq<ClientId>)
      ensures found == Find(Current(), uid, device)
    {
      if uid !in connections {
        return [];
      }
      found := [];
      var devices := connections[uid];
      for k := 0 to |devices|
        invariant found == Select(devices[..k], hosts, uid, device)
      {
        SelectAppend(devices[..k], devices[k], hosts, uid, device);
        assert devices[..k + 1] == devices[..k] + [devices[k]];
        if HostOf(hosts, devices[k]).Is(uid, device) {
          found := found + [devices[k]];
        }
      }
      assert devices[..|devices|] == devices;
    }

    /** `sent` says whether the success answer could be written to the client. */
    method HandleRequestClientActivate(client: ClientId, auth: Auth, sent: bool) returns (outcome: Outcome)
      modifies this
      ensures outcome == Answer(old(Current()), Activate(client, finder.users, auth, sent))
      ensures Current() == Next(old(Current()), Activate(client, finder.users, auth, sent))
    {
      hide Find, FirstDevice;
      var reason, user := finder.FindUser(auth);
      if reason.Some? {
        return Rejected(reason.value);
      }
      if user.value.banned {
        return Rejected(BannedUser);
      }
      var device := FindDevice(user.value.devices, auth.device);
      if device.None? {
        return Rejected(if auth.device == "" then Invalid else DeviceNotFound);
      }
      var fconnections := FindInnerConnectionsByUser(user.value.uid, auth.device);
      if |fconnections| >= device.value.connections {
        return Rejected(LimitReached);
      }
      if !sent {
        return NotSent;
      }
      var host := HostInfo(user.value.uid, auth);
      if !host.Valid() {
        return Aborted;
      }
      RegisterInnerConnectionByHost(host, client);
      return Activated(host);
    }

    /** The client object is gone afterwards. */
    method Closed(client: ClientId)
      modifies this
      ensures Current() == Next(old(Current()), Close(client))
    {
      var _ := UnRegisterInnerConnectionByHost(client);
      hosts := hosts - {client};
    }
  }
}
