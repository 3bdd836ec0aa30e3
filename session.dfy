/**
  The connection state machine of one WP6003 session, as functions on an
  abstract state: what an advertisement, a notification, a connect
  attempt and a poll tick do. The classes in module Device are proved to
  implement exactly these functions.
 */
module Session {
  import opened Options
  import opened Protocol

  /** A Bluetooth device address, as advertised. */
  type Address = seq<Byte>

  /** The identity of a remote characteristic object. */
  type Handle = nat

  datatype Status = Pending | Connected | Disconnected | Error

  /** The health code the host reads: the enumerator's position in the declaration. */
  function ErrorCode(s: Status): (code: int)
    ensures 0 <= code <= 3
    ensures StatusOfCode(code) == Some(s)
  {
    match s
    case Pending => 0
    case Connected => 1
    case Disconnected => 2
    case Error => 3
  }

  function StatusOfCode(code: int): Option<Status> {
    if code == 0 then Some(Pending)
    else if code == 1 then Some(Connected)
    else if code == 2 then Some(Disconnected)
    else if code == 3 then Some(Error)
    else None
  }

  /** An advertisement seen while scanning. */
  datatype Advertisement = Advertisement(name: string, address: Address)

  /**
    What the radio returns during one connect attempt: whether the
    service was found, and the command and sensor characteristics it
    returned; `None` stands for a null pointer.
   */
  datatype Link = Link(service: bool, command: Option<Handle>, sensor: Option<Handle>)

  /** The attempt gets as far as looking up the sensor characteristic. */
  predicate ReachesSensorLookup(link: Link) {
    link.service && link.command.Some?
  }

  predicate LinkComplete(link: Link) {
    link.service && link.command.Some? && link.sensor.Some?
  }

  /**
    Everything a session object holds, with the writes to the command
    characteristic as a log. In `command` and `sensor`, `None` stands for
    a null pointer.
   */
  datatype SessionState = SessionState(
    name: string,
    notificationInterval: int,
    timeoutInterval: int,
    status: Status,
    notifyRequest: int,
    notifyTime: int,
    address: Option<Address>,
    command: Option<Handle>,
    sensor: Option<Handle>,
    reading: Reading,
    writes: seq<seq<Byte>>)

  /**
    The invariant every operation keeps: the poll counter stays within
    0..notificationInterval, a pending session has an address to connect
    to, and a connected or faulted session holds both characteristics.
   */
  ghost predicate Inv(s: SessionState) {
    0 <= s.notifyRequest <= s.notificationInterval &&
    (s.status == Pending ==> s.address.Some?) &&
    (s.status == Connected || s.status == Error ==> s.command.Some? && s.sensor.Some?)
  }

  /**
    The advertisement callback: a device advertising the configured name
    is recorded and the session becomes pending, whatever its state was;
    any other advertisement changes nothing.
   */
  function Advertise(s: SessionState, adv: Advertisement): (t: SessionState)
    ensures adv.name == s.name ==> t.status == Pending && t.address == Some(adv.address)
    ensures adv.name != s.name ==> t == s
    ensures t == s.(status := t.status, address := t.address)
    ensures Inv(s) ==> Inv(t)
  {
    if adv.name == s.name then s.(address := Some(adv.address), status := Pending) else s
  }

  /**
    The notification callback: a frame without the telemetry tag is
    dropped; an accepted frame replaces the reading and refreshes the
    liveness timestamp, and nothing else.
   */
  function Notify(s: SessionState, data: seq<Byte>, now: int): (t: SessionState)
    requires |data| >= 1 && (data[0] == TELEMETRY_TAG ==> |data| >= TELEMETRY_MIN_LENGTH)
    ensures data[0] != TELEMETRY_TAG ==> t == s
    ensures data[0] == TELEMETRY_TAG ==> t.notifyTime == now && DecodeTelemetry(data) == Some(t.reading)
    ensures t == s.(reading := t.reading, notifyTime := t.notifyTime)
    ensures Inv(s) ==> Inv(t)
  {
    if data[0] != TELEMETRY_TAG then s
    else
      match DecodeTelemetry(data)
      case None => s
      case Some(r) => s.(reading := r, notifyTime := now)
  }

  /** The outcome of a connect attempt and the state it leaves behind. */
  datatype Attempt = Attempt(ok: bool, after: SessionState)

  /**
    One connect attempt. It fails exactly when the service, the command
    characteristic or the sensor characteristic is missing; each lookup
    that ran has stored its pointer even when a later one fails. On
    success the liveness timestamp is `now` and the time-sync,
    notify-interval and request frames are written, in that order.
   */
  function Connect(s: SessionState, link: Link, now: int, local: LocalTime): (a: Attempt)
    ensures a.ok <==> LinkComplete(link)
    ensures a.after.command == (if link.service then link.command else s.command)
    ensures a.after.sensor == (if ReachesSensorLookup(link) then link.sensor else s.sensor)
    ensures a.ok ==> a.after.notifyTime == now
    ensures a.ok ==> a.after.writes == s.writes + [TimeSyncFrame(local), NOTIFY_INTERVAL_FRAME, REQUEST_FRAME]
    ensures !a.ok ==> a.after.writes == s.writes && a.after.notifyTime == s.notifyTime
    ensures a.after == s.(command := a.after.command, sensor := a.after.sensor,
                          notifyTime := a.after.notifyTime, writes := a.after.writes)
  {
    if !link.service then Attempt(false, s)
    else
      var s1 := s.(command := link.command);
      if link.command.None? then Attempt(false, s1)
      else
        var s2 := s1.(sensor := link.sensor);
        if link.sensor.None? then Attempt(false, s2)
        else Attempt(true, s2.(notifyTime := now,
                               writes := s2.writes + [TimeSyncFrame(local)] + [NOTIFY_INTERVAL_FRAME] + [REQUEST_FRAME]))
  }

  /**
    The routing table after a connect attempt: an attempt that reaches
    the sensor lookup maps the returned pointer (null included) to the
    session; no entry is ever removed.
   */
  function Register<D>(routes: map<Option<Handle>, D>, link: Link, self: D): (r: map<Option<Handle>, D>)
    ensures routes.Keys <= r.Keys
    ensures ReachesSensorLookup(link) ==> link.sensor in r && r[link.sensor] == self
    ensures forall h :: h in r ==> h in routes || (ReachesSensorLookup(link) && h == link.sensor)
    ensures forall h :: h in routes && !(ReachesSensorLookup(link) && h == link.sensor) ==> r[h] == routes[h]
  {
    if ReachesSensorLookup(link) then routes[link.sensor := self] else routes
  }

  /** The poll counter passes the notification interval on this poll. */
  predicate Overflows(s: SessionState) {
    s.notifyRequest + 1 > s.notificationInterval
  }

  /**
    The work a poll does on a connected session: count the poll; when
    the count passes the interval, write one request frame, reset the
    count and fault the session if no frame arrived within the timeout.
   */
  function ConnectedPoll(s: SessionState, now: int): (t: SessionState)
    requires s.status == Connected
    ensures t.status == Error <==> Overflows(s) && now > s.notifyTime + s.timeoutInterval
    ensures t.status == Connected <==> !(Overflows(s) && now > s.notifyTime + s.timeoutInterval)
    ensures Overflows(s) ==> t.notifyRequest == 0 && t.writes == s.writes + [REQUEST_FRAME]
    ensures !Overflows(s) ==> t.notifyRequest == s.notifyRequest + 1 && t.writes == s.writes
    ensures t == s.(status := t.status, notifyRequest := t.notifyRequest, writes := t.writes)
    ensures Inv(s) ==> Inv(t)
  {
    var n := s.notifyRequest + 1;
    if n > s.notificationInterval then
      s.(notifyRequest := 0, writes := s.writes + [REQUEST_FRAME],
         status := if now > s.notifyTime + s.timeoutInterval then Error else Connected)
    else s.(notifyRequest := n)
  }

  /**
    One `updateSensorData` tick. A pending session runs its connect
    attempt and becomes connected or disconnected; in the same tick a
    connected session is polled. Disconnected and faulted sessions are
    left exactly as they were, and no tick leaves a session pending.
   */
  function Poll(s: SessionState, link: Link, connectNow: int, local: LocalTime, now: int): (t: SessionState)
    ensures s.status == Disconnected || s.status == Error ==> t == s
    ensures s.status == Connected ==> t == ConnectedPoll(s, now)
    ensures s.status == Pending && !LinkComplete(link) ==>
      t == Connect(s, link, connectNow, local).after.(status := Disconnected)
    ensures s.status == Pending && LinkComplete(link) ==>
      t == ConnectedPoll(Connect(s, link, connectNow, local).after.(status := Connected), now)
    ensures t.status != Pending
    ensures Inv(s) ==> Inv(t)
  {
    var s1 :=
      if s.status == Pending then
        var a := Connect(s, link, connectNow, local);
        a.after.(status := if a.ok then Connected else Disconnected)
      else s;
    if s1.status == Connected then ConnectedPoll(s1, now) else s1
  }

  // ---------------------------------------------------------------------
  // Runs of polls

  /** The inputs of one tick: the radio's answers and the three clock readings it takes. */
  datatype Tick = Tick(link: Link, connectNow: int, local: LocalTime, now: int)

  function Run(s: SessionState, ticks: seq<Tick>): SessionState
    decreases |ticks|
  {
    if ticks == [] then s
    else Run(Poll(s, ticks[0].link, ticks[0].connectNow, ticks[0].local, ticks[0].now), ticks[1..])
  }

  /** Disconnected and faulted sessions are fixed points of any run of polls. */
  lemma {:induction false} RunFromIdle(s: SessionState, ticks: seq<Tick>)
    requires s.status == Disconnected || s.status == Error
    ensures Run(s, ticks) == s
    decreases |ticks|
  {
    if ticks != [] {
      RunFromIdle(s, ticks[1..]);
    }
  }

  /** Every tick of the run finds the last frame no older than the timeout. */
  ghost predicate Fresh(s: SessionState, ticks: seq<Tick>) {
    forall i :: 0 <= i < |ticks| ==> ticks[i].now <= s.notifyTime + s.timeoutInterval
  }

  /** Every tick of the run finds the last frame older than the timeout. */
  ghost predicate Stale(s: SessionState, ticks: seq<Tick>) {
    forall i :: 0 <= i < |ticks| ==> ticks[i].now > s.notifyTime + s.timeoutInterval
  }

  /** `n` copies of the request frame. */
  function Requests(n: nat): (w: seq<seq<Byte>>)
    ensures |w| == n
    ensures forall i :: 0 <= i < n ==> w[i] == REQUEST_FRAME
  {
    if n == 0 then [] else Requests(n - 1) + [REQUEST_FRAME]
  }

  lemma RequestsAdd(m: nat, n: nat)
    ensures Requests(m) + Requests(n) == Requests(m + n)
  {
  }

  lemma ModStep(c: int, m: int)
    requires m > 0 && 0 <= c < m
    ensures c + 1 == m ==> (c + 1) / m == 1 && (c + 1) % m == 0
    ensures c + 1 < m ==> (c + 1) / m == 0 && (c + 1) % m == c + 1
  {
  }

  lemma DivStep(c: int, k: int, m: int)
    requires m > 0 && 0 <= c < m && k >= 1
    ensures (c + 1) / m + ((c + 1) % m + k - 1) / m == (c + k) / m
    ensures ((c + 1) % m + k - 1) % m == (c + k) % m
  {
    ModStep(c, m);
    if c + 1 == m {
      assert c + k == (k - 1) + m;
      DivShift(k - 1, m);
    }
  }

  lemma DivShift(x: int, m: int)
    requires m > 0 && x >= 0
    ensures (x + m) / m == x / m + 1 && (x + m) % m == x % m
  {
    var q, r := x / m, x % m;
    var q', r' := (x + m) / m, (x + m) % m;
    assert x == q * m + r && 0 <= r < m;
    assert x + m == q' * m + r' && 0 <= r' < m;
    var d := q + 1 - q';
    assert d * m == r' - r by {
      assert (q + 1) * m + r == q' * m + r';
    }
  }

  /**
    Until its counter passes the interval a connected session stays
    connected whatever the clock says: its counter just counts the polls
    and nothing is written, so the timeout is never checked before the
    first overflow poll.
   */
  lemma {:induction false} RunBeforeOverflow(s: SessionState, ticks: seq<Tick>)
    requires Inv(s) && s.status == Connected
    requires |ticks| <= s.notificationInterval - s.notifyRequest
    ensures Run(s, ticks).status == Connected
    ensures Run(s, ticks).notifyRequest == s.notifyRequest + |ticks|
    ensures Run(s, ticks).writes == s.writes
    decreases |ticks|
  {
    if ticks != [] {
      var t := ticks[0];
      RunBeforeOverflow(Poll(s, t.link, t.connectNow, t.local, t.now), ticks[1..]);
    }
  }

  /** One poll of a connected session that finds its last frame fresh. */
  lemma FreshStep(s: SessionState, t: Tick)
    requires Inv(s) && s.status == Connected && t.now <= s.notifyTime + s.timeoutInterval
    ensures var s1 := Poll(s, t.link, t.connectNow, t.local, t.now);
      && Inv(s1) && s1.status == Connected
      && s1.notifyTime == s.notifyTime
      && s1.notificationInterval == s.notificationInterval
      && s1.timeoutInterval == s.timeoutInterval
      && s1.notifyRequest == (s.notifyRequest + 1) % (s.notificationInterval + 1)
      && s1.writes == s.writes + Requests((s.notifyRequest + 1) / (s.notificationInterval + 1))
  {
  }

  /** Counting one poll and then k - 1 more is counting k polls. */
  lemma CountStep(c: int, k: int, m: int)
    requires m > 0 && 0 <= c < m && k >= 1
    ensures ((c + 1) % m + k - 1) % m == (c + k) % m
    ensures Requests((c + 1) / m) + Requests(((c + 1) % m + k - 1) / m) == Requests((c + k) / m)
  {
    DivStep(c, k, m);
    RequestsAdd((c + 1) / m, ((c + 1) % m + k - 1) / m);
  }

  lemma FreshTail(s: SessionState, s1: SessionState, ticks: seq<Tick>)
    requires Fresh(s, ticks) && ticks != []
    requires s1.notifyTime == s.notifyTime && s1.timeoutInterval == s.timeoutInterval
    ensures Fresh(s1, ticks[1..])
  {
  }

  /**
    While every frame is fresh a connected session stays connected, its
    counter is the number of polls so far modulo notificationInterval + 1,
    and one request frame has been written for each completed interval.
   */
  lemma {:induction false} RunWhileFresh(s: SessionState, ticks: seq<Tick>)
    requires Inv(s) && s.status == Connected && Fresh(s, ticks)
    ensures Run(s, ticks).status == Connected
    ensures Run(s, ticks).notifyTime == s.notifyTime
    ensures Run(s, ticks).notifyRequest == (s.notifyRequest + |ticks|) % (s.notificationInterval + 1)
    ensures Run(s, ticks).writes == s.writes + Requests((s.notifyRequest + |ticks|) / (s.notificationInterval + 1))
    decreases |ticks|
  {
    var m, c, k := s.notificationInterval + 1, s.notifyRequest, |ticks|;
    if ticks == [] {
      assert c % m == c && c / m == 0;
    } else {
      var t := ticks[0];
      var s1 := Poll(s, t.link, t.connectNow, t.local, t.now);
      FreshStep(s, t);
      FreshTail(s, s1, ticks);
      RunWhileFresh(s1, ticks[1..]);
      CountStep(c, k, m);
    }
  }

  /**
    Once frames have stopped for longer than the timeout, a connected
    session faults by the first poll on which its counter passes the
    interval, at most notificationInterval + 1 polls later, and stays
    faulted.
   */
  lemma {:induction false} RunWhileStale(s: SessionState, ticks: seq<Tick>)
    requires Inv(s) && s.status == Connected && Stale(s, ticks)
    requires |ticks| > s.notificationInterval - s.notifyRequest
    ensures Run(s, ticks).status == Error
    decreases |ticks|
  {
    var t := ticks[0];
    var s1 := Poll(s, t.link, t.connectNow, t.local, t.now);
    assert t.now > s.notifyTime + s.timeoutInterval;
    if Overflows(s) {
      RunFromIdle(s1, ticks[1..]);
    } else {
      assert Stale(s1, ticks[1..]) by {
        forall i | 0 <= i < |ticks[1..]| ensures ticks[1..][i].now > s1.notifyTime + s1.timeoutInterval {
          assert ticks[1..][i] == ticks[i + 1];
        }
      }
      RunWhileStale(s1, ticks[1..]);
    }
  }

}
